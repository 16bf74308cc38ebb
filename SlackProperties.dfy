/** What the Slack webhook handler promises, stated over `Slack.Step`, the
    specification that `SlackHandler.Handle` is proved to follow. */
module SlackProperties {

  import opened Js
  import opened Encoding
  import opened Mention
  import opened Slack

  /** The number of replies posted among some effects. */
  function CountReplies(effects: seq<Effect>): nat {
    if effects == [] then 0
    else (if effects[0].Reply? then 1 else 0) + CountReplies(effects[1..])
  }

  lemma {:induction false} CountRepliesAppend(a: seq<Effect>, b: seq<Effect>)
    ensures CountReplies(a + b) == CountReplies(a) + CountReplies(b)
  {
    if a == [] {
      assert a + b == b;
    } else {
      assert (a + b)[1..] == a[1..] + b;
      CountRepliesAppend(a[1..], b);
    }
  }

  /** Some effect is a mapping PATCH (sent; whether it was stored is not known). */
  predicate PatchesMapping(effects: seq<Effect>) {
    exists k :: 0 <= k < |effects| && effects[k].PatchMapping?
  }

  // ---------------------------------------------------------------------------
  // The order of the checks

  /** A request that is not a POST gets 405, and nothing is read, recorded or posted. */
  lemma NonPostRejected(seen: set<Option<string>>, req: Request, config: Config, world: World)
    requires !IsPost(req)
    ensures Step(seen, req, config, world) == Transition(Respond(405, Some(MethodNotAllowed)), seen, [])
  {
  }

  /** A handshake is answered with its challenge, verbatim, before the retry
      header and the signature are looked at: whatever the headers, the signed
      body text and the configuration, the answer is the same. */
  lemma HandshakeBeforeSignature(
    seen: set<Option<string>>, req: Request, config: Config, world: World,
    headers: Headers, json: string, config': Config, world': World)
    requires IsPost(req) && IsHandshake(req.body)
    ensures Step(seen, req, config, world) == Transition(Respond(200, req.body.value.challenge), seen, [])
    ensures Step(seen, req.(headers := headers, json := json), config', world') == Step(seen, req, config, world)
  {
  }

  /** A redelivery (truthy `x-slack-retry-num`) gets an empty 200 before its
      signature is checked, with no effect and the seen set unchanged. */
  lemma RetrySkippedBeforeSignature(
    seen: set<Option<string>>, req: Request, config: Config, world: World)
    requires IsPost(req) && !IsHandshake(req.body) && IsRetry(req.headers)
    ensures Step(seen, req, config, world) == Transition(Respond(200, None), seen, [])
  {
  }

  /** The signature check accepts exactly the signature Slack computes:
      "v0=" followed by the hexadecimal HMAC-SHA256 of `v0:<timestamp>:<body>`.
      A signature of the same UTF-8 length that differs is forged (403);
      one of another length makes `timingSafeEqual` throw. */
  lemma SignatureOutcomes(config: Config, headers: Headers, json: string)
    requires config.signingSecret.Some? && headers.signature.Some?
    ensures var expected := ExpectedSignature(config.hmac, config.signingSecret.value,
                                              BaseString(headers.timestamp, json));
      && (CheckSignature(config, headers, json) == Authentic <==> headers.signature.value == expected)
      && (CheckSignature(config, headers, json) == Forged <==>
            |Utf8(headers.signature.value)| == 67 && headers.signature.value != expected)
      && (CheckSignature(config, headers, json) == CheckThrew(SignatureLengthMismatch) <==>
            |Utf8(headers.signature.value)| != 67)
  {
    var expected := ExpectedSignature(config.hmac, config.signingSecret.value,
                                      BaseString(headers.timestamp, json));
    Utf8OfAscii(expected);
    Utf8MatchesAscii(headers.signature.value, expected);
  }

  /** A missing signing secret or signature header makes the check throw. */
  lemma SignatureInputsMissing(config: Config, headers: Headers, json: string)
    requires config.signingSecret.None? || headers.signature.None?
    ensures CheckSignature(config, headers, json).CheckThrew?
  {
  }

  /** A request past the method, handshake and retry checks that does not
      carry the expected signature is turned away with no effect. */
  lemma UnsignedRequestsHaveNoEffect(
    seen: set<Option<string>>, req: Request, config: Config, world: World)
    requires IsPost(req) && !IsHandshake(req.body) && !IsRetry(req.headers)
    requires CheckSignature(config, req.headers, req.json) != Authentic
    ensures var t := Step(seen, req, config, world);
      t.seen == seen && t.effects == [] &&
      (CheckSignature(config, req.headers, req.json) == Forged ==> t.outcome == Respond(403, Some(InvalidSignature))) &&
      (CheckSignature(config, req.headers, req.json).CheckThrew? ==> t.outcome.Thrown?)
  {
  }

  /** An authentic request whose event is missing, is not an `app_mention` or
      comes from a bot gets an empty 200 and is not recorded as seen. */
  lemma FilteredEventsNotRecorded(
    seen: set<Option<string>>, req: Request, config: Config, world: World)
    requires IsPost(req) && !IsHandshake(req.body) && !IsRetry(req.headers)
    requires CheckSignature(config, req.headers, req.json) == Authentic
    requires req.body.Some? && !IsActionable(req.body.value.event)
    ensures Step(seen, req, config, world) == Transition(Respond(200, None), seen, [])
  {
  }

  // ---------------------------------------------------------------------------
  // Deduplication

  /** An event id already seen gets an empty 200, with no effect. */
  lemma DuplicateIgnored(seen: set<Option<string>>, req: Request, config: Config, world: World)
    requires Screen(req, config).Accepted? && Screen(req, config).eventId in seen
    ensures Step(seen, req, config, world) == Transition(Respond(200, None), seen, [])
  {
  }

  /** The seen set only ever grows by the id of an accepted new event, and
      there is an effect only when it has: every effect comes after the claim. */
  lemma ClaimPrecedesEffects(seen: set<Option<string>>, req: Request, config: Config, world: World)
    ensures var t := Step(seen, req, config, world);
      && (t.seen == seen || (Screen(req, config).Accepted? && Screen(req, config).eventId !in seen &&
                             t.seen == seen + {Screen(req, config).eventId}))
      && (t.effects != [] ==> t.seen != seen)
  {
    var t := Step(seen, req, config, world);
    if Screen(req, config).Accepted? && Screen(req, config).eventId !in seen {
      assert Screen(req, config).eventId in t.seen;
    }
  }

  /** Delivering the same request again has no effect and records nothing
      new, whatever the collaborators answer: across both deliveries at most
      one reply is posted. */
  lemma RedeliveryHasNoEffect(
    seen: set<Option<string>>, req: Request, config: Config, first: World, second: World)
    ensures var t1 := Step(seen, req, config, first);
      var t2 := Step(t1.seen, req, config, second);
      t2.effects == [] && t2.seen == t1.seen && CountReplies(t1.effects + t2.effects) <= 1
  {
    var t1 := Step(seen, req, config, first);
    var t2 := Step(t1.seen, req, config, second);
    if Screen(req, config).Accepted? {
      var event := Screen(req, config).event;
      if Screen(req, config).eventId !in seen {
        assert Screen(req, config).eventId in t1.seen;
        ConverseRepliesAtMostOnce(event, first);
      }
    }
    assert t2.effects == [];
    assert t1.effects + t2.effects == t1.effects;
  }

  // ---------------------------------------------------------------------------
  // The work on an accepted event

  /** An event is answered in the thread it came from: the ping, then the
      question, then the reply, and exactly one reply. */
  lemma {:induction false} DialogueShape(
    channel: Option<string>, threadKey: Option<string>, mapKey: string,
    existing: Option<string>, userText: string, world: World)
    ensures var d := Dialogue(channel, threadKey, mapKey, existing, userText, world);
      && 3 <= |d| <= 4
      && d[0] == Ping(channel, threadKey)
      && d[1] == Ask(userText, existing)
      && d[|d| - 1].Reply? && d[|d| - 1].channel == channel && d[|d| - 1].threadTs == threadKey
      && CountReplies(d) == 1
  {
    var d := Dialogue(channel, threadKey, mapKey, existing, userText, world);
    var answer := AssistantAnswer(existing, world.assistant);
    var persist :=
      if answer.Some? && ShouldPersist(existing, answer.value.1)
      then [PatchMapping(mapKey, answer.value.1.value)] else [];
    var reply := d[|d| - 1];
    assert d == [Ping(channel, threadKey), Ask(userText, existing)] + persist + [reply];
    CountRepliesAppend([Ping(channel, threadKey), Ask(userText, existing)] + persist, [reply]);
    CountRepliesAppend([Ping(channel, threadKey), Ask(userText, existing)], persist);
    assert CountReplies([reply]) == 1;
  }

  /** The reply posted: the assistant's reply, or its own fallback when it
      caught a failure, or the handler's fallback when the assistant call, or
      the PATCH for a new mapping, threw. */
  lemma DialogueReply(
    channel: Option<string>, threadKey: Option<string>, mapKey: string,
    existing: Option<string>, userText: string, world: World)
    ensures var d := Dialogue(channel, threadKey, mapKey, existing, userText, world);
      && (world.assistant.AssistantThrew? ==> d[|d| - 1].text == Fallback)
      && (world.assistant.Errored? ==> d[|d| - 1].text == AssistantFallback)
      && (world.assistant.Completed? ==>
            d[|d| - 1].text == (if PatchesMapping(d) && world.persistThrows then Fallback else world.assistant.reply))
  {
    var d := Dialogue(channel, threadKey, mapKey, existing, userText, world);
    var answer := AssistantAnswer(existing, world.assistant);
    if answer.Some? && ShouldPersist(existing, answer.value.1) {
      assert |d| == 4 && d[2].PatchMapping?;
    } else {
      assert |d| == 3;
      assert !PatchesMapping(d);
    }
  }

  /** A mapping PATCH is sent exactly when none was found and the assistant
      reports a thread id: that is, when its run completed on a new thread
      with a non-empty id. What it sends is that id, under the map key. */
  lemma PatchOnlyOnFirstTurn(
    channel: Option<string>, threadKey: Option<string>, mapKey: string,
    existing: Option<string>, userText: string, world: World)
    ensures var d := Dialogue(channel, threadKey, mapKey, existing, userText, world);
      && (PatchesMapping(d) <==>
            !Truthy(existing) && world.assistant.Completed? && world.assistant.createdThread != "")
      && (PatchesMapping(d) ==> d[2] == PatchMapping(mapKey, world.assistant.createdThread))
  {
    var d := Dialogue(channel, threadKey, mapKey, existing, userText, world);
    if !Truthy(existing) && world.assistant.Completed? && world.assistant.createdThread != "" {
      assert d[2].PatchMapping?;
    }
  }

  /** Once a thread's mapping is stored, the next event of that thread asks the
      assistant on the stored thread and sends no PATCH. */
  lemma MappingReused(
    channel: Option<string>, threadKey: Option<string>, mapKey: string,
    stored: string, userText: string, world: World)
    requires stored != ""
    ensures var d := Dialogue(channel, threadKey, mapKey, Some(stored), userText, world);
      d[1] == Ask(userText, Some(stored)) && !PatchesMapping(d)
  {
    PatchOnlyOnFirstTurn(channel, threadKey, mapKey, Some(stored), userText, world);
  }

  /** After the claim: either a 200 "OK" with the full dialogue, or an
      exception (failing lookup, missing text) right after reading the
      mapping, with nothing posted. */
  lemma ConverseOutcomes(event: Event, world: World)
    ensures var (outcome, effects) := Converse(event, world);
      && |effects| >= 1 && effects[0] == ReadMapping(MapKey(ThreadKey(event)))
      && (outcome.Thrown? <==> world.lookup.LookupThrew? || event.text.None?)
      && (outcome.Thrown? ==> effects == [ReadMapping(MapKey(ThreadKey(event)))])
      && (!outcome.Thrown? ==>
            && outcome == Respond(200, Some(Ok))
            && effects[1..] == Dialogue(event.channel, ThreadKey(event), MapKey(ThreadKey(event)),
                                        world.lookup.existing, UserText(event.text.value), world))
  {
    var (outcome, effects) := Converse(event, world);
    if !outcome.Thrown? {
      assert effects[1..] == Dialogue(event.channel, ThreadKey(event), MapKey(ThreadKey(event)),
                                      world.lookup.existing, UserText(event.text.value), world);
    }
  }

  /** After the claim at most one reply is posted, and one exactly when the
      call ends in 200 "OK"; otherwise the call ends in an exception. */
  lemma ConverseRepliesAtMostOnce(event: Event, world: World)
    ensures var (outcome, effects) := Converse(event, world);
      && (outcome == Respond(200, Some(Ok)) || outcome.Thrown?)
      && CountReplies(effects) <= 1
      && (outcome == Respond(200, Some(Ok)) <==> CountReplies(effects) == 1)
  {
    var effects := Converse(event, world).1;
    if world.lookup.LookupThrew? || event.text.None? {
      assert CountReplies(effects) == 0;
    } else {
      var d := Dialogue(event.channel, ThreadKey(event), MapKey(ThreadKey(event)),
                        world.lookup.existing, UserText(event.text.value), world);
      DialogueShape(event.channel, ThreadKey(event), MapKey(ThreadKey(event)),
                    world.lookup.existing, UserText(event.text.value), world);
      CountRepliesAppend([effects[0]], d);
      assert effects == [effects[0]] + d;
    }
  }

  /** A new accepted event is recorded as seen before anything else, and the
      record stays even when the work after it throws. */
  lemma AcceptedEventClaimed(seen: set<Option<string>>, req: Request, config: Config, world: World)
    requires Screen(req, config).Accepted? && Screen(req, config).eventId !in seen
    ensures var t := Step(seen, req, config, world);
      && t.seen == seen + {Screen(req, config).eventId}
      && (t.outcome == Respond(200, Some(Ok)) || t.outcome.Thrown?)
      && (t.outcome == Respond(200, Some(Ok)) <==> CountReplies(t.effects) == 1)
  {
    var event := Screen(req, config).event;
    assert Step(seen, req, config, world) ==
      Transition(Converse(event, world).0, seen + {Screen(req, config).eventId}, Converse(event, world).1);
    ConverseRepliesAtMostOnce(event, world);
  }

  /** Two thread stamps share a map key exactly when they interpolate to the
      same text (a missing stamp and the text "undefined" do). */
  lemma MapKeyInjective(a: Option<string>, b: Option<string>)
    ensures MapKey(a) == MapKey(b) <==> Interpolate(a) == Interpolate(b)
  {
    if MapKey(a) == MapKey(b) {
      assert MapKey(a)[|MapKeyPrefix|..] == Interpolate(a);
      assert MapKey(b)[|MapKeyPrefix|..] == Interpolate(b);
    }
  }
}
