/** The Slack Events webhook of api/slack.js.

    A request passes an ordered series of checks: the HTTP method, the
    `url_verification` handshake, the retry header, the request signature, the
    event filter and deduplication against the set of event ids seen so far.
    An accepted event is then answered in a fixed sequence of effects: read the
    thread mapping, ping the thread, ask the assistant, send a PATCH for a new mapping
    on the first turn of a thread, post the reply.

    `Step` is the pure specification of one call; `SlackHandler.Handle` is the
    handler itself, updating the seen-event set in place and appending its
    effects to a trace. Network collaborators (Slack, Edge Config, the
    assistant) are inputs, gathered in `World`. */
module Slack {

  import opened Js
  import opened JsString
  import opened Encoding
  import opened Mention

  // ---------------------------------------------------------------------------
  // Requests, configuration and collaborators

  /** The headers the handler reads: `x-slack-retry-num`,
      `x-slack-signature` and `x-slack-request-timestamp`. */
  datatype Headers = Headers(retryNum: Option<string>, signature: Option<string>, timestamp: Option<string>)

  /** The fields of `req.body.event` the handler reads. */
  datatype Event = Event(
    eventType: Option<string>, botId: Option<string>, channel: Option<string>,
    ts: Option<string>, threadTs: Option<string>, text: Option<string>)

  /** The fields of the parsed request body the handler reads. */
  datatype Body = Body(bodyType: Option<string>, challenge: Option<string>, eventId: Option<string>, event: Option<Event>)

  /** A request: its method, headers and parsed body (`None` when there is no
      body), and `json`, the text `JSON.stringify(req.body)` gives, over which
      the signature is computed. */
  datatype Request = Request(httpMethod: string, headers: Headers, body: Option<Body>, json: string)

  /** An HMAC-SHA256 digest (RFC 2104 over SHA-256) is 32 bytes long. */
  type Digest = d: seq<byte> | |d| == 32 witness seq(32, _ => 0 as byte)

  /** The signing secret from the environment (`None` when unset), and the
      HMAC-SHA256 primitive, left uninterpreted: `hmac(key, message)`. */
  datatype Config = Config(signingSecret: Option<string>, hmac: (string, string) -> Digest)

  /** What the Edge Config `get(mapKey)` call gives: the stored thread id, if
      any, or an exception. */
  datatype Lookup = Stored(existing: Option<string>) | LookupThrew

  /** How `getAssistantResponse` ends: a run that completed, with the reply and
      the id of the thread it created (used only when no thread was passed in);
      a failure it catches itself; or an exception it lets through. */
  datatype AssistantRun = Completed(reply: string, createdThread: string) | Errored | AssistantThrew

  /** The results the network collaborators give during one call. Failures of
      the two `chat.postMessage` calls are caught and only logged, so they are
      not inputs; a failure of the mapping PATCH is (`persistThrows`). */
  datatype World = World(lookup: Lookup, assistant: AssistantRun, persistThrows: bool)

  /** Why a call ended in an exception that the handler does not catch. */
  datatype Fault =
    | NoSigningSecret          // createHmac with an undefined key
    | NoSignatureHeader        // Buffer.from(undefined)
    | SignatureLengthMismatch  // timingSafeEqual on buffers of different lengths
    | NoBody                   // req.body.event with no body
    | LookupFailed             // Edge Config get threw
    | NoText                   // event.text.replace with no text

  /** The HTTP response sent, or the uncaught exception. `body == None` is
      `res.status(..).end()` (an empty body). */
  datatype Outcome = Respond(status: int, body: Option<string>) | Thrown(fault: Fault)

  /** The externally visible effects of an accepted event, in the order made. */
  datatype Effect =
    | ReadMapping(key: string)                                          // Edge Config get
    | Ping(channel: Option<string>, threadTs: Option<string>)            // "I'm on it!" post
    | Ask(text: string, existingThread: Option<string>)                  // getAssistantResponse
    | PatchMapping(key: string, threadId: string)                        // Edge Config PATCH (sent)
    | Reply(channel: Option<string>, threadTs: Option<string>, text: string) // final post

  const MethodNotAllowed := "Method Not Allowed"
  const InvalidSignature := "Invalid signature"
  const Ok := "OK"
  /** The reply the handler posts when the assistant block throws. */
  const Fallback := "Sorry, something went wrong getting your idea."
  /** The reply `getAssistantResponse` returns when it catches its own failure. */
  const AssistantFallback := "Sorry, something went wrong getting your campaign idea."
  const MapKeyPrefix := "openAIThread:"

  // ---------------------------------------------------------------------------
  // The checks, in the order the handler applies them

  predicate IsPost(req: Request) {
    req.httpMethod == "POST"
  }

  /** `req.body?.type === 'url_verification'`. */
  predicate IsHandshake(body: Option<Body>) {
    body.Some? && body.value.bodyType == Some("url_verification")
  }

  /** A truthy `x-slack-retry-num` header marks a redelivery by Slack. */
  predicate IsRetry(headers: Headers) {
    Truthy(headers.retryNum)
  }

  /** The signed text `v0:<timestamp>:<body>`; a missing timestamp header is
      interpolated as "undefined". */
  function BaseString(timestamp: Option<string>, json: string): string {
    "v0:" + Interpolate(timestamp) + ":" + json
  }

  /** The signature Slack sends: "v0=" and the hexadecimal HMAC-SHA256 of the
      signed text under the signing secret. It is ASCII and 67 characters long. */
  function ExpectedSignature(hmac: (string, string) -> Digest, secret: string, base: string): (r: string)
    ensures IsAscii(r) && |r| == 67
  {
    var r := "v0=" + Hex(hmac(secret, base));
    assert forall k :: 3 <= k < |r| ==> r[k] == Hex(hmac(secret, base))[k - 3];
    r
  }

  datatype SignatureCheck = Authentic | Forged | CheckThrew(fault: Fault)

  /** The signature check: `timingSafeEqual(Buffer.from(expected), Buffer.from(sig))`,
      which compares UTF-8 bytes and throws when their lengths differ. */
  function CheckSignature(config: Config, headers: Headers, json: string): SignatureCheck {
    if config.signingSecret.None? then CheckThrew(NoSigningSecret)
    else
      var expected := ExpectedSignature(config.hmac, config.signingSecret.value, BaseString(headers.timestamp, json));
      if headers.signature.None? then CheckThrew(NoSignatureHeader)
      else
        var given := Utf8(headers.signature.value);
        if |Utf8(expected)| != |given| then CheckThrew(SignatureLengthMismatch)
        else if Utf8(expected) == given then Authentic
        else Forged
  }

  /** `!event || event.type !== 'app_mention' || event.bot_id` fails. */
  predicate IsActionable(event: Option<Event>) {
    event.Some? && event.value.eventType == Some("app_mention") && !Truthy(event.value.botId)
  }

  /** The Slack thread an event belongs to: `event.thread_ts || event.ts`. */
  function ThreadKey(event: Event): (r: Option<string>)
    ensures Truthy(event.threadTs) ==> r == event.threadTs
    ensures !Truthy(event.threadTs) ==> r == event.ts
  {
    Or(event.threadTs, event.ts)
  }

  /** The Edge Config key under which the assistant thread of a Slack thread is kept. */
  function MapKey(threadKey: Option<string>): string {
    MapKeyPrefix + Interpolate(threadKey)
  }

  // ---------------------------------------------------------------------------
  // The specification of one call

  /** Where the checks before deduplication leave a request. */
  datatype Verdict =
    | NotAllowed
    | Handshake(challenge: Option<string>)
    | RetrySkipped
    | SignatureThrew(fault: Fault)
    | Unauthentic
    | BodyMissing
    | Ignored
    | Accepted(eventId: Option<string>, event: Event)

  /** The checks that precede deduplication, in the handler's order. */
  function Screen(req: Request, config: Config): Verdict {
    if !IsPost(req) then NotAllowed
    else if IsHandshake(req.body) then Handshake(req.body.value.challenge)
    else if IsRetry(req.headers) then RetrySkipped
    else
      match CheckSignature(config, req.headers, req.json)
      case CheckThrew(f) => SignatureThrew(f)
      case Forged => Unauthentic
      case Authentic =>
        if req.body.None? then BodyMissing
        else if !IsActionable(req.body.value.event) then Ignored
        else Accepted(req.body.value.eventId, req.body.value.event.value)
  }

  /** The contract of `getAssistantResponse(text, existing)`: the reply and the
      thread id it reports, or `None` when it throws. It reuses a truthy
      `existing` thread and otherwise creates one; when it catches its own
      failure it reports its fallback reply and `existing` unchanged. */
  function AssistantAnswer(existing: Option<string>, run: AssistantRun): (r: Option<(string, Option<string>)>)
    ensures r.None? <==> run.AssistantThrew?
    ensures r.Some? && Truthy(existing) ==> r.value.1 == existing
    ensures r.Some? && !Truthy(existing) && Truthy(r.value.1) ==> run.Completed?
  {
    match run
    case Completed(reply, created) => Some((reply, if Truthy(existing) then existing else Some(created)))
    case Errored => Some((AssistantFallback, existing))
    case AssistantThrew => None
  }

  /** The persist condition `!existingThread && threadId`. */
  predicate ShouldPersist(existing: Option<string>, threadId: Option<string>) {
    !Truthy(existing) && Truthy(threadId)
  }

  datatype Transition = Transition(outcome: Outcome, seen: set<Option<string>>, effects: seq<Effect>)

  /** What happens after an event has been claimed: the mapping is read, then
      the rest of the work follows. */
  function Converse(event: Event, world: World): (Outcome, seq<Effect>) {
    var rest := AfterLookup(event, world);
    (rest.0, [ReadMapping(MapKey(ThreadKey(event)))] + rest.1)
  }

  /** The outcome and the effects once the mapping has been read: an exception
      when the read failed or the event has no text, and otherwise the
      dialogue with the user's text, then "OK". */
  function AfterLookup(event: Event, world: World): (Outcome, seq<Effect>) {
    if world.lookup.LookupThrew? then (Thrown(LookupFailed), [])
    else if event.text.None? then (Thrown(NoText), [])
    else
      var threadKey := ThreadKey(event);
      (Respond(200, Some(Ok)),
       Dialogue(event.channel, threadKey, MapKey(threadKey), world.lookup.existing,
                UserText(event.text.value), world))
  }

  /** The effects once the mapping has been read and the user's text extracted:
      the ping, the question to the assistant, the mapping PATCH sent on the
      first turn of a thread, and the reply. */
  function Dialogue(
    channel: Option<string>, threadKey: Option<string>, mapKey: string,
    existing: Option<string>, userText: string, world: World): seq<Effect>
  {
    var answer := AssistantAnswer(existing, world.assistant);
    var persist :=
      if answer.Some? && ShouldPersist(existing, answer.value.1)
      then [PatchMapping(mapKey, answer.value.1.value)] else [];
    var reply :=
      if answer.None? || (persist != [] && world.persistThrows) then Fallback else answer.value.0;
    [Ping(channel, threadKey), Ask(userText, existing)] + persist + [Reply(channel, threadKey, reply)]
  }

  /** One call of the handler, given the ids seen before it. */
  function Step(seen: set<Option<string>>, req: Request, config: Config, world: World): Transition {
    match Screen(req, config)
    case NotAllowed => Transition(Respond(405, Some(MethodNotAllowed)), seen, [])
    case Handshake(challenge) => Transition(Respond(200, challenge), seen, [])
    case RetrySkipped => Transition(Respond(200, None), seen, [])
    case SignatureThrew(f) => Transition(Thrown(f), seen, [])
    case Unauthentic => Transition(Respond(403, Some(InvalidSignature)), seen, [])
    case BodyMissing => Transition(Thrown(NoBody), seen, [])
    case Ignored => Transition(Respond(200, None), seen, [])
    case Accepted(eventId, event) =>
      if eventId in seen then Transition(Respond(200, None), seen, [])
      else
        var (outcome, effects) := Converse(event, world);
        Transition(outcome, seen + {eventId}, effects)
  }

  // ---------------------------------------------------------------------------
  // The handler

  lemma AppendAssociative<T>(a: seq<T>, b: seq<T>, c: seq<T>)
    ensures (a + b) + c == a + (b + c)
  {
  }

  /** The module instance of api/slack.js: its configuration, the module-level
      `seenEvents` set, and the trace of effects made so far. */
  class SlackHandler {
    const config: Config
    var seenEvents: set<Option<string>>
    var trace: seq<Effect>

    constructor (config: Config)
      ensures this.config == config && seenEvents == {} && trace == []
    {
      this.config := config;
      seenEvents := {};
      trace := [];
    }

    /** Handles one request; the collaborators answer as `world` says. */
    method Handle(req: Request, world: World) returns (outcome: Outcome)
      modifies this
      ensures var t := Step(old(seenEvents), req, config, world);
        outcome == t.outcome && seenEvents == t.seen && trace == old(trace) + t.effects
    {
      if req.httpMethod != "POST" {
        return Respond(405, Some(MethodNotAllowed));
      }
      if IsHandshake(req.body) {
        return Respond(200, req.body.value.challenge);
      }
      if IsRetry(req.headers) {
        return Respond(200, None);
      }
      var check := CheckSignature(config, req.headers, req.json);
      if check.CheckThrew? {
        assert Screen(req, config) == SignatureThrew(check.fault);
        return Thrown(check.fault);
      }
      if check.Forged? {
        assert Screen(req, config) == Unauthentic;
        return Respond(403, Some(InvalidSignature));
      }
      if req.body.None? {
        assert Screen(req, config) == BodyMissing;
        return Thrown(NoBody);
      }
      var event := req.body.value.event;
      if !IsActionable(event) {
        assert Screen(req, config) == Ignored;
        return Respond(200, None);
      }
      var eventId := req.body.value.eventId;
      assert Screen(req, config) == Accepted(eventId, event.value);
      if eventId in seenEvents {
        return Respond(200, None);
      }
      seenEvents := seenEvents + {eventId};
      outcome := Answer(event.value, world);
    }

    /** The work on a claimed event: read the assistant thread of its Slack
        thread, then go on. */
    method Answer(event: Event, world: World) returns (outcome: Outcome)
      modifies this`trace
      ensures outcome == Converse(event, world).0
      ensures trace == old(trace) + Converse(event, world).1
    {
      var read := [ReadMapping(MapKey(ThreadKey(event)))];
      trace := trace + read;
      outcome := Continue(event, world);
      ghost var rest := AfterLookup(event, world);
      AppendAssociative(old(trace), read, rest.1);
    }

    /** After the mapping read: give up if the read threw or there is no text,
        otherwise extract the user's text and converse. */
    method Continue(event: Event, world: World) returns (outcome: Outcome)
      modifies this`trace
      ensures outcome == AfterLookup(event, world).0
      ensures trace == old(trace) + AfterLookup(event, world).1
    {
      if world.lookup.LookupThrew? {
        return Thrown(LookupFailed);
      }
      var existing := world.lookup.existing;
      if event.text.None? {
        return Thrown(NoText);
      }
      var channel := event.channel;
      var slackTs := ThreadKey(event);
      var userText := UserText(event.text.value);
      Exchange(channel, slackTs, MapKey(slackTs), existing, userText, world);
      return Respond(200, Some(Ok));
    }

    /** Ping the thread, ask the assistant, send the mapping PATCH on the first
        turn of a thread (a failing PATCH turns the reply into the fallback),
        post the reply. */
    method Exchange(
      channel: Option<string>, slackTs: Option<string>, mapKey: string,
      existing: Option<string>, userText: string, world: World)
      modifies this`trace
      ensures trace == old(trace) + Dialogue(channel, slackTs, mapKey, existing, userText, world)
    {
      ghost var made: seq<Effect> := [Ping(channel, slackTs), Ask(userText, existing)];
      trace := trace + [Ping(channel, slackTs)];
      var aiReply: string;
      trace := trace + [Ask(userText, existing)];
      var answer := AssistantAnswer(existing, world.assistant);
      if answer.None? {
        aiReply := Fallback;
      } else {
        var threadId;
        aiReply, threadId := answer.value.0, answer.value.1;
        if ShouldPersist(existing, threadId) {
          trace := trace + [PatchMapping(mapKey, threadId.value)];
          made := made + [PatchMapping(mapKey, threadId.value)];
          if world.persistThrows {
            aiReply := Fallback;
          }
        }
      }
      trace := trace + [Reply(channel, slackTs, aiReply)];
      made := made + [Reply(channel, slackTs, aiReply)];
      assert trace == old(trace) + made;
    }
  }
}
