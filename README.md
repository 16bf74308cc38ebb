# Slack campaign-idea bot: webhook handler and event ledger

This project models two pieces of the bot.

**The Slack Events webhook** (`api/slack.js`). Slack posts an event when someone mentions the bot. The handler does its checks in this order:

1. It rejects anything that is not a POST (405).
2. It answers the `url_verification` handshake with its challenge.
3. It skips Slack's redeliveries. These are marked by the `x-slack-retry-num` header.
4. It checks the `v0` request signature (HMAC-SHA256 of `v0:<timestamp>:<body>` under the signing secret). It compares with `timingSafeEqual`, which throws on a length mismatch.
5. It drops events that are missing, are not `app_mention`, or come from a bot.
6. It drops event ids that this process has already seen.

It then records the event id in the module-level `seenEvents` set. After that it:

1. reads the assistant thread mapped to the Slack thread (key `openAIThread:<thread_ts || ts>`) from Edge Config;
2. strips the first `<@…>` mention from the text and trims it;
3. pings the thread;
4. asks the assistant;
5. on the first turn of a thread, sends a PATCH carrying the new mapping;
6. posts the reply, or a fallback text when the assistant or the PATCH throws;
7. answers 200 "OK".

**The event ledger** (`lib/eventStore.js`). This is a newline-delimited file of handled event ids:
- `hasSeenEvent` tests whether an id is one of the file's non-empty lines. It reports false when the file cannot be read.
- `storeEvent` appends the id and a line feed. A write failure is swallowed.

How the model is organised:
- `Slack.Step` is the pure specification of one webhook call. It maps the seen ids, a request, the configuration and what the collaborators answer to:
  - the outcome (a response or an uncaught exception);
  - the new seen set;
  - the sequence of effects (mapping read, ping, question, mapping PATCH sent, reply).
- `Slack.SlackHandler` is the handler as the source writes it. It is a class whose `Handle` method updates `seenEvents` in place and appends its effects to a trace. It is proved to follow `Step`.
- `SlackProperties` states what the handler promises, over `Step`.
- `EventStore.EventLedger` holds the events file's content. It has `HasSeenEvent` and `StoreEvent`. The lemmas beside it state the round trip, monotone membership, and why the round trip needs the file to end with a line feed.
- The string and byte conventions of JavaScript are modelled in `Js`, `JsString` (`split`, `trim`), `Encoding` (UTF-8 `Buffer.from`, hexadecimal digests) and `Mention` (the mention-stripping regular expression).

Facts about the code that the model keeps as they are:
- the handshake is answered before the retry header is read;
- Slack gets its HTTP answer only after the reply is posted;
- the signature covers `JSON.stringify(req.body)`, not the raw request bytes;
- no timestamp freshness window is checked;
- a failing Edge Config read or a missing `event.text` throws after the event id was recorded, and the record stays;
- the mapping PATCH is sent without re-reading the key, so nothing checks for a concurrent first writer; what Edge Config does with the request is not modelled.

## Model

| member | source | states |
|---|---|---|
| Encoding.Utf8 | api/slack.js:42 | `Buffer.from` gives between one and four bytes per character |
| Encoding.Utf8OfAscii | api/slack.js:42 | `Buffer.from` of an ASCII string has one byte per character, each byte the character's code |
| Encoding.Utf8MatchesAscii | api/slack.js:42 | comparing the UTF-8 buffers of a string and an ASCII string is the same as comparing the strings |
| Encoding.Hex | api/slack.js:41 | a hex digest has two characters per byte and is ASCII |
| Encoding.UnhexHex | api/slack.js:41 | reading the hex digest back gives the digest bytes (the encoding loses nothing) |
| Encoding.HexInjective | api/slack.js:41 | two digests have the same hex text exactly when they are the same digest |
| JsString.IsSpace | api/slack.js:71 | the white space that `trim()` removes and `\s` matches: ECMAScript WhiteSpace and LineTerminator |
| JsString.Trim | api/slack.js:71 | `trim()` gives a string no longer than its input that neither starts nor ends with white space |
| JsString.TrimIsInfix | api/slack.js:71 | the trimmed text is an infix of the input with only white space on either side of it |
| JsString.TrimOfTrimmed | api/slack.js:71 | a string with no white space at either end is unchanged by `trim()` |
| JsString.TrimIdempotent | api/slack.js:71 | trimming twice equals trimming once |
| JsString.Split | lib/eventStore.js:9 | `split('\n')` never returns an empty array |
| JsString.SplitPiecesHaveNoLineFeed | lib/eventStore.js:9 | no piece of `split('\n')` contains a line feed |
| JsString.JoinSplit | lib/eventStore.js:9 | joining the pieces of `split('\n')` with line feeds gives back the input |
| JsString.SplitJoin | lib/eventStore.js:9 | splitting line-feed-free pieces joined with line feeds gives back the pieces |
| JsString.SplitWithoutLineFeed | lib/eventStore.js:9 | a string without a line feed splits into itself alone |
| JsString.SplitAtLineFeed | lib/eventStore.js:9 | splitting `a + "\n" + b` is splitting `a` followed by splitting `b` |
| Mention.CloseFrom | api/slack.js:71 | finds the first `>` at or after a position; none lies before it |
| Mention.MatchAt | api/slack.js:71 | a match of `<@[^>]+>\s*` starting at a position is found exactly when a mention opens there |
| Mention.FindFrom | api/slack.js:71 | the match found is the leftmost one: no mention opens between the start position and it |
| Mention.StripMention | api/slack.js:71 | the non-global `replace`; characterised by `Mention.StripMentionLeftmost` |
| Mention.StripMentionLeftmost | api/slack.js:71 | `replace` leaves text without a mention unchanged, and otherwise removes exactly the leftmost match and the white space after it |
| Mention.UserText | api/slack.js:71 | the user's text: the first mention removed, then trimmed; see `Mention.UserTextWithoutMention` and `Mention.MentionRemovedOnce` |
| Mention.UserTextWithoutMention | api/slack.js:71 | text without a mention is only trimmed |
| Mention.MentionRemovedOnce | api/slack.js:71 | on `<@U1> hi <@U2>` the user text is `hi <@U2>`: the first mention and its trailing blank go, the later mention stays (the general fact is `Mention.StripMentionLeftmost`) |
| Mention.LeftmostUnique | api/slack.js:71 | the leftmost match is unique |
| Slack.ExpectedSignature | api/slack.js:36-41 | the expected signature is ASCII and 67 characters long ("v0=" plus 64 hex digits) |
| Slack.ThreadKey | api/slack.js:64 | the Slack thread is `thread_ts` when it is truthy, and `ts` otherwise |
| Slack.SlackHandler.constructor | api/slack.js:12 | the seen-event set starts empty, and so does the effect trace |
| Slack.SlackHandler.Handle | api/slack.js:14-148 | the outcome, the new `seenEvents` set and the effects appended to the trace are those of `Step` on the old set |
| Slack.SlackHandler.Answer | api/slack.js:62-147 | after the claim, the outcome and the effects appended are those of `Converse` |
| Slack.SlackHandler.Continue | api/slack.js:68-147 | after the mapping read, the outcome and the effects appended are those of `AfterLookup` |
| Slack.SlackHandler.Exchange | api/slack.js:74-144 | the ping, question, optional mapping PATCH and reply appended are those of `Dialogue` |
| Slack.Step | api/slack.js:14-148 | one call as a function of the seen ids: outcome, new seen set and effects; its properties are the `SlackProperties` lemmas |
| Slack.Screen | api/slack.js:16-51 | the checks before deduplication in the handler's order; see `SlackProperties.NonPostRejected` to `SlackProperties.FilteredEventsNotRecorded` |
| Slack.IsPost | api/slack.js:16 | the method check; see `SlackProperties.NonPostRejected` |
| Slack.IsHandshake | api/slack.js:21 | `req.body?.type === 'url_verification'`; see `SlackProperties.HandshakeBeforeSignature` |
| Slack.IsRetry | api/slack.js:26-27 | a truthy retry header; see `SlackProperties.RetrySkippedBeforeSignature` |
| Slack.BaseString | api/slack.js:40 | the signed text `v0:<timestamp>:<body>`, with a missing timestamp written "undefined"; see `SlackProperties.SignatureOutcomes` |
| Slack.CheckSignature | api/slack.js:33-45 | the signature comparison on UTF-8 buffers; characterised by `SlackProperties.SignatureOutcomes` and `SlackProperties.SignatureInputsMissing` |
| Slack.IsActionable | api/slack.js:49 | the event filter; see `SlackProperties.FilteredEventsNotRecorded` |
| Slack.MapKey | api/slack.js:65 | the Edge Config key of a Slack thread; see `SlackProperties.MapKeyInjective` |
| Slack.AssistantAnswer | lib/assistant.js:8-55 | the assistant's answer: none exactly when it throws; a truthy existing thread is the thread reported; a new thread id is reported only by a completed run |
| Slack.ShouldPersist | api/slack.js:101 | the first-turn condition; see `SlackProperties.PatchOnlyOnFirstTurn` |
| Slack.Converse | api/slack.js:62-147 | the mapping read followed by `AfterLookup`; characterised by `SlackProperties.ConverseOutcomes` and `SlackProperties.ConverseRepliesAtMostOnce` |
| Slack.AfterLookup | api/slack.js:68-147 | an exception on a failed read or missing text, otherwise the dialogue and "OK"; see `SlackProperties.ConverseOutcomes` |
| Slack.Dialogue | api/slack.js:74-144 | ping, question, optional PATCH, reply; characterised by `SlackProperties.DialogueShape`, `SlackProperties.DialogueReply` and `SlackProperties.PatchOnlyOnFirstTurn` |
| Js.Truthy | api/slack.js:27 | JavaScript truthiness of an optional string: present and non-empty |
| Js.Or | api/slack.js:64 | JavaScript's logical or on optional strings: the first operand when it is truthy, else the second; see `Slack.ThreadKey` |
| Js.Interpolate | api/slack.js:65 | template interpolation, `undefined` written "undefined"; see `SlackProperties.MapKeyInjective` |
| SlackProperties.NonPostRejected | api/slack.js:16-18 | a non-POST request gets 405 "Method Not Allowed" with no effect and nothing recorded |
| SlackProperties.HandshakeBeforeSignature | api/slack.js:21-23 | a handshake is answered with its challenge whatever its headers, signed text, configuration or collaborators |
| SlackProperties.RetrySkippedBeforeSignature | api/slack.js:26-30 | a redelivery gets an empty 200 before any signature check, with no effect |
| SlackProperties.SignatureOutcomes | api/slack.js:33-45 | with a secret and a signature header: authentic exactly when the signature equals the expected one; forged exactly when it has the same UTF-8 length and differs; a throw exactly when the lengths differ |
| SlackProperties.SignatureInputsMissing | api/slack.js:39-42 | a missing signing secret or signature header makes the check throw |
| SlackProperties.UnsignedRequestsHaveNoEffect | api/slack.js:33-45 | a request that is not authentic has no effect and records nothing; a forged one gets 403 "Invalid signature" |
| SlackProperties.FilteredEventsNotRecorded | api/slack.js:48-51 | an authentic event that is missing, not an `app_mention` or from a bot gets an empty 200 and is not recorded |
| SlackProperties.DuplicateIgnored | api/slack.js:54-58 | an event id already seen gets an empty 200 with no effect |
| SlackProperties.ClaimPrecedesEffects | api/slack.js:54-60 | the seen set grows only by a new accepted event's id, and there is an effect only when it has grown |
| SlackProperties.RedeliveryHasNoEffect | api/slack.js:53-59 | delivering the same request twice has no effect the second time, and at most one reply is posted over both |
| SlackProperties.AcceptedEventClaimed | api/slack.js:59 | a new accepted event is recorded even when the work after it throws; the call ends in 200 "OK" exactly when one reply is posted |
| SlackProperties.DialogueShape | api/slack.js:74-144 | an accepted event causes a ping, then the question, then exactly one reply, all to the event's channel and thread |
| SlackProperties.DialogueReply | api/slack.js:94-125 | the reply is the assistant's, its own fallback, or the handler's fallback when the assistant call or the mapping PATCH threw |
| SlackProperties.PatchOnlyOnFirstTurn | api/slack.js:101-120 | a mapping PATCH is sent exactly when none was found and the assistant created a thread with a non-empty id, and it maps the thread key to that id (whether the store succeeded is not recorded) |
| SlackProperties.MappingReused | api/slack.js:94-101 | with a stored mapping, the assistant is asked on the stored thread and no PATCH is sent |
| SlackProperties.ConverseOutcomes | api/slack.js:62-147 | after the claim the mapping is read first; the call throws exactly when the read fails or the text is missing, with nothing posted; otherwise it answers 200 "OK" after the full exchange |
| SlackProperties.ConverseRepliesAtMostOnce | api/slack.js:62-147 | after the claim at most one reply is posted, and exactly one when the call answers 200 "OK" |
| SlackProperties.MapKeyInjective | api/slack.js:65 | two Slack threads share a map key exactly when their interpolated thread stamps are equal |
| EventStore.NonEmpty | lib/eventStore.js:9 | `filter(Boolean)` keeps exactly the non-empty pieces and never lengthens the list |
| EventStore.NonEmptyAppend | lib/eventStore.js:9 | filtering distributes over concatenation |
| EventStore.SeenIffLine | lib/eventStore.js:9-10 | an id is seen exactly when it is non-empty and is a piece of the content between line feeds; a seen id has no line feed |
| EventStore.EmptyIdNeverSeen | lib/eventStore.js:9-10 | the empty id is never seen |
| EventStore.LinesAfterLineEnd | lib/eventStore.js:9-19 | appending to content that ends a line keeps the old lines and adds the new ones after them |
| EventStore.LinesOfRecord | lib/eventStore.js:19 | a record `id + "\n"` is the single line `id` when the id is non-empty and has no line feed |
| EventStore.StoreAppendsLine | lib/eventStore.js:17-24 | storing an id in content that ends a line adds it as the last line |
| EventStore.StoreThenSeen | lib/eventStore.js:6-24 | after storing an id, it is seen |
| EventStore.StoreKeepsSeen | lib/eventStore.js:6-24 | storing an id keeps every id seen before |
| EventStore.FusedWithoutLineEnd | lib/eventStore.js:19 | without a final line feed the stored id fuses with the last line, and neither id is seen afterwards |
| EventStore.EventLedger.HasSeenEvent | lib/eventStore.js:6-15 | a failed or missing read reports false; otherwise the id is reported exactly when it is a non-empty line of the file |
| EventStore.EventLedger.StoreEvent | lib/eventStore.js:17-24 | a failed write leaves the file as it was; otherwise the file is its old content (or empty) followed by the id and a line feed, and it ends a line; when the old file ended a line and the id is a non-empty line of its own, `HasSeenEvent` then reports the id and every id it reported before |
| EventStore.EventLedger.constructor | lib/eventStore.js:4 | the ledger holds the given content of the events file, or none when the file does not exist |
| EventStore.Lines | lib/eventStore.js:9 | the non-empty lines of the file, in order; characterised by `EventStore.NonEmpty`, `EventStore.LinesAfterLineEnd` and `EventStore.LinesOfRecord` |
| EventStore.Seen | lib/eventStore.js:10 | `includes` over those lines; characterised by `EventStore.SeenIffLine` |

## Left out

- HMAC-SHA256 is not computed. It is an uninterpreted function value in the configuration that returns 32 bytes.
- The signed body is the `json` field of a request, standing for the text that `JSON.stringify(req.body)` gives. JSON serialisation is not modelled.
- The environment (`SLACK_SIGNING_SECRET`, tokens, `EDGE_CONFIG_ID`) appears only as the optional signing secret. The other values only appear in request headers and URLs, which are not modelled.
- Network calls are inputs to each call: the Edge Config `get`, how `getAssistantResponse` ends, and whether the mapping PATCH throws. The `chat.postMessage` calls are recorded as effects. Their failures are caught and only logged, so they change nothing and are not inputs.
- Responses of the ping, reply and PATCH calls are not modelled. They are only logged.
- Console logging is not modelled.
- `getAssistantResponse` (lib/assistant.js) is modelled only by its contract, `Slack.AssistantAnswer`. Its polling loop may never end when a run never completes; that is not modelled.
- `api/ideate.js` and `lib/githubCsv.js` are not part of this model.
- Concurrency is not modelled: two calls interleaving on the shared `seenEvents` set, or on one Edge Config key. Each call runs to completion in order.
- Each serverless instance has its own `seenEvents`, and it is lost on restart. The model covers one instance.
- Strings are sequences of Unicode scalar values, so lone UTF-16 surrogates (which `Buffer.from` would replace) cannot occur.
- The events file is modelled by its content. A read failure and a write failure are boolean inputs. Partial writes and the file path are not modelled.
- Slack.SlackHandler.Handle: an uncaught exception is the outcome `Thrown` with a fault. How the hosting runtime turns it into an HTTP response is not modelled.
