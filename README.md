# negotiation-arena: the negotiation engine in Dafny

negotiation-arena lets two AI agents bargain on behalf of their owners. A
client posts a topic, two instance ids and the two owners' secret positions.
The server then stores a pending session. A run plays three rounds in which
agent A speaks and agent B answers, and streams every step to the client as
server events. It ends by asking the model for a structured JSON summary.

This project models that core:

- the session store: `createSession`, `getSession`;
- the engine: `runNegotiation`, `callWithRetry`, `buildSystemPrompt`, the
  turn prompts, `generateSummary` and `parseSummaryJSON`;
- the validation of `POST /api/negotiate`;
- the two HTTP clients, in `src/lib/llm.ts` and `src/lib/secondme.ts`: the
  API-key guard, the error messages, instance-id validation, the online
  filter of the instance listing, and the shared `consumeSSEStream` decoder;
- the records of `src/lib/types.ts`.

The modules follow the source:

| file | module | models |
|---|---|---|
| `types.dfy` | `Types` | `src/lib/types.ts`. `Session` is a class whose `status`, `messages`, `summary` and `error` the engine updates in place. |
| `json.dfy` | `Json` | JSON values, and the `?.` reads the code performs on them. `JSON.parse` is a parameter (`Parser`). |
| `http.dfy` | `Http` | Chat messages, and what one `fetch` yields. |
| `text.dfy` | `Text` | `String(n)` for naturals, `trim`, `split("\n")`, `join`. |
| `sse.dfy` | `Sse` | `consumeSSEStream`: a loop over the chunks, with an inner loop over the complete lines. |
| `llm.dfy` | `Llm` | `chatCompletion` and `chatCompletionMultiTurn`. The `Gateway` class fixes the API key and the server's answers, and logs every request sent. |
| `secondme.dfy` | `SecondMe` | `validateInstanceId`, `listInstances`, `chatWithInstance`. |
| `prompts.dfy` | `Prompts` | The system prompt, A's and B's turn prompts, the transcript, the summary request. |
| `summary.dfy` | `Summary` | `parseSummaryJSON`. |
| `negotiation.dfy` | `Negotiation` | The `Store` class (session map, id counter, clock), `callWithRetry`, `generateSummary`, and the run. |
| `negotiation_facts.dfy` | `NegotiationFacts` | What a run does, proved over its specification functions. |
| `route.dfy` | `Route` | `POST /api/negotiate`. |

The run is specified by pure functions:

- `Negotiation.Turn` is one agent's turn.
- `Negotiation.Rounds`, `Negotiation.AfterA` and `Negotiation.AfterB` cover the
  first `r` rounds.
- `Negotiation.Conclude` is the summary step.
- `Negotiation.Negotiate` is the whole run.

The imperative methods of `Negotiation.Store` are proved equal to them. The
facts about a run are lemmas over those functions:

- six messages, A/B alternating, rounds 1,1,2,2,3,3;
- fresh consecutive ids with the clock's time;
- the event order;
- how each prompt quotes the other agent's last reply;
- the requests sent;
- how the run ends.

Environment:

- `uuidv4()` is a counter in the store. Ids are naturals, and an id is fresh
  when it is at least `nextUuid`.
- `Date.now()` is the store's `clock`, read with the id issued in the same
  statement.
- The LLM server is `Gateway.network`, the response to the k-th request. The
  Second Me server is `Client.network`. A response is `Thrown`, when `fetch`
  rejects, or a `Response` whose body is the sequence of decoded chunks.
- `JSON.parse` is a `Json.Parser`. The read `?.choices?.[0]?.delta?.content`
  of an event payload is a `Sse.DeltaReader`.
- `process.env.LLM_API_KEY` is `Gateway.apiKey`, where "" stands for unset.
- The event callback `onEvent` becomes the sequence of events that
  `RunNegotiation` returns, in order.

The system's design description and its code disagree in several places. The
model follows the code:

- The design rejects a second run of a session (at most one run, from
  pending); the code has no such guard (see below).
- The design lets a failed summary call degrade to the text-only summary and
  still complete; in the code the failure fails the session.
- The design gives the text-only summary a `convergence_score` of 0; the code
  leaves it out.
- The design builds each agent's prompt from its accumulated history and tries
  a premium backend first; the code sends one system and user pair per turn,
  to one backend.

In detail:

- `RunNegotiation` sets the status to in progress unconditionally. A second
  run of the same session appends six more messages
  (`src/lib/negotiation.ts:59`). The model keeps this: it takes the old
  messages as a parameter of `Negotiate`.
- `callWithRetry` never fails. When both attempts fail, the placeholder names
  the first error, not the second.
- The summary call is not retried. Its failure fails the session, with the
  six messages kept.
- The parsed summary is stored without a shape check, so the summary is any
  JSON value. The text-only fallback lacks `convergence_score` and
  `final_proposal`, which `NegotiationSummary` declares required
  (`Summary.FallbackIsPartial`).
- The round count is the store's constant `rounds`, which the constructor sets
  to `TOTAL_ROUNDS` (3). The prompts use `TOTAL_ROUNDS` directly, as the code
  does.

## Model

| member | source | states |
|---|---|---|
| Negotiation.Store.GetSession | src/lib/negotiation.ts:17-19 | A session is found exactly when the id is in the map, and it is the very object stored under that id, carrying that id. No id at or beyond the counter (never issued) finds anything. |
| Negotiation.Store.CreateSession | src/lib/negotiation.ts:21-44 | The new session is stored under a fresh id, and no other entry changes; `GetSession` of that id then returns exactly this object. The topic is truncated to 200 characters and the positions to 500. The ids and names are copied. It is pending, with no messages, a null summary and a null error. It is stamped with the clock at its id. |
| Negotiation.Truncate | src/lib/negotiation.ts:22-24 | `slice(0, n)`: a prefix of at most `n` characters. It is the whole string when that fits, and exactly `n` characters otherwise. |
| Negotiation.Store.NewUuid | src/lib/negotiation.ts:27 | The id issued is the counter, and the counter moves past it. |
| Negotiation.Store.constructor | src/lib/negotiation.ts:10-15 | The store starts empty and valid, and plays `TOTAL_ROUNDS` rounds. |
| Negotiation.Store.RunNegotiation | src/lib/negotiation.ts:49-127 | An unknown id emits exactly one `error` event ("Session not found") and changes no session, id or request. A known session ends as `Negotiate` says: its messages, events, requests and ids, then `completed` with the summary or `failed` with the error. The other outcome's field is untouched. |
| Negotiation.Store.Run | src/lib/negotiation.ts:59-126 | A found session is run as `Negotiate` specifies. Exactly two ids are used per round. |
| Negotiation.Store.PlayRounds | src/lib/negotiation.ts:61-107 | The round loop leaves the messages, events, requests and counter that `Rounds` gives for `rounds` rounds. |
| Negotiation.Store.PlayRound | src/lib/negotiation.ts:66-106 | One iteration takes the state of `r - 1` rounds to that of `r` rounds. It threads `lastResponseA` and `lastResponseB`. |
| Negotiation.Store.PlayTurn | src/lib/negotiation.ts:71-87 | One turn is exactly `Turn`: a status event, the retried reply, and a message under a fresh id with the clock's time. |
| Negotiation.Store.Finish | src/lib/negotiation.ts:109-126 | A round-0 status event, then the summary call. Success sets the summary and `completed`, then emits `summary` and `done`. Failure sets `failed` and the error, then emits one `error` event. The messages are kept either way. |
| Negotiation.Retry | src/lib/negotiation.ts:129-144 | The reply is never empty. Without a key, nothing is sent and the placeholder names the key error. Otherwise one or two requests are sent, each exactly the system and user pair. |
| Negotiation.CallWithRetry | src/lib/negotiation.ts:129-144 | The method returns the reply and leaves the request log that `Retry` specifies. |
| Negotiation.RetryOutcome | src/lib/negotiation.ts:133-141 | A first success is returned after one request. Otherwise a second success is returned. If both fail, the placeholder carries the first error, never the second. |
| Negotiation.GenerateSummary | src/lib/negotiation.ts:184-213 | One request: the analyst system prompt with the summary prompt over the transcript. The result is the parsed reply, or the call's error unchanged. |
| NegotiationFacts.TurnEffect | src/lib/negotiation.ts:71-106 | A turn appends one message under the next id, with the clock's time and a non-empty reply. It appends a status event then a message event, and records its prompts. It keeps the other agent's last reply. It sends nothing without a key, and one or two requests otherwise, each exactly the `Wrap` of the turn's system prompt and user prompt. |
| NegotiationFacts.RoundEffect | src/lib/negotiation.ts:65-107 | A round appends A's then B's message, with consecutive ids. Its four events are `status(A,r)`, `message(A)`, `status(B,r)`, `message(B)`. Without a key both replies are the placeholder. |
| NegotiationFacts.RoundRequests | src/lib/negotiation.ts:67-96 | A round asks A with A's system prompt and `PromptA` over B's last reply. It asks B with B's system prompt and `PromptB` over A's reply of the same round. It sends two to four requests, or none without a key. |
| NegotiationFacts.RoundsRecord | src/lib/negotiation.ts:65-107 | After `r` rounds, `2r` messages are appended to the old ones, and every new reply is non-empty. Without a key they are all the placeholder. |
| NegotiationFacts.RoundsRequests | src/lib/negotiation.ts:65-107 | After `r` rounds, `2r` prompt pairs have been asked and between `2r` and `4r` requests sent. Without a key, none was sent. |
| NegotiationFacts.RoundsShaped | src/lib/negotiation.ts:65-107 | After `r` rounds, the new messages alternate A, B with rounds 1..r. Their ids are consecutive from the counter, and their times come from the clock. The new events announce each message, status first. The last replies are those of the last round. |
| NegotiationFacts.RoundsChained | src/lib/negotiation.ts:67-96 | Each round's prompts are built from the replies recorded before them. A's prompt is built from B's last message, or the opening in round 1. B's is built from A's message of the same round. |
| NegotiationFacts.ChainedQuotes | src/lib/negotiation.ts:73-75 | A's round-1 prompt is the opening plus the topic alone. A's prompt in every later round quotes B's previous reply after "对方说：". B's prompt in every round quotes A's reply of that round. |
| NegotiationFacts.RoundQuotes | src/lib/negotiation.ts:73-94 | For one round: A's opening, or the quote of B's last reply. B's quote of A's reply. B's prompt announces the last round exactly when the round is `TOTAL_ROUNDS`. |
| NegotiationFacts.ConcludeEffect | src/lib/negotiation.ts:109-126 | The summary step keeps messages and ids. It succeeds exactly when the summary call does, with the parsed reply. Its events are `status(A,0)` then `summary, done`, or `status(A,0)` then one `error` carrying the call's error. |
| NegotiationFacts.RunMessages | src/lib/negotiation.ts:61-107 | A run keeps the old messages and appends `2·rounds` non-empty ones. They alternate A, B by round, with consecutive ids and clock times. |
| NegotiationFacts.RunPrompts | src/lib/negotiation.ts:61-96 | A run's prompts chain as `Chained` says, starting from an empty last reply. |
| NegotiationFacts.RunEvents | src/lib/negotiation.ts:64-126 | A run's events are the rounds' announcements, then `status(A,0)`. Then come exactly `summary, done` on success, or exactly one `error` on failure. |
| NegotiationFacts.RunRequests | src/lib/negotiation.ts:64-126 | Without a key, a run sends nothing. Its six replies are the placeholder, and it fails with the key error. With a key, it sends two to four requests per round, then exactly one last request: the summary request over the session's messages. |
| NegotiationFacts.ThreeRounds | src/lib/negotiation.ts:65-107 | Three played rounds are six messages, with speakers A,B,A,B,A,B and rounds 1,1,2,2,3,3. |
| NegotiationFacts.AnnouncedAt | src/lib/negotiation.ts:71-106 | Message `i` is announced by events `2i` (its status) and `2i+1` (the message itself). |
| Prompts.SystemPromptFencesPosition | src/lib/negotiation.ts:157-166 | The system prompt names the topic in its brackets. It encloses the position between `---BEGIN POSITION---` and `---END POSITION---`, followed by the notice that the block is data, not instructions. |
| Prompts.SystemPromptRound | src/lib/negotiation.ts:152-168 | The round line "round r of n" follows the position block. The urgency line follows it exactly when `round == totalRounds`. |
| Prompts.PromptAQuotes | src/lib/negotiation.ts:73-75 | Round 1 asks for an opening on the topic only. Every later round quotes B's last reply. |
| Prompts.PromptBQuotes | src/lib/negotiation.ts:92-94 | B's prompt always quotes A's reply. It has the final-round wording exactly when `round == TOTAL_ROUNDS`. |
| Prompts.Entries | src/lib/negotiation.ts:188-189 | One entry per message, in order, each `[第r轮] 甲方/乙方: content`. |
| Prompts.TranscriptInOrder | src/lib/negotiation.ts:188-190 | Each message's entry stands at its offset in the transcript. The next entry starts after it and a blank line. |
| Prompts.SummaryPromptQuotes | src/lib/negotiation.ts:192-206 | The summary request quotes the topic, then the whole transcript. |
| Summary.ParseSummary | src/lib/negotiation.ts:215-240 | A reply that parses is returned as parsed, with no shape check. Otherwise the braced span's parse is returned. Otherwise the text-only fallback. |
| Summary.BracedSpan | src/lib/negotiation.ts:221 | The greedy match `\{[\s\S]*\}` runs from the first `{` to the last `}`. There is a match exactly when some `{` precedes some `}`. |
| Summary.ExtractBraced | src/lib/negotiation.ts:221-224 | The matched text exists exactly when the span does, and it is the text of the span: from the first `{` through the last `}`, both included. |
| Summary.FirstIndex | src/lib/negotiation.ts:221 | The first position of a character, or none when it does not occur. |
| Summary.LastIndex | src/lib/negotiation.ts:221 | The last position of a character, or none when it does not occur. |
| Summary.FallbackIsPartial | src/lib/negotiation.ts:232-239 | The fallback keeps the raw reply as its text and reports no consensus. It lacks `convergence_score` and `final_proposal`, so it does not have the `NegotiationSummary` shape. |
| Summary.FencedReplyRecovered | src/lib/negotiation.ts:219-224 | A JSON object wrapped in text without braces is recovered when only the object parses. |
| Summary.UnbracedReplyFallsBack | src/lib/negotiation.ts:221-239 | Unparseable text without `{` yields the fallback. |
| Route.Validate | src/app/api/negotiate/route.ts:9-23 | A request passes exactly when the five checked fields are non-empty and both ids are valid. A missing field is reported as "Missing required fields" before any id is looked at. The only other error is "Invalid instance ID format". |
| Route.AcceptedExactly | src/app/api/negotiate/route.ts:9-23 | Acceptance, character by character: topic and positions non-empty, and both ids non-empty strings of `[a-zA-Z0-9_-]`. Names are not checked. The id error is reported exactly when all fields are present and some id character is outside the class. |
| Route.Post | src/app/api/negotiate/route.ts:5-27 | A rejected request answers 400 with the first guard's message and leaves the store unchanged. An accepted one answers 200 with the id of exactly one new pending session, which carries the request's instance ids. |
| SecondMe.ValidateInstanceIdIff | src/lib/secondme.ts:9-11 | `/^[a-zA-Z0-9_-]+$/` accepts an id exactly when it is non-empty and every character is a letter, a digit, `_` or `-`. |
| SecondMe.FilterOnline | src/lib/secondme.ts:25 | The filter throws exactly when a null item is read. Otherwise it keeps exactly the items whose `status` is "online". |
| SecondMe.FilterOnlineAppend | src/lib/secondme.ts:25 | Filtering keeps the original order: filtering a concatenation is the concatenation of the filtered parts. |
| SecondMe.ListOutcome | src/lib/secondme.ts:16-26 | A non-ok listing throws with the status. When `data.items` is an array, the result is exactly `FilterOnline` of it: all online items and only those, in order (with `FilterOnline` and `FilterOnlineAppend`). Every instance returned is online. |
| SecondMe.MissingItemsListsNothing | src/lib/secondme.ts:24-25 | A reply without `data.items`, or with it null, lists no instance. |
| SecondMe.Client.ListInstances | src/lib/secondme.ts:16-26 | One listing request is sent, and the result is `ListOutcome` of its response. |
| SecondMe.Client.ChatWithInstance | src/lib/secondme.ts:32-76 | An invalid id throws "Invalid instance ID: " plus the id, and nothing is sent. A valid id sends exactly the system and user pair to that instance. The result is `ChatReply` of the response. |
| SecondMe.ChatReply | src/lib/secondme.ts:67-72 | A rejected fetch keeps its message. A non-ok response's error quotes the status after "Second Me API error ". A missing body is "No response body". A body is decoded by `Decode`: the streamed text, or "Empty response from Second Me" when it is empty. A success is never empty. |
| Llm.Wrap | src/lib/llm.ts:12-20 | Exactly two messages: `system` with the system prompt, then `user` with the user message. |
| Llm.Reply | src/lib/llm.ts:57-70 | A rejected fetch keeps its message. A non-ok response's error quotes the HTTP status after "LLM API error ". A missing body is "No response body". A body is decoded by `Decode`: the streamed text, or "Empty response from LLM" when it is empty. A success is never empty. |
| Llm.Gateway.Call | src/lib/llm.ts:26-66 | Without a key, "LLM_API_KEY is not configured" and nothing is sent. With a key, exactly this request is sent and the result is `Reply` of the response to it. A success needs a key and is non-empty. |
| Llm.Gateway.ChatCompletionMultiTurn | src/lib/llm.ts:26-66 | The method's result and request log are those of `Call`. |
| Llm.Gateway.ChatCompletion | src/lib/llm.ts:12-20 | Sends the two wrapped messages, as `Call` of `Wrap` says. |
| Llm.ApiErrorInjective | src/lib/llm.ts:59 | Different statuses or body texts never give the same error message. |
| Sse.ConsumeSseStream | src/lib/llm.ts:68-107 | The decoder loop returns `Decode`: the contributions of the complete lines of all received text, in order. It fails with the empty-response error when they are empty. |
| Sse.ProcessLines | src/lib/llm.ts:85-99 | The inner loop appends each line's contribution to the result, in order. |
| Sse.FeedChunk | src/lib/llm.ts:80-83 | After a chunk, the buffer holds exactly the text after the last newline of everything received. The result covers exactly the complete lines. |
| Sse.ChunkStep | src/lib/llm.ts:80-99 | A chunk completes the lines of the pending tail continued by the chunk. They are collected after the lines completed before. |
| Sse.CollectAppend | src/lib/llm.ts:85-99 | Collecting is compositional over runs of lines. |
| Sse.BufferIsTail | src/lib/secondme.ts:96-97 | The buffer never holds a newline. The received text is the complete lines, each ending in a newline, followed by the buffer. |
| Sse.NonDataLinesIgnored | src/lib/secondme.ts:100 | Lines that do not start with `data: ` contribute nothing. |
| Sse.TrailingTextIgnored | src/lib/llm.ts:76-104 | A trailing line without a newline when the stream ends is never processed. |
| Sse.DataLineDelta | src/lib/secondme.ts:100-109 | A `data: ` line whose trimmed payload is not `[DONE]` contributes its delta. |
| Sse.OneDataLine | src/lib/secondme.ts:99-120 | A stream of one well-formed event line yields exactly its delta. |
| Text.NatToStringDigits | src/lib/llm.ts:59 | The decimal form of a status is its digits, with no leading zero, and denotes the status. |
| Text.NatToStringInjective | src/lib/llm.ts:59 | Different statuses have different decimal forms. |
| Text.TrimSlice | src/lib/llm.ts:87 | `trim()` returns a contiguous slice that does not start or end with white space. Everything cut off on either side is white space. |
| Text.JoinSplitLines | src/lib/llm.ts:82 | Joining the pieces of `split("\n")` with newlines gives back the text. |
| Text.SplitLinesJoin | src/lib/llm.ts:82 | Splitting newline-free pieces joined with newlines gives back the pieces. |
| Text.SplitLinesAppend | src/lib/llm.ts:80-83 | Splitting appended text continues the last piece of the first part. |
| Json.GetLastOccurrence | src/lib/secondme.ts:24 | A member read finds the last member carrying the key, as `JSON.parse` keeps it. |
| Json.GetAbsent | src/lib/secondme.ts:24 | A key no member carries reads as `undefined`. |
| Types.Session.constructor | src/lib/types.ts:53-70 | A session as `createSession` builds it: pending, no messages, null summary and error, and no optional fields. |

## Left out

- `src/lib/negotiation.ts:22-24`: JavaScript's `slice` counts UTF-16 code units. The model counts characters, so the two differ on text outside the Basic Multilingual Plane.
- `Negotiation.Store.RunNegotiation`: the run is sequential. Concurrent runs of one session, which `async` would interleave, are not modelled.
- `Negotiation.Store.RunNegotiation`: the event callback is assumed never to throw. In the real route a write after the client has gone throws, and the session becomes failed.
- `Negotiation.Retry`: a thrown value that is not an `Error` ("API error", "Unknown error") cannot arise in the model, because every failure the gateway reports carries a message.
- `Route.Post`: a body that `req.json()` cannot parse, and fields that are not strings, are not modelled. A missing field is the empty string.
- The request options (base URL, model name, temperature, token limits, timeouts, the abort controller, headers) are not modelled. A timeout is a `Thrown` response.
- `Sse.ConsumeSseStream`: `TextDecoder` is not modelled, and the reader is the sequence of decoded chunks.
- `Sse.DeltaReader`: `JSON.parse` and the `?.choices?.[0]?.delta?.content` read are a parameter. A non-string delta is treated as absent.
- `Json.Json`: numbers are integers. Floating point is not modelled, and no shape checks depend on it.
- `src/lib/secondme.ts`: `listInstances` returns the items as JSON values rather than `SecondMeInstance` records, because the code does not check their shape.
- OAuth and cookies (`src/lib/auth.ts`, `src/app/api/auth/*`), the summary route, the instance-listing route, the browser client and the UI are not part of this model.
