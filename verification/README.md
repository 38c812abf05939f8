# WhatsApp sales bot: the per-correspondent state machine

This project models, in Dafny, the core of a WhatsApp sales assistant (`index.js`):

- **Conversation memory.** One record per correspondent holds the chat history, a last-seen time and the handles of the follow-up timers. The reply generator keeps a bounded history window.
- **Mini-inbox.** There is one log per correspondent, capped at 200 entries.
- **Follow-up nudges.** After every answer, exactly three nudges are armed: 20 minutes, 24 hours and 48 hours.
- **Operator takeover.** Operators can pause a correspondent. Each pause has an auto-release timer.
- **Inbound webhook decision.** Each inbound event is ignored, only logged, refreshes the pause, asks for text, or gets a reply.
- **Outbound chunking.** Outgoing text is split into parts of at most 950 UTF-16 code units, the unit a JavaScript string's `length` and `slice` count. A part can therefore end in the middle of a surrogate pair.
- **Admin gate.** A token check guards the operator endpoints.

Layout:

| file | contents |
|---|---|
| `wrappers.dfy` | `Option`, `Min`, and `Present`, the server's truthiness test for request fields |
| `chunking.dfy` | The UTF-16 encoding of a string, and the split of an outbound body. A pure definition, its round trip, and the index loop as a method. |
| `admin.dfy` | The token gate. |
| `inbox.dfy` | One push onto a capped log, and runs of pushes. |
| `conversation.dfy` | The history window and the choice of reply. |
| `dispatch.dfy` | The webhook's branch decision. |
| `timers.dfy` | The runtime's timer table and the invariant that ties it to the bot's own bookkeeping, with one lemma per kind of update. |
| `salesbot.dfy` | Class `Bot`. |

Class `Bot` keeps:

- the module-level `memory`, `chats`, `manualSet` and `releaseTimers` as fields;
- the runtime's timers as `armed` (every timer ever armed, by handle) and `live` (those neither fired nor cleared).

Every handler is a method that changes those fields. A ghost `outbox` records every part handed to the messaging provider.

Environment and timing are handled as follows:

- **Timers fire explicitly.** The environment calls `Fire` (or `RunNudge` / `RunRelease`). `Tick` advances an abstract clock in milliseconds.
- **The language model is a parameter.** It is the outcome of the call: some text, empty text, or an API error.
- **Strings as the server sees them.** Bodies are measured and sliced as UTF-16 code units, so a delivered part is a code-unit sequence. `Utf16` encodes a string, and `Decode` reads code units back.
- **Views.** `NudgeDue(id, n)` and `ReleaseDue(id)` say when a pending timer of a correspondent will fire. They return `None` when no such timer is live.

The object invariant `Valid()` says:

- every recorded timer handle is a timer of the right owner and kind;
- every live timer is the one recorded for its owner and kind, so there is at most one per correspondent and kind;
- histories have at most 13 entries and logs at most 200;
- a correspondent is paused exactly when its auto-release timer is recorded.

The model follows the code in these points, where a stricter design would differ:

- Pausing a correspondent does not cancel its nudges.
- A nudge callback checks neither the pause nor the bot mode. A paused correspondent, or one written to while the bot is off, still receives pending nudges.
- `/api/release` lifts the pause without sending anything and without re-arming nudges.
- The paused set matters only when `BOT_MODE` is `manual`.
- When the model call fails, or no client is configured, only the user turn is recorded.
- `/api/send` does not create a conversation-memory record.

## Model

| member | source | states |
|---|---|---|
| `Chunking.Utf16Char` | index.js:138 | A character below U+10000 is one code unit and not a surrogate. Any other character is a high surrogate followed by a low one. |
| `Chunking.Utf16` | index.js:138 | A string of n characters is between n and 2n code units long. |
| `Chunking.Utf16RoundTrip` | index.js:138 | Decoding the code units of a string gives the string back, so the encoding loses nothing. |
| `Chunking.Utf16Append` | index.js:138 | The code units of a concatenation are the concatenation of the code units. |
| `Chunking.Utf16Plain` | index.js:138 | Characters below the surrogate range take one code unit each, and those units are below the surrogate range. |
| `Chunking.DanglingHighSurrogate` | index.js:138 | Units below the surrogate range followed by a lone high surrogate do not decode. |
| `Chunking.SplitCanCutPair` | index.js:138 | 949 letters followed by an emoji give two parts. The first part ends with the emoji's high surrogate and does not decode as a string. |
| `Chunking.SplitBody` | index.js:136-138 | The index loop yields exactly the pure chunking of the code units. The parts concatenate back to the body and are well sized. An empty body gives no parts. |
| `Chunking.ChunksRoundTrip` | index.js:137-138 | Concatenating the parts gives the code units back. Every part is non-empty and at most 950 code units. All parts but the last are exactly 950. There are ceil(n/950) parts for n code units, and none exactly when there are none. |
| `Chunking.ChunksFromConcat` | index.js:138 | The parts from offset i on concatenate to the body's suffix from i. |
| `Chunking.ChunksFromSizes` | index.js:138 | The parts from offset i on are well sized in code units. There are ceil((n-i)/950) of them. |
| `Admin.AssertAdmin` | index.js:288-295 | The gate passes iff an admin token is configured and equals the presented token. A non-empty header decides alone, else a non-empty query parameter, else the body field. An empty configured token rejects everything. |
| `Admin.AdmittedCarriesToken` | index.js:289-290 | A passing call carried the configured, non-empty token in the header, the query or the body. |
| `Inbox.Appended` | index.js:126-131 | A push ends the log with the new entry. It grows the log by one below the cap and keeps its length at the cap. A log within 200 entries stays within 200. |
| `Inbox.AppendedIsSuffix` | index.js:128-130 | A push keeps order: the result is a suffix of the old log followed by the entry. |
| `Inbox.AppendAllKeepsMostRecent` | index.js:126-131 | After any run of pushes onto a log within the cap, the log is exactly the most recent 200 entries of everything pushed, in order. |
| `Conversation.Window` | index.js:183 | The window has min(n, 12) entries. |
| `Conversation.WindowIsSuffix` | index.js:183 | The window is the most recent suffix of the history, unreordered. |
| `Conversation.ReplyFor` | index.js:185-207 | The reply is never empty, given non-empty canned texts. A non-empty completion is sent as is. An empty completion gets the fallback text. No client gets the no-client text. A failed call gets the error text. |
| `Conversation.DefaultConfigNonEmpty` | index.js:186-188 | None of the canned replies the bot starts with is empty. |
| `Conversation.HistoryAfter` | index.js:178-203 | After one exchange the history holds min(n, 11) earlier turns plus the turns added. It never exceeds 13 entries. |
| `Conversation.HistoryAfterKeepsRecent` | index.js:182-201 | After one exchange the history is the most recent min(n, 11) earlier turns, in order, then the user turn. The assistant turn follows only when a client is configured and the call returned, including the substituted fallback for empty content. |
| `Dispatch.Decide` | index.js:236-275 | Ignore iff no sender. Log only iff the bot is off. Refresh the pause iff in manual mode with the sender paused. Otherwise ask for text iff the text is missing, and reply iff it is present. |
| `Dispatch.PauseMattersOnlyInManual` | index.js:251 | Outside manual mode the paused set does not change the decision. |
| `Timers.OneLiveTimerPerJob` | index.js:157-174 | Under the invariant, two live timers with the same owner and job are the same timer. Re-arming never accumulates. |
| `Timers.NotRecordedFor` | index.js:157-158 | A timer that is not a nudge of a correspondent is not among the handles recorded for it, so clearing them touches no other timer. |
| `Timers.RearmKeepsTimersOk` | index.js:157-174 | Clearing the recorded nudges and arming three fresh ones keeps the timer invariant. |
| `Timers.RearmLiveNudges` | index.js:162-174 | After re-arming, each of the three nudges is pending, due at now plus 20 min, 24 h or 48 h. |
| `Timers.RearmLeavesOthers` | index.js:157-174 | Re-arming one correspondent leaves every other correspondent's nudges and every auto-release timer as they were. |
| `Timers.ReplaceRecord` | index.js:114-119 | Replacing a record while keeping its timer handles keeps the invariant and every pending nudge. |
| `Timers.ReleaseClearedKeeps` | index.js:252 | Clearing one correspondent's auto-release timer leaves every other auto-release timer live and every nudge as it was. |
| `Timers.ArmReleaseKeepsTimersOk` | index.js:252-261 | Replacing a correspondent's auto-release timer by a fresh one keeps the invariant. |
| `Timers.ArmReleaseEffect` | index.js:252-261 | After the replacement, that correspondent's auto-release timer is due at now plus the delay. Other auto-release timers and all nudges are unchanged. |
| `Timers.DropRelease` | index.js:377-378 | Clearing and forgetting a correspondent's auto-release timer keeps the invariant. It leaves that correspondent with no pending auto-release and changes nothing else. |
| `Timers.FireNudge` | index.js:162-174 | A fired nudge leaves the live set. Only that nudge stops being pending, and the invariant holds. |
| `SalesBot.Bot.constructor` | index.js:112-124 | The bot starts with empty memory, logs, paused set and timers, with the configured texts and settings. |
| `SalesBot.Bot.PausedIffReleaseArmed` | index.js:332-342 | A correspondent is paused exactly when its auto-release timer is pending. |
| `SalesBot.Bot.Tick` | index.js:116 | The clock advances by the elapsed time and nothing else changes. |
| `SalesBot.Bot.GetUserState` | index.js:114-119 | The call returns the existing record unchanged and leaves memory unchanged. Otherwise it creates and stores a record with empty history and no timers. No pending nudge changes. |
| `SalesBot.Bot.PushMsg` | index.js:126-131 | The chat gains the entry at the end. The oldest entry is dropped beyond the cap. The chat is created, named after the id, on first use. Other chats are unchanged. |
| `SalesBot.Bot.SendText` | index.js:134-151 | The outbox gains one delivery per part of at most 950 UTF-16 code units of the body, in order. Nothing else changes. |
| `SalesBot.Bot.ScheduleFollowups` | index.js:154-175 | The recorded nudge handles are cleared and exactly three fresh ones are recorded and live. All three are due at now plus 20 min, 24 h and 48 h. Other correspondents' nudges and all auto-release timers are unchanged. |
| `SalesBot.Bot.Rearm` | index.js:157-174 | This is the same clearing and re-arming for a correspondent whose record exists, stated over the timer tables. |
| `SalesBot.Bot.LlmReply` | index.js:178-208 | The reply is the one for the configuration and model outcome. The record's history becomes the history after the exchange, and its last-seen time becomes now. Timers are kept. |
| `SalesBot.Bot.ArmRelease` | index.js:252-261 | Any existing auto-release timer of the correspondent is cleared. A fresh one is armed and due after the given minutes. Other auto-release timers and all nudges are unchanged. |
| `SalesBot.Bot.SendReply` | index.js:273-276 | The reply for the outcome is recorded in the history, sent part by part and logged outbound. The record's last-seen time becomes now and its timers are kept. Other records, other logs and every nudge are unchanged. |
| `SalesBot.Bot.Respond` | index.js:273-278 | The reply is sent part by part and logged outbound. The record becomes the history after the exchange, last seen now, with the three fresh nudge handles; other records are unchanged. The three nudges are re-armed from now. Other correspondents' logs and nudges, and all auto-release timers, are unchanged. |
| `SalesBot.Bot.AskText` | index.js:266-268 | The request for text is sent and logged outbound. Other correspondents' logs are unchanged, and memory and timers are not touched. |
| `SalesBot.Bot.Webhook` | index.js:232-285 | Always 200. No sender changes nothing. Otherwise the inbound text, or `[no-text]`, is logged. The off mode sends nothing. A paused sender in manual mode refreshes the auto-release timer to the configured minutes, leaves its nudges alone, sends nothing and does not touch memory. Missing text sends and logs the request without touching timers. Otherwise the reply is sent and logged, the record advanced by one exchange and last seen now, and the nudges re-armed. Other correspondents' logs are always unchanged. On the reply path, other records and other correspondents' nudges and every auto-release timer are unchanged. On the pause-refresh path, every nudge and every other auto-release timer is unchanged. |
| `SalesBot.Bot.Pause` | index.js:332-342 | The correspondent joins the paused set. Its auto-release timer is replaced by one due after the minutes. All nudges are unchanged. |
| `SalesBot.Bot.Unpause` | index.js:376-378 | The correspondent leaves the paused set and its auto-release timer is cleared. The nudges are unchanged. An unpaused correspondent is left exactly as it was. |
| `SalesBot.Bot.ApiSend` | index.js:322-349 | 401 without the admin token, then 400 without both fields, and neither changes anything. Otherwise the text is sent and logged outbound, and the recipient paused for the configured minutes. Memory, every nudge, other correspondents' logs and other auto-release timers are untouched. |
| `SalesBot.Bot.ApiTakeover` | index.js:352-370 | 401, then 400 without an id, and neither changes anything. Otherwise the correspondent is paused for the given minutes, or the configured ones when none are given. Nothing is sent and no nudge changes. |
| `SalesBot.Bot.ApiRelease` | index.js:372-380 | 401, then 400 without an id, and neither changes anything. Otherwise the pause and the auto-release timer are removed. Nothing is sent, no nudge is armed or cleared, and an unpaused id is a no-op. |
| `SalesBot.Bot.RunNudge` | index.js:162-174 | A fired nudge sends its text to its owner, whatever the pause or the mode. The nudge stops being pending and nothing else changes. |
| `SalesBot.Bot.RunRelease` | index.js:255-260 | A fired auto-release un-pauses its owner and leaves no auto-release pending. It sends the re-engagement text and re-arms the three nudges from now. The owner's record changes only in its nudge handles, and is created if missing. Other records, pauses, nudges and auto-release timers are unchanged. The same callback appears at index.js:336-341 and index.js:361-366. |
| `SalesBot.Bot.Fire` | index.js:162-174 | A due live timer runs its callback: a nudge callback (index.js:162-174) or an auto-release callback (index.js:255-260, 336-341, 361-366). A nudge sends its text, stops being pending, and changes no other nudge, no auto-release timer, no pause and no memory. An auto-release sends the re-engagement text, un-pauses its owner, leaves no auto-release pending for it and re-arms its nudges. Its record changes only in its nudge handles, and other correspondents are unchanged. |

## Left out

- **HTTP and network plumbing.** The Express routing and listener, request parsing, and the response bodies are left out; handlers return only the status code. The GET verification handshake, the read-only `/api/chats` and `/api/messages` projections, and the HTML inbox page are not modelled.
- **Outbound delivery.** The HTTP call that delivers a part is not modelled; delivery is appending to the ghost `outbox`. Per-part transport errors are swallowed by the server and change no state.
- **The language model.** The model call is an input outcome: text, empty text, or failure. The system prompt and the model parameters are not modelled. Trimming of the completion is assumed done.
- **Environment parsing.** Parsing the environment is left out. The mode, the admin token, `TAKEOVER_MIN` and whether a client exists are constructor arguments. A `BOT_MODE` other than `manual` or `off` behaves as `Auto`.
- **Canned texts.** The canned texts are fixed at construction as class constants. Their wording is carried over but nothing is proved about it beyond non-emptiness of the replies.
- **Time and concurrency.** Real timers, `Date.now` and async interleaving are abstracted. Handlers and callbacks run atomically, one at a time, and the clock advances only through `Tick`. So the model does not capture an interleaving in which a release callback, suspended at its `await`, deletes a newer auto-release entry armed meanwhile. `RunRelease` performs the callback's final `releaseTimers.delete` together with the un-pause, which is equivalent once the callback is atomic.
- **Messages from unrecognised event shapes.** An event with no message, or a message without a sender, is modelled as an absent sender. Text is taken as already trimmed. The catch-all 500 of `/api/send` and the webhook's catch are not modelled: nothing in the modelled steps throws.
- **Takeover minutes.** `/api/takeover` minutes are natural numbers or absent. `parseInt` of non-numeric or negative values is not modelled.
- SalesBot.Bot.ArmRelease: the due time is now plus `minutes * 60000` ms for every natural number of minutes. Node's `setTimeout` treats a delay above 2^31-1 ms (about 24.8 days, so more than 35791 minutes) as 1 ms and fires almost at once. The model does not capture that clamping, and neither do its callers `SalesBot.Bot.Pause`, `SalesBot.Bot.ApiSend`, `SalesBot.Bot.ApiTakeover` and `SalesBot.Bot.Webhook`.
- **Type coercion of ids.** Ids are strings. The coercion `String(waid)` versus the raw `waid` at `index.js:376-377` is not modelled.
- **The two-argument form of `scheduleFollowups`.** `scheduleFollowups(waid, to)` is modelled with the nudges sent to the owner of the record, which every call site passes as both arguments.
- **Queries on pending timers.** Pending timers are stated pointwise, through `NudgeDue` and `ReleaseDue`. No set of all pending timers is exposed.
