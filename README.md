# Chat session workflow, modelled in Dafny

This project models the conversation workflow of a chat service built on a
durable-execution runtime (`ClaudeChatWorkflow` in `workflows.py`). One
workflow instance owns one conversation: an append-only log of turns (role,
content, timestamp), the model name and output-token budget captured when the
run starts, the time of the last accepted activity, and whether the session is
still running. It is started with a first prompt, receives "send message" and
"end conversation" signals, wakes up periodically to close itself after thirty
idle minutes, and answers two read-only queries: the full history and the last
assistant reply.

Modules, leaf first:

- `Wrappers` — `Option`.
- `SharedModels` — the call input and response records and their defaults.
- `Retry` — the retry policy around the completion call: at most three
  attempts, the first attempt that answers wins.
- `Conversation` — turns, the history answer and its inverse, the history
  rendered for the completion call, the last-assistant scan, and `Process`,
  the value-level meaning of processing one user message.
- `Session` — the session as a value: `Begin` (start of `run`), `Step` (one
  event on a started session), `Replay` (events in order), the shape invariant
  `WellFormed`, the chronology of timestamps, and lemmas about all of them.
- `Workflows` — the class `ClaudeChatWorkflow`, whose fields the run method and
  the signal handlers update in place; each state-changing method is proved to
  move `State()` exactly as `Step` or `Begin`/`Replay` say.

Inputs that the source takes from its environment are parameters: the current
time (`workflow.now()`) is an integer number of seconds given to each
operation, and the completion call is a sequence of per-attempt outcomes
(`Some(response)` or `None` for a failed or timed-out attempt; entries past
the third are never used; missing entries count as failures).

Behaviour of the code worth noting:

- An exception that escapes a handler ends the workflow. `end_conversation`
  raises `ApplicationError`; a completion call that exhausts its retries raises
  out of `send_message` (or out of `run` for the first prompt) in the same way.
  So a failed exchange ends the session (`Ended(CallFailed)`), rather than
  leaving it active; the unanswered user turn stays in the log.
- The inactivity test is strict: the session closes when `now - last_activity`
  is more than 1800 seconds; at exactly 1800 it keeps polling.
- There is no intermediate closing phase: the end signal ends the session at once.
- `last_activity` is set once at the start, before the first prompt is
  processed, and afterwards only by a `send_message` whose call succeeded; the
  first exchange's reply does not refresh it.
- The polling wait waits on a condition that is never true, so signals do not
  cut it short; only the timer wakes the loop.

## Model

| member | source | states |
|---|---|---|
| SharedModels.DefaultInput | shared_models.py:6-10 | the call input built from a prompt alone carries the default model name and the 1024-token budget |
| Retry.FirstSuccess | workflows.py:133-137 | the result is absent exactly when every attempt failed; otherwise it is the response of an attempt all of whose predecessors failed |
| Retry.Made | workflows.py:133-134 | the attempts made are a prefix of the outcomes: all of them when fewer than three are given, otherwise exactly the first three |
| Retry.CallOutcome | workflows.py:133-157 | the retried call fails exactly when each of the first three attempts failed; on success it returns the first response among those three |
| Retry.SucceedsOnThirdAttempt | workflows.py:133-137 | two failures followed by a response yield that response |
| Retry.ExhaustedAfterThreeFailures | workflows.py:133-137 | three failures exhaust the budget whatever a fourth attempt would return |
| Conversation.RoleName | workflows.py:15-19 | the user role is spelled "user", the assistant role "assistant" |
| Conversation.ParseRole | workflows.py:15-19 | reading a role spelling inverts `RoleName`; any other text is refused |
| Conversation.History | workflows.py:99-102 | the history answer has one entry per turn, entry i carrying turn i's role name, content and timestamp |
| Conversation.FromHistory | workflows.py:99-102 | a history read back into turns has one turn per entry |
| Conversation.HistoryRoundTrip | workflows.py:99-102 | reading the history answer back yields exactly the stored turns, so the query loses nothing and keeps order |
| Conversation.HistoryAppend | workflows.py:99-102 | the history of a log extended by turns is the old history followed by the new turns' entries |
| Conversation.Rendered | workflows.py:141-144 | the history given to the completion call has one (role, content) pair per stored turn, in stored order |
| Conversation.RenderedIsHistoryWithoutTime | workflows.py:141-144 | each rendered pair agrees with the history answer's entry at the same position except for the timestamp |
| Conversation.RenderedAfterUserTurn | workflows.py:126-144 | once the new user turn is recorded, the rendered history is the previous one unchanged with that turn last |
| Conversation.LastAssistant | workflows.py:112-115 | absent exactly when no turn is an assistant turn; otherwise the content of an assistant turn after which only user turns follow |
| Conversation.LastAssistantAfterReply | workflows.py:160-164 | right after an assistant turn is appended, the last answer is that turn's content |
| Conversation.LastAssistantAfterUserTurn | workflows.py:126-130 | appending a user turn does not change the last answer |
| Conversation.Process | workflows.py:117-166 | processing a message keeps all earlier turns, appends the user turn with the given content and time, then exactly one assistant turn with the response text when the call succeeds and nothing more when it fails |
| Conversation.ProcessLastAssistant | workflows.py:160-166 | after a successful exchange the last answer is that exchange's reply; after a failed one it is unchanged |
| Session.Initial | workflows.py:24-29 | a fresh workflow has no turns, the default model and budget, activity time zero, and has not started |
| Session.Begin | workflows.py:37-44 | starting captures the input's model and budget and the start time as last activity, and records the turns of processing the first prompt (the prompt as a user turn at the start time, then the reply when there is one); the session is active exactly when the first call succeeds, and ended by the failure otherwise |
| Session.Step | workflows.py:47-89 | an event on a session that is not active changes nothing; no event changes the configuration or an existing turn; the phase only moves to an end; the activity time only moves on a successful message, to its reply time |
| Session.ReplayEnded | workflows.py:47-65 | once ended, a session ignores every later event |
| Session.ReplayAppendOnly | workflows.py:126-164 | over any run of events the earlier turns stay in place and the configuration is unchanged |
| Session.ReplayLastActivity | workflows.py:76-79 | after any run of events the activity time is the old one or the reply time of one of the successful message signals |
| Session.ReplayNoReplyKeepsActivity | workflows.py:76-79 | a run of events with no successful message signal leaves the activity time as it was |
| Session.ProcessAlternates | workflows.py:126-164 | processing a message on a log of complete pairs keeps roles alternating user, assistant |
| Session.BeginWellFormed | workflows.py:37-44 | the start yields one user/assistant pair when active, or a lone user turn after a failed call |
| Session.StepWellFormed | workflows.py:67-89 | each event keeps the log's shape: complete pairs while active, one unanswered user turn only after a failed call |
| Session.ReplayWellFormed | workflows.py:67-89 | the log's shape holds after any run of events |
| Session.ActiveLastIsAssistant | workflows.py:112-115 | while the session runs, the last-answer query returns the newest turn's content |
| Session.SendSucceeds | workflows.py:75-79 | a successful message appends exactly the user turn and the reply (two turns), sets the activity time to the reply time, keeps the session active, and makes the reply the last answer |
| Session.SendFails | workflows.py:75-79 | a message whose retries are exhausted keeps only the user turn, leaves the activity time unchanged, and ends the session |
| Session.TickEndsOnlyWhenExpired | workflows.py:51-58 | a wake-up ends the session exactly when more than 1800 seconds passed since the last activity, otherwise keeps it active, and never changes turns or the activity time |
| Session.EndStopsSession | workflows.py:83-89 | the end signal ends an active session and changes nothing else |
| Session.EndedIgnoresEvent | workflows.py:82-89 | an ended session ignores any single event, a message signal included |
| Session.StepChronological | workflows.py:126-164 | with event times not behind the clock, one event keeps turn times non-decreasing and none after the new clock |
| Session.ReplayChronological | workflows.py:126-164 | with a clock that never runs backwards, turn times never decrease, so each user turn precedes its reply and each reply the next user turn |
| Session.BeginChronological | workflows.py:40-44 | the start records its turns in time order, none after the reply time |
| Session.ConversationScenario | workflows.py:31-89 | start with "Hello", one more exchange, end: two then four turns, the second reply is the last answer, and a later message is ignored |
| Workflows.ClaudeChatWorkflow.constructor | workflows.py:24-29 | the new object is in the initial state |
| Workflows.ClaudeChatWorkflow.ProcessUserMessage | workflows.py:117-166 | the turns and reply are those of `Process`; the call is handed the whole stored history as (role, content) pairs with the new user message last |
| Workflows.ClaudeChatWorkflow.SendMessage | workflows.py:68-79 | on an active session the turns become those of `Process`; the activity time moves to the reply time only on success; a failed call ends the session; otherwise nothing changes |
| Workflows.ClaudeChatWorkflow.EndConversation | workflows.py:83-89 | only the phase changes: an active session becomes ended by the user |
| Workflows.ClaudeChatWorkflow.WakeUp | workflows.py:48-58 | polling continues exactly when the session is active and at most 1800 seconds passed since the last activity; otherwise an active session ends as inactive; only the phase may change |
| Workflows.ClaudeChatWorkflow.Run | workflows.py:32-65 | the object ends in the state obtained by starting with the input and applying the delivered events in order, and keeps the log's shape |
| Workflows.ClaudeChatWorkflow.GetConversationHistory | workflows.py:92-102 | one (role, content, timestamp) entry per stored turn, in stored order, reading only |
| Workflows.ClaudeChatWorkflow.GetLastAssistantMessage | workflows.py:105-115 | the backward scan returns the last assistant turn's content, and nothing exactly when every turn is a user turn; it changes nothing |

## Left out

- Interleaving at await points: the runtime runs signal handlers as separate coroutines, so a wake-up or a second message could be handled while a completion call is in flight. The model handles each event completely before the next, as if the runtime delivered them one at a time.
- Signals that arrive before `run` has started (a slow worker, or signal-with-start) are passed by the runtime to `send_message` in the first activation, where they run against the default model and budget of workflows.py:27-28. The model simplifies this case to a no-op. Signals to a workflow that has closed are refused by the runtime; the model treats them as no-ops too.
- The per-attempt 30-second timeout and the retry backoff (1 second initial, 10 seconds maximum) are not timed; a timed-out attempt is one failed outcome. The 5-minute polling interval is not enforced between wake-up times.
- Timestamps are integer seconds instead of floating-point seconds.
- The `conversation_id` field is never set beyond `None` and is not modelled; nor is the response's `request_id`, which the workflow never reads.
- The `CancelledError` branches of `run` (lines 59-65) are not reachable from the code shown: nothing in it raises cancellation.
- As written, building the call input at workflows.py:149-154 raises `TypeError`: it passes a `conversation_history` keyword that the `ClaudePromptInput` dataclass (shared_models.py:6-10) does not declare. This happens after the user turn is appended and before the activity is scheduled. `TypeError` is not a runtime failure error, so the workflow task fails and is retried, and no exchange ever completes. The model describes the evidently intended call instead: the input is built and the call made, and the history is kept as a separate value (`ProcessUserMessage`'s `history`).
- The completion activity (activities.py) is not part of this model beyond its outcome; it sends only the current prompt, not the history.
- app.py (HTTP routing, request defaults, polling by sleeping then querying) and worker.py (TLS, credentials, worker registration) are not part of this model.
