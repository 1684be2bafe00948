# Telegram executive-assistant bot: agent core

A model of the decision logic of a Telegram bot: a LangGraph agent that
talks to a chat model with tools. The model covers:

- the calendar-authorisation gatekeeper (`check_auth_status`, over the
  global `AUTH_STATE` dictionary and the shared `token.json` file);
- the voice pre-step of `handle_voice`: which attachment is used, the
  20 MiB size gate, and the meeting prefix added to long transcripts;
- the persona directive that `chatbot_node` builds and puts in front of
  the history;
- the `should_continue` router and the agent/tools graph;
- the checkpointer, which keeps one message history per chat thread;
- how `run_agent` picks an answer from the final message list;
- how `send_smart_response` delivers that answer: a report document,
  4096-character chunks, or one message.

The chat model, the tools, the clock and the OAuth exchange are oracles
passed in as parameters.

The modules follow the program's structure:

- `Text`: Python's `in` on strings and `str.strip()` with Python's
  whitespace set.
- `Messages`: the LangChain message kinds.
- `AgentAnswer`: `run_agent`.
- `Delivery`: `send_smart_response`.
- `Auth`: `check_auth_status`. The pure transition table is `Transition`;
  the stateful gatekeeper is `AuthGate`, proved against `Transition`.
- `Voice`: `handle_voice`.
- `Persona`: `chatbot_node`. Its in-place node state is `AgentState`.
- `Graph`: the compiled graph and its `Checkpointer`.

The answer selection is not a longest-text rule. It returns the last
message unless that is shorter than 500 characters. In that case it returns
the most recent non-user message longer than 500 characters, found by a
backward scan over the whole thread history.

Two branches of the source are unreachable, and the model proves it:

- The chunking branch of `send_smart_response` never runs, because any text
  longer than 4096 characters is already longer than 2000 and goes out as a
  document (`Delivery.Delivery`).
- The replace-in-place branch of `chatbot_node` never runs in a graph run,
  because no system message is ever stored in a thread. `Graph.Reachable`
  keeps `NoSystem`, so `Persona.ModelInput` always prepends.

## Model

| member | source | states |
|---|---|---|
| AgentAnswer.Failed | main.py:172 | the run failed to respond: no messages, or the user's message is last |
| AgentAnswer.IsLong | main.py:178 | a message the scan takes: not the user's, and over 500 characters |
| AgentAnswer.LastLongIndex | main.py:176-180 | the backward scan stops at the most recent non-user message longer than 500 characters, and finds none only when there is none |
| AgentAnswer.Answer | main.py:172-181 | an empty list or a user message last gives the failure text; a last message of 500 or more characters is returned; otherwise the most recent long non-user message, or the last message when there is none; a successful answer is always the content of some non-user message |
| AgentAnswer.RunAgent | main.py:168-183 | the reversed loop with `break` returns exactly `Answer` of the final messages, and an exception becomes `"Error: " + text` |
| AgentAnswer.TurnLongIndex | main.py:176-180 | the scan limited to the latest turn finds the most recent long message after the user's last message, or proves there is none |
| AgentAnswer.TurnAnswer | main.py:170-181 | corrected selection: the failure text, the last message when it has 500 or more characters, otherwise the most recent long message of the latest turn, or the last message when that turn has none; a successful answer is always a non-user message of the latest turn |
| AgentAnswer.StaleAnswerExample | main.py:170-181 | on a two-turn thread the as-written answer to the second turn is the first turn's report, while the corrected answer is the second turn's reply |
| Delivery.Delivery | main.py:135-155 | empty text sends nothing; a report (meeting-notes markers or over 2000 characters) sends the header then the document; anything else is one message; no chat message exceeds 4096 characters |
| Delivery.DeliveryCarriesText | main.py:141-155 | every non-empty answer reaches the chat whole, as a document exactly when it is a report |
| Delivery.IsMeetingNotes | main.py:138 | the text contains "# Executive Summary" or "###" |
| Delivery.IsReport | main.py:138-141 | the text is meeting notes or longer than 2000 characters |
| Delivery.Slice | main.py:153 | the Python slice `text[x:x+4096]`: a prefix of the rest of the text, at most 4096 long, shorter only at the end of the text |
| Delivery.ChunksFrom | main.py:152-153 | one slice for each offset of `range(x, len(text), 4096)`, in order |
| Delivery.Chunks | main.py:152-153 | the slices of the whole text join back to the text, each 1 to 4096 characters, none for an empty text |
| Delivery.ChunkMessages | main.py:151-153 | the chunking loop sends `Chunks(text)`, whose pieces join back to the text and are each 1 to 4096 characters long |
| Delivery.ChunksJoin | main.py:152-153 | the slices from offset `x` concatenate to `text[x..]` |
| Delivery.ChunksBounded | main.py:152-153 | each slice is non-empty and at most 4096 long; there are ceil((len - x) / 4096) of them, and none exactly at the end |
| Delivery.ChunkAt | main.py:152-153 | chunk `k` is the slice taken at offset `x + 4096 * k` |
| Delivery.MessagesOf | main.py:152-153 | one chat message per chunk, in order |
| Text.Strip | main.py:68 | the result has no leading or trailing Python whitespace and is the input with only whitespace cut from both ends |
| Text.Contains | main.py:138 | Python's `pat in s`: `pat` occurs in `s` as a contiguous substring |
| Text.ContainsOffset | main.py:138 | substring membership yields an offset where the pattern occurs |
| Text.ContainsAt | main.py:138 | an occurrence at any offset is substring membership |
| Auth.Transition | main.py:55-132 | the full transition table: token present passes unchanged; waiting with no text raises; a stripped reply under 10 characters is refused; a code exchange clears the user and writes the token; a failed exchange keeps waiting; otherwise the flow starts and the user waits, unless the credentials file is missing; other users are never touched |
| Auth.Waiting | main.py:67 | the user has an `AUTH_STATE` entry equal to the waiting marker |
| Auth.AuthGate.constructor | main.py:38 | the gatekeeper starts with an empty `AUTH_STATE` and the token file present or absent |
| Auth.AuthGate.CheckAuthStatus | main.py:55-132 | the in-place gatekeeper returns, notifies and updates `AUTH_STATE` and the token file exactly as `Transition` |
| Auth.TransitionKeepsOnlyWaiting | main.py:115 | `AUTH_STATE` only ever holds the waiting marker |
| Auth.TokenIsGlobal | main.py:63-64 | once one user's exchange succeeds, every later call by any user passes without change |
| Auth.RefusedMeansWaiting | main.py:105-132 | a refused user is left waiting for a code, unless the refusal is for missing credentials |
| Voice.Attachment | main.py:213-215 | the voice note when there is one, else the audio file, else nothing |
| Voice.PlanVoice | main.py:213-219 | nothing happens without an attachment; the voice note wins over the audio file; files over 20 MiB are refused; otherwise the chosen file is downloaded |
| Voice.AgentInput | main.py:229-234 | a transcript over 500 characters gets the meeting prefix, otherwise it is passed unchanged; the transcript always ends the input |
| Persona.Intro | graph.py:64-65 | the identity line of the template, with the bot name, personality and user name filled in |
| Persona.Context | graph.py:66-70 | the context block of the template, with the current time and the user location filled in |
| Persona.Rules | graph.py:71-77 | the five rules of the template, with the current time filled in rule 4 |
| Persona.PersonaText | graph.py:64-77 | the whole directive text, character for character the f-string: identity line, context block, rules |
| Persona.Directive | graph.py:79 | the persona as a system message holding `PersonaText` |
| Persona.IntroEmbeds | graph.py:65 | the identity line contains the bot name, personality and user name |
| Persona.ContextEmbeds | graph.py:67-69 | the context block contains the current time and the user location |
| Persona.PersonaEmbedsContext | graph.py:64-77 | the directive text contains all four configuration values and the current time |
| Persona.ModelInput | graph.py:82-86 | a history starting with a system message has it replaced by the directive; any other history gets the directive prepended |
| Persona.DirectiveIsSingle | graph.py:79-86 | for a history without system messages, the model input holds exactly one system message, the directive, in first place |
| Persona.SystemCountZero | graph.py:81-86 | a history without system messages counts none |
| Persona.AgentState.ChatbotNode | graph.py:51-91 | the node returns exactly the model's reply to the directive-led history and writes the state only when it replaces a stored directive |
| Graph.ShouldContinue | graph.py:95-99 | route to the tools exactly when the last reply requests tool calls |
| Graph.ToolResults | graph.py:93 | one tool message per requested call, in order, answering that call's id |
| Graph.Start | main.py:164-165 | a turn starts at the agent with the thread's history and the user's message appended |
| Graph.Step | graph.py:101-106 | one step keeps the run reachable (tools only after a reply requesting them, end only after one requesting none) and counts it |
| Graph.StepAppends | graph.py:101-106 | the agent appends exactly the model's reply to the directive-led history; the tools append their answers and hand back to the agent; the run ends only after an agent step |
| Graph.Run | graph.py:101-110 | the run observed for `n` steps stays reachable |
| Graph.RunExtends | graph.py:48-49 | a run only appends to the thread history, never a user message, and counts its steps until it ends |
| Graph.RunFinishedStable | graph.py:105 | once a run has ended, observing it longer changes nothing |
| Graph.RunCompose | graph.py:101-110 | observing a run for `n + m` steps is observing it for `n` steps and then `m` more from where it stood |
| Graph.FinishedTurn | main.py:169-181 | a finished turn keeps the stored history, follows it with the user's message, never takes the failure branch, and its corrected answer is a message of this turn |
| Graph.AgentStep | graph.py:51-91 | the in-place agent node on a fresh state computes the agent step of `Step` |
| Graph.ToolsStep | graph.py:93 | the tools node's loop over the requested calls, one tool message per call in order, computes the tools step of `Step` |
| Graph.Checkpointer.constructor | graph.py:109 | a fresh checkpointer holds no thread, so every thread is free of system messages |
| Graph.Checkpointer.History | main.py:164 | a known thread reads as its checkpoint, an unknown thread as empty |
| Graph.Checkpointer.Invoke | graph.py:108-110 | `ainvoke` on a thread runs the graph from its checkpoint, stores the resulting history for that thread only, and keeps every thread free of system messages |

## Left out

- Telegram I/O: three things are dropped entirely:
  - the typing indicator (main.py:166);
  - `handle_voice`'s status message, which is posted, then edited or deleted (main.py:222-234);
  - `handle_voice`'s error notice (main.py:239-240).
  The file download becomes `Voice.Download`. The report file upload, with its temporary timestamped file, becomes `Delivery.SendDocument`. The gatekeeper's chat messages become its `Auth.Notice` values.
- Whisper transcription, the chat model, the tools and the clock: oracles passed as parameters. `strftime` formatting is the `clock` function's business.
- The OAuth flow internals (`InstalledAppFlow`, `fetch_token`, the consent URL): reduced to `Auth.Env`.
- Environment lookups: `Persona.Config` with `DefaultConfig` stands for them.
- `calendar.py`, `database.py`, `memory.py` and `tools/memory.py`: not part of this model. They are tool bodies and storage behind the `tools` oracle. The oracle also hides an argument mismatch: tools/memory.py:20 calls `db_search(user_id, query)`, but the function it names at database.py:81 is `search_memory(query, match_threshold)`.
- LangGraph's `add_messages` merging of messages by id, and `MemorySaver` internals: a thread's history is a sequence that the graph only appends to.
- Concurrency and asyncio interleaving between chats: each call is atomic.
- Graph.ToolsStep: in the source, ToolNode starts the tool calls of one step concurrently and collects their results in call order. The model runs them one after another in call order. With pure tool oracles the results are the same.
- Graph.Checkpointer.Invoke: describes only the checkpoint left when the call returns, not the intermediate checkpoints written after each step.
- Graph.Run: the graph sets no step limit, so a run is observed for `n` steps rather than run to completion.
- Auth.Transition: any failure inside the code-exchange `try` counts as a failed exchange. It does not model a chat call failing after `token.json` is written and the user is removed from `AUTH_STATE`, for example `delete_message` raising. In that case the source returns False with the token already present.
- Auth.Transition: a malformed `credentials.json` when the flow starts raises an error other than `FileNotFoundError`, and the source does not catch it. The model only distinguishes a present file from a missing one.
- Voice.PlanVoice: a `file_size` of `None` is not modelled; sizes are natural numbers.
- Every LangChain message content is modelled as text; list-valued content is not.
- `setup_google_app`, the bot's `main`, and logging are not part of this model.

## Findings

| source | as written | input that shows it | evidently intended | confidence | as-written member | corrected member |
|---|---|---|---|---|---|---|
| main.py:170-181 | the backward scan runs over the whole thread history that the checkpointer returns. A short reply in a later turn is replaced by a long message from an earlier turn. | a thread holding a user message, a 600-character AI report, the user message "thanks", and the reply "You're welcome." | consider only messages produced after the user's latest message | medium, not executed | AgentAnswer.StaleAnswerExample | AgentAnswer.TurnAnswer |
