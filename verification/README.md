# hire-smart-chat, modelled in Dafny

hire-smart-chat screens job candidates over WhatsApp. It has three parts:

- A Python service (`app.py`) runs a per-sender questionnaire behind the `/ask` endpoint. Each sender has a session, made of the step they are on and the answers so far. One message is handled in this order:
  1. The FAQ table is consulted first. An FAQ hit answers and repeats the current question, and the session stays where it is.
  2. At the first step a keyword gate, scored by fuzzy matching, may swallow the message. The reply is then `null`.
  3. Otherwise the stripped message is recorded under the current step, and the session moves to the next step.
  4. After the last step the session is deleted and the sentinel `__COMPLETE__` is returned.
- A Node relay (`server.js`) sits between WhatsApp and that service:
  - It runs an outreach campaign when the client becomes ready: every start message to every number, number by number.
  - It normalises chat ids.
  - It forwards each incoming message to `/ask`. The answer goes to the user, becomes an admin notice on completion, or becomes an admin alert on error.
  - It counts active chats.
- A React dashboard holds five pieces:
  - the flow editor with its CSV export;
  - the phone-number upload with its campaign guard;
  - the conversation-log page with block, export and auto-selection;
  - the candidate record written to the database;
  - a socket.io client service with a listener registry and a reconnect counter.

The project has one module per file:

- `common.dfy`: `Common`, with Option, Result, filter and map.
- `text.dfy`: `Text`, with strip, case, substring, split and join.
- `dict.dfy`: `PyDict`, an insertion-ordered Python dict, kept as a key order plus a map.
- `screening.dfy`: `Screening`, the `/ask` state machine as a function `Transition`, plus a class `Engine` whose `Ask` method updates the state in place.
- `screening_facts.dfy`: `ScreeningFacts`, the properties of the state machine.
- `relay.dfy`: `Relay`, the relay. Its mutable `isConnected` and the messages it sends live in a class. The campaign is a nested loop proved against a specification function.
- `flow_editor.dfy`: `FlowEditor`.
- `numbers_upload.dfy`: `NumbersUpload`.
- `bot_logs.dfy`: `BotLogs`.
- `candidates.dfy`: `Candidates`.
- `service.dfy`: `WhatsApp`, the client service as a class.
- `integration.dfy`: `Integration`, which ties the parts together:
  - the relay's view of a `/ask` call;
  - the active-chat count across a call;
  - the editor's default flow, read back by the bot as its flow table;
  - the candidate records built from sessions under that flow.

  Nothing in the code carries the editor's rows to the bot. The bot reads `data.csv` (app.py:13, 25), and the editor only downloads `conversation_flow.csv`. `Candidates.StoreCandidate` has no caller either. The `Integration` lemmas therefore ASSUME two things: that `data.csv` is the editor's export, read back cell for cell, and that the stored answers are handed to `storeCandidate`.

Some behaviour comes from outside the code and is passed in as parameters or outcomes:

- the libraries `fuzz.partial_ratio` and `str.format`;
- the file system, the WhatsApp client, HTTP calls and the clock;
- whether a given send throws.

Where the code and its documented intent differ, the model follows the code:

- The answer that passes the keyword gate is stored under `interest` like any other answer.
- Completing the flow removes the sender's entry. There is no terminal state.
- Nothing computes a qualification. A candidate is `qualified` only when its answers carry a truthy `qualified` value, and the screening bot never stores one unless the flow has such a step.
- The campaign's `try` wraps both loops, so the first failing send abandons every send after it.
- An FAQ hit while the sender is on a step whose question cell is empty raises. An empty cell is NaN once pandas reads the CSV, and `reply + "\n\n" + NaN` fails. The editor's default flow has an empty question for `interest`. So if that flow is loaded as `data.csv`, an FAQ hit at the gate ends in the relay's admin alert (`Integration.FaqOnDefaultGateFails`).

## Model

| member | source | states |
|---|---|---|
| Common.Filter | src/pages/BotLogsPage.tsx:57-58 | the kept elements are exactly the input elements that satisfy the predicate, no more of them than the input has |
| Common.FilterConcat | src/pages/BotLogsPage.tsx:57-58 | filtering distributes over concatenation, so the kept elements keep their relative order |
| Common.FilterAll | server.js:152 | a filter whose predicate holds everywhere returns the whole sequence |
| Common.Map | server.js:151 | the result has the input's length and holds the function applied to each element at the same position |
| Common.MapConcat | server.js:149-151 | mapping distributes over concatenation |
| Text.TrimStart | app.py:63 | the result is a suffix of the input, everything removed is whitespace, and it starts with a non-space (or is empty exactly for blank input) |
| Text.TrimEnd | app.py:63 | the result is a prefix of the input, everything removed is whitespace, and it ends with a non-space (or is empty exactly for blank input) |
| Text.Trim | app.py:63 | the result occurs inside the input, has no whitespace at either end, and is empty exactly when the input is blank; TrimStripsWhitespace adds that what is removed is whitespace |
| Text.TrimStripsWhitespace | app.py:63 | the result sits in the input with only whitespace before it and only whitespace after it, so strip removes exactly the whitespace at both ends |
| Text.TrimTight | server.js:151 | a string with no whitespace at its ends is its own trim |
| Text.TrimIdempotent | app.py:63 | stripping twice is stripping once |
| Text.Lower | app.py:46-51 | same length, each character lowered, no upper-case ASCII letter left |
| Text.Upper | src/pages/BotLogsPage.tsx:83 | same length, each character raised, no lower-case ASCII letter left |
| Text.Contains | app.py:51 | true exactly when the pattern occurs at some index of the text |
| Text.ContainsSuffix | server.js:169 | every string contains each of its suffixes |
| Text.Split | server.js:150 | at least one piece, no piece holds the separator, and the first piece is the prefix up to the first separator |
| Text.JoinSplit | server.js:150 | joining the pieces of a split with the separator rebuilds the text |
| Text.SplitNoSeparator | server.js:150 | a text without the separator splits into itself alone |
| Text.SplitConcat | server.js:150 | splitting `a + c + b` gives the pieces of `a` followed by the pieces of `b` |
| Text.SplitJoin | src/pages/BotLogsPage.tsx:82-84 | splitting a join of separator-free pieces gives the pieces back |
| Text.BeforeFirst | src/services/candidateService.ts:15 | the result is the prefix of the text up to the first `@` (all of it when there is none) and contains no `@` |
| PyDict.Dict.Put | app.py:84 | `d[k] = v` makes `k` read `v` and leaves every other key as it was; an existing key keeps its position and a new one goes last |
| PyDict.Dict.Items | app.py:95 | `items()` yields one pair per key, in insertion order, each with that key's value |
| PyDict.Dict.PairsOf | app.py:95 | the pairs of the given keys, in that order, each with the key's value |
| PyDict.PutKeys | app.py:84 | after `d[k] = v` the keys are the old keys and `k` |
| PyDict.Empty | app.py:66 | `{}` is a valid dict with no keys |
| PyDict.FromPairs | app.py:32 | `dict(zip(keys, values))` holds exactly the keys that occur among the pairs |
| PyDict.FromPairsLastWins | app.py:32 | a key maps to the value of the last pair with that key |
| PyDict.Keys | app.py:32 | the keys of the pairs in order |
| PyDict.FromPairsOrder | app.py:32 | with distinct keys, iteration order is the order of the pairs |
| Screening.FreshSession | app.py:66 | the default session is on `interest` with no answers |
| Screening.StepOrder | app.py:27 | `step_order` lists the step names of the flow rows, in row order |
| Screening.StepMap | app.py:28 | `step_map` has exactly the names of `step_order` as keys, each mapped to a row with that name |
| Screening.StepMapDistinct | app.py:28 | with distinct names, each row is found under its own name |
| Screening.IndexOf | app.py:68 | `list.index`: fails exactly when the name is absent, otherwise the first position holding it |
| Screening.IndexOfDistinct | app.py:68 | with distinct names, the name at position `i` is found at `i` |
| Screening.AnyKeyword | app.py:45-46 | true exactly when some keyword scores above 70 against the lowered message |
| Screening.FuzzyMatch | app.py:42-46 | an empty or NaN match string accepts everything; otherwise true exactly when some `|`-separated lowered keyword scores above 70 against the lowered message |
| Screening.FirstFaq | app.py:50-53 | the position of a key contained in the message, with no earlier key contained, or none when no key is contained |
| Screening.DetectFaq | app.py:48-53 | the loop with early return yields the first FAQ key, in iteration order, whose lowered form occurs in the lowered message, or None |
| Screening.SummaryLines | app.py:95 | one `key: value` line per answer, in the dict's order |
| Screening.Decide | app.py:67-109 | the call fails on an unknown step exactly when the session's step is not in `step_order`; an advance moves to the name right after the current index and a finish happens only at the last index |
| Screening.Answer | app.py:71-81 | with the step at index `i`, an FAQ hit or the gate answers without advancing, and any advance lands on index `i + 1` |
| Screening.Record | app.py:84-109 | recording never gives an FAQ or gate reply; it advances to `step_order[i + 1]` or finishes only when `i` is the last index |
| Screening.Apply | app.py:105-112 | a failure saves nothing, and writing a decision leaves every other sender's entry as it was |
| Screening.Transition | app.py:59-118 | one `/ask` call keeps the state well formed, saves nothing on failure, and never touches another sender's entry |
| Screening.Engine.constructor | app.py:20-22 | the state file starts as `{}` |
| Screening.Engine.Ask | app.py:59-118 | the in-place update of the state and the reply are exactly those of `Transition` |
| Screening.Engine.Choose | app.py:67-109 | the lookups, FAQ check, gate and advance decide what `Decide` specifies |
| ScreeningFacts.RecordedAnswers | app.py:84 | the answers after recording stay a valid ordered dict |
| ScreeningFacts.MessageIsTrimmed | app.py:63 | a raw message and its stripped form have the same effect |
| ScreeningFacts.Seeded | app.py:66 | the state with the default entry for the sender, all other entries kept |
| ScreeningFacts.ResultDependsOnOwnSession | app.py:65-66 | the reply depends on the state only through the sender's own session |
| ScreeningFacts.UnknownSenderStartsAtInterest | app.py:66 | a sender without an entry gets the same reply as one on `{"step": "interest", "answers": {}}`, and the same state unless nothing was written |
| ScreeningFacts.ApplySeeded | app.py:66 | writing over a seeded entry gives the same reply, and the same state whenever the entry is written or removed |
| ScreeningFacts.FaqAnswersWithoutAdvancing | app.py:71-75 | on an FAQ hit the reply is the FAQ answer, a blank line and the current question, and the state is unchanged, even at the gate |
| ScreeningFacts.FaqDecision | app.py:71-75 | an FAQ hit on a known step with a text question decides that reply |
| ScreeningFacts.GateSwallowsNonMatching | app.py:78-81 | at index 0 a message with no FAQ hit that fails the gate gets a null reply and the state is unchanged |
| ScreeningFacts.AdvancesOneStep | app.py:84-112 | on a non-final step the reply is the next question filled in, the sender moves to exactly `step_order[i + 1]` with the message stored under the current step, and only that entry is written |
| ScreeningFacts.AdvanceDecision | app.py:84-92 | an accepted message on a non-final step decides an advance to `step_order[i + 1]` with the answers updated |
| ScreeningFacts.CompletesAfterLastStep | app.py:93-109 | after the last step the reply is `__COMPLETE__`, the admin summary of all answers is posted, and the sender's entry alone is removed |
| ScreeningFacts.FinishDecision | app.py:93-106 | an accepted message on the last step decides a finish with the admin summary of the updated answers |
| ScreeningFacts.StepsStayInFlow | app.py:86-89 | invariant: every stored step is a name of the flow, before and after any call |
| ScreeningFacts.NoUnknownStep | app.py:68 | while that invariant holds and the flow has `interest`, `step_order.index` never fails |
| ScreeningFacts.AdvanceRecordsMessage | app.py:84 | an advance stores the message under the current step, keeping the earlier answers |
| ScreeningFacts.AnswersStayInFlow | app.py:84 | invariant: every stored answer is filed under a step name of the flow |
| ScreeningFacts.ApplyAnswersInFlow | app.py:106-111 | writing a decision whose answers are filed under flow steps keeps that invariant |
| ScreeningFacts.StepIndexIncreasesByOne | app.py:86-89 | with distinct step names, a call leaves the state unchanged, removes the sender after the last step, or moves the sender's index up by exactly one |
| ScreeningFacts.IndexOfNext | app.py:88 | among distinct names the name at `i + 1` is found at `i + 1` |
| ScreeningFacts.ApplyMovesOne | app.py:86-106 | writing a decision that moves to index `i + 1` leaves the sender one index further, or removed at the end |
| ScreeningFacts.RepeatedStepNameMovesBack | app.py:68-89 | with a repeated step name the index can move backwards: in the flow `a, b, a, c` a sender on `b` is sent back to index 0 |
| ScreeningFacts.RepeatedFlowOrder | app.py:27-28 | the step order of that flow and where `a` and `b` are first found |
| Relay.ChatId | server.js:169 | the result contains `@c.us` and extends the number, and equals the number exactly when the number already contains `@c.us` |
| Relay.ChatIdIdempotent | server.js:169 | normalising twice is normalising once |
| Relay.ParseLines | server.js:149-152 | every parsed line is non-empty, trimmed and without a newline |
| Relay.TrimInside | server.js:151 | trimming adds no character |
| Relay.ParseLinesJoin | server.js:163-166 | trimmed non-empty lines written one per line parse back to themselves, in order |
| Relay.ParseLinesConcat | server.js:149-152 | the lines of two blocks separated by a newline are the lines of the first followed by those of the second |
| Relay.StartMessages | server.js:146-159 | the file's parsed lines when it exists, the three default messages in order when it does not, none when reading throws |
| Relay.NumberSends | server.js:169-173 | one send per start message, in order, all to the normalised chat id |
| Relay.CampaignPlanLength | server.js:168-174 | N numbers and M messages make N * M sends |
| Relay.CampaignPlanConcat | server.js:168-174 | the campaign for two lists of numbers is their two campaigns in sequence |
| Relay.CampaignPlanAt | server.js:168-174 | send `i * M + j` is message `j` to number `i` (number-major, message-minor) |
| Relay.CampaignPlanAround | server.js:168-174 | the campaign is the part before number `i`, number `i`'s sends, and the part after |
| Relay.Campaign | server.js:146-178 | nothing is sent when `numbers.txt` is absent or a file cannot be read; otherwise every start message (the defaults when the file is missing) to every parsed number |
| Relay.AttemptedShape | server.js:147-178 | the sends attempted are a prefix of the plan: all of it when nothing fails, else ending at the first failing send |
| Relay.AttemptedClean | server.js:147-178 | a failure-free block is attempted in full and the rest is attempted after it |
| Relay.AttemptedAll | server.js:147-178 | without a failure every send is attempted |
| Relay.AttemptedStops | server.js:147-178 | after a failing send nothing more is attempted |
| Relay.AttemptedUpTo | server.js:170-173 | a block whose first failure is send `j` is attempted up to and including `j` |
| Relay.CampaignFrom | server.js:168-174 | the campaign from number `i` is that number's sends followed by the campaign for the numbers after it |
| Relay.CampaignStepClean | server.js:168-178 | when none of number `i`'s sends fails, the outer loop goes on with the next number |
| Relay.CampaignStepStops | server.js:168-178 | when one of number `i`'s sends fails, nothing after that number's failing send is attempted |
| Relay.CampaignStep | server.js:168-178 | one round of the outer loop, stated against what was sent before it |
| Relay.MessageSends | server.js:188-215 | a reply reaches the sender only when it is non-empty text other than `__COMPLETE__`; completion sends exactly one admin notice with the number before `@`; a relayed reply or completion notice is the only send unless it throws, and then the error alert follows it; a bot error sends exactly the admin alert and no reply; a null or empty reply sends nothing |
| Relay.NotifyStatus | server.js:234-243 | 200 exactly when the admin message is sent, 500 exactly when sending throws |
| Relay.ActiveChats | server.js:218-231 | the number of keys in the state file, or 0 when it is missing or unreadable |
| Relay.Relay.constructor | server.js:30 | the relay starts disconnected, with nothing sent |
| Relay.Relay.OnReady | server.js:140-179 | the client is marked connected and the messages sent are exactly the campaign's sends up to and including the first failing one |
| Relay.Relay.RunCampaign | server.js:168-174 | the nested loops send exactly the attempted prefix of the number-major campaign |
| Relay.Relay.SendNumber | server.js:170-173 | the inner loop sends one number's messages in order up to the first failure, and reports exactly whether one failed |
| Relay.Relay.OnMessage | server.js:188-215 | the messages sent are exactly those `MessageSends` prescribes for the bot's answer |
| Relay.Relay.Notify | server.js:234-243 | the admin message is sent and the status is that of `NotifyStatus` |
| FlowEditor.Names | src/components/ConversationFlow.tsx:11-16 | the step names of the rows, in order |
| FlowEditor.DefaultFlowShape | src/components/ConversationFlow.tsx:19-27 | the default flow is `interest, company, notice, ctc, product, experience, cv`, with distinct names, and only `interest` has keywords |
| FlowEditor.DefaultNames | src/components/ConversationFlow.tsx:19-27 | the step names of the default flow |
| FlowEditor.DefaultNamesDistinct | src/components/ConversationFlow.tsx:19-27 | those seven names are pairwise distinct |
| FlowEditor.SetEditing | src/components/ConversationFlow.tsx:33-42 | `handleEdit`/`handleSave` set `editing` only on the row at `index`; the length, that row's fields and every other row stay |
| FlowEditor.Change | src/components/ConversationFlow.tsx:61-65 | only the named field of the row at `index` takes the value; its other fields and every other row stay |
| FlowEditor.DeleteRemovesOne | src/components/ConversationFlow.tsx:50-53 | deleting removes exactly the row at `index`: one row fewer, the others in their order |
| FlowEditor.DeleteNone | src/components/ConversationFlow.tsx:52 | a negative index removes nothing |
| FlowEditor.AddNew | src/components/ConversationFlow.tsx:67-79 | a draft whose step or question is blank leaves the editor unchanged; otherwise it is appended and the draft reset to empty fields |
| FlowEditor.AddNewThenAgain | src/components/ConversationFlow.tsx:67-79 | an accepted add grows the flow by one, and adding again with the reset draft changes nothing |
| FlowEditor.CsvRows | src/components/ConversationFlow.tsx:90-91 | one CSV line per row, in order |
| FlowEditor.ExportLines | src/components/ConversationFlow.tsx:89-92 | read back line by line, the export is the header `step,match,ask` followed by one `step,"match","ask"` line per row: flow length + 1 lines |
| FlowEditor.HeaderThenLines | src/components/ConversationFlow.tsx:89-92 | a header and newline-joined lines split back into the header and those lines |
| FlowEditor.SetEditingKeepsExport | src/components/ConversationFlow.tsx:33-42 | editing flags do not change the exported text |
| FlowEditor.DeleteRemovesLine | src/components/ConversationFlow.tsx:50-53 | deleting a row removes exactly its line from the export |
| NumbersUpload.DropCR | src/components/NumbersUpload.tsx:29 | at most one trailing carriage return is removed |
| NumbersUpload.DropSeparatorCRs | src/components/NumbersUpload.tsx:29 | splitting on `\r?\n` drops the carriage return before each separator and keeps the number of pieces |
| NumbersUpload.ParseNumbers | src/components/NumbersUpload.tsx:29 | every number is a non-blank line without a newline |
| NumbersUpload.DropSeparatorCRsKeeps | src/components/NumbersUpload.tsx:29 | dropping separator carriage returns adds no newline |
| NumbersUpload.WithCRs | src/components/NumbersUpload.tsx:52 | a Windows line end on every line but the last |
| NumbersUpload.ParseJoined | src/components/NumbersUpload.tsx:52 | non-blank lines joined with `\n` or `\r\n` parse back to the same lines, untrimmed and in order |
| NumbersUpload.DropCRsOfPlain | src/components/NumbersUpload.tsx:52 | lines without a trailing carriage return are kept as they are |
| NumbersUpload.DropCRsOfWithCRs | src/components/NumbersUpload.tsx:52 | the added carriage returns are exactly the ones dropped |
| NumbersUpload.JoinWithCRs | src/components/NumbersUpload.tsx:52 | joining with `\r\n` is joining the carriage-returned lines with `\n` |
| NumbersUpload.WithCRsNoNewline | src/components/NumbersUpload.tsx:52 | adding carriage returns adds no newline |
| NumbersUpload.FilledTextHasNumbers | src/components/NumbersUpload.tsx:43-52 | text that is not blank yields at least one number |
| NumbersUpload.BlankDropCRs | src/components/NumbersUpload.tsx:43-52 | pieces blank after dropping carriage returns were blank before |
| NumbersUpload.BlankDropCR | src/components/NumbersUpload.tsx:29 | a line blank after dropping its carriage return was blank before |
| NumbersUpload.JoinBlank | src/components/NumbersUpload.tsx:43-52 | blank pieces joined by a blank separator make blank text |
| NumbersUpload.FileUpload | src/components/NumbersUpload.tsx:18-40 | no file changes nothing; a read file replaces the list with its parsed numbers and ends the upload |
| NumbersUpload.PasteNumbers | src/components/NumbersUpload.tsx:42-60 | blank text is refused and nothing changes; otherwise the parsed numbers replace the list (never empty) and the box is cleared |
| NumbersUpload.ClearNumbers | src/components/NumbersUpload.tsx:62-63 | the list becomes empty and nothing else changes |
| NumbersUpload.StartCampaign | src/components/NumbersUpload.tsx:71-88 | refused exactly when there are no numbers; otherwise started with the whole list |
| NumbersUpload.PasteThenStart | src/components/NumbersUpload.tsx:42-79 | after a successful paste the campaign can start; after a clear it cannot |
| BotLogs.ActiveConversations | src/pages/BotLogsPage.tsx:57 | the active tab holds exactly the conversations with status `active` |
| BotLogs.CompletedConversations | src/pages/BotLogsPage.tsx:58 | the completed tab holds exactly the conversations with status `completed` |
| BotLogs.Find | src/pages/BotLogsPage.tsx:60 | the first conversation with the selected id, or none exactly when no conversation has it |
| BotLogs.Block | src/pages/BotLogsPage.tsx:69-71 | same length; status `blocked` exactly on the conversations with the id, every other conversation unchanged |
| BotLogs.BlockUser | src/pages/BotLogsPage.tsx:67-76 | the conversations are blocked as above, and the selection is cleared exactly when it was that id |
| BotLogs.Without | src/pages/BotLogsPage.tsx:69-71 | exactly the conversations without the id, in order |
| BotLogs.BlockLeavesActive | src/pages/BotLogsPage.tsx:57-71 | after blocking, the active tab is the old active tab without that id, in order |
| BotLogs.BlockLeavesCompleted | src/pages/BotLogsPage.tsx:58-71 | after blocking, the completed tab is the old completed tab without that id, in order |
| BotLogs.WithoutConcat | src/pages/BotLogsPage.tsx:69-71 | removing an id distributes over concatenation |
| BotLogs.BlockedOnNoTab | src/pages/BotLogsPage.tsx:57-71 | a blocked conversation is on neither tab |
| BotLogs.LogLines | src/pages/BotLogsPage.tsx:82-83 | one `[timestamp] ROLE: message` line per message, in order |
| BotLogs.Export | src/pages/BotLogsPage.tsx:78-94 | nothing exactly when no conversation is on show; otherwise a file named `conversation_<phoneNumber>.txt` |
| BotLogs.UpperNoNewline | src/pages/BotLogsPage.tsx:83 | upper-casing adds no line break |
| BotLogs.ExportLines | src/pages/BotLogsPage.tsx:82-84 | read back line by line, the export has one `[timestamp] ROLE: message` line per message, role upper-cased, in flow order |
| BotLogs.AutoSelect | src/pages/BotLogsPage.tsx:96-100 | with conversations and no selection the first id is selected; otherwise the page is unchanged |
| BotLogs.AutoSelectShowsFirst | src/pages/BotLogsPage.tsx:96-100 | the effect settles after one run and shows the first conversation whenever its id is not empty |
| BotLogs.BlockSelectedReselectsFirst | src/pages/BotLogsPage.tsx:67-100 | blocking the selected conversation clears the selection, and the effect then selects the first conversation again |
| Candidates.Prop | src/services/candidateService.ts:16-20 | a present property reads its value; a missing one reads as `undefined` |
| Candidates.Record | src/services/candidateService.ts:14-22 | phone is `sender.split('@')[0]`, the whole part before the first `@`; name is the company, or `Unknown` when that is falsy; `qualified` exactly when `answers.qualified` is truthy; status `new`; experience, ctc and notice copied |
| Candidates.StoreCandidate | src/services/candidateService.ts:12-37 | a store error reaches the caller with its message; otherwise the row for that phone is replaced by the record |
| Candidates.StoreKeepsOneRowPerPhone | src/services/candidateService.ts:23-25 | the upsert keeps one row per phone, adds at most one row, and the last store wins |
| Candidates.SameNumberSameRow | src/services/candidateService.ts:15-25 | two chat ids with the same number update the same row |
| Candidates.BeforeFirstAt | src/services/candidateService.ts:15 | the number of `number@host` is `number` |
| Candidates.ScreeningAnswersNeverQualify | src/services/candidateService.ts:20 | string answers without a `qualified` key never make a qualified candidate |
| Candidates.AsJs | src/services/candidateService.ts:12 | string answers become JavaScript strings under the same keys |
| WhatsApp.Add | src/services/whatsappService.ts:178 | `set.add`: the members are the old ones and the callback, no duplicates, unchanged when already present |
| WhatsApp.Remove | src/services/whatsappService.ts:183 | `set.delete`: the members are the old ones without the callback, no duplicates, unchanged when absent |
| WhatsApp.AddTwice | src/services/whatsappService.ts:178 | adding the same callback twice keeps one copy |
| WhatsApp.RemoveAfterAdd | src/services/whatsappService.ts:178-183 | removing a callback just added restores the set |
| WhatsApp.RemoveAppend | src/services/whatsappService.ts:183 | removing the last-added callback restores the set |
| WhatsApp.Calls | src/services/whatsappService.ts:187 | one call per registered callback, in iteration order, each with the data |
| WhatsApp.CallsAppend | src/services/whatsappService.ts:187 | the calls of a set with one more callback end with that callback's call |
| WhatsApp.CalledOnce | src/services/whatsappService.ts:187 | every registered callback is called |
| WhatsApp.DefaultListeners | src/services/whatsappService.ts:22-28 | exactly the five events qrCode, connectionStatus, authenticated, serverStatus and error, each with an empty set |
| WhatsApp.WhatsAppService.constructor | src/services/whatsappService.ts:14-29 | the five default events with empty sets, no socket and no attempts |
| WhatsApp.WhatsAppService.On | src/services/whatsappService.ts:174-180 | the event's set is created if absent and the callback added; the returned handle names that callback; nothing else changes |
| WhatsApp.WhatsAppService.Off | src/services/whatsappService.ts:182-184 | only that callback leaves that event's set; unknown events change nothing |
| WhatsApp.WhatsAppService.Unsubscribe | src/services/whatsappService.ts:179 | the handle returned by `on` removes exactly that callback |
| WhatsApp.WhatsAppService.NotifyListeners | src/services/whatsappService.ts:186-188 | each callback of the event is called once, in registration order; unknown events call nothing; the registry is unchanged |
| WhatsApp.WhatsAppService.Connect | src/services/whatsappService.ts:31-98 | nothing while connected; in preview mode no socket is made and an error and both servers down are reported; otherwise a socket is made, or the error reported when that throws |
| WhatsApp.WhatsAppService.OnConnect | src/services/whatsappService.ts:53-56 | the socket is connected and the attempt count is back to 0 |
| WhatsApp.WhatsAppService.OnConnectError | src/services/whatsappService.ts:58-71 | the socket is left not connected, the count grows by one, the error is reported, and both servers are reported down once the count reaches 3 |
| WhatsApp.WhatsAppService.OnDisconnect | src/services/whatsappService.ts:89-91 | a dropped connection leaves the socket not connected, so the next `connect` or `initialize` makes a new one; the handler only logs, so nothing else changes |
| WhatsApp.WhatsAppService.OnServerEvent | src/services/whatsappService.ts:73-87 | a server event is passed to that event's listeners under the same name (`authenticated` with no data) |
| WhatsApp.WhatsAppService.Initialize | src/services/whatsappService.ts:100-118 | the attempt count stays in both modes. In preview mode only an error is reported. A connected socket is kept and nothing is reported. Without one, a new socket is made, or, when making it throws, the connection error is reported and the socket stays as it was. `initialize` is emitted exactly when a socket exists |
| WhatsApp.WhatsAppService.Disconnect | src/services/whatsappService.ts:167-172 | the socket is gone and nothing else changes |
| WhatsApp.WhatsAppService.GetStatus | src/services/whatsappService.ts:190-203 | not connected in preview mode or when the request fails, else the server's answer |
| WhatsApp.WhatsAppService.GetServerStatus | src/services/whatsappService.ts:205-218 | both servers down in preview mode or when the request fails, else the server's answer |
| Integration.AnswerOf | server.js:193-199 | a server error of `/ask` is a thrown HTTP error for the relay, otherwise the relay sees the reply field |
| Integration.CallSends | app.py:95-101 | on completion the summary posted to `/notify` is sent to the admin first, then the message handler's sends for the answer; otherwise only the message handler's sends |
| Integration.RelayOfTransition | server.js:188-215 | across both services: a failed call produces only the admin alert; a completed conversation has no entry left, its reply is the sentinel, and when no send throws the admin receives the summary and then the completion notice and the user nothing; a user reply is never the sentinel |
| Integration.ApplySends | app.py:106-111 | the same sends, stated for writing any one decision |
| Integration.ActiveChatsAcrossCall | server.js:218-231 | across one `/ask` call the active-chat count moves by at most one, up only for a new sender and down only when a stored sender completes |
| Integration.ApplyActiveChats | server.js:222 | the same bound across writing one decision |
| Integration.ApplyCount | app.py:106-111 | writing a decision adds the sender's entry, removes it, or leaves the keys as they were |
| Integration.CellOf | src/components/ConversationFlow.tsx:89-92 | assuming the export is read back cell for cell: an empty exported cell reads as NaN, any other as its text |
| Integration.Loaded | app.py:25-26 | the flow table read from the editor's rows, assuming the export is read back cell for cell: one row per editor row, with the same name, keywords and question |
| Integration.DefaultFlowLoaded | src/components/ConversationFlow.tsx:19-27 | the loaded default flow has seven distinct steps with `interest` first |
| Integration.LoadedNames | app.py:27 | loading keeps the step names in order |
| Integration.DefaultFlowRuns | app.py:59-118 | under the default flow no call fails on an unknown step, steps stay in the flow, and a sender moves forward by at most one step |
| Integration.FaqOnDefaultGateFails | app.py:71-75 | under the default flow an FAQ hit at `interest` raises, saves nothing, and the relay alerts the admin |
| Integration.DefaultGate | src/components/ConversationFlow.tsx:20 | `interest` is at index 0 of the loaded default flow and its question is NaN |
| Integration.FaqOnMissingQuestion | app.py:75 | an FAQ hit on a step whose question is NaN raises |
| Integration.DefaultFlowCandidatesNotQualified | src/services/candidateService.ts:20 | under the default flow every stored session makes a `not_qualified` candidate filed under the sender's number |

## Left out

- File I/O of the Python service is not modelled: the JSON state file, the chat-log append (app.py:114-116), and pandas CSV loading. The state is a map, and the flow and FAQ tables are parameters.
- `fuzz.partial_ratio` and `str.format` are parameters of the model. Their behaviour belongs to those libraries, and `str.format` raising is a `None` result.
- The admin notification from `/ask` is the `notice` of the response, and `Integration.CallSends` has it reach `/notify` (server.js:234-243) ahead of the relay's own sends. A post that cannot reach the relay at all, whose exception app.py:102-103 swallows, is not modelled. The reply never depends on it.
- Whitespace for strip and trim covers space, tab, `\n`, `\r`, `\v` and `\f`. Python's `str.strip` (app.py:63) also strips the ASCII separators `\x1c`-`\x1f`, and these are not modelled. Upper and lower case cover ASCII letters only. There is no Unicode case folding or Unicode whitespace.
- A NaN FAQ response is not modelled. FAQ responses are text.
- Transport is not modelled: the socket.io wiring, the whatsapp-web.js client, QR codes, the Python child process, the ping and status endpoints, and the 1-second delays between sends. Each send's outcome is a parameter. A set of send numbers says which sends throw.
- The bodies of listener callbacks are not modelled. Only their invocations are recorded.
- `startServers` in the client service is not modelled. It is a promise built on timers and a one-shot listener, and the model has no timers or promises.
- Concurrency between overlapping `/ask` requests is not modelled. Each call is one atomic read-modify-write.
- The LLM paths and `jobProfileService` are thin wrappers over remote calls. They are not part of this model.
- FlowEditor.SetEditing, FlowEditor.Change: an index outside the list is not modelled. The model requires `index < |flow|`, because JavaScript would then write past the end of the array.
- Candidate answers that are floats or NaN are not modelled. Numbers are integers.
- The `created_at` clock is a parameter.
- Relay.Relay.OnReady: the campaign send loop's 1-second pauses are not modelled. Only the order of sends is.
- Integration.CellOf, Integration.Loaded: these assume `data.csv` is the editor's export read back cell for cell. No code in the system does this. `pd.read_csv` also differs on several inputs:
  - cells such as `NA`, `null`, `None` or `nan` read as NaN;
  - numeric text reads as a number;
  - a `"` inside a quoted field, or a comma or newline in the unquoted step column, does not read back as written.

  The default flow contains none of these, so the default-flow lemmas are unaffected.
- WhatsApp.WhatsAppService.Connect: a socket that exists but is not connected is replaced by a new `io(...)` without being disconnected (whatsappService.ts:31-47). Its handlers stay live in the source, so its later `connect_error` events still raise the shared `connectionAttempts`. The model keeps one socket and drops the orphaned one's events.
- WhatsApp.WhatsAppService.Connect, WhatsApp.WhatsAppService.Initialize: in preview mode the source reports to listeners after a `setTimeout` of 1000 ms (whatsappService.ts:37-42, 103-107). The model calls them at once, so it does not capture listeners that are added or removed during that second.
- NaN FAQ keys are not modelled. An empty `key` cell in `faq.csv` becomes NaN, and `key.lower()` (app.py:51) then raises on every `/ask` that reaches it. FAQ keys are text in the model.
- FlowEditor.DeleteNone: `handleDelete` reads `flow[index].step` (ConversationFlow.tsx:51) before filtering, so an out-of-range index throws a TypeError and the flow stays as it was. The model gives only the unchanged flow, not the exception.
