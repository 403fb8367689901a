# Antigravity02 agent core in Dafny

Antigravity02 is a console assistant built on the Gemini generative API.
The user types a prompt and the agent (`UniversalAgent` over `BaseAgent`)
adds it to its chat history. It then asks the model in rounds, and each round
is handled like this:

- The model's reply joins the history.
- Every `functionCall` part is dispatched to the first registered module that
  claims the tool name. The modules are files, HTTP and mode switch.
- The results join the history as one `function` turn. Images read by a
  tool follow in one extra `user` turn.
- A round whose only call switched between the smart and the fast model is
  taken back.
- An exception drops a dangling model turn and saves the history to a
  recovery file.
- After ten rounds in a row the user is asked whether to go on.

Around this loop sit the pieces listed below:

- slash commands (`/exit`, `/help`, `/save`, `/load`);
- the sandboxed file tools (`..` and base-prefix checks, a three-level tree
  listing, extension dispatch, writes confined to `AI_Workspace`);
- the image marker `[IMAGE_BASE64:mime:base64]` by which a tool hands an
  image to the loop;
- the expert-session module;
- the Gemini client's status classification and request shaping;
- the program's configuration, read from the environment and `.env`, and the
  model list it writes into `.env`.

The model, module by module:

| module | file | holds |
|---|---|---|
| `Text` | text.dfy | Option/Result and the .NET string operations the code uses (ordinal and ASCII case-insensitive comparison, Trim, IndexOf, Split with a count, Replace) |
| `Json` | json.dfy | deserialized argument values (a fractional number as a `decimal`) and the objects serialized into schemas; `ToString`/`Convert.ToBoolean` on them |
| `Transcript` | transcript.dfy | turns (user, model, function), parts, and the reply of one service call |
| `GeminiClient` | gemini_client.dfy | status classification, request body, `DefineTools`, `CreateFunctionDeclaration` |
| `Base64`, `ImageMarker` | base64.dfy, image_marker.dfy | RFC 4648 section 4 encoding; marker writing, `ExtractImageData`, `BuildToolResponseParts` |
| `FileTools` | file_tools.dfy | the file tools over a disk map and an abstract platform (canonicalisation, decoding, image loading) |
| `FileModule`, `HttpModule`, `AIControl`, `MultiAgent` | file_module.dfy, http_module.dfy, ai_control.dfy, multi_agent.dfy | the modules: declarations and `TryHandleToolCallAsync` |
| `ToolOutcome`, `Registry` | tool_outcome.dfy, registry.dfy | a module's answer; the ordered registry, first-match dispatch, mode selector, function and image turns |
| `Agent` | agent.dfy | the agent class: the round loop, history save/load, registration |
| `CommandManager` | command_manager.dfy | command classification and handling |
| `Program` | program.dfy | `GetConfig`, model defaulting, the `.env` model list, the main loop |

The agent is one class because `BaseAgent` has `UniversalAgent` as its only
concrete subclass. The generative service, the answers to "go on?", the
environment, the `.env` lines, the typed API key and the disk are all
inputs. The service is a function from a round's index, model and request to
its reply.

## Model

| member | source | states |
|---|---|---|
| `Agent.UniversalAgent.constructor` | Antigravity02/Agents/UniversalAgent.cs:15-30 | modules registered in the order files, HTTP, mode switch; the file module gets the fast client only when the fast model differs from the smart one; fast mode, empty history, the agent's instruction, declarations built for fast mode |
| `Agent.UniversalAgent.RegisterModule` | Antigravity02/Agents/UniversalAgent.cs:32-35 | the module is appended after the existing ones; nothing else changes |
| `Agent.UniversalAgent.InitializeToolDeclarations` | Antigravity02/Agents/UniversalAgent.cs:37-49 | declarations become `Rebuilt`: every module's declarations in registration order, wrapped in one `DefineTools` entry, or left unchanged when there are none |
| `Registry.Rebuilt` | Antigravity02/Agents/UniversalAgent.cs:45-48 | no declarations leave the current ones; otherwise exactly one entry whose `function_declarations` is the concatenation |
| `Registry.ThreeModules` | Antigravity02/Agents/UniversalAgent.cs:40-43 | with three modules the declarations are the first's, then the second's, then the third's |
| `Registry.DeclarationsStep` | Antigravity02/Agents/UniversalAgent.cs:40-43 | one more registered module appends its declarations at the end |
| `Registry.RegisteredNames` | Antigravity02/Agents/UniversalAgent.cs:19-22 | the agent's modules declare `list_files`, `read_file`, `write_file`, `http_get`, `http_post`, `switch_model_mode`, in that order |
| `Agent.DeclaresTools` | Antigravity02/Agents/UniversalAgent.cs:45-48 | the agent's modules always declare tools, so the declarations are always one `DefineTools` entry of them |
| `Agent.UniversalAgent.SetModelMode` | Antigravity02/Agents/BaseAgent.cs:25-43 | the tool state becomes `SwitchedTo(mode)`; the history and the modules are untouched |
| `Registry.SwitchedTo` | Antigravity02/Agents/BaseAgent.cs:25-43 | smart unless the mode is `fast`; the same mode changes nothing; a change raises the switch flag and rebuilds the declarations for the new mode (UniversalAgent.cs:54-57) |
| `Registry.SwitchIdempotent` | Antigravity02/Agents/BaseAgent.cs:38-42 | selecting a mode twice is selecting it once |
| `Registry.FastOnlyByName` | Antigravity02/Agents/BaseAgent.cs:28-35 | `FAST` and `Fast` select fast; `smart`, null and `fast ` (with a space) select smart |
| `Registry.FirstMatch` | Antigravity02/Agents/UniversalAgent.cs:61-68 | the index of the first module that does not return null, with every module before it passing; its answer and effect are that module's |
| `Registry.FirstMatchWins` | Antigravity02/Agents/UniversalAgent.cs:61-68 | modules registered behind the first claimant do not change the dispatch |
| `Registry.DispatchAnswers` | Antigravity02/Agents/UniversalAgent.cs:61-70 | dispatch never returns null; when no module claims the name it answers `Error: Unknown tool.` with the state unchanged |
| `Agent.UniversalAgent.ProcessToolCall` | Antigravity02/Agents/UniversalAgent.cs:59-71 | the outcome and new tool state are `Dispatch` of the registered modules |
| `Registry.FilesHandle` | Antigravity02/Agents/Modules/FileModule.cs:73-104 | the file module claims exactly its three names, and only a claimed call replaces the disk |
| `Registry.HttpHandle` | Antigravity02/Agents/HttpModule.cs:50-69 | the HTTP module claims exactly `http_get` and `http_post` and changes nothing in the agent |
| `Registry.ControlHandle` | Antigravity02/Agents/AIControlModule.cs:45-54 | only `switch_model_mode` with a non-null mode asks for a switch to that mode, answering with the confirmation |
| `Registry.AgentModulesValid` | Antigravity02/Agents/UniversalAgent.cs:20-22 | the three modules keep to the module contract (passing on does nothing; only the switch changes the mode) |
| `Registry.DispatchParts` | Antigravity02/Agents/BaseAgent.cs:133-177 | parts dispatched in order; without an exception there is one result per call |
| `Registry.PartsCall` | Antigravity02/Agents/BaseAgent.cs:140-162 | a call that throws stops the round in the state it left; otherwise its result is added and dispatch goes on |
| `Registry.PartsBroken` | Antigravity02/Agents/BaseAgent.cs:133-144 | a part that cannot be read stops the round with its exception |
| `Registry.ResponsePartsOnePerCall` | Antigravity02/Agents/BaseAgent.cs:150-155 | the function turn holds exactly one response per call, in call order, naming the call's function |
| `Registry.ResponsePartsAppend` | Antigravity02/Agents/BaseAgent.cs:154-155 | each call's response parts follow those of the earlier calls |
| `Registry.Images` | Antigravity02/Agents/BaseAgent.cs:157-162 | at most one image per result |
| `Registry.NoImages` | Antigravity02/Agents/BaseAgent.cs:157-185 | no image exactly when no result parses as a marker |
| `Registry.ImageTurns` | Antigravity02/Agents/BaseAgent.cs:185-201 | no turn without images, else one user turn with every image in call order and then one caption |
| `Agent.UniversalAgent.ProcessParts` | Antigravity02/Agents/BaseAgent.cs:133-177 | the loop over the parts matches `DispatchParts`; without an exception the responses are `ResponseParts` of the calls |
| `Agent.UniversalAgent.ProcessPartCall` | Antigravity02/Agents/BaseAgent.cs:140-162 | one call of that loop: it throws and stops dispatch, or adds its result |
| `Agent.DropTrailingModel` | Antigravity02/Agents/BaseAgent.cs:229-236 | a prefix of the history, one turn shorter exactly when the last turn is a model turn |
| `Agent.UniversalAgent.DropTrailingModelTurn` | Antigravity02/Agents/BaseAgent.cs:229-236 | the history becomes `DropTrailingModel` of itself, nothing else changes |
| `Agent.UniversalAgent.AddResponses` | Antigravity02/Agents/BaseAgent.cs:179-215 | the history and tool state become `Responded`: function turn, image turn, and the take-back of a switch round with one response |
| `Agent.UniversalAgent.ProcessCalls` | Antigravity02/Agents/BaseAgent.cs:129-250 | the history, tool state and ending are `CallsOutcome`; only a failure saves the recovery file |
| `Agent.UniversalAgent.Round` | Antigravity02/Agents/BaseAgent.cs:81-250 | one round equals `RoundOutcome` of the service's reply to the current request; a failure saves the history to `recovery_history.json`; a history not ending with a model turn keeps every turn |
| `Agent.UniversalAgent.Iteration` | Antigravity02/Agents/BaseAgent.cs:79-270 | one pass of the loop is one step of `Run`: a round that does not continue ends the run in the state it leaves; after a tenth round a yes starts a new stretch, and a no or a missing answer saves `interrupted_history.json` and ends the run |
| `Agent.RoundsNeverDecline` | Antigravity02/Agents/BaseAgent.cs:81-250 | no round of the agent ends as declined; only the question after a tenth round does |
| `Agent.RoundsKeepHistory` | Antigravity02/Agents/BaseAgent.cs:127-236 | the agent's rounds, as the function `Run` iterates, keep the history and leave no model turn unless they finish |
| `Agent.RunKeepsHistory` | Antigravity02/Agents/BaseAgent.cs:69-270 | a whole run keeps every turn of a history not ending with a model turn, and unless it finished leaves no model turn waiting |
| `Agent.UniversalAgent.Ask` | Antigravity02/Agents/BaseAgent.cs:255-268 | the answer decides; a no or a missing answer saves `interrupted_history.json`, nothing else changes |
| `Agent.RunCounts` | Antigravity02/Agents/BaseAgent.cs:75-270 | the user is asked exactly after every tenth round in a row; all answers before the last question were yes; a `Declined` run ran ten rounds per question and ended on a no or no answer; any other run ended within the stretch after its last question |
| `Agent.AnswerEndsRun` | Antigravity02/Agents/BaseAgent.cs:122-220 | a run whose first reply has no calls ends after one round, finished, with the reply as the last turn and no question asked |
| `Agent.RoundKeepsHistory` | Antigravity02/Agents/BaseAgent.cs:127-236 | a round never loses an earlier turn, and unless it finished it leaves no model turn last |
| `Agent.CallsKeepHistory` | Antigravity02/Agents/BaseAgent.cs:179-250 | the same for the part of the round after the model's turn |
| `Agent.RespondedKeeps` | Antigravity02/Agents/BaseAgent.cs:179-215 | the responses keep the history before the model's turn and leave no model turn last |
| `Agent.TakenBack` | Antigravity02/Agents/BaseAgent.cs:205-211 | removing the last two entries of a switch round with a text result restores the history before the round |
| `Agent.OneCallRound` | Antigravity02/Agents/BaseAgent.cs:127-215 | a reply of one call answered with text adds the call and its response, or, when the call switched the mode, is taken back |
| `Agent.SwitchRoundIsTakenBack` | Antigravity02/Agents/BaseAgent.cs:205-215 | a reply of one `switch_model_mode` call that changes the mode leaves the history as it was, with the other mode and rebuilt declarations |
| `Agent.SameModeRoundIsKept` | Antigravity02/Agents/AIControlModule.cs:49-51 | the same call naming the active mode is an ordinary round whose call and confirmation stay in the history |
| `Agent.SwitchCallDispatch` | Antigravity02/Agents/UniversalAgent.cs:61-68 | among the agent's modules only the control module claims `switch_model_mode`, and it selects the requested mode |
| `Agent.SwitchIsControl` | Antigravity02/Agents/AIControlModule.cs:49-51 | a call that raises the switch flag answered with the control module's text, not an image |
| `Agent.SwitchLeavesTextResult` | Antigravity02/Agents/BaseAgent.cs:205-211 | a round that switched has a text result among its results |
| `Agent.AnswerWithoutCallsFinishes` | Antigravity02/Agents/BaseAgent.cs:217-220 | a reply without calls adds exactly the reply and finishes |
| `Agent.NoCandidatesAppendsNothing` | Antigravity02/Agents/BaseAgent.cs:121-122 | a reply whose candidates value is no list or an empty list stops the run and adds nothing |
| `Agent.UniversalAgent.Execute` | Antigravity02/Agents/BaseAgent.cs:69-272 | the resulting history, tool state, round and question counts and ending are `Run` of the agent's rounds (`RoundOutcome` of each reply) from the history with the prompt appended; the prompt and everything before it stay; the user is asked once per ten rounds in a row and a yes restarts the count; a no saves `interrupted_history.json` and stops; a failure saves `recovery_history.json`; a finished run or one whose reply had no candidates (`NoReply`) saves nothing; a run never ends on `Continue` |
| `Agent.UniversalAgent.SaveChatHistory` | Antigravity02/Agents/BaseAgent.cs:287-300 | the file at the path holds the history afterwards; nothing else changes |
| `Agent.UniversalAgent.LoadChatHistory` | Antigravity02/Agents/BaseAgent.cs:302-327 | success exactly when the file exists and holds a list; the history is then that list, otherwise unchanged |
| `Agent.UniversalAgent.ClearChatHistory` | Antigravity02/Agents/BaseAgent.cs:282-285 | the history is empty; nothing else changes |
| `ImageMarker.Extract` | Antigravity02/Agents/BaseAgent.cs:394-406 | a parsed marker is a prefix `[IMAGE_BASE64:mime:payload]` of the result, the MIME type free of `:` and `]`, the payload free of `]` |
| `ImageMarker.ExtractEmit` | Antigravity02/Tools/FileTools.cs:357-366 | the marker a file tool writes parses back to its MIME type and payload, whatever the caption |
| `ImageMarker.ResponseContent` | Antigravity02/Agents/BaseAgent.cs:345-385 | the response content is the result itself exactly when the result is no marker |
| `ImageMarker.BuildToolResponseParts` | Antigravity02/Agents/BaseAgent.cs:340-389 | exactly one function-response part, naming the tool |
| `Base64.Encode` | Antigravity02/Tools/FileTools.cs:356-365 | four characters per three bytes, all from the alphabet or `=` |
| `Base64.NoMarkerDelimiters` | Antigravity02/Tools/FileTools.cs:357-366 | an encoded payload holds neither `:` nor `]` |
| `AIControl.Declarations` | Antigravity02/Agents/AIControlModule.cs:23-43 | one `switch_model_mode` declaration whose description names the current mode, smart when there is no probe |
| `AIControl.ModeIsSmartOrFast` | Antigravity02/Agents/AIControlModule.cs:38 | the `mode` parameter admits exactly `smart` and `fast` |
| `AIControl.TryHandle` | Antigravity02/Agents/AIControlModule.cs:45-54 | other names are not handled; the switch invokes the callback once with the mode and answers with its confirmation |
| `AIControl.MessageNamesMode` | Antigravity02/Agents/AIControlModule.cs:51 | the confirmation names the mode: different modes, different messages |
| `HttpModule.Declarations` | Antigravity02/Agents/HttpModule.cs:15-48 | `http_get`, then `http_post` |
| `HttpModule.OptionalOrNull` | Antigravity02/Agents/HttpModule.cs:56-63 | an absent `headers` is null; a present null throws |
| `HttpModule.RequestOf` | Antigravity02/Agents/HttpModule.cs:52-64 | the request for the module's two names; a POST without `contentType` uses `application/json` |
| `HttpModule.TryHandle` | Antigravity02/Agents/HttpModule.cs:50-69 | only the two names are handled, with the service's answer to the request |
| `Json.ToText` | Antigravity02/Agents/HttpModule.cs:55 | `ToString()` of a value: it throws exactly on null, a string is itself, a fractional number keeps its point |
| `Json.DecimalText` | Antigravity02/Agents/Modules/FileModule.cs:81 | `decimal.ToString()`: a whole number prints as the integer, otherwise the point stands before exactly `scale` digits |
| `Json.DecimalExamples` | Antigravity02/Agents/Modules/FileModule.cs:81-96 | `1.5` prints as `1.5`, `-0.05` and `1.50` keep their digits; `0.5` converts to true and `0.0` to false |
| `Json.ToBoolean` | Antigravity02/Agents/Modules/FileModule.cs:96 | `Convert.ToBoolean`: a boolean is itself, null is false, a number is true iff non-zero, a string is true or false iff it spells that word in any case once trimmed and throws otherwise, a list or object throws |
| `Json.Required` | Antigravity02/Agents/HttpModule.cs:55-61 | succeeds exactly when the key is present and not null |
| `Json.Optional` | Antigravity02/Agents/HttpModule.cs:62 | the default when the key is absent, else the value's text |
| `FileModule.Declarations` | Antigravity02/Agents/Modules/FileModule.cs:25-71 | `list_files`, `read_file`, `write_file` in that order; no `delete_file` |
| `FileModule.SummaryQueryOnlyWithFastModel` | Antigravity02/Agents/Modules/FileModule.cs:35-52 | `read_file` offers `summaryQuery`, in its schema and its description, exactly when there is a fast model |
| `FileModule.Summarize` | Antigravity02/Agents/Modules/FileModule.cs:106-148 | empty content and error texts come back unchanged without asking the model; otherwise a summary or a fast-model error |
| `FileModule.ReadSummary` | Antigravity02/Agents/Modules/FileModule.cs:127-142 | a read reply is a summary or the unparsable-reply text; a null reply throws the null-reference message, a reply that is no object the deserializer's conversion message, and an object without `candidates` the missing-key message |
| `FileModule.NotDictionaryMessage` | Antigravity02/Agents/Modules/FileModule.cs:127 | the conversion failure of a non-object reply is neither the missing-key nor the null-reference message |
| `FileModule.FirstTextIsSummary` | Antigravity02/Agents/Modules/FileModule.cs:128-138 | when the first candidate's content has a first part with `text` t, the summary is the prefix followed by t's text, whatever else the reply holds |
| `FileModule.PlainReplyIsSummary` | Antigravity02/Agents/Modules/FileModule.cs:127-138 | the standard one-candidate, one-part reply with text t reads as `[Fast AI Summary]: ` + t |
| `FileModule.FailedSummary` | Antigravity02/Agents/Modules/FileModule.cs:144-147 | a failed call gives a text marked as a fast-model error |
| `FileModule.TryHandle` | Antigravity02/Agents/Modules/FileModule.cs:73-104 | other names are not handled; only `write_file` changes the disk; `subPath` defaults to empty |
| `FileModule.RawContentWithoutQuery` | Antigravity02/Agents/Modules/FileModule.cs:81-94 | without a fast model or a non-empty query, `read_file` answers exactly the file tool's text |
| `FileModule.SummaryOrFallback` | Antigravity02/Agents/Modules/FileModule.cs:84-92 | with both, the answer is the summary, or the failure followed by the warning and the whole content |
| `FileModule.WriteAppendsByDefault` | Antigravity02/Agents/Modules/FileModule.cs:95-100 | `write_file` without `append` appends |
| `FileTools.New` | Antigravity02/Tools/FileTools.cs:17-29 | the base directory is the canonical path, ending with the separator added at most once |
| `FileTools.WithTrailingSeparator` | Antigravity02/Tools/FileTools.cs:21-24 | ends with the separator; the path itself when it already does, else one separator added |
| `FileTools.WithTrailingSeparatorIdempotent` | Antigravity02/Tools/FileTools.cs:21-24 | normalising twice is normalising once |
| `FileTools.Combine` | Antigravity02/Tools/FileTools.cs:170-173 | `Path.Combine`: throws on invalid characters; a rooted second path wins; else the two joined with at most one separator |
| `FileTools.GetFileName` | Antigravity02/Tools/FileTools.cs:168 | the separator-free tail of the path after its last separator |
| `FileTools.GetExtension` | Antigravity02/Tools/FileTools.cs:162 | empty exactly when the name has no dot or ends with one; else a dot-led tail of the path with no further dot |
| `FileTools.ListFilesText` | Antigravity02/Tools/FileTools.cs:31-62 | `..` is refused before anything else; a resolved path outside the base is refused |
| `FileTools.ListFiles` | Antigravity02/Tools/FileTools.cs:31-62 | the text built through the builder is `ListFilesText` |
| `FileTools.WriteTree` | Antigravity02/Tools/FileTools.cs:51-55 | the header line, then the tree lines down to depth 3 |
| `FileTools.BuildTree` | Antigravity02/Tools/FileTools.cs:64-106 | appends exactly the lines of `TreeLines` to the builder |
| `FileTools.BuildEntries` | Antigravity02/Tools/FileTools.cs:73-91 | the loop over the entries appends every entry's line and subtree |
| `FileTools.BuildEntry` | Antigravity02/Tools/FileTools.cs:75-90 | one pass: the entry's line, then a folder's subtree |
| `FileTools.TreeShape` | Antigravity02/Tools/FileTools.cs:64-96 | nothing at depth 3 or deeper; each line indented four spaces per level and tagged, the empty-folder note only at depth 0 |
| `FileTools.EmptyNoteOnlyAtTop` | Antigravity02/Tools/FileTools.cs:93-96 | below the top level the empty-folder note never appears |
| `FileTools.MimeTypes` | Antigravity02/Tools/FileTools.cs:266-297 | image extensions and only they get an `image/` type; `.jpg` and `.jpeg` share `image/jpeg`; no type holds `:` or `]` |
| `FileTools.KindOf` | Antigravity02/Tools/FileTools.cs:130-145 | text for `.txt`/`.md`/`.json`/`.cs`, document for `.docx`, image for the six image extensions |
| `FileTools.ReadImageAsBase64` | Antigravity02/Tools/FileTools.cs:303-375 | over 10 MiB or unloadable: no marker; else a marker of the sent type and the base64 of the sent bytes (a redrawn non-PNG as JPEG) |
| `FileTools.ReadFile` | Antigravity02/Tools/FileTools.cs:111-152 | `..` is refused first; a resolved path outside the base is refused |
| `FileTools.ReadExisting` | Antigravity02/Tools/FileTools.cs:128-145 | the dispatch on the lower-cased extension |
| `FileTools.SafeFileName` | Antigravity02/Tools/FileTools.cs:161-168 | a non-empty separator-free name: the file name plus `.txt` when there is no extension, the file name otherwise |
| `FileTools.WriteFile` | Antigravity02/Tools/FileTools.cs:157-192 | invalid characters leave the disk and report the error; otherwise exactly the workspace file of the safe name is written (appended with a line break or overwritten) and the message names the action |
| `FileTools.WriteStaysInWorkspace` | Antigravity02/Tools/FileTools.cs:167-173 | a write changes at most one file, directly inside `AI_Workspace`, whatever path was named |
| `FileTools.DeleteFile` | Antigravity02/Tools/FileTools.cs:197-222 | `..` and paths outside the base are refused with the disk unchanged; otherwise at most one file inside the base is removed |
| `MultiAgent.Truncate` | Antigravity02/Agents/Modules/MultiAgentModule.cs:265-269 | empty for null; the text when short enough; else its first `maxLength` characters and `...` |
| `MultiAgent.Prepared` | Antigravity02/Agents/Modules/MultiAgentModule.cs:116-135 | an existing session keeps its history; a new one needs a non-empty role and starts empty |
| `MultiAgent.Texts` | Antigravity02/Agents/Modules/MultiAgentModule.cs:182-188 | the texts of the text parts, at most one per part |
| `MultiAgent.NoTexts` | Antigravity02/Agents/Modules/MultiAgentModule.cs:184-190 | no text exactly when no part is a text part |
| `MultiAgent.NoneBroken` | Antigravity02/Agents/Modules/MultiAgentModule.cs:182-186 | no unreadable part exactly when no part is broken |
| `MultiAgent.Settle` | Antigravity02/Agents/Modules/MultiAgentModule.cs:169-224 | the code as written: a failure before the content takes the question back; after it, the history is the question alone or with the content |
| `MultiAgent.SettleGrowth` | Antigravity02/Agents/Modules/MultiAgentModule.cs:152-213 | as written, a consult grows the history by exactly the question and the content iff it got a readable text answer; otherwise only the content is taken back |
| `MultiAgent.QuestionLeftBehind` | Antigravity02/Agents/Modules/MultiAgentModule.cs:176-213 | as written, a reply with no text part leaves an unanswered question, so the history stops alternating |
| `MultiAgent.SettleIntended` | Antigravity02/Agents/Modules/MultiAgentModule.cs:208-221 | the intended rollback: the history is as before, or grows by the question and the answer |
| `MultiAgent.IntendedKeepsAlternating` | Antigravity02/Agents/Modules/MultiAgentModule.cs:152-221 | with the intended rollback every consult keeps an expert's history question/answer pairs |
| `MultiAgent.MultiAgentModule.constructor` | Antigravity02/Agents/Modules/MultiAgentModule.cs:32-37 | no sessions |
| `MultiAgent.Consulted` | Antigravity02/Agents/Modules/MultiAgentModule.cs:106-225 | missing role for a new expert: the role is asked for and nothing changes; else the expert is asked once with its history, the question and its role, only its own session is stored again (new ones included), under the case-folded name, with the `SettleIntended` history, and every other session is untouched |
| `MultiAgent.MultiAgentModule.ConsultExpert` | Antigravity02/Agents/Modules/MultiAgentModule.cs:106-225 | the new sessions and the answer are `Consulted` of the old sessions |
| `MultiAgent.MultiAgentModule.SettleReply` | Antigravity02/Agents/Modules/MultiAgentModule.cs:165-224 | the reply's handling is `SettleIntended` |
| `MultiAgent.ExpertLines` | Antigravity02/Agents/Modules/MultiAgentModule.cs:238-243 | one line per session, in enumeration order |
| `MultiAgent.ListsEverySession` | Antigravity02/Agents/Modules/MultiAgentModule.cs:238-243 | every session is listed, under the name it was created with |
| `MultiAgent.ListCountsSessions` | Antigravity02/Agents/Modules/MultiAgentModule.cs:235 | the header's count is the number of sessions |
| `MultiAgent.MultiAgentModule.ListExperts` | Antigravity02/Agents/Modules/MultiAgentModule.cs:227-246 | the text built in the loop is `ListText` |
| `MultiAgent.Dismissed` | Antigravity02/Agents/Modules/MultiAgentModule.cs:248-263 | empty name: nothing changes; a known name: exactly that session removed, its turns reported; unknown: nothing changes, not found |
| `MultiAgent.MultiAgentModule.DismissExpert` | Antigravity02/Agents/Modules/MultiAgentModule.cs:248-263 | the new sessions and the answer are `Dismissed` of the old sessions |
| `MultiAgent.ConsultArgs` | Antigravity02/Agents/Modules/MultiAgentModule.cs:89-92 | `expert_name` defaults to `default`, `question` to the empty text, `role` to null; a present value is its `ToString`; a present null throws |
| `MultiAgent.DismissArg` | Antigravity02/Agents/Modules/MultiAgentModule.cs:97-98 | `expert_name` defaults to the empty name; a string is itself; a present null throws |
| `MultiAgent.MultiAgentModule.TryHandle` | Antigravity02/Agents/Modules/MultiAgentModule.cs:84-104 | other names are not handled; listing changes nothing; `consult_expert` throws on a null argument and otherwise is `Consulted` with the defaulted arguments; `dismiss_expert` throws on a null name and otherwise is `Dismissed` of the defaulted name |
| `MultiAgent.Declarations` | Antigravity02/Agents/Modules/MultiAgentModule.cs:39-82 | `consult_expert`, `list_experts`, `dismiss_expert` |
| `GeminiClient.Classify` | Antigravity02/AIClient/GeminiClient.cs:57-88 | success iff 2xx, with the body; 429 the quota error; 400 with one of the four phrases the unsupported-model error; every other failure the generic error with status and body |
| `GeminiClient.QuotaWinsOverBody` | Antigravity02/AIClient/GeminiClient.cs:62-77 | 429 is a quota error whatever the body says |
| `GeminiClient.ApiErrorKeepsBody` | Antigravity02/AIClient/GeminiClient.cs:85 | for any model, a failure other than 429 and 400 is the generic error, whose message ends with the body |
| `GeminiClient.SystemInstructionJson` | Antigravity02/AIClient/GeminiClient.cs:38-42 | null iff the instruction is null or empty, else one text part |
| `GeminiClient.RequestBody` | Antigravity02/AIClient/GeminiClient.cs:44-49 | contents and tools passed through; an instruction object iff a non-empty instruction |
| `GeminiClient.DefineTools` | Antigravity02/AIClient/GeminiClient.cs:103-112 | one entry whose `function_declarations` are the declarations |
| `GeminiClient.CreateFunctionDeclaration` | Antigravity02/AIClient/GeminiClient.cs:117-125 | name, description and parameters passed through |
| `CommandManager.PathArgument` | Antigravity02/CommandManager.cs:32-37 | a trimmed path: the default, or the trimmed remainder after index 6 |
| `CommandManager.Parse` | Antigravity02/CommandManager.cs:10-58 | not a command iff empty or not starting with `/`; otherwise, on the trimmed input and ignoring case: exit iff it is `/exit`, help iff `/help`, save iff `/save` alone or followed by a space, load likewise, and any other command unknown, carrying the trimmed text; save and load take `PathArgument`, a trimmed path |
| `CommandManager.ExitAnyCase` | Antigravity02/CommandManager.cs:13-22 | `/exit` in any mix of cases and followed by any white space asks to leave; with a blank in front it is no command |
| `CommandManager.SaveRoundTrip` | Antigravity02/CommandManager.cs:30-41 | `/save <path>` reads back as a save to that path |
| `CommandManager.LoadRoundTrip` | Antigravity02/CommandManager.cs:43-54 | `/load <path>` reads back as a load from that path |
| `CommandManager.RunOnIsUnknown` | Antigravity02/CommandManager.cs:30-58 | `/savex` and `/loadx` are unknown commands |
| `CommandManager.TryHandleCommand` | Antigravity02/CommandManager.cs:8-59 | handled iff a command; exit iff `/exit`; `/save` stores the history; `/load` replaces it when the file holds one; everything else leaves the agent alone |
| `Program.FileValue` | Antigravity02/Program.cs:205-218 | a value found is never empty |
| `Program.FirstSettingDecides` | Antigravity02/Program.cs:206-215 | the first line that sets the key decides, whatever follows |
| `Program.UnsetIsNull` | Antigravity02/Program.cs:218 | no line setting the key gives null |
| `Program.SettingReadsBack` | Antigravity02/Program.cs:208-214 | `key=value` reads back as the value |
| `Program.QuotedSettingReadsBack` | Antigravity02/Program.cs:208-214 | `key="value"` and `key='value'` read back as the value without its quotes |
| `Program.StripQuotes` | Antigravity02/Program.cs:213 | quotes around a value are trimmed away and nothing of the value is |
| `Program.SettingLine` | Antigravity02/Program.cs:206-211 | `key=rest` sets `key`, and what follows `key=` is `rest` |
| `Program.Config` | Antigravity02/Program.cs:193-219 | a value found is never empty; a set, non-empty environment variable is the value whatever `.env` holds; otherwise `.env` decides (`FileValue`) |
| `Program.GetConfig` | Antigravity02/Program.cs:193-219 | the loop's value is `Config` |
| `Program.ReadSetting` | Antigravity02/Program.cs:208-215 | one line's test: it sets the key iff `Sets`, with `LineValue` |
| `Program.Configure` | Antigravity02/Program.cs:19-27 | each model is its own setting, else `GEMINI_MODEL`, else `gemini-2.5-flash`; no model configured iff none of the three settings is found; the configured key, else the trimmed typed key |
| `Program.Generating` | Antigravity02/Program.cs:163-167 | at most the listed models |
| `Program.GeneratingExactly` | Antigravity02/Program.cs:163-167 | exactly the listed models supporting `generateContent` |
| `Program.EntryLines` | Antigravity02/Program.cs:160-166 | one line per model, in order |
| `Program.EntryTextListsGenerating` | Antigravity02/Program.cs:158-168 | the loop's text is the lines of exactly the generating models, in listing order |
| `Program.BuildDocs` | Antigravity02/Program.cs:152-170 | the builder's text is `Docs`: marker, model lines, closing line |
| `Program.AppendEntries` | Antigravity02/Program.cs:158-168 | the loop appends `EntryText` |
| `Program.DocsHaveMarker` | Antigravity02/Program.cs:153 | the list holds the marker |
| `Program.InjectBeforeSetting` | Antigravity02/Program.cs:173-176 | the list goes right before `GEMINI_MODEL=` |
| `Program.InjectAppends` | Antigravity02/Program.cs:177-180 | without `GEMINI_MODEL=` the list is appended at the end, and the result holds the marker |
| `Program.InjectIdempotent` | Antigravity02/Program.cs:144-180 | once written, the list is never written again |
| `Program.UpdateEnvWithModelList` | Antigravity02/Program.cs:133-189 | written iff there is a file without the marker and a listing, and then `Inject` |
| `Program.Startup` | Antigravity02/Program.cs:16-44 | the settings are `Configure`; the list is written only when the agent starts with no model configured |
| `Program.Next` | Antigravity02/Program.cs:96-104 | one line adds at most one prompt |
| `Program.Prompts` | Antigravity02/Program.cs:90-126 | at most one prompt per line |
| `Program.PromptsStep` | Antigravity02/Program.cs:90-104 | the lines are handled one after the other |
| `Program.PromptsAreNotCommands` | Antigravity02/Program.cs:96-109 | the agent never gets an empty line or a command |
| `Program.ExitEndsLoop` | Antigravity02/Program.cs:100-102 | nothing after `/exit` reaches the agent |
| `Program.Session` | Antigravity02/Program.cs:62-126 | the prompts given to the agent are `RunPrompts`: the command-line words first, then the loop's |
| `Program.HandleLine` | Antigravity02/Program.cs:96-110 | one turn of the loop as `Next` describes it |
| `Text.Fold` | Antigravity02/CommandManager.cs:18 | ASCII upper-casing, as `OrdinalIgnoreCase` compares |
| `Text.ToLower` | Antigravity02/Agents/BaseAgent.cs:28 | ASCII lower-casing |
| `Text.SplitN` | Antigravity02/Agents/BaseAgent.cs:402 | `Split(sep, n)`: between one and n pieces; no piece but the last holds the separator, and the last holds none when there are fewer than n pieces |
| `Text.SplitNJoin` | Antigravity02/Agents/BaseAgent.cs:402 | joining the pieces gives the string back |
| `Text.IndexOfChar` | Antigravity02/Agents/BaseAgent.cs:398 | the first index of the character, or -1 when absent |
| `Text.ReplaceEffect` | Antigravity02/Program.cs:175 | `Replace` leaves a string without occurrences unchanged and otherwise puts the replacement in |

## Left out

- Network I/O: the POST of `GenerateContentAsync`, `ListModelsAsync`, `HttpTools` and the legacy `Antigravity02/GeminiClient.cs` are not modelled; replies are inputs.
- File I/O: real reads, writes and deletes act on a map of bytes. `Path.GetFullPath`, text decoding, UTF-8 encoding, `.docx` extraction and image loading are abstract functions of a platform record.
- Directory listings in the disk model are not updated by writes and deletes, and the creation of `AI_Workspace` in the constructor and in `WriteFile` is not modelled.
- FileTools.ReadImageAsBase64: the redrawn size is floating-point arithmetic; the image loader reports the original size and both encodings of the redrawn copy.
- `FormatSize` (decimal rounding for display) and the dates in tree lines are abstract.
- The legacy `Antigravity02/FileTools.cs` is not part of this model; `Tools/FileTools.cs` supersedes it.
- JSON serialization is not modelled: save and load copy the history to and from a map of files, where `None` stands for a file whose text is not a list.
- Agent.UniversalAgent.SaveChatHistory: always succeeds, because write failures are not modelled.
- `UsageLogger`, `Stopwatch` timing and token-usage parsing are informational and are left out.
- Console output, `ConsoleUI`, `ShowHelp` and colours are left out; `PromptContinueAsync` answers are a sequence of booleans, a missing answer reading as no.
- `async`/`await` is modelled as ordinary sequential calls.
- The `ui` argument of the dispatch methods is dropped: the interface and the implementations disagree on it, and it only reports progress.
- `MultiAgentModule` is modelled but not registered in the agent, as in `UniversalAgent`; its client is a function from requests to replies.
- Case-insensitive comparison and `ToLower` fold only ASCII letters; culture-sensitive `StartsWith` is modelled as ordinal; lengths count characters, not UTF-16 code units.
- Program.Session: end of input ends the model's loop, where `Console.ReadLine` returning null would make the program loop without end; the `system_error_backup.json` save is not modelled because `ExecuteAsync` catches every exception itself.
- Program.UpdateEnvWithModelList: a listing without a `models` key is given as an empty listing, and any failure of the call or of parsing as no listing.
- Program.Configure: `PromptForApiKey` is the `typed` input; a missing `.env` reads as no lines.
- `EnsureEnvFileExists` (writing the template `.env`) is file I/O and is left out.
- GeminiClient.StatusName: the codes 300, 301, 302, 303 and 307 have two names each in `HttpStatusCode`, and which one .NET prints is not specified, so the model prints the number for them.
- Json.ToBoolean: a string is trimmed of white space only, where `Boolean.Parse` also drops trailing null characters.
- Json.DecimalText: prints with `.` as the invariant culture does; under a culture with another decimal separator .NET prints that one. A `decimal` beyond 28 digits, and a number `JavaScriptSerializer` reads as a `double`, are not modelled.
- FileModule.ReadSummary: the messages for a reply that is not an object are those of the .NET Framework's `JavaScriptSerializer`, which is not part of this model; a number is named by the type the serializer would give it, except that an integer beyond 28 digits is named `System.Decimal` where the serializer reads it as a `System.Double`.
- MultiAgent.Consulted: follows the corrected rollback `MultiAgent.SettleIntended` of "## Findings". Once the reply's content is in the expert's history (MultiAgentModule.cs:176), a content without a parts list or without a text part, or a part that throws while it is read, makes the source remove the content and leave the question (MultiAgentModule.cs:152, 211, 220). The model takes the whole exchange back. `MultiAgent.Settle` and `MultiAgent.QuestionLeftBehind` model the code as written.
- MultiAgent.MultiAgentModule.ConsultExpert: equals `MultiAgent.Consulted`, so it follows the corrected rollback, not the `RemoveAt` of MultiAgentModule.cs:211 and 220 as written.
- MultiAgent.MultiAgentModule.SettleReply: settles a reply as `MultiAgent.SettleIntended` does, taking back the question and the content, where the source removes only the content.
- MultiAgent.MultiAgentModule.TryHandle: `consult_expert` goes through `MultiAgent.Consulted`, and so through the corrected rollback.

## Findings

| source | as written | input that shows it | evidently intended | confidence | as-written member | corrected member |
|---|---|---|---|---|---|---|
| Antigravity02/Agents/Modules/MultiAgentModule.cs:176-221 | after the reply's content joins the expert's history, the clean-up for "no usable text" (and the `catch`) removes the last entry, which is that content, so the question stays without an answer | a reply whose content has a parts list without any text part | the comments at lines 208 and 217 say the question is removed: the whole exchange is taken back and the history stays question/answer pairs | not executed | `MultiAgent.QuestionLeftBehind` | `MultiAgent.IntendedKeepsAlternating` |

`MultiAgent.Settle` models the code as written. `MultiAgent.SettleIntended` is
the corrected rollback. `MultiAgent.Consulted` uses it, and
`MultiAgent.MultiAgentModule.ConsultExpert` is proved equal to `Consulted`.
