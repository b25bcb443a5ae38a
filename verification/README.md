# Mixar Copilot request bridge and Blender's volume-to-mesh index layout, in Dafny

This project models two unrelated pieces of Blender code and proves properties
of the models.

**The Mixar Copilot add-on** (`scripts/addons_core/mixar_copilot`). The
panel's property group is an immutable record (`Panel.Props`). Around it sits
a `Scene.World` that adds three things:
- the error dialogs shown so far;
- the registry of asynchronous operators;
- the scripts handed to `exec`.

Every operator is a function from a world to an operator status and a new
world. Every `bpy.ops.*` call the source makes is a direct call of the
corresponding function. The model covers:
- the asynchronous request bridge (`execute`, the timer-driven `modal`,
  `cleanup`, `cancel` and the Cancel button's cancel-all);
- the dispatch from an operation name to one of six client calls;
- result handling, including the code-fence extraction;
- the API client's credential check, requests, response handling and retry
  policy;
- the Submit, Analyze, Approve, Edit, chat-log and text-input operators;
- `operator_error_handler` with its backup and restore, and `ui_error_handler`;
- the text wrapper `line_to_rows` with `iter_lines` and `draw_text`;
- the markdown drawer's text fold and its list and code-fence rules.

Python string semantics (`strip`, `split`, `splitlines`, `str(n)`) live in
module `PyStr`.

**Blender's `volume_to_mesh.cc`**. `fill_mesh_from_openvdb_data` writes three
index buffers. It is a method over sequences with loop invariants. `int` +
`unsigned int` arithmetic for corner values is written out modulo 2^32
(`VolumeToMesh.CornerValue`). The model also covers the scalar-only dispatch,
the error clearing of `grid_to_mesh` and the buffer sizing of
`volume_to_mesh`.

External effects are parameters:
- the wall clock (`Panel.Clock`);
- `json.loads` and `exec` (`Scene.Host`);
- the server's reply to each request attempt (`nat -> ApiClient.HttpOutcome`);
- the add-on preferences (`Option<Credentials>`);
- which tasks one step of the shared event loop finishes (`AsyncOperation.LoopRun`, one `LoopStep` per registry entry);
- the outcome of OpenVDB's conversion (`VolumeToMesh.Conversion`).

Where the code and its comments or names disagree, the model follows the code:
- `cleanup` neither removes the timer nor deregisters the operator.
- A successful description reply writes `thread_id_tab2` whatever was stored
  before, and writes it before the empty-description check.
- Analyze Image appends the sample rows without clearing and without stripping
  its inputs.
- A non-200 reply is re-wrapped as "Request failed: Request failed: …".
- A JSON decoding error in `_handle_response` is reported as a network error.
  The decoding error of `requests` derives from `RequestException`, which the
  first `except` clause catches.

## Model

| member | source | states |
|---|---|---|
| Panel.DefaultProps | scripts/addons_core/mixar_copilot/properties/panel.py:8-111 | the active tab defaults to TAB1, loading is off with message "Processing...", the three thread ids are empty and the collections start empty |
| Panel.FormatHMRoundTrip | scripts/addons_core/mixar_copilot/operators/chat.py:19 | the "%H:%M" timestamp is five characters and reads back as the same hour and minute |
| Panel.AppendChatMessage | scripts/addons_core/mixar_copilot/operators/chat.py:16-19 | one message with the given content, sender flag and timestamp is appended; every other property is unchanged |
| Panel.AppendScript | scripts/addons_core/mixar_copilot/operators/add_script.py:16-19 | one script entry is appended; every other property is unchanged |
| Scene.ShowError | scripts/addons_core/mixar_copilot/utils/error_handling.py:6-12 | exactly one dialog with the message is added and nothing else changes |
| ChatOps.AddMessage | scripts/addons_core/mixar_copilot/operators/chat.py:13-20 | FINISHED; the chat log grows by one, earlier entries are kept, the new last entry carries content, sender and time; the wrapper leaves loading off |
| ChatOps.AddScript | scripts/addons_core/mixar_copilot/operators/add_script.py:13-20 | FINISHED; the scripts log grows by exactly one, earlier entries are kept, and the chat log is not touched |
| ChatOps.LogErrorIsAddMessage | scripts/addons_core/mixar_copilot/utils/error_handling.py:113-124 | `log_error` with the panel present is one `add_message` of "Error: " + message as a non-user entry |
| ChatOps.LogsAppendOnly | scripts/addons_core/mixar_copilot/operators/chat.py:16 | any run of `add_message`/`add_script` calls keeps both logs' earlier entries as prefixes |
| ChatOps.InvokeTextInput | scripts/addons_core/mixar_copilot/operators/chat.py:39-41 | the dialog field starts as the panel's `user_input` |
| ChatOps.ExecuteTextInput | scripts/addons_core/mixar_copilot/operators/chat.py:34-37 | `user_input` takes the dialog's text; only the wrapper's flags change besides |
| ChatOps.TextInputRoundTrip | scripts/addons_core/mixar_copilot/operators/chat.py:36-40 | invoking and confirming without an edit leaves `user_input` and every other property but the loading flags unchanged |
| ErrorHandling.TuplesRoundTrip | scripts/addons_core/mixar_copilot/utils/error_handling.py:140-145 | storing analysis rows as tuples and rebuilding them gives the same rows in the same order |
| ErrorHandling.BackupState | scripts/addons_core/mixar_copilot/utils/error_handling.py:129-146 | the backup holds one tuple per analysis row |
| ErrorHandling.RestoreState | scripts/addons_core/mixar_copilot/utils/error_handling.py:148-165 | logs, loading flags, scripting inputs and the other fields outside the backup are unchanged |
| ErrorHandling.RestoreBackup | scripts/addons_core/mixar_copilot/utils/error_handling.py:129-165 | restoring a backup of `saved` onto any later state gives back `saved`'s thread ids, inputs, tab and analysis rows and keeps the later state's other fields |
| ErrorHandling.RestoreOwnBackup | scripts/addons_core/mixar_copilot/utils/error_handling.py:129-165 | restoring a state's own backup changes nothing |
| ErrorHandling.Finally | scripts/addons_core/mixar_copilot/utils/error_handling.py:56-61 | with the panel present, loading ends off with "Processing..."; without it nothing changes |
| ErrorHandling.LogError | scripts/addons_core/mixar_copilot/utils/error_handling.py:113-124 | with the panel present one "Error: " entry is logged; without it nothing changes |
| ErrorHandling.Guarded | scripts/addons_core/mixar_copilot/utils/error_handling.py:14-69 | a returning body keeps its status; a raising body restores the backup, shows and logs the prefixed message and returns CANCELLED; with the panel present loading always ends off |
| ErrorHandling.UiGuarded | scripts/addons_core/mixar_copilot/utils/error_handling.py:71-81 | a drawing error is swallowed: what was drawn is kept and one "Error drawing UI: …" label follows; without an error the output is what was drawn |
| ApiClient.NewClient | scripts/addons_core/mixar_copilot/api/client.py:146-159 | construction succeeds exactly when preferences exist and both key and user id are non-empty, otherwise it raises the credentials message |
| ApiClient.UrlsDistinct | scripts/addons_core/mixar_copilot/config.py:3-12 | two calls post to the same endpoint exactly when they are the same kind of call |
| ApiClient.ImageUrlSent | scripts/addons_core/mixar_copilot/api/client.py:196-198 | "image_url" is sent by the description call always and by the two thread-creating calls exactly when it is non-empty |
| ApiClient.Headers | scripts/addons_core/mixar_copilot/api/client.py:179-185 | the headers carry the user id and the licence key |
| ApiClient.HandleResponse | scripts/addons_core/mixar_copilot/api/client.py:31-42 | success exactly for status 200 with a decodable body; any other status fails with "message: status"; a decoding failure is a network error |
| ApiClient.HandleResponseStatusReadBack | scripts/addons_core/mixar_copilot/api/client.py:35-38 | a failure for a status other than 200 is the caller's message, ": " and digits that read back as that status |
| ApiClient.RetryFrom | scripts/addons_core/mixar_copilot/api/client.py:187-228 | from any attempt number the loop makes at least one more request unless exhausted, and never more than three in total |
| ApiClient.PostWithRetry | scripts/addons_core/mixar_copilot/api/client.py:187-228 | between one and three attempts; every attempt but the last met a transient error; success exactly when the last reply is a 200; the sleeps are 1 s, 2 s, … one fewer than attempts; equals the recursive definition; one request per attempt, each to the call's endpoint with its parameters and the credential headers |
| ApiClient.RetryFromFacts | scripts/addons_core/mixar_copilot/api/client.py:190-228 | from any attempt, the loop makes at least one more and at most three in all; every attempt but the last met a transient error; success exactly when the last reply is a 200, with its body; one pause of n seconds before retry n |
| ApiClient.RetryLoop | scripts/addons_core/mixar_copilot/api/client.py:190-228 | the `while` loop equals the recursive definition in outcome, attempts and sleeps, and posts the same request once per attempt |
| ApiClient.RetryExhausted | scripts/addons_core/mixar_copilot/api/client.py:216-228 | three transient errors give "Failed after 3 attempts: <last error>" after sleeping 1 s then 2 s |
| ApiClient.NonOkNotRetried | scripts/addons_core/mixar_copilot/api/client.py:210-226 | a non-200 reply ends the call at that attempt with the doubly prefixed "Request failed: Request failed: status, text" |
| ApiClient.ExtractPythonCode | scripts/addons_core/mixar_copilot/api/client.py:123-132 | never fails (the "Invalid script format" branch is unreachable); with the marker, the stripped fence body: the text after the first marker, cut at a second marker, then at the first "```" inside; without it, the stripped content |
| ApiClient.SecondPiece | scripts/addons_core/mixar_copilot/api/client.py:128 | when the separator occurs, `split(sep)[1]` exists and is the text after its first occurrence up to the next one |
| ApiClient.BetweenPlaced | scripts/addons_core/mixar_copilot/api/client.py:128 | the extracted body is a prefix of the text after the first marker, contains no closing fence, and ends at a fence or at the end of the text |
| ApiClient.FenceBodyOfBlock | scripts/addons_core/mixar_copilot/api/client.py:123-132 | for prose, "```python", code, "```" and a tail (no backticks in prose or code), the extracted body is exactly the code and the client returns it stripped |
| AsyncOperation.SelectCall | scripts/addons_core/mixar_copilot/operators/async_operator.py:54-70 | unknown operations raise "Unknown operation: …"; known ones pick the call of the same kind, continuing a thread exactly when one was given, with the message and image URL passed on |
| AsyncOperation.RunOperation | scripts/addons_core/mixar_copilot/operators/async_operator.py:47-76 | the client is closed on every path on which it was built; missing credentials, an unknown operation or the retry loop's failure become the coroutine's error; otherwise its result is the reply body |
| AsyncOperation.Execute | scripts/addons_core/mixar_copilot/operators/async_operator.py:154-186 | RUNNING_MODAL; loading on with "Task Created ..."; exactly one entry appended to the registry with a pending task, timer, modal handler and running flag |
| AsyncOperation.Cleanup | scripts/addons_core/mixar_copilot/operators/async_operator.py:237-269 | loading off with "Processing...", this operator's running flag off, and nothing else: timer, task and registry stay |
| AsyncOperation.RequestCancel | scripts/addons_core/mixar_copilot/operators/async_operator.py:274-276 | only a task that is not done is cancelled |
| AsyncOperation.Cancel | scripts/addons_core/mixar_copilot/operators/async_operator.py:271-286 | CANCELLED; an unfinished task is cancelled, a finished one kept; cleanup always runs |
| AsyncOperation.ResultsFrom | scripts/addons_core/mixar_copilot/operators/async_operator.py:97-104 | one analysis row per component, in order, with defaults for missing keys; no components give an empty list |
| AsyncOperation.ScriptLines | scripts/addons_core/mixar_copilot/operators/async_operator.py:124-129 | with the marker, the unstripped fence body (text after the first marker, cut at a second marker, then at the first "```" inside), which contains no "```"; without it, the whole content |
| AsyncOperation.ScriptLinesMatchClient | scripts/addons_core/mixar_copilot/operators/async_operator.py:124-129 | the client's extraction is the handler's extraction, stripped |
| AsyncOperation.ScriptLinesOfBlock | scripts/addons_core/mixar_copilot/operators/async_operator.py:124-129 | for a well-formed block the handler extracts exactly the code |
| AsyncOperation.HandleGeneratedScript | scripts/addons_core/mixar_copilot/operators/async_operator.py:123-151 | empty content is one "No script content" dialog; otherwise the extracted lines are executed once and written to the text block, and an exec error becomes one "Error during script execution: …" dialog |
| AsyncOperation.HandleResult | scripts/addons_core/mixar_copilot/operators/async_operator.py:78-121 | per operation: thread ids written only when none was given (chat, scripting), always on a successful description; a chat reply changes only the thread id, the chat log and the loading flags; non-success statuses are one dialog only; an empty description is one dialog with the list kept; a parsed description replaces the analysis list and changes nothing else, a parse failure raises the decoder's error; a successful scripting reply is exactly the thread id and the logged reply, with the flags idle, handed on to the script handler; unknown operations change nothing |
| AsyncOperation.Advance | scripts/addons_core/mixar_copilot/operators/async_operator.py:205 | a loop step only moves an unfinished task: a pending one to its planned outcome, a cancelled one to the cancelled state |
| AsyncOperation.Tick | scripts/addons_core/mixar_copilot/operators/async_operator.py:196-209 | for an unfinished task, loading is forced on with the message by operation kind and the shared loop steps, advancing every operator's task; a finished task leaves the world alone |
| AsyncOperation.EndModal | scripts/addons_core/mixar_copilot/operators/async_operator.py:212-228 | returning FINISHED removes only this operator's modal handler |
| AsyncOperation.Deliver | scripts/addons_core/mixar_copilot/operators/async_operator.py:212-228 | a failed task shows its error; a returned body is handled from the "Completed..." state, and a raise in the handler becomes one more dialog; either way cleanup runs, loading ends off and the handler ends |
| AsyncOperation.Modal | scripts/addons_core/mixar_copilot/operators/async_operator.py:188-235 | non-timer events pass through unchanged; a tick on a task that is or becomes done delivers its outcome and ends FINISHED after cleanup; a cancelled task ends the handler without cleanup; other operators change only when the loop runs, and then only by their tasks advancing |
| AsyncOperation.FailedOperationShown | scripts/addons_core/mixar_copilot/operators/async_operator.py:154-217 | an operation whose coroutine fails ends, at its first finishing tick, FINISHED with exactly that error as a new dialog and loading off |
| AsyncOperation.SucceededChatShown | scripts/addons_core/mixar_copilot/operators/async_operator.py:78-86 | a chat operation whose request returns a body ends, at its first finishing tick, FINISHED with no new dialog, the reply appended to the chat log and `thread_id_tab1` set from the reply exactly when no thread was given |
| AsyncOperation.CancelThenTickLeavesSpinner | scripts/addons_core/mixar_copilot/operators/async_operator.py:197-213 | after `cancel` the next timer tick turns loading back on and the handler ends CANCELLED without turning it off |
| AsyncOperation.SharedLoopEndsCancelQuietly | scripts/addons_core/mixar_copilot/operators/async_operator.py:169-213 | with two operators on the shared loop, a finishing tick of one also completes the other's cancellation and turns loading off; the other's next tick then ends CANCELLED with loading still off |
| AsyncOperation.StepAll | scripts/addons_core/mixar_copilot/operators/async_operator.py:205 | one loop step advances every registry entry's task and changes nothing else about the entries |
| Loading.CancelAll | scripts/addons_core/mixar_copilot/operators/loading.py:10-31 | FINISHED, loading off; every snapshot entry whose `cancel` does not raise is cancelled, the others are left as they were, and nothing else changes |
| Submit.InputError | scripts/addons_core/mixar_copilot/operators/submit.py:74-182 | tab 1 and tab 3 reject blank input; tab 2 rejects a blank prompt and then a blank image URL, in that order; other tabs never reject |
| Submit.Started | scripts/addons_core/mixar_copilot/operators/submit.py:83-89 | each of the three tabs starts an operation that names a known call; other tabs start none |
| Submit.StartedCall | scripts/addons_core/mixar_copilot/operators/submit.py:135-141 | tab 1 continues or creates a chat thread, tab 2 asks for a description, tab 3 continues or creates a scripting thread from `thread_id_tab3` |
| Submit.Execute | scripts/addons_core/mixar_copilot/operators/submit.py:10-23 | invalid input is one dialog and CANCELLED with no log entry or operation; valid input logs the user's text (tab 1 chat, tab 3 scripts) and registers exactly one operation, and nothing else changes: thread ids, inputs, analysis rows, generated text and executed scripts are kept; unknown tabs change only the flags; loading always ends off |
| Submit.NoDescriptionFromPanel | scripts/addons_core/mixar_copilot/properties/panel.py:8-17 | a tab from the enum's domain never starts a description operation |
| Submit.LoadingFlickers | scripts/addons_core/mixar_copilot/utils/error_handling.py:56-61 | a successful submit leaves loading off with an operation running, and its next tick turns loading back on with the progress message |
| Submit.ProcessDescriptionResponse | scripts/addons_core/mixar_copilot/operators/submit.py:145-157 | a decoding failure raises and changes nothing; otherwise the analysis list is cleared and the loop adds one row per component in order, "visual_characteristics" going to the description |
| Submit.AddComponentsAppends | scripts/addons_core/mixar_copilot/operators/submit.py:152-157 | the synchronous append loop adds, after the rows already there, exactly the rows the asynchronous handler builds, one per component in order |
| Submit.DescriptionPathsAgree | scripts/addons_core/mixar_copilot/operators/async_operator.py:92-104 | the asynchronous handler and the synchronous one, each with its own loop, build the same properties from the same successful reply |
| Analyze.AnalyzeImage | scripts/addons_core/mixar_copilot/operators/analyze.py:11-27 | CANCELLED exactly when the image URL or prompt is empty (no stripping); otherwise the five sample rows are appended to what is there |
| Analyze.AnalyzeTwiceAppendsTwice | scripts/addons_core/mixar_copilot/operators/analyze.py:20-25 | analysing twice leaves both copies of the sample rows, ten more rows in all |
| Analyze.AnalyzeAcceptsWhitespace | scripts/addons_core/mixar_copilot/operators/analyze.py:15 | every non-empty whitespace-only URL and prompt pass Analyze Image, while tab 2 of Submit rejects them |
| Analyze.ApproveParams | scripts/addons_core/mixar_copilot/operators/analyze.py:80-87 | Approve's operation selects script generation on the given thread |
| Analyze.Approve | scripts/addons_core/mixar_copilot/operators/analyze.py:34-45 | CANCELLED with one dialog exactly when there is no description thread; otherwise one script-generation operation on that thread is registered |
| Analyze.ApproveBodyEffect | scripts/addons_core/mixar_copilot/operators/analyze.py:36-45 | the unwrapped body: a missing thread is one dialog, otherwise one registered operation |
| Analyze.Edit | scripts/addons_core/mixar_copilot/operators/analyze.py:94-97 | FINISHED, and only the wrapper's loading flags change |
| TextLayout.IterLines | scripts/addons_core/mixar_copilot/ui/text.py:4-6 | one pair per line of `splitlines()`, numbered from 1 upwards by one |
| TextLayout.LineToRows | scripts/addons_core/mixar_copilot/ui/text.py:9-31 | at least one row |
| TextLayout.RowsWithinLength | scripts/addons_core/mixar_copilot/ui/text.py:24-28 | when no word is longer than the row length, no row is |
| TextLayout.FirstWordOfRowLength | scripts/addons_core/mixar_copilot/ui/text.py:24-26 | a first word exactly as long as a row starts the output with an empty row |
| TextLayout.Chunks | scripts/addons_core/mixar_copilot/ui/text.py:17-23 | the chunks concatenate to the word and none is longer than the bound |
| TextLayout.OverlongWordTwice | scripts/addons_core/mixar_copilot/ui/text.py:16-28 | a line that is a single over-long word is emitted twice: as chunks of at most row length − 1 characters, then whole |
| TextLayout.OverlongWordPlaced | scripts/addons_core/mixar_copilot/ui/text.py:16-28 | an over-long word in any state: its characters continue a row that has room, with no space, or start after that row is finished; the rows fill with chunks of row length − 1, the last chunk is finished too, and the whole word becomes the row being filled |
| TextLayout.RowsJoinToLine | scripts/addons_core/mixar_copilot/ui/text.py:13-31 | when every word is non-empty and shorter than a row, joining the rows with spaces gives back the line |
| TextLayout.RowsOf | scripts/addons_core/mixar_copilot/ui/text.py:36-39 | one left-aligned label per row, in order |
| TextLayout.DrawTextCons | scripts/addons_core/mixar_copilot/ui/text.py:42-44 | the first line is drawn first, then the rest of the text: each line once, in order |
| Markdown.InlineTextAppend | scripts/addons_core/mixar_copilot/ui/ui_utils.py:12-28 | the text fold over children distributes over concatenation |
| Markdown.InlineTextIsLeaves | scripts/addons_core/mixar_copilot/ui/ui_utils.py:12-28 | the fold is the concatenation of the leaves in document order: raw text verbatim, line breaks as "\n", code spans quoted |
| Markdown.WrappersTransparent | scripts/addons_core/mixar_copilot/ui/ui_utils.py:16-17 | paragraph, emphasis and strong emphasis add no text of their own |
| Markdown.IgnoredChild | scripts/addons_core/mixar_copilot/ui/ui_utils.py:15-27 | other node types contribute nothing |
| Markdown.BulletIconCycle | scripts/addons_core/mixar_copilot/ui/ui_utils.py:66-74 | the icon depends only on the depth modulo 4, and any four consecutive depths get four different icons |
| Markdown.ItemText | scripts/addons_core/mixar_copilot/ui/ui_utils.py:62-65 | ordered items are prefixed by their number and two spaces, unordered ones are the plain text |
| Markdown.FenceCaption | scripts/addons_core/mixar_copilot/ui/ui_utils.py:92-103 | python gives "Python"/SCRIPT, diff gives "Changes"/FORCE_CHARGE, any other language is shown as is with TEXT |
| Markdown.DiffRowRoundTrip | scripts/addons_core/mixar_copilot/ui/ui_utils.py:119-132 | the stripped diff marker and the shown text give back the source line |
| Markdown.CodeRows | scripts/addons_core/mixar_copilot/ui/ui_utils.py:113-132 | one row per non-empty line, numbered by the line's position so that skipped lines still count |
| Markdown.OrderedNumbering | scripts/addons_core/mixar_copilot/ui/ui_utils.py:49-50 | the k-th item of an ordered list is drawn with number k, counting from 1 |
| Markdown.NestedListDepth | scripts/addons_core/mixar_copilot/ui/ui_utils.py:80-88 | a list nested in an item is drawn one indent deeper, at the same depth under an ordered item and one deeper under an unordered one |
| Markdown.HandleItemsAppend | scripts/addons_core/mixar_copilot/ui/ui_utils.py:49-50 | the items of a list are drawn one after another, numbering continuing |
| Markdown.DrawMarkdown | scripts/addons_core/mixar_copilot/ui/ui_utils.py:134-152 | a parse failure draws nothing; n top-level nodes are separated by exactly n − 1 separators |
| Markdown.SeparatorsBetween | scripts/addons_core/mixar_copilot/ui/ui_utils.py:139-142 | the separator count of the drawn document is one less than its node count |
| VolumeToMesh.CornerValue | source/blender/blenkernel/intern/volume_to_mesh.cc:138 | the stored corner is a 32-bit `int` congruent to offset + index modulo 2^32 |
| VolumeToMesh.CornerValueNoWrap | source/blender/blenkernel/intern/volume_to_mesh.cc:138 | without overflow the corner is offset + index |
| VolumeToMesh.CornerValueWraps | source/blender/blenkernel/intern/volume_to_mesh.cc:138 | an offset index from 2^31 up to 2^32 − 1 is stored as the sum − 2^32, a negative corner |
| VolumeToMesh.FillMeshFromOpenVdbData | source/blender/blenkernel/intern/volume_to_mesh.cc:120-152 | vertices copied to their slice; triangle faces at loop offsets 3 apart and quads after them 4 apart; corners in reversed winding; nothing outside the three slices changes |
| VolumeToMesh.WriteTriangles | source/blender/blenkernel/intern/volume_to_mesh.cc:133-140 | triangle i gets face offset loop_offset + 3i and corners tris[i][2-j]; nothing else changes |
| VolumeToMesh.WriteQuads | source/blender/blenkernel/intern/volume_to_mesh.cc:142-151 | quad i gets face offset quad_loop_offset + 4i and corners quads[i][3-j]; nothing else changes |
| VolumeToMesh.TriangleCorner | source/blender/blenkernel/intern/volume_to_mesh.cc:136-139 | corner j of triangle i is vertex 2 − j of that triangle |
| VolumeToMesh.QuadCorner | source/blender/blenkernel/intern/volume_to_mesh.cc:147-150 | corner j of quad i is vertex 3 − j of that quad |
| VolumeToMesh.FaceOffsetSteps | source/blender/blenkernel/intern/volume_to_mesh.cc:134-146 | consecutive face offsets increase by 3 over triangles and by 4 over quads |
| VolumeToMesh.GridToMesh | source/blender/blenkernel/intern/volume_to_mesh.cc:99-117 | a throwing conversion leaves no vertices, triangles or quads and records "OpenVDB error: …"; the error text is non-empty exactly when the conversion threw |
| VolumeToMesh.VolumeToMeshData | source/blender/blenkernel/intern/volume_to_mesh.cc:154-167 | non-scalar grids give an empty result without error; scalar ones the conversion's |
| VolumeToMesh.VolumeToMeshFromData | source/blender/blenkernel/intern/volume_to_mesh.cc:169-198 | buffers of T + Q faces and 3T + 4Q loops are filled from offset zero, every write in bounds, the last offset the loop total; the mesh equals, entry by entry, the reference layout `BuiltMesh` |
| VolumeToMesh.FaceSizes | source/blender/blenkernel/intern/volume_to_mesh.cc:178-190 | every face of the built mesh, the last included, spans 3 loops for a triangle and 4 for a quad |
| VolumeToMesh.VolumeToMesh | source/blender/blenkernel/intern/volume_to_mesh.cc:169-198 | the mesh is the reference layout of `volume_to_mesh_data`'s data, the error text dropped; a non-scalar grid or a failed conversion gives the empty mesh; a converted scalar grid gives its vertices, face offsets and reversed corners |
| VolumeToMesh.FailedConversionLooksEmpty | source/blender/blenkernel/intern/volume_to_mesh.cc:169-176 | a failed conversion yields the same data, and so the same mesh, as a conversion that found nothing: no vertices, one zero offset (the model's offsets convention), no loops |
| PyStr.Strip | scripts/addons_core/mixar_copilot/api/client.py:126-132 | the result has no outer whitespace and is empty exactly for blank input |
| PyStr.StripOfPadded | scripts/addons_core/mixar_copilot/api/client.py:126-132 | stripping removes exactly the whitespace padding |
| PyStr.Split | scripts/addons_core/mixar_copilot/api/client.py:128 | there is always a first piece, and a second exactly when the separator occurs |
| PyStr.JoinSplit | scripts/addons_core/mixar_copilot/api/client.py:128 | joining the pieces with the separator gives back the string |
| PyStr.SplitLinesCons | scripts/addons_core/mixar_copilot/ui/text.py:5 | a "\n" or "\r\n" ends exactly the preceding line |
| PyStr.ParseNatToString | scripts/addons_core/mixar_copilot/api/client.py:38 | the decimal rendering of a status code reads back as the same number |

## Left out

- HTTP I/O: sessions, timeouts, `_ensure_session` and `close` are not modelled. Each attempt's outcome is an input, and the client counts as closed whenever it was built.
- JSON decoding is the host's `loads`. A JSON `null` and an absent key are both `None`, and every present value has the expected type.
- AsyncOperation.HandleResult: replies with nulls or ill-typed values are not modelled. In the source a `"description": null` in a successful reply shows "No description received from the API." and keeps the list; `"components": null` or a component that is not a dict raises after the list was cleared, leaving it partly rebuilt; a null `thread_id` or `message` raises when assigned. Here null reads as absent, so the defaults apply.
- Submit.ProcessDescriptionResponse: likewise, a null "description" (where `json.loads(None)` raises `TypeError`) and null or ill-typed components (which raise mid-loop) are not modelled; null reads as absent.
- The asyncio event loop, `event_timer_add`, `modal_handler_add`, redraws and `run_until_complete` are not modelled. Every operator's loop is the one `asyncio.get_event_loop()` returns, so a timer tick takes as input which registry tasks that shared loop step finishes (`LoopRun`). The `RuntimeError` fallback that makes a fresh loop is not modelled.
- `exec` of generated scripts is an oracle (`Host.exec`) that either succeeds or names an error.
- Reports and prints are dropped: they change no state.
- `operator_error_handler` with a context that lacks the panel is modelled through `hasProps`. Every operator in the add-on runs with the panel present.
- The `except Exception: pass` around `add_message` in `log_error` is not modelled, because `add_message` never raises in this model.
- The legacy synchronous paths (`_handle_tab1`, `_handle_tab2`, `_handle_approve`) and the synchronous client methods are left out. They are not reachable from the operators. The synchronous client is kept only for `_handle_response`, `extract_python_code` and its constructor.
- The "Invalid JSON response" clause of `_handle_response` is not modelled: it cannot be reached, because the decoding error is caught by the clause before it.
- Font scaling of `row_length` (`widget.points / 11`) is not modelled; the row length is an integer input.
- Layout split factors, scales and alignment are not modelled; rows carry only their text.
- The bullet icon is computed but never drawn, so it does not appear in the drawn widgets.
- The `marko` parser is left out: documents are a parsed node tree, or `None` for a parse failure.
- OpenVDB's `volumeToMesh`, the resolution factor and voxel-size maths, and the half-voxel vertex offset are left out. They are float or foreign-library work, and vertex positions are only copied. `mesh_calc_edges`, `mesh_smooth_set` and the allocation in `BKE_mesh_new_nomain` are mesh internals, not part of this model.
- VolumeToMesh.VolumeToMeshFromData: requires the loop total to fit a 32-bit `int`. The source computes the total in `size_t` and narrows it to `int`, which would wrap; the loop indices `loop_offset + 3 * i` and `quad_loop_offset + 4 * i` of `fill_mesh_from_openvdb_data` are `int` arithmetic, and overflowing them is undefined behaviour.
- VolumeToMesh.BuiltMesh: the offsets buffer always has one entry more than there are faces, so a mesh without faces has the single offset 0. How Blender allocates that buffer for zero faces is not part of this model.
- UI-only code is left out: `ui/panels.py`, `ui/loading.py`, `operators/toggle.py` and the `ErrorDialogOperator` dialog. It is layout and host interaction.
- Registration and dependency loading (`__init__.py` files, `dependencies.py`) are left out, and so is `BPy_SamplingShader.h`, a type declaration only.
- Integer properties (`count`) are unbounded here. Blender's 32-bit `IntProperty` range is not modelled, because no operation does arithmetic on them.
- TextLayout.LineToRows: the function's own contract states only that there is at least one row. The row-length bound, the empty first row, the repeated over-long word and the join round trip are separate lemmas.
