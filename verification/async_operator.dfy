/** The asynchronous bridge between Blender's event loop and the API client
    (operators/async_operator.py): which client call an operation makes,
    starting the operator, its modal timer ticks, the handling of a finished
    task's result, the generated script, `cleanup` and `cancel`.  The
    asyncio loop every operator shares is abstracted to its effect on one
    tick: a step of it advances every registered task, and which of them
    finish on that step is an input. */
module AsyncOperation {
  import opened Wrappers
  import opened PyStr
  import opened Panel
  import opened ApiClient
  import opened Scene
  import opened ChatOps

  // ---------------------------------------------------------------------
  // The coroutine
  // ---------------------------------------------------------------------

  const KnownOperations: seq<string> := ["chat", "generate_description", "generate_script", "scripting"]

  /** The operation an API call serves. */
  function OperationOf(call: ApiCall): string {
    match call
    case CreateChatThread(_, _) => "chat"
    case SendChatMessage(_, _) => "chat"
    case GenerateDescription(_, _) => "generate_description"
    case GenerateScript(_) => "generate_script"
    case CreateThreadAndGenerateScript(_, _) => "scripting"
    case ContinueScriptGeneration(_, _) => "scripting"
  }

  /** Calls that continue an existing server thread. */
  predicate OnThread(call: ApiCall) {
    call.SendChatMessage? || call.GenerateScript? || call.ContinueScriptGeneration?
  }

  /** The thread id an operation would continue: `script_thread_id` for
      scripting, `thread_id` otherwise. */
  function ThreadParam(p: OpParams): string {
    if p.operation == "scripting" then p.scriptThreadId else p.threadId
  }

  /** The dispatch of `async_operation`: chat and scripting continue a thread
      exactly when one is given, otherwise they create one; an unknown
      operation raises `APIError`. */
  function SelectCall(p: OpParams): (r: Result<ApiCall, string>)
    ensures r.Failure? <==> p.operation !in KnownOperations
    ensures r.Failure? ==> r.error == "Unknown operation: " + p.operation
    ensures r.Success? ==> OperationOf(r.value) == p.operation
    ensures r.Success? && (p.operation == "chat" || p.operation == "scripting") ==> (OnThread(r.value) <==> ThreadParam(p) != "")
    ensures r.Success? && OnThread(r.value) ==> r.value.threadId == ThreadParam(p)
    ensures r.Success? && !r.value.GenerateScript? ==> r.value.prompt == p.message
    ensures r.Success? && !OnThread(r.value) ==> r.value.imageUrl == p.imageUrl
  {
    if p.operation == "chat" then
      if p.threadId != "" then Success(SendChatMessage(p.threadId, p.message))
      else Success(CreateChatThread(p.message, p.imageUrl))
    else if p.operation == "generate_description" then
      Success(GenerateDescription(p.message, p.imageUrl))
    else if p.operation == "generate_script" then
      Success(GenerateScript(p.threadId))
    else if p.operation == "scripting" then
      if p.scriptThreadId != "" then Success(ContinueScriptGeneration(p.scriptThreadId, p.message))
      else Success(CreateThreadAndGenerateScript(p.message, p.imageUrl))
    else Failure("Unknown operation: " + p.operation)
  }

  /** What one run of the coroutine did: the call it made, if any, how it
      ended, and whether it closed a client. */
  datatype OperationRun = OperationRun(call: Option<ApiCall>, outcome: Outcome, clientClosed: bool)

  /** `async_operation`: the client is built inside the `try`, so a
      construction failure ends the coroutine with nothing to close; every
      later exit, returning or raising, closes the client. */
  function RunOperation(p: OpParams, prefs: Option<Credentials>, reply: nat -> HttpOutcome): (r: OperationRun)
    ensures r.clientClosed <==> NewClient(prefs).Success?
    ensures NewClient(prefs).Failure? ==> r == OperationRun(None, Err(MissingCredentials), false)
    ensures r.call.Some? <==> NewClient(prefs).Success? && SelectCall(p).Success?
    ensures NewClient(prefs).Success? && SelectCall(p).Failure? ==> r.outcome == Err(SelectCall(p).error)
    ensures r.call.Some? ==> r.call.value == SelectCall(p).value
    ensures r.call.Some? && CallWithRetry(reply).result.Success? ==> r.outcome == Ok(CallWithRetry(reply).result.value)
    ensures r.call.Some? && CallWithRetry(reply).result.Failure? ==> r.outcome == Err(CallWithRetry(reply).result.error)
  {
    match NewClient(prefs)
    case Failure(e) => OperationRun(None, Err(e), false)
    case Success(_) =>
      match SelectCall(p)
      case Failure(e) => OperationRun(None, Err(e), true)
      case Success(call) =>
        match CallWithRetry(reply).result
        case Success(j) => OperationRun(Some(call), Ok(j), true)
        case Failure(e) => OperationRun(Some(call), Err(e), true)
  }

  // ---------------------------------------------------------------------
  // execute
  // ---------------------------------------------------------------------

  const TaskCreatedMessage: string := "Task Created ..."

  /** `execute`: the spinner goes on, the instance joins the registry with a
      timer and a modal handler and a task that has not run yet.  The two
      earlier loading messages are overwritten before anything draws. */
  function Execute(w: World, p: OpParams, prefs: Option<Credentials>, reply: nat -> HttpOutcome): (r: Step)
    ensures r.status == RunningModal
    ensures r.world.props.isLoading && r.world.props.loadingMessage == TaskCreatedMessage
    ensures |r.world.operators| == |w.operators| + 1
    ensures r.world.operators[..|w.operators|] == w.operators
    ensures r.world.operators[|w.operators|] == AsyncOp(p, Pending(RunOperation(p, prefs, reply).outcome), true, true, true)
    ensures r.world == w.(props := w.props.(isLoading := true, loadingMessage := TaskCreatedMessage),
                          operators := r.world.operators)
  {
    var props := w.props.(isLoading := true, loadingMessage := "Processing " + p.operation + "...");
    var props := props.(loadingMessage := "Creating event loop ...");
    var op := AsyncOp(p, Pending(RunOperation(p, prefs, reply).outcome), true, true, true);
    Step(RunningModal, w.(props := props.(loadingMessage := TaskCreatedMessage), operators := w.operators + [op]))
  }

  // ---------------------------------------------------------------------
  // cleanup and cancel
  // ---------------------------------------------------------------------

  /** `cleanup`: only the flags and `_running` change; the registry entry,
      the timer and the task are left alone. */
  function Cleanup(w: World, id: nat): (r: World)
    requires id < |w.operators|
    ensures !r.props.isLoading && r.props.loadingMessage == IdleMessage
    ensures |r.operators| == |w.operators| && !r.operators[id].running
    ensures forall i :: 0 <= i < |w.operators| && i != id ==> r.operators[i] == w.operators[i]
    ensures r.operators[id] == w.operators[id].(running := false)
    ensures r == w.(props := w.props.(isLoading := false, loadingMessage := IdleMessage), operators := r.operators)
  {
    w.(props := w.props.(isLoading := false, loadingMessage := IdleMessage),
       operators := w.operators[id := w.operators[id].(running := false)])
  }

  /** `task.cancel()`: a task that is not done is asked to stop. */
  function RequestCancel(t: Task): (r: Task)
    ensures TaskDone(t) ==> r == t
    ensures !TaskDone(t) ==> r == Cancelling
  {
    if TaskDone(t) then t else Cancelling
  }

  /** One registry entry after its `cancel`. */
  function CancelledOp(op: AsyncOp): AsyncOp {
    op.(task := RequestCancel(op.task), running := false)
  }

  /** `cancel`: request cancellation of an unfinished task, clean up, and
      report CANCELLED.  The modal handler stays installed unless the window
      manager itself is removing it. */
  function Cancel(w: World, id: nat): (r: Step)
    requires id < |w.operators|
    ensures r.status == Cancelled
    ensures !r.world.props.isLoading && r.world.props.loadingMessage == IdleMessage
    ensures |r.world.operators| == |w.operators|
    ensures !TaskDone(w.operators[id].task) ==> r.world.operators[id].task == Cancelling
    ensures TaskDone(w.operators[id].task) ==> r.world.operators[id].task == w.operators[id].task
    ensures r.world == w.(props := w.props.(isLoading := false, loadingMessage := IdleMessage),
                          operators := w.operators[id := CancelledOp(w.operators[id])])
  {
    var op := w.operators[id];
    var w1 := w.(operators := w.operators[id := op.(task := RequestCancel(op.task))]);
    Step(Cancelled, Cleanup(w1, id))
  }

  // ---------------------------------------------------------------------
  // Results
  // ---------------------------------------------------------------------

  const SorryMessage: string := "Sorry, I couldn't process that."
  const ScriptErrorMessage: string := "Error while generating script"
  const NoDescriptionMessage: string := "No description received from the API."
  const NoScriptMessage: string := "No script content received from the API."
  const GeneratedScriptName: string := "Generated_Script.py"

  /** One analysis row from one component, with the source's defaults for
      absent keys. */
  function ItemOf(c: Component): AnalysisItem {
    AnalysisItem(c.component.GetOr(""), c.count.GetOr(0), c.basicShape.GetOr(""), c.visualCharacteristics.GetOr(""))
  }

  /** The analysis list rebuilt from a description document: one row per
      component, in order; a document without "components" gives none. */
  function ResultsFrom(doc: DescriptionDoc): (r: seq<AnalysisItem>)
    ensures doc.components.None? ==> r == []
    ensures doc.components.Some? ==> |r| == |doc.components.value|
    ensures doc.components.Some? ==> forall i :: 0 <= i < |r| ==> r[i] == ItemOf(doc.components.value[i])
  {
    match doc.components
    case None => []
    case Some(cs) => seq(|cs|, i requires 0 <= i < |cs| => ItemOf(cs[i]))
  }

  /** The text `_handle_generated_script` runs and stores: with the
      marker, the fence body (what follows the first "```python", cut at a
      second marker and then at the first "```" inside), unstripped; the
      whole content when there is no marker. */
  function ScriptLines(content: string): (r: string)
    ensures Contains(content, PythonFence) ==> r == FenceBody(content) && !Contains(r, Fence)
    ensures !Contains(content, PythonFence) ==> r == content
  {
    if Contains(content, PythonFence) then FenceBody(content) else content
  }

  /** The operator's own extraction and the client's `extract_python_code`
      agree up to surrounding whitespace. */
  lemma ScriptLinesMatchClient(content: string)
    ensures ExtractPythonCode(content) == Success(Strip(ScriptLines(content)))
  {
  }

  /** For a reply of prose, a fenced Python block and a tail, the operator
      runs exactly the code inside the fence. */
  lemma ScriptLinesOfBlock(prose: string, code: string, tail: string)
    requires NoBacktick(prose) && NoBacktick(code)
    requires tail == [] || tail[0] != '`'
    ensures ScriptLines(prose + PythonFence + code + Fence + tail) == code
  {
    FenceBodyOfBlock(prose, code, tail);
  }

  /** `_handle_generated_script`: empty content is an error dialog; other
      content is executed (a failure becomes a dialog) and then written to
      the "Generated_Script.py" text.  The panel properties are untouched. */
  function HandleGeneratedScript(w: World, content: string, host: Host): (r: World)
    ensures content == [] ==> r == ShowError(w, NoScriptMessage)
    ensures content != [] ==> r.generatedText == Some(ScriptLines(content))
    ensures content != [] ==> r.executed == w.executed + [ScriptLines(content)]
    ensures content != [] && host.exec(ScriptLines(content)).None? ==> r.dialogs == w.dialogs
    ensures content != [] && host.exec(ScriptLines(content)).Some? ==>
      r.dialogs == w.dialogs + ["Error during script execution: " + host.exec(ScriptLines(content)).value]
    ensures r.props == w.props && r.operators == w.operators
  {
    if content == [] then ShowError(w, NoScriptMessage)
    else
      var lines := ScriptLines(content);
      var w1 := w.(executed := w.executed + [lines]);
      var w2 := match host.exec(lines)
        case None => w1
        case Some(e) => ShowError(w1, "Error during script execution: " + e);
      w2.(generatedText := Some(lines))
  }

  /** How `handle_result` ends: normally, or by raising (only `json.loads`
      can), with the state reached so far. */
  datatype Handled = Handled(world: World) | Raised(world: World, message: string)

  predicate Succeeded(j: Json) {
    j.status == Some("success")
  }

  /** `handle_result` for a finished operation `p` whose coroutine returned
      the body `j`. */
  function HandleResult(w: World, p: OpParams, j: Json, host: Host): (r: Handled)
    // chat: a new thread's id is kept, and the reply is logged
    ensures p.operation == "chat" ==> r.Handled?
    ensures p.operation == "chat" ==>
      r.world.props.threadIdTab1 == (if p.threadId == "" then j.threadId.GetOr("") else w.props.threadIdTab1)
    ensures p.operation == "chat" ==>
      r.world.props.chatMessages == w.props.chatMessages + [ChatMessage(j.message.GetOr(SorryMessage), false, FormatHM(host.clock))]
    // ... and nothing else changes but the loading flags `add_message` leaves idle
    ensures p.operation == "chat" ==>
      r.world == w.(props := w.props.(threadIdTab1 := r.world.props.threadIdTab1, chatMessages := r.world.props.chatMessages,
                                      isLoading := false, loadingMessage := IdleMessage))
    // description: an unsuccessful reply is only an error dialog
    ensures p.operation == "generate_description" && !Succeeded(j) ==>
      r == Handled(ShowError(w, j.description.GetOr(SorryMessage)))
    // ... a successful one always records the thread id
    ensures p.operation == "generate_description" && Succeeded(j) ==>
      r.world.props == w.props.(threadIdTab2 := j.threadId.GetOr(""), analysisResults := r.world.props.analysisResults)
    // ... an empty description is a dialog and keeps the old results
    ensures p.operation == "generate_description" && Succeeded(j) && j.description == Some("") ==>
      r == Handled(ShowError(w.(props := w.props.(threadIdTab2 := j.threadId.GetOr(""))), NoDescriptionMessage))
    // ... otherwise the description is parsed, and a parse failure raises
    ensures p.operation == "generate_description" && Succeeded(j) && j.description != Some("") ==>
      var desc := j.description.GetOr("{}");
      (host.loads(desc).Failure? ==>
         r == Raised(w.(props := w.props.(threadIdTab2 := j.threadId.GetOr(""))), host.loads(desc).error))
      && (host.loads(desc).Success? ==>
         r == Handled(w.(props := w.props.(threadIdTab2 := j.threadId.GetOr(""),
                                           analysisResults := ResultsFrom(host.loads(desc).value)))))
    // script generation: unsuccessful replies are a dialog, others go to the script handler
    ensures (p.operation == "generate_script" || p.operation == "scripting") && !Succeeded(j) ==>
      r == Handled(ShowError(w, j.message.GetOr(ScriptErrorMessage)))
    ensures p.operation == "generate_script" && Succeeded(j) ==>
      r == Handled(HandleGeneratedScript(w, j.script.GetOr(""), host))
    // scripting: a new thread's id is kept, the reply logged, and the script handled
    ensures p.operation == "scripting" && Succeeded(j) ==>
      r.Handled?
      && r.world.props.threadIdTab3 == (if p.scriptThreadId == "" then j.threadId.GetOr("") else w.props.threadIdTab3)
      && r.world.props.scripts == w.props.scripts + [Script(j.message.GetOr(SorryMessage), false, FormatHM(host.clock))]
      && r.world.executed == (if j.script.GetOr("") == [] then w.executed else w.executed + [ScriptLines(j.script.GetOr(""))])
    // ... and that is all: `add_script` leaves the flags idle before the script is handled
    ensures p.operation == "scripting" && Succeeded(j) ==>
      r == Handled(HandleGeneratedScript(
             w.(props := w.props.(threadIdTab3 := if p.scriptThreadId == "" then j.threadId.GetOr("") else w.props.threadIdTab3,
                                  scripts := w.props.scripts + [Script(j.message.GetOr(SorryMessage), false, FormatHM(host.clock))],
                                  isLoading := false, loadingMessage := IdleMessage)),
             j.script.GetOr(""), host))
    ensures p.operation !in KnownOperations ==> r == Handled(w)
  {
    if p.operation == "chat" then
      var w1 := if p.threadId == "" then w.(props := w.props.(threadIdTab1 := j.threadId.GetOr(""))) else w;
      Handled(AddMessage(w1, j.message.GetOr(SorryMessage), false, host.clock).world)
    else if p.operation == "generate_description" then
      if !Succeeded(j) then Handled(ShowError(w, j.description.GetOr(SorryMessage)))
      else
        var w1 := w.(props := w.props.(threadIdTab2 := j.threadId.GetOr("")));
        var desc := j.description.GetOr("{}");
        if desc == [] then Handled(ShowError(w1, NoDescriptionMessage))
        else
          match host.loads(desc)
          case Failure(e) => Raised(w1, e)
          case Success(doc) => Handled(w1.(props := w1.props.(analysisResults := ResultsFrom(doc))))
    else if p.operation == "generate_script" then
      if !Succeeded(j) then Handled(ShowError(w, j.message.GetOr(ScriptErrorMessage)))
      else Handled(HandleGeneratedScript(w, j.script.GetOr(""), host))
    else if p.operation == "scripting" then
      if !Succeeded(j) then Handled(ShowError(w, j.message.GetOr(ScriptErrorMessage)))
      else
        var w1 := if p.scriptThreadId == "" then w.(props := w.props.(threadIdTab3 := j.threadId.GetOr(""))) else w;
        var w2 := AddScript(w1, j.message.GetOr(SorryMessage), false, host.clock).world;
        Handled(HandleGeneratedScript(w2, j.script.GetOr(""), host))
    else Handled(w)
  }

  // ---------------------------------------------------------------------
  // modal
  // ---------------------------------------------------------------------

  datatype Event = Timer | OtherEvent

  /** Whether a task finishes during one `run_until_complete(asyncio.sleep(0))`:
      it has not finished yet, or it has. */
  datatype LoopStep = StillRunning | Finishes

  /** One step of the event loop every operator shares: it runs every ready
      task, not only the ticking operator's, and registry entry `i`'s task
      finishes on it exactly when `loop(i)` is `Finishes`. */
  type LoopRun = nat -> LoopStep

  /** A loop step on which every unfinished task finishes. */
  const AllFinish: LoopRun := _ => Finishes

  /** A loop step on which no task finishes. */
  const NoneFinish: LoopRun := _ => StillRunning

  function Advance(t: Task, step: LoopStep): (r: Task)
    ensures TaskDone(t) ==> r == t
    ensures step.StillRunning? ==> r == t
    ensures t.Pending? && step.Finishes? ==> r == Completed(t.planned)
    ensures t.Cancelling? && step.Finishes? ==> r == TaskCancelled
  {
    match t
    case Pending(o) => if step.Finishes? then Completed(o) else t
    case Cancelling => if step.Finishes? then TaskCancelled else t
    case _ => t
  }

  /** The registry after one shared loop step: every entry's task advances,
      and nothing else about the entries changes. */
  function StepAll(ops: seq<AsyncOp>, loop: LoopRun): (r: seq<AsyncOp>)
    ensures |r| == |ops|
    ensures forall i :: 0 <= i < |ops| ==> r[i] == ops[i].(task := Advance(ops[i].task, loop(i)))
  {
    seq(|ops|, i requires 0 <= i < |ops| => ops[i].(task := Advance(ops[i].task, loop(i))))
  }

  /** The loading message shown while a task runs. */
  function ProgressMessage(operation: string): string {
    if operation == "generate_description" then "Generating description..."
    else if operation == "generate_script" then "Generating script..."
    else "Processing..."
  }

  const CompletedMessage: string := "Completed..."

  /** The spinner tick of registry entry `id`: while its own task is not
      done, the loading flag is forced on, the message names the operation,
      and the shared loop runs one step, which advances every task in the
      registry.  A done task leaves everything as it was. */
  function Tick(w: World, id: nat, loop: LoopRun): (r: World)
    requires id < |w.operators|
    ensures |r.operators| == |w.operators|
    ensures !TaskDone(w.operators[id].task) ==>
      forall i :: 0 <= i < |w.operators| ==> r.operators[i] == w.operators[i].(task := Advance(w.operators[i].task, loop(i)))
    ensures !TaskDone(w.operators[id].task) ==>
      r.props == w.props.(isLoading := true, loadingMessage := ProgressMessage(w.operators[id].params.operation))
    ensures TaskDone(w.operators[id].task) ==> r == w
    ensures r == w.(props := r.props, operators := r.operators)
  {
    var op := w.operators[id];
    if TaskDone(op.task) then w
    else w.(props := w.props.(isLoading := true, loadingMessage := ProgressMessage(op.params.operation)),
            operators := StepAll(w.operators, loop))
  }

  /** The modal handler stops receiving events. */
  function EndModal(w: World, id: nat): (r: World)
    requires id < |w.operators|
    ensures |r.operators| == |w.operators|
    ensures forall i :: 0 <= i < |w.operators| && i != id ==> r.operators[i] == w.operators[i]
    ensures r.operators[id] == w.operators[id].(modal := false)
    ensures r == w.(operators := r.operators)
  {
    w.(operators := w.operators[id := w.operators[id].(modal := false)])
  }

  /** A done task on a timer tick: its error or its result is delivered,
      then `cleanup` runs and the handler ends. */
  function Deliver(w: World, id: nat, o: Outcome, host: Host): (r: World)
    requires id < |w.operators|
    ensures |r.operators| == |w.operators|
    ensures forall i :: 0 <= i < |w.operators| && i != id ==> r.operators[i] == w.operators[i]
    ensures r.operators[id] == w.operators[id].(running := false, modal := false)
    ensures !r.props.isLoading && r.props.loadingMessage == IdleMessage
    ensures o.Err? ==> r.dialogs == w.dialogs + [o.message]
    // a returned body is handled with "Completed..." showing; a raise in the
    // handler becomes one more dialog, and the flags end idle either way
    ensures o.Ok? ==>
      var h := HandleResult(w.(props := w.props.(loadingMessage := CompletedMessage)), w.operators[id].params, o.json, host);
      && r.props == h.world.props.(isLoading := false, loadingMessage := IdleMessage)
      && r.dialogs == (if h.Raised? then h.world.dialogs + [h.message] else h.world.dialogs)
      && r.generatedText == h.world.generatedText
      && r.executed == h.world.executed
  {
    match o
    case Err(m) => EndModal(Cleanup(ShowError(w, m), id), id)
    case Ok(j) =>
      var w2 := w.(props := w.props.(loadingMessage := CompletedMessage));
      HandleResultKeepsOperators(w2, w.operators[id].params, j, host);
      var w3 := match HandleResult(w2, w.operators[id].params, j, host)
        case Handled(v) => v
        case Raised(v, e) => ShowError(v, e);
      EndModal(Cleanup(w3, id), id)
  }

  /** `modal` for registry entry `id` on one event.  Non-timer events pass
      through.  On a timer event the shared loop is stepped, which advances
      every registry entry's task; then a task of this entry that failed
      shows its error, one that returned has its result handled (a raise
      there is shown too), and both end FINISHED after `cleanup`.  A
      cancelled task's `exception()` raises `CancelledError`, which no
      `except Exception` catches: the handler ends CANCELLED with no
      cleanup. */
  function Modal(w: World, id: nat, ev: Event, loop: LoopRun, host: Host): (r: Step)
    requires id < |w.operators| && w.operators[id].modal
    ensures |r.world.operators| == |w.operators|
    // other entries: only their tasks move, and only when the loop runs
    ensures forall i :: 0 <= i < |w.operators| && i != id ==>
      r.world.operators[i] == (if ev.Timer? && !TaskDone(w.operators[id].task)
                               then w.operators[i].(task := Advance(w.operators[i].task, loop(i)))
                               else w.operators[i])
    ensures r.world.operators[id].params == w.operators[id].params
    ensures r.world.operators[id].timer == w.operators[id].timer
    ensures ev.OtherEvent? ==> r == Step(PassThrough, w)
    ensures r.status == PassThrough ==>
      r.world.operators[id].modal && (ev.Timer? ==> r.world.props.isLoading && !TaskDone(r.world.operators[id].task))
    ensures r.status == Finished ==>
      !r.world.props.isLoading && r.world.props.loadingMessage == IdleMessage
      && !r.world.operators[id].running && !r.world.operators[id].modal
      && r.world.operators[id].task.Completed?
    ensures r.status == Cancelled ==>
      (w.operators[id].task.Cancelling? || w.operators[id].task.TaskCancelled?)
      && r.world.operators[id].task.TaskCancelled? && !r.world.operators[id].modal
    // a task cancelled before this tick leaves every property as it was
    ensures w.operators[id].task.TaskCancelled? && ev.Timer? ==> r.status == Cancelled && r.world.props == w.props
    ensures r.status == Cancelled && w.operators[id].task.Cancelling? ==> r.world.props.isLoading
    ensures r.status != RunningModal
    ensures w.operators[id].task.Completed? && w.operators[id].task.outcome.Err? && ev.Timer? ==>
      r.status == Finished && r.world.dialogs == w.dialogs + [w.operators[id].task.outcome.message]
    // a task that is or becomes done on this tick has its outcome delivered
    ensures w.operators[id].task.Completed? && ev.Timer? ==>
      r == Step(Finished, Deliver(w, id, w.operators[id].task.outcome, host))
    ensures w.operators[id].task.Pending? && loop(id).Finishes? && ev.Timer? ==>
      r == Step(Finished, Deliver(Tick(w, id, loop), id, w.operators[id].task.planned, host))
  {
    if ev.OtherEvent? then Step(PassThrough, w)
    else
      var w1 := Tick(w, id, loop);
      var op := w1.operators[id];
      match op.task
      case Pending(_) => Step(PassThrough, w1)
      case Cancelling => Step(PassThrough, w1)
      case TaskCancelled => Step(Cancelled, EndModal(w1, id))
      case Completed(o) => Step(Finished, Deliver(w1, id, o, host))
  }

  /** `HandleResult` leaves the registry alone, so `Modal` may clean up the
      same entry afterwards. */
  lemma HandleResultKeepsOperators(w: World, p: OpParams, j: Json, host: Host)
    ensures HandleResult(w, p, j, host).world.operators == w.operators
  {
  }

  /** Starting an operation and letting its first tick finish the request
      delivers the coroutine's outcome: a failure is shown as a dialog. */
  lemma FailedOperationShown(w: World, p: OpParams, prefs: Option<Credentials>, reply: nat -> HttpOutcome, host: Host)
    requires RunOperation(p, prefs, reply).outcome.Err?
    ensures var s := Execute(w, p, prefs, reply).world;
      var r := Modal(s, |w.operators|, Timer, AllFinish, host);
      r.status == Finished
      && r.world.dialogs == w.dialogs + [RunOperation(p, prefs, reply).outcome.message]
      && !r.world.props.isLoading
  {
  }

  /** The success twin: a chat operation whose request returned a body has
      that body handled on the first finishing tick, with no dialog: the
      reply is logged and a new thread's id kept. */
  lemma SucceededChatShown(w: World, p: OpParams, prefs: Option<Credentials>, reply: nat -> HttpOutcome, host: Host)
    requires p.operation == "chat" && RunOperation(p, prefs, reply).outcome.Ok?
    ensures var s := Execute(w, p, prefs, reply).world;
      var r := Modal(s, |w.operators|, Timer, AllFinish, host);
      var j := RunOperation(p, prefs, reply).outcome.json;
      r.status == Finished
      && r.world.dialogs == w.dialogs
      && !r.world.props.isLoading
      && r.world.props.chatMessages == w.props.chatMessages + [ChatMessage(j.message.GetOr(SorryMessage), false, FormatHM(host.clock))]
      && r.world.props.threadIdTab1 == (if p.threadId == "" then j.threadId.GetOr("") else w.props.threadIdTab1)
  {
  }

  /** A cancelled operator whose handler is still installed turns the
      spinner back on at its next tick and then ends CANCELLED without
      turning it off again. */
  lemma CancelThenTickLeavesSpinner(w: World, id: nat, host: Host)
    requires id < |w.operators| && w.operators[id].modal && !TaskDone(w.operators[id].task)
    ensures var c := Cancel(w, id).world;
      !c.props.isLoading
      && Modal(c, id, Timer, AllFinish, host).status == Cancelled
      && Modal(c, id, Timer, AllFinish, host).world.props.isLoading
  {
  }

  /** Operators share the loop.  A tick of operator `a` whose request then
      finishes also completes operator `b`'s cancellation, and `a`'s cleanup
      turns the spinner off; `b`'s next tick finds its task already done, so
      it ends CANCELLED without turning the spinner back on. */
  lemma SharedLoopEndsCancelQuietly(w: World, a: nat, b: nat, host: Host)
    requires a < |w.operators| && b < |w.operators| && a != b
    requires w.operators[a].modal && w.operators[b].modal
    requires w.operators[a].task.Pending? && w.operators[b].task.Cancelling?
    ensures var r1 := Modal(w, a, Timer, AllFinish, host);
      var r2 := Modal(r1.world, b, Timer, AllFinish, host);
      r1.status == Finished && !r1.world.props.isLoading
      && r1.world.operators[b].task == TaskCancelled
      && r2.status == Cancelled && !r2.world.props.isLoading
  {
  }
}
