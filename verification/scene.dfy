/** The state the add-on's operators act on, with every `bpy.ops` call
    taken as a function on it: the panel properties, the error dialogs
    shown, the module-level registry of asynchronous operators
    (`active_async_operators`), the "Generated_Script.py" text block and the
    scripts handed to `exec`. */
module Scene {
  import opened Wrappers
  import opened Panel
  import opened ApiClient

  /** The flag an operator method returns. */
  datatype OpStatus = Finished | Cancelled | RunningModal | PassThrough

  /** What the request coroutine ends in: the decoded body it returns, or
      the text of the exception it raises. */
  datatype Outcome = Ok(json: Json) | Err(message: string)

  /** The asyncio task running the request.  `Pending` carries the outcome
      the coroutine will end in once the event loop has run it far enough;
      `Cancelling` is a task whose `cancel()` was requested and which has
      not run since. */
  datatype Task = Pending(planned: Outcome) | Cancelling | Completed(outcome: Outcome) | TaskCancelled

  predicate TaskDone(t: Task) {
    t.Completed? || t.TaskCancelled?
  }

  /** The string properties an asynchronous operation is started with. */
  datatype OpParams = OpParams(operation: string, message: string, threadId: string, imageUrl: string, scriptThreadId: string)

  /** One `MIXAR_OT_async_operation` instance: its parameters, its task,
      whether its timer is registered, whether its modal handler is still
      installed, and its `_running` flag. */
  datatype AsyncOp = AsyncOp(params: OpParams, task: Task, timer: bool, modal: bool, running: bool)

  datatype World = World(
    props: Props,
    dialogs: seq<string>,
    operators: seq<AsyncOp>,
    generatedText: Option<string>,
    executed: seq<string>)

  /** An operator's return flag and the state it leaves. */
  datatype Step = Step(status: OpStatus, world: World)

  /** The host services the operators call: the wall clock, `json.loads`
      on a description document, and `exec` of a script (`None` when it
      runs through, otherwise the text of what it raised). */
  datatype Host = Host(
    clock: Clock,
    loads: string -> Result<DescriptionDoc, string>,
    exec: string -> Option<string>)

  /** `show_error`: one more error dialog. */
  function ShowError(w: World, message: string): (r: World)
    ensures r.dialogs == w.dialogs + [message]
    ensures r == w.(dialogs := r.dialogs)
  {
    w.(dialogs := w.dialogs + [message])
  }
}
