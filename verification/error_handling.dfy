/** Error handling around the add-on's operators (utils/error_handling.py):
    the state backup taken before an operator body runs and restored when
    it raises, the `operator_error_handler` decorator, `log_error`, and the
    `ui_error_handler` decorator for draw functions. */
module ErrorHandling {
  import opened Panel
  import opened Scene
  import opened TextLayout

  // ---------------------------------------------------------------------
  // ErrorRecovery
  // ---------------------------------------------------------------------

  /** An analysis row as the backup stores it, a plain tuple. */
  type ItemTuple = (string, int, string, string)

  /** What `backup_state` records. */
  datatype Backup = Backup(
    threadIdTab1: string,
    threadIdTab2: string,
    threadIdTab3: string,
    userInput: string,
    imageUrl: string,
    activeTab: string,
    analysisResults: seq<ItemTuple>)

  function ToTuples(items: seq<AnalysisItem>): (r: seq<ItemTuple>)
    ensures |r| == |items|
    decreases |items|
  {
    if items == [] then []
    else
      var a := items[0];
      [(a.component, a.count, a.basicShape, a.description)] + ToTuples(items[1..])
  }

  /** The `analysis_results.add()` loop of `restore_state`, one item per
      tuple with the fields assigned in order. */
  function FromTuples(ts: seq<ItemTuple>): (r: seq<AnalysisItem>)
    ensures |r| == |ts|
    decreases |ts|
  {
    if ts == [] then []
    else
      var t := ts[0];
      [AnalysisItem(t.0, t.1, t.2, t.3)] + FromTuples(ts[1..])
  }

  /** Storing the analysis rows as tuples and rebuilding them loses
      nothing, in order and field by field. */
  lemma {:induction false} TuplesRoundTrip(items: seq<AnalysisItem>)
    ensures FromTuples(ToTuples(items)) == items
    decreases |items|
  {
    if items != [] {
      TuplesRoundTrip(items[1..]);
      assert ToTuples(items)[1..] == ToTuples(items[1..]);
    }
  }

  /** `ErrorRecovery.backup_state`. */
  function BackupState(p: Props): (b: Backup)
    ensures |b.analysisResults| == |p.analysisResults|
  {
    Backup(p.threadIdTab1, p.threadIdTab2, p.threadIdTab3, p.userInput, p.imageUrl, p.activeTab,
           ToTuples(p.analysisResults))
  }

  /** `ErrorRecovery.restore_state`: the backed-up fields are overwritten,
      the analysis list cleared and refilled; everything else is left as
      it is. */
  function RestoreState(p: Props, b: Backup): (r: Props)
    ensures r.chatMessages == p.chatMessages && r.scripts == p.scripts
    ensures r.isLoading == p.isLoading && r.loadingMessage == p.loadingMessage
    ensures r.userInputForScripting == p.userInputForScripting && r.imageUrlForScripting == p.imageUrlForScripting
    ensures r.imagePath == p.imagePath && r.generatedScript == p.generatedScript && r.showTextEditor == p.showTextEditor
  {
    p.(threadIdTab1 := b.threadIdTab1, threadIdTab2 := b.threadIdTab2, threadIdTab3 := b.threadIdTab3,
       userInput := b.userInput, imageUrl := b.imageUrl, activeTab := b.activeTab,
       analysisResults := FromTuples(b.analysisResults))
  }

  /** The fields a backup covers. */
  predicate SameBackedUp(p: Props, q: Props) {
    p.threadIdTab1 == q.threadIdTab1 && p.threadIdTab2 == q.threadIdTab2 && p.threadIdTab3 == q.threadIdTab3
    && p.userInput == q.userInput && p.imageUrl == q.imageUrl && p.activeTab == q.activeTab
    && p.analysisResults == q.analysisResults
  }

  /** Restoring a backup taken of `saved` onto any later state `current`
      brings back exactly the backed-up fields of `saved` and keeps the rest
      of `current`. */
  lemma RestoreBackup(saved: Props, current: Props)
    ensures SameBackedUp(RestoreState(current, BackupState(saved)), saved)
    ensures RestoreState(current, BackupState(saved))
         == current.(threadIdTab1 := saved.threadIdTab1, threadIdTab2 := saved.threadIdTab2,
                     threadIdTab3 := saved.threadIdTab3, userInput := saved.userInput,
                     imageUrl := saved.imageUrl, activeTab := saved.activeTab,
                     analysisResults := saved.analysisResults)
  {
    TuplesRoundTrip(saved.analysisResults);
  }

  /** Restoring a state's own backup changes nothing. */
  lemma RestoreOwnBackup(p: Props)
    ensures RestoreState(p, BackupState(p)) == p
  {
    RestoreBackup(p, p);
  }

  // ---------------------------------------------------------------------
  // operator_error_handler
  // ---------------------------------------------------------------------

  /** An exception leaving an operator body: an `APIError` or any other. */
  datatype Exception = ApiError(message: string) | OtherError(message: string)

  /** How an operator body ends. */
  datatype BodyResult = Returned(status: OpStatus, world: World) | Threw(error: Exception, world: World)

  /** The text the handler shows and logs. */
  function HandlerMessage(e: Exception): string {
    match e
    case ApiError(m) => "API Error: " + m
    case OtherError(m) => "Operator Handler Exception: " + m
  }

  /** The state a wrapped body starts from: with the panel properties
      present, `is_loading` is switched on first. */
  function Entered(w: World, hasProps: bool): World {
    if hasProps then w.(props := w.props.(isLoading := true)) else w
  }

  /** The handler's `finally`: with the panel properties present, the
      loading flag and message go back to idle. */
  function Finally(w: World, hasProps: bool): (r: World)
    ensures hasProps ==> !r.props.isLoading && r.props.loadingMessage == IdleMessage
    ensures !hasProps ==> r == w
  {
    if hasProps then w.(props := w.props.(isLoading := false, loadingMessage := IdleMessage)) else w
  }

  /** `log_error`: when the context has a scene, the message goes to the
      chat log through `bpy.ops.chat.add_message`, itself a wrapped
      operator whose own `finally` leaves the loading flags idle.  The
      panel properties are registered on every scene, so `hasProps` false
      stands for a context without a scene, where `add_message` is never
      called. */
  function LogError(w: World, hasProps: bool, message: string, clock: Clock): (r: World)
    ensures hasProps ==> r.props.chatMessages == w.props.chatMessages + [ChatMessage("Error: " + message, false, FormatHM(clock))]
    ensures !hasProps ==> r == w
  {
    if hasProps then
      w.(props := AppendChatMessage(w.props, "Error: " + message, false, clock).(isLoading := false, loadingMessage := IdleMessage))
    else w
  }

  /** `operator_error_handler` around an operator body.  `hasProps` says
      whether the context has a scene, and so `custom_panel_props`, which
      every scene carries; the body receives the state after the loading
      flag went on. */
  function Guarded(w: World, hasProps: bool, clock: Clock, body: World -> BodyResult): (r: Step)
    // the flags always end idle when the properties exist
    ensures hasProps ==> !r.world.props.isLoading && r.world.props.loadingMessage == IdleMessage
    // a body that returns keeps its flag and, apart from the flags, its state
    ensures body(Entered(w, hasProps)).Returned? ==>
      r == Step(body(Entered(w, hasProps)).status, Finally(body(Entered(w, hasProps)).world, hasProps))
    // a body that raises ends CANCELLED with the prefixed message shown
    ensures body(Entered(w, hasProps)).Threw? ==>
      r.status == Cancelled
      && r.world.dialogs == body(Entered(w, hasProps)).world.dialogs + [HandlerMessage(body(Entered(w, hasProps)).error)]
      && r.world.operators == body(Entered(w, hasProps)).world.operators
    // ... with the backed-up fields as they were before the body ran, and the message logged
    ensures hasProps && body(Entered(w, hasProps)).Threw? ==>
      SameBackedUp(r.world.props, w.props)
      && r.world.props.chatMessages == body(Entered(w, hasProps)).world.props.chatMessages
           + [ChatMessage("Error: " + HandlerMessage(body(Entered(w, hasProps)).error), false, FormatHM(clock))]
    // without the properties, nothing is backed up, restored or logged
    ensures !hasProps && body(w).Threw? ==>
      r.world == ShowError(body(w).world, HandlerMessage(body(w).error))
  {
    var backup := BackupState(w.props);
    match body(Entered(w, hasProps))
    case Returned(status, w1) => Step(status, Finally(w1, hasProps))
    case Threw(e, w1) =>
      var w2 := if hasProps then w1.(props := RestoreState(w1.props, backup)) else w1;
      var message := HandlerMessage(e);
      var w3 := LogError(ShowError(w2, message), hasProps, message, clock);
      RestoreBackup(w.props, w1.props);
      Step(Cancelled, Finally(w3, hasProps))
  }

  // ---------------------------------------------------------------------
  // ui_error_handler
  // ---------------------------------------------------------------------

  /** How a draw function ends: the widgets it added, and, if it raised,
      the text of the exception. */
  datatype DrawRun = DrawRun(drawn: seq<Widget>, error: Wrappers.Option<string>)

  /** `ui_error_handler`: a draw function that raises keeps what it drew so
      far and gets a boxed error label after it; nothing propagates. */
  function UiGuarded(run: DrawRun): (r: seq<Widget>)
    ensures |run.drawn| <= |r| && r[..|run.drawn|] == run.drawn
    ensures run.error.None? <==> r == run.drawn
    ensures run.error.Some? ==> r[|r| - 1] == Caption("Error drawing UI: " + run.error.value, "ERROR")
  {
    match run.error
    case None => run.drawn
    case Some(e) => run.drawn + [Caption("Error drawing UI: " + e, "ERROR")]
  }
}
