/** The Submit operator (operators/submit.py): input validation per tab and
    the asynchronous operation each tab starts, all inside
    `operator_error_handler`; and the description-response handler of the
    synchronous path. */
module Submit {
  import opened Wrappers
  import opened PyStr
  import opened Panel
  import opened ApiClient
  import opened Scene
  import opened ErrorHandling
  import opened ChatOps
  import opened AsyncOperation

  const EnterMessage: string := "Please enter a message"
  const EnterImageUrl: string := "Please provide an image URL"

  /** The error dialog a tab's input check raises, if any; tab 2 checks
      the prompt before the image URL. */
  function InputError(p: Props): (r: Option<string>)
    ensures p.activeTab == "TAB1" ==> (r.Some? <==> IsBlank(p.userInput))
    ensures p.activeTab == "TAB2" ==> (r.Some? <==> IsBlank(p.userInput) || IsBlank(p.imageUrl))
    ensures p.activeTab == "TAB3" ==> (r.Some? <==> IsBlank(p.userInputForScripting))
    ensures p.activeTab !in TabNames ==> r.None?
    ensures p.activeTab == "TAB2" && !IsBlank(p.userInput) && r.Some? ==> r.value == EnterImageUrl
    ensures r.Some? && !(p.activeTab == "TAB2" && !IsBlank(p.userInput)) ==> r.value == EnterMessage
  {
    if p.activeTab == "TAB1" then
      if IsBlank(p.userInput) then Some(EnterMessage) else None
    else if p.activeTab == "TAB2" then
      if IsBlank(p.userInput) then Some(EnterMessage)
      else if IsBlank(p.imageUrl) then Some(EnterImageUrl)
      else None
    else if p.activeTab == "TAB3" then
      if IsBlank(p.userInputForScripting) then Some(EnterMessage) else None
    else None
  }

  /** The tabs `execute` dispatches on. */
  const TabNames: seq<string> := ["TAB1", "TAB2", "TAB3"]

  /** The parameters of the asynchronous operation a tab starts.  Tab 3
      leaves `thread_id` at its default and passes its thread as
      `script_thread_id`. */
  function Started(p: Props): (r: Option<OpParams>)
    ensures r.Some? <==> p.activeTab in TabNames
    ensures r.Some? ==> SelectCall(r.value).Success?
  {
    if p.activeTab == "TAB1" then Some(OpParams("chat", p.userInput, p.threadIdTab1, p.imageUrl, ""))
    else if p.activeTab == "TAB2" then Some(OpParams("generate_description", p.userInput, p.threadIdTab2, p.imageUrl, ""))
    else if p.activeTab == "TAB3" then Some(OpParams("scripting", p.userInputForScripting, "", p.imageUrlForScripting, p.threadIdTab3))
    else None
  }

  /** Each tab reaches the client call of its own thread: a stored thread
      id continues that thread, an empty one creates a new thread. */
  lemma StartedCall(p: Props)
    ensures p.activeTab == "TAB1" ==>
      SelectCall(Started(p).value)
      == Success(if p.threadIdTab1 != "" then SendChatMessage(p.threadIdTab1, p.userInput) else CreateChatThread(p.userInput, p.imageUrl))
    ensures p.activeTab == "TAB2" ==> SelectCall(Started(p).value) == Success(GenerateDescription(p.userInput, p.imageUrl))
    ensures p.activeTab == "TAB3" ==>
      SelectCall(Started(p).value)
      == Success(if p.threadIdTab3 != "" then ContinueScriptGeneration(p.threadIdTab3, p.userInputForScripting)
                 else CreateThreadAndGenerateScript(p.userInputForScripting, p.imageUrlForScripting))
  {
  }

  /** The body of `execute`, after the wrapper switched the loading flag on. */
  function SubmitBody(v: World, clock: Clock, prefs: Option<Credentials>, reply: nat -> HttpOutcome): BodyResult {
    match InputError(v.props)
    case Some(m) => Returned(Cancelled, ShowError(v, m))
    case None =>
      if v.props.activeTab == "TAB1" then
        var v1 := AddMessage(v, v.props.userInput, true, clock).world;
        Returned(Finished, AsyncOperation.Execute(v1, Started(v.props).value, prefs, reply).world)
      else if v.props.activeTab == "TAB2" then
        Returned(Finished, AsyncOperation.Execute(v, Started(v.props).value, prefs, reply).world)
      else if v.props.activeTab == "TAB3" then
        var v1 := AddScript(v, v.props.userInputForScripting, true, clock).world;
        Returned(Finished, AsyncOperation.Execute(v1, Started(v.props).value, prefs, reply).world)
      else Returned(Finished, v)
  }

  /** `OBJECT_OT_submit_operator.execute`, wrapped.  `prefs` and `reply`
      are the add-on preferences and the server's replies the started
      operation will meet. */
  function Execute(w: World, clock: Clock, prefs: Option<Credentials>, reply: nat -> HttpOutcome): (r: Step)
    ensures r.status == Cancelled <==> InputError(w.props).Some?
    ensures r.status == Cancelled || r.status == Finished
    // the flags always end idle, even when an operation was just started
    ensures !r.world.props.isLoading && r.world.props.loadingMessage == IdleMessage
    // invalid input: only an error dialog, no log entry, no operation
    ensures InputError(w.props).Some? ==>
      r.world == w.(props := w.props.(isLoading := false, loadingMessage := IdleMessage),
                    dialogs := w.dialogs + [InputError(w.props).value])
    // valid input on a known tab: exactly one operation is registered
    ensures InputError(w.props).None? && Started(w.props).Some? ==>
      r.world.operators == w.operators
        + [AsyncOp(Started(w.props).value, Pending(RunOperation(Started(w.props).value, prefs, reply).outcome), true, true, true)]
      && r.world.dialogs == w.dialogs
    // tab 1 logs the user's message first; tab 3 logs to the scripts
    ensures InputError(w.props).None? && w.props.activeTab == "TAB1" ==>
      r.world.props.chatMessages == w.props.chatMessages + [ChatMessage(w.props.userInput, true, FormatHM(clock))]
      && r.world.props.scripts == w.props.scripts
    ensures InputError(w.props).None? && w.props.activeTab == "TAB2" ==>
      r.world.props == w.props.(isLoading := false, loadingMessage := IdleMessage)
    ensures InputError(w.props).None? && w.props.activeTab == "TAB3" ==>
      r.world.props.scripts == w.props.scripts + [Script(w.props.userInputForScripting, true, FormatHM(clock))]
      && r.world.props.chatMessages == w.props.chatMessages
    // ... and on every tab nothing else changes but the registry
    ensures InputError(w.props).None? && w.props.activeTab == "TAB1" ==>
      r.world == w.(props := w.props.(chatMessages := w.props.chatMessages + [ChatMessage(w.props.userInput, true, FormatHM(clock))],
                                      isLoading := false, loadingMessage := IdleMessage),
                    operators := r.world.operators)
    ensures InputError(w.props).None? && w.props.activeTab == "TAB2" ==>
      r.world == w.(props := w.props.(isLoading := false, loadingMessage := IdleMessage), operators := r.world.operators)
    ensures InputError(w.props).None? && w.props.activeTab == "TAB3" ==>
      r.world == w.(props := w.props.(scripts := w.props.scripts + [Script(w.props.userInputForScripting, true, FormatHM(clock))],
                                      isLoading := false, loadingMessage := IdleMessage),
                    operators := r.world.operators)
    // any other tab: nothing but the flags
    ensures w.props.activeTab !in TabNames ==>
      r == Step(Finished, w.(props := w.props.(isLoading := false, loadingMessage := IdleMessage)))
  {
    Guarded(w, true, clock, (v: World) => SubmitBody(v, clock, prefs, reply))
  }

  /** The panel's enum never selects tab 2, so a panel in its domain only
      ever starts chat or scripting operations. */
  lemma NoDescriptionFromPanel(p: Props)
    requires ValidTab(p)
    ensures Started(p).Some? ==> Started(p).value.operation in ["chat", "scripting"]
  {
  }

  /** The loading flag flickers: a successful submit leaves it off although
      an operation is running, and that operation's next timer tick turns it
      back on. */
  lemma LoadingFlickers(w: World, clock: Clock, prefs: Option<Credentials>, reply: nat -> HttpOutcome, host: Host)
    requires InputError(w.props).None? && Started(w.props).Some?
    ensures var s := Execute(w, clock, prefs, reply).world;
      !s.props.isLoading
      && |w.operators| < |s.operators| && s.operators[|w.operators|].modal
      && Modal(s, |w.operators|, Timer, NoneFinish, host).world.props.isLoading
      && Modal(s, |w.operators|, Timer, NoneFinish, host).world.props.loadingMessage
         == ProgressMessage(Started(w.props).value.operation)
  {
    var s := Execute(w, clock, prefs, reply).world;
    assert s.operators[|w.operators|].task.Pending?;
  }

  /** The loop of `_process_description_response`: one row added per
      component, in order, each field read with its default. */
  function AddComponents(rows: seq<AnalysisItem>, cs: seq<Component>): seq<AnalysisItem>
    decreases |cs|
  {
    if cs == [] then rows
    else
      var c := cs[0];
      var item := AnalysisItem(c.component.GetOr(""), c.count.GetOr(0), c.basicShape.GetOr(""), c.visualCharacteristics.GetOr(""));
      AddComponents(rows + [item], cs[1..])
  }

  /** The loop appends exactly the rows the asynchronous handler builds. */
  lemma {:induction false} AddComponentsAppends(rows: seq<AnalysisItem>, cs: seq<Component>)
    ensures AddComponents(rows, cs) == rows + seq(|cs|, i requires 0 <= i < |cs| => ItemOf(cs[i]))
    decreases |cs|
  {
    if cs != [] {
      AddComponentsAppends(rows + [ItemOf(cs[0])], cs[1..]);
      assert rows + [ItemOf(cs[0])] + seq(|cs[1..]|, i requires 0 <= i < |cs[1..]| => ItemOf(cs[1..][i]))
          == rows + seq(|cs|, i requires 0 <= i < |cs| => ItemOf(cs[i]));
    }
  }

  /** `_process_description_response`: the "description" text (default
      "{}") is decoded, the analysis list cleared and one row added per
      component; a decoding failure raises and changes nothing. */
  function ProcessDescriptionResponse(p: Props, response: Json, loads: string -> Result<DescriptionDoc, string>): (r: Result<Props, string>)
    ensures r.Failure? <==> loads(response.description.GetOr("{}")).Failure?
    ensures r.Failure? ==> r.error == loads(response.description.GetOr("{}")).error
    ensures r.Success? ==> r.value == p.(analysisResults := r.value.analysisResults)
    ensures r.Success? ==> var doc := loads(response.description.GetOr("{}")).value;
      (doc.components.None? ==> r.value.analysisResults == [])
      && (doc.components.Some? ==>
            |r.value.analysisResults| == |doc.components.value|
            && forall i :: 0 <= i < |doc.components.value| ==>
                 r.value.analysisResults[i] == AnalysisItem(
                   doc.components.value[i].component.GetOr(""), doc.components.value[i].count.GetOr(0),
                   doc.components.value[i].basicShape.GetOr(""), doc.components.value[i].visualCharacteristics.GetOr("")))
  {
    match loads(response.description.GetOr("{}"))
    case Failure(e) => Failure(e)
    case Success(doc) =>
      var cs := doc.components.GetOr([]);
      AddComponentsAppends([], cs);
      Success(p.(analysisResults := AddComponents([], cs)))
  }

  /** The asynchronous result handler and the synchronous response handler
      build the same analysis list from the same successful reply. */
  lemma DescriptionPathsAgree(w: World, params: OpParams, j: Json, host: Host)
    requires params.operation == "generate_description" && Succeeded(j) && j.description != Some("")
    requires host.loads(j.description.GetOr("{}")).Success?
    ensures HandleResult(w, params, j, host).world.props
         == ProcessDescriptionResponse(w.props.(threadIdTab2 := j.threadId.GetOr("")), j, host.loads).value
  {
    var doc := host.loads(j.description.GetOr("{}")).value;
    AddComponentsAppends([], doc.components.GetOr([]));
  }
}
