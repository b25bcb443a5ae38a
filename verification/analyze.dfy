/** The analysis tab's operators (operators/analyze.py, with the sample
    rows of constants/__init__.py): Analyze Image, Approve and Edit, each
    inside `operator_error_handler`. */
module Analyze {
  import opened Wrappers
  import opened PyStr
  import opened Panel
  import opened ApiClient
  import opened Scene
  import opened ErrorHandling
  import opened AsyncOperation
  import Submit

  /** `DUMMY_DATA`: the five sample rows Analyze Image appends. */
  const DummyData: seq<AnalysisItem> := [
    AnalysisItem("Base Frame", 1, "Rectangular block",
      "The main body of the sofa, a sleek rectangular structure forming the foundation. It slightly flares outward at the base and supports the armrests and backrest. Covered in smooth fabric."),
    AnalysisItem("Seat Cushion", 1, "Rectangular block",
      "A single, thick, seamless cushion spans the entire seating area. It is slightly rounded along the edges and has a firm yet comfortable appearance. Fabric is taut and smooth."),
    AnalysisItem("Backrest", 1, "Rounded rectangular block",
      "The backrest is integrated with the frame, featuring a smooth, slightly rounded surface with button tufting evenly spaced across its expanse."),
    AnalysisItem("Armrests", 2, "Rounded rectangular block",
      "Two softly padded armrests extend from the base, angling slightly outward. They are thick and rounded, seamlessly blending into the frame."),
    AnalysisItem("Legs", 4, "Tapered rectangular prism",
      "Black wooden legs taper slightly towards the bottom, providing sturdy support. The finish is matte, contrasting with the fabric upholstery.")
  ]

  /** The flags the wrapper's `finally` leaves. */
  function Idle(w: World): World {
    w.(props := w.props.(isLoading := false, loadingMessage := IdleMessage))
  }

  /** `MIXAR_OT_analyze_image.execute`: an empty image URL or prompt (no
      stripping) only reports; otherwise the sample rows are appended after
      whatever rows are there. */
  function AnalyzeImage(w: World, clock: Clock): (r: Step)
    ensures r.status == Cancelled <==> w.props.imageUrl == "" || w.props.userInput == ""
    ensures r.status == Cancelled ==> r.world == Idle(w)
    ensures r.status != Cancelled ==>
      r.status == Finished
      && r.world == Idle(w).(props := Idle(w).props.(analysisResults := w.props.analysisResults + DummyData))
  {
    Guarded(w, true, clock, (v: World) =>
      if v.props.imageUrl == "" || v.props.userInput == "" then Returned(Cancelled, v)
      else Returned(Finished, v.(props := v.props.(analysisResults := v.props.analysisResults + DummyData))))
  }

  /** Analysing twice keeps both copies of the sample rows. */
  lemma AnalyzeTwiceAppendsTwice(w: World, clock: Clock)
    requires w.props.imageUrl != "" && w.props.userInput != ""
    ensures AnalyzeImage(AnalyzeImage(w, clock).world, clock).world.props.analysisResults
         == w.props.analysisResults + DummyData + DummyData
    ensures |AnalyzeImage(AnalyzeImage(w, clock).world, clock).world.props.analysisResults|
         == |w.props.analysisResults| + 10
  {
  }

  /** Whitespace counts as input here, unlike in Submit: any non-empty
      blank URL and prompt pass this check, while tab 2 of Submit rejects
      them. */
  lemma AnalyzeAcceptsWhitespace(w: World, clock: Clock)
    requires IsBlank(w.props.imageUrl) && IsBlank(w.props.userInput)
    requires w.props.imageUrl != "" && w.props.userInput != ""
    ensures AnalyzeImage(w, clock).status == Finished
    ensures w.props.activeTab == "TAB2" ==> Submit.InputError(w.props).Some?
  {
  }

  const MissingThreadMessage: string := "Thread ID is missing. Please generate a description first."

  /** The operation Approve starts: script generation on the description's
      thread, every other parameter at its default. */
  function ApproveParams(threadId: string): (p: OpParams)
    ensures SelectCall(p) == Success(GenerateScript(threadId))
  {
    OpParams("generate_script", "", threadId, "", "")
  }

  /** `OBJECT_OT_approve_operator.execute` with `_handle_approve_async`:
      without a description thread an error dialog and CANCELLED, otherwise
      a script-generation operation on that thread. */
  function Approve(w: World, clock: Clock, prefs: Option<Credentials>, reply: nat -> HttpOutcome): (r: Step)
    ensures r.status == Cancelled <==> w.props.threadIdTab2 == ""
    ensures r.status == Cancelled ==> r.world == Idle(w).(dialogs := w.dialogs + [MissingThreadMessage])
    ensures r.status != Cancelled ==>
      r.status == Finished
      && r.world == Idle(w).(operators := w.operators + [AsyncOp(ApproveParams(w.props.threadIdTab2),
                               Pending(RunOperation(ApproveParams(w.props.threadIdTab2), prefs, reply).outcome), true, true, true)])
  {
    var body := (v: World) => ApproveBody(v, prefs, reply);
    var r := Guarded(w, true, clock, body);
    ApproveBodyEffect(Entered(w, true), prefs, reply);
    r
  }

  /** The body of Approve, after the wrapper switched the loading flag on. */
  function ApproveBody(v: World, prefs: Option<Credentials>, reply: nat -> HttpOutcome): BodyResult {
    if v.props.threadIdTab2 == "" then Returned(Cancelled, ShowError(v, MissingThreadMessage))
    else Returned(Finished, AsyncOperation.Execute(v, ApproveParams(v.props.threadIdTab2), prefs, reply).world)
  }

  lemma ApproveBodyEffect(v: World, prefs: Option<Credentials>, reply: nat -> HttpOutcome)
    ensures ApproveBody(v, prefs, reply).Returned?
    ensures v.props.threadIdTab2 == "" ==>
      ApproveBody(v, prefs, reply) == Returned(Cancelled, v.(dialogs := v.dialogs + [MissingThreadMessage]))
    ensures v.props.threadIdTab2 != "" ==>
      ApproveBody(v, prefs, reply).status == Finished
      && Idle(ApproveBody(v, prefs, reply).world)
         == Idle(v).(operators := v.operators + [AsyncOp(ApproveParams(v.props.threadIdTab2),
                       Pending(RunOperation(ApproveParams(v.props.threadIdTab2), prefs, reply).outcome), true, true, true)])
  {
  }

  /** `OBJECT_OT_edit_operator.execute`: only a report; the wrapper still
      leaves the flags idle. */
  function Edit(w: World, clock: Clock): (r: Step)
    ensures r == Step(Finished, Idle(w))
  {
    Guarded(w, true, clock, (v: World) => Returned(Finished, v))
  }
}
