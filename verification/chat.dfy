/** The chat-side operators (operators/chat.py, operators/add_script.py):
    appending to the chat log and to the scripting log, and the text-input
    dialog that edits `user_input`.  Each `execute` runs inside
    `operator_error_handler`. */
module ChatOps {
  import opened Panel
  import opened Scene
  import opened ErrorHandling

  /** `CHAT_OT_add_message.execute`: append one message stamped with the
      current time; nothing else but the loading flags changes. */
  function AddMessage(w: World, content: string, isUser: bool, clock: Clock): (r: Step)
    ensures r.status == Finished
    ensures |r.world.props.chatMessages| == |w.props.chatMessages| + 1
    ensures r.world.props.chatMessages[..|w.props.chatMessages|] == w.props.chatMessages
    ensures r.world.props.chatMessages[|w.props.chatMessages|] == ChatMessage(content, isUser, FormatHM(clock))
    ensures r.world == w.(props := w.props.(chatMessages := r.world.props.chatMessages,
                                            isLoading := false, loadingMessage := IdleMessage))
  {
    Guarded(w, true, clock, (v: World) => Returned(Finished, v.(props := AppendChatMessage(v.props, content, isUser, clock))))
  }

  /** `CHAT_OT_add_script.execute`: append one entry to the scripting log;
      the chat log is not touched. */
  function AddScript(w: World, content: string, isUser: bool, clock: Clock): (r: Step)
    ensures r.status == Finished
    ensures |r.world.props.scripts| == |w.props.scripts| + 1
    ensures r.world.props.scripts[..|w.props.scripts|] == w.props.scripts
    ensures r.world.props.scripts[|w.props.scripts|] == Script(content, isUser, FormatHM(clock))
    ensures r.world.props.chatMessages == w.props.chatMessages
    ensures r.world == w.(props := w.props.(scripts := r.world.props.scripts,
                                            isLoading := false, loadingMessage := IdleMessage))
  {
    Guarded(w, true, clock, (v: World) => Returned(Finished, v.(props := AppendScript(v.props, content, isUser, clock))))
  }

  /** The error handler's `log_error` is exactly one `add_message` call
      with the "Error: " prefix and `is_user` off. */
  lemma LogErrorIsAddMessage(w: World, message: string, clock: Clock)
    ensures LogError(w, true, message, clock) == AddMessage(w, "Error: " + message, false, clock).world
  {
  }

  /** Logs only grow: any run of `add_message` and `add_script` calls keeps
      every earlier entry of both logs where it was. */
  datatype LogCall = MessageCall(content: string, isUser: bool) | ScriptCall(content: string, isUser: bool)

  function RunLogCalls(w: World, calls: seq<LogCall>, clock: Clock): World
    decreases |calls|
  {
    if calls == [] then w
    else
      var next := match calls[0]
        case MessageCall(c, u) => AddMessage(w, c, u, clock).world
        case ScriptCall(c, u) => AddScript(w, c, u, clock).world;
      RunLogCalls(next, calls[1..], clock)
  }

  lemma {:induction false} LogsAppendOnly(w: World, calls: seq<LogCall>, clock: Clock)
    ensures var r := RunLogCalls(w, calls, clock);
      |w.props.chatMessages| <= |r.props.chatMessages| && r.props.chatMessages[..|w.props.chatMessages|] == w.props.chatMessages
      && |w.props.scripts| <= |r.props.scripts| && r.props.scripts[..|w.props.scripts|] == w.props.scripts
    decreases |calls|
  {
    if calls != [] {
      var next := match calls[0]
        case MessageCall(c, u) => AddMessage(w, c, u, clock).world
        case ScriptCall(c, u) => AddScript(w, c, u, clock).world;
      LogsAppendOnly(next, calls[1..], clock);
      var r := RunLogCalls(next, calls[1..], clock);
      assert r.props.chatMessages[..|w.props.chatMessages|] == r.props.chatMessages[..|next.props.chatMessages|][..|w.props.chatMessages|];
      assert r.props.scripts[..|w.props.scripts|] == r.props.scripts[..|next.props.scripts|][..|w.props.scripts|];
    }
  }

  /** `TextInputArea.invoke`: the dialog's `multiline` field starts as the
      current `user_input`. */
  function InvokeTextInput(w: World): (multiline: string)
    ensures multiline == w.props.userInput
  {
    w.props.userInput
  }

  /** `TextInputArea.execute`: `user_input` takes the dialog's text. */
  function ExecuteTextInput(w: World, multiline: string, clock: Clock): (r: Step)
    ensures r.status == Finished
    ensures r.world == w.(props := w.props.(userInput := multiline, isLoading := false, loadingMessage := IdleMessage))
  {
    Guarded(w, true, clock, (v: World) => Returned(Finished, v.(props := v.props.(userInput := multiline))))
  }

  /** Opening the dialog and confirming it without an edit leaves
      `user_input` as it was. */
  lemma TextInputRoundTrip(w: World, clock: Clock)
    ensures ExecuteTextInput(w, InvokeTextInput(w), clock).world.props.userInput == w.props.userInput
    ensures ExecuteTextInput(w, InvokeTextInput(w), clock).world.props
         == w.props.(isLoading := false, loadingMessage := IdleMessage)
  {
  }
}
