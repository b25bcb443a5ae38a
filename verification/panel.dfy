/** The add-on's scene-level state: the `CustomPanelProperties` record
    (properties/panel.py) and the items of its three collections
    (properties/chat.py, properties/scripts.py, properties/analysis.py). */
module Panel {
  import opened PyStr

  /** One entry of the chat log (`ChatMessage`). */
  datatype ChatMessage = ChatMessage(content: string, isUser: bool, timestamp: string)

  /** One entry of the scripting log (`Script`). */
  datatype Script = Script(content: string, isUser: bool, timestamp: string)

  /** One row of the analysis table (`DummyAnalysisItem`). */
  datatype AnalysisItem = AnalysisItem(component: string, count: int, basicShape: string, description: string)

  /** `CustomPanelProperties`, field for field. */
  datatype Props = Props(
    activeTab: string,
    userInput: string,
    chatMessages: seq<ChatMessage>,
    imagePath: string,
    imageUrl: string,
    analysisResults: seq<AnalysisItem>,
    threadIdTab1: string,
    threadIdTab2: string,
    threadIdTab3: string,
    isLoading: bool,
    loadingMessage: string,
    generatedScript: string,
    showTextEditor: bool,
    scripts: seq<Script>,
    userInputForScripting: string,
    imageUrlForScripting: string)

  /** The identifiers the `active_tab` enum offers; the "TAB2" entry is
      commented out of the item list. */
  const TabItems: seq<string> := ["TAB1", "TAB3"]

  /** The `loading_message` default, which is also what every cleanup path
      writes back. */
  const IdleMessage: string := "Processing..."

  /** A value the `active_tab` enum property can hold. */
  predicate ValidTab(p: Props) {
    p.activeTab in TabItems
  }

  /** The record as the host creates it, every property at its default. */
  function DefaultProps(): (p: Props)
    ensures ValidTab(p) && p.activeTab == "TAB1"
    ensures !p.isLoading && p.loadingMessage == IdleMessage
    ensures p.threadIdTab1 == "" && p.threadIdTab2 == "" && p.threadIdTab3 == ""
    ensures p.chatMessages == [] && p.scripts == [] && p.analysisResults == []
  {
    Props("TAB1", "", [], "", "", [], "", "", "", false, IdleMessage, "", false, [], "", "")
  }

  /** A wall-clock reading, hour and minute. */
  datatype ClockTime = ClockTime(hour: nat, minute: nat)
  type Clock = c: ClockTime | c.hour < 24 && c.minute < 60 witness ClockTime(0, 0)

  function TwoDigits(n: nat): (r: string)
    requires n < 100
    ensures |r| == 2 && '0' <= r[0] <= '9' && '0' <= r[1] <= '9'
  {
    [DigitChar(n / 10), DigitChar(n % 10)]
  }

  /** `strftime("%H:%M")`: zero-padded hour, a colon, zero-padded minute. */
  function FormatHM(c: Clock): (r: string)
    ensures |r| == 5 && r[2] == ':'
    ensures forall i :: 0 <= i < 5 && i != 2 ==> '0' <= r[i] <= '9'
  {
    TwoDigits(c.hour) + ":" + TwoDigits(c.minute)
  }

  /** Reads an "HH:MM" stamp back. */
  function ParseHM(s: string): ClockTime
    requires |s| == 5
    requires forall i :: 0 <= i < 5 && i != 2 ==> '0' <= s[i] <= '9'
  {
    ClockTime(ParseDigits(s[..2]), ParseDigits(s[3..]))
  }

  /** A two-digit field reads back as the number it renders. */
  lemma ParseTwoDigits(n: nat)
    requires n < 100
    ensures ParseDigits(TwoDigits(n)) == n
  {
    var s := TwoDigits(n);
    assert s[..1][..0] == [];
    assert ParseDigits(s[..1]) == n / 10;
  }

  /** The stamp names the clock reading it was made from. */
  lemma FormatHMRoundTrip(c: Clock)
    ensures ParseHM(FormatHM(c)) == c
  {
    var s := FormatHM(c);
    assert s[..2] == TwoDigits(c.hour);
    assert s[3..] == TwoDigits(c.minute);
    ParseTwoDigits(c.hour);
    ParseTwoDigits(c.minute);
  }

  /** `chat_messages.add()` followed by setting the new item's fields. */
  function AppendChatMessage(p: Props, content: string, isUser: bool, clock: Clock): (r: Props)
    ensures r.chatMessages == p.chatMessages + [ChatMessage(content, isUser, FormatHM(clock))]
    ensures r == p.(chatMessages := r.chatMessages)
  {
    p.(chatMessages := p.chatMessages + [ChatMessage(content, isUser, FormatHM(clock))])
  }

  /** `scripts.add()` followed by setting the new item's fields. */
  function AppendScript(p: Props, content: string, isUser: bool, clock: Clock): (r: Props)
    ensures r.scripts == p.scripts + [Script(content, isUser, FormatHM(clock))]
    ensures r == p.(scripts := r.scripts)
  {
    p.(scripts := p.scripts + [Script(content, isUser, FormatHM(clock))])
  }
}
