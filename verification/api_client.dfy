/** The Mixar API client (api/client.py, endpoints from config.py): the
    credential check both client constructors make, the request each call
    sends, the synchronous response handling, the retry policy shared by
    every method of the asynchronous client, and the extraction of a Python
    code block from a generated script.  The network itself is an oracle. */
module ApiClient {
  import opened Wrappers
  import opened PyStr

  // ---------------------------------------------------------------------
  // Response bodies
  // ---------------------------------------------------------------------

  /** One entry of the "components" list of a description document; an
      absent key is `None`. */
  datatype Component = Component(
    component: Option<string>,
    count: Option<int>,
    basicShape: Option<string>,
    visualCharacteristics: Option<string>)

  /** A description document, the JSON text carried in a response's
      "description" field once decoded. */
  datatype DescriptionDoc = DescriptionDoc(components: Option<seq<Component>>)

  /** The keys of a decoded JSON response body that the add-on reads. */
  datatype Json = Json(
    threadId: Option<string>,
    message: Option<string>,
    status: Option<string>,
    description: Option<string>,
    script: Option<string>)

  // ---------------------------------------------------------------------
  // Credentials and requests
  // ---------------------------------------------------------------------

  /** The two add-on preferences every request is signed with. */
  datatype Credentials = Credentials(licenceKey: string, userId: string)

  const MissingCredentials: string :=
    "Licence key or user ID not found, Please set the License Key and User ID in the addon preferences."

  /** Constructing either client: `prefs` is `None` when the add-on's
      preferences cannot be found.  A missing or empty key or user id
      raises. */
  function NewClient(prefs: Option<Credentials>): (r: Result<Credentials, string>)
    ensures r.Success? <==> prefs.Some? && prefs.value.licenceKey != "" && prefs.value.userId != ""
    ensures r.Success? ==> r.value == prefs.value
    ensures r.Failure? ==> r.error == MissingCredentials
  {
    match prefs
    case Some(c) =>
      if c.licenceKey == "" || c.userId == "" then Failure(MissingCredentials) else Success(c)
    case None => Failure(MissingCredentials)
  }

  const ApiBaseUrl: string := "https://ai.mixar.app/api/blender-plugin"

  /** The six calls of the asynchronous client with their arguments. */
  datatype ApiCall =
    | CreateChatThread(prompt: string, imageUrl: string)
    | SendChatMessage(threadId: string, prompt: string)
    | GenerateDescription(prompt: string, imageUrl: string)
    | GenerateScript(threadId: string)
    | CreateThreadAndGenerateScript(prompt: string, imageUrl: string)
    | ContinueScriptGeneration(threadId: string, prompt: string)

  /** The endpoint a call posts to. */
  function Url(call: ApiCall): string {
    match call
    case SendChatMessage(_, _) => ApiBaseUrl + "/v1/chat/"
    case CreateChatThread(_, _) => ApiBaseUrl + "/v1/create_chat_thread/"
    case GenerateDescription(_, _) => ApiBaseUrl + "/v1/generate_description/"
    case GenerateScript(_) => ApiBaseUrl + "/v1/generate_script/"
    case CreateThreadAndGenerateScript(_, _) => ApiBaseUrl + "/v2/create-thread-and-generate-script/"
    case ContinueScriptGeneration(_, _) => ApiBaseUrl + "/v2/continue-script-generation/"
  }

  /** The route name under the base URL, read back from a full URL. */
  function Route(url: string): string {
    if |url| >= |ApiBaseUrl| then url[|ApiBaseUrl|..] else url
  }

  /** Which call a route belongs to, by constructor. */
  predicate SameKind(a: ApiCall, b: ApiCall) {
    (a.CreateChatThread? && b.CreateChatThread?)
    || (a.SendChatMessage? && b.SendChatMessage?)
    || (a.GenerateDescription? && b.GenerateDescription?)
    || (a.GenerateScript? && b.GenerateScript?)
    || (a.CreateThreadAndGenerateScript? && b.CreateThreadAndGenerateScript?)
    || (a.ContinueScriptGeneration? && b.ContinueScriptGeneration?)
  }

  /** Every call kind posts to an endpoint of its own. */
  lemma UrlsDistinct(a: ApiCall, b: ApiCall)
    ensures Url(a) == Url(b) <==> SameKind(a, b)
  {
    assert Route(Url(a)) == Url(a)[|ApiBaseUrl|..];
    assert Route(Url(b)) == Url(b)[|ApiBaseUrl|..];
  }

  /** The query parameters a call sends.  The two thread-creating calls
      include "image_url" only when it is non-empty; the description call
      always sends it. */
  function Params(call: ApiCall): (r: seq<(string, string)>)
    ensures |r| >= 1
  {
    match call
    case CreateChatThread(p, img) => [("prompt", p)] + (if img != "" then [("image_url", img)] else [])
    case SendChatMessage(t, p) => [("thread_id", t), ("prompt", p)]
    case GenerateDescription(p, img) => [("prompt", p), ("image_url", img)]
    case GenerateScript(t) => [("thread_id", t)]
    case CreateThreadAndGenerateScript(p, img) => [("prompt", p)] + (if img != "" then [("image_url", img)] else [])
    case ContinueScriptGeneration(t, p) => [("thread_id", t), ("prompt", p)]
  }

  predicate HasKey(params: seq<(string, string)>, key: string) {
    exists i | 0 <= i < |params| :: params[i].0 == key
  }

  /** When the request carries an image URL. */
  lemma ImageUrlSent(call: ApiCall)
    ensures HasKey(Params(call), "image_url") <==>
      call.GenerateDescription?
      || ((call.CreateChatThread? || call.CreateThreadAndGenerateScript?) && call.imageUrl != "")
  {
    var r := Params(call);
    if HasKey(r, "image_url") {
      var i :| 0 <= i < |r| && r[i].0 == "image_url";
      assert r[i] != ("prompt", r[0].1) && r[i] != ("thread_id", r[0].1);
    }
    if call.GenerateDescription? {
      assert r[1].0 == "image_url";
    } else if (call.CreateChatThread? || call.CreateThreadAndGenerateScript?) && call.imageUrl != "" {
      assert r[1].0 == "image_url";
    }
  }

  /** A request as it leaves the client: endpoint, query and headers. */
  datatype Request = Request(url: string, params: seq<(string, string)>, headers: seq<(string, string)>)

  function Headers(c: Credentials): (r: seq<(string, string)>)
    ensures ("X-User-ID", c.userId) in r && ("X-License-Key", c.licenceKey) in r
  {
    [("Content-Type", "application/json"), ("X-User-ID", c.userId), ("X-License-Key", c.licenceKey)]
  }

  function RequestFor(call: ApiCall, c: Credentials): (r: Request)
    ensures r.url == Url(call) && r.params == Params(call) && r.headers == Headers(c)
  {
    Request(Url(call), Params(call), Headers(c))
  }

  // ---------------------------------------------------------------------
  // Synchronous response handling
  // ---------------------------------------------------------------------

  /** `_handle_response`: `statusCode` is the HTTP status and `body` what
      `response.json()` gives, or the text of the decoding error it raises.
      That decoding error derives from `requests.exceptions.RequestException`,
      so the first except clause reports it as a network error. */
  function HandleResponse(statusCode: nat, body: Result<Json, string>, errorMessage: string): (r: Result<Json, string>)
    ensures r.Success? <==> statusCode == 200 && body.Success?
    ensures r.Success? ==> r.value == body.value
    ensures statusCode != 200 ==> r.error == errorMessage + ": " + NatToString(statusCode)
    ensures statusCode == 200 && body.Failure? ==> r.error == "Network error: " + body.error
  {
    if statusCode == 200 then
      match body
      case Success(j) => Success(j)
      case Failure(e) => Failure("Network error: " + e)
    else Failure(errorMessage + ": " + NatToString(statusCode))
  }

  /** A failure for a bad status reads back: the caller's message, ": ",
      and digits that parse to the status code. */
  lemma HandleResponseStatusReadBack(statusCode: nat, body: Result<Json, string>, errorMessage: string)
    requires statusCode != 200
    ensures var e := HandleResponse(statusCode, body, errorMessage).error;
      |errorMessage| + 2 < |e| && e[..|errorMessage| + 2] == errorMessage + ": "
      && ParseDigits(e[|errorMessage| + 2..]) == statusCode
  {
    var e := HandleResponse(statusCode, body, errorMessage).error;
    assert e[|errorMessage| + 2..] == NatToString(statusCode);
    ParseNatToString(statusCode);
  }

  // ---------------------------------------------------------------------
  // Retry policy of the asynchronous client
  // ---------------------------------------------------------------------

  const MaxRetries: nat := 3
  const RetryDelay: nat := 1

  /** What one attempt of a request ends in. */
  datatype HttpOutcome =
    | Reply(status: nat, text: string, body: Json)   // a response arrived
    | Transient(message: string)                     // asyncio.TimeoutError or aiohttp.ClientError
    | Unexpected(message: string)                    // any other exception

  /** The effect of one call: its result or raised message, the number of
      requests made, and the delays slept between them, in seconds. */
  datatype RetryRun = RetryRun(result: Result<Json, string>, attempts: nat, sleeps: seq<nat>)

  /** The loop shared by the six asynchronous methods, from attempt number
      `attempt` on; `reply(k)` is the outcome of the request made at
      attempt k.  Only transient errors are retried. */
  function RetryFrom(reply: nat -> HttpOutcome, attempt: nat, lastError: string): (r: RetryRun)
    requires attempt <= MaxRetries
    ensures attempt <= r.attempts <= MaxRetries
    ensures attempt < MaxRetries ==> attempt < r.attempts
    decreases MaxRetries - attempt
  {
    if attempt >= MaxRetries then
      RetryRun(Failure("Failed after " + NatToString(MaxRetries) + " attempts: " + lastError), attempt, [])
    else
      match reply(attempt)
      case Reply(status, text, body) =>
        if status == 200 then RetryRun(Success(body), attempt + 1, [])
        else RetryRun(Failure("Request failed: Request failed: " + NatToString(status) + ", " + text), attempt + 1, [])
      case Unexpected(m) => RetryRun(Failure("Request failed: " + m), attempt + 1, [])
      case Transient(m) =>
        var next := attempt + 1;
        var rest := RetryFrom(reply, next, m);
        RetryRun(rest.result, rest.attempts, (if next < MaxRetries then [RetryDelay * next] else []) + rest.sleeps)
  }

  /** `str(None)`, what `last_error` holds before any attempt failed. */
  const NoError: string := "None"

  /** One call of the asynchronous client against the server's replies. */
  function CallWithRetry(reply: nat -> HttpOutcome): RetryRun {
    RetryFrom(reply, 0, NoError)
  }

  predicate IsOk(o: HttpOutcome) {
    o.Reply? && o.status == 200
  }

  function Repeat<T>(x: T, n: nat): (r: seq<T>)
    ensures |r| == n && forall k :: 0 <= k < n ==> r[k] == x
  {
    seq(n, _ => x)
  }

  lemma RepeatOnce<T>(x: T, n: nat)
    ensures Repeat(x, n) + [x] == Repeat(x, n + 1)
  {
  }

  /** What a run of the retry loop from attempt `attempt` amounts to:
      every attempt but the last met a transient error, success exactly
      when the last reply was a 200, and one pause of `RetryDelay * n`
      before each retry `n`. */
  lemma {:induction false} RetryFromFacts(reply: nat -> HttpOutcome, attempt: nat, lastError: string)
    requires attempt < MaxRetries
    ensures var r := RetryFrom(reply, attempt, lastError);
      && attempt < r.attempts <= MaxRetries
      && (forall k :: attempt <= k < r.attempts - 1 ==> reply(k).Transient?)
      && (r.result.Success? <==> IsOk(reply(r.attempts - 1)))
      && (r.result.Success? ==> r.result.value == reply(r.attempts - 1).body)
      && |r.sleeps| == r.attempts - 1 - attempt
      && (forall k :: 0 <= k < |r.sleeps| ==> r.sleeps[k] == RetryDelay * (attempt + k + 1))
    decreases MaxRetries - attempt
  {
    if reply(attempt).Transient? && attempt + 1 < MaxRetries {
      RetryFromFacts(reply, attempt + 1, reply(attempt).message);
    }
  }

  /** The retry loop as the source writes it, a counter and a last error.
      `sent` lists the requests posted, one per attempt, each built afresh
      from the call and the session's credentials. */
  method PostWithRetry(call: ApiCall, c: Credentials, reply: nat -> HttpOutcome)
    returns (result: Result<Json, string>, attempts: nat, sleeps: seq<nat>, sent: seq<Request>)
    ensures RetryRun(result, attempts, sleeps) == CallWithRetry(reply)
    ensures |sent| == attempts
    ensures forall k :: 0 <= k < |sent| ==>
      sent[k].url == Url(call) && sent[k].params == Params(call) && sent[k].headers == Headers(c)
    ensures 1 <= attempts <= MaxRetries
    ensures forall k :: 0 <= k < attempts - 1 ==> reply(k).Transient?
    ensures result.Success? <==> IsOk(reply(attempts - 1))
    ensures result.Success? ==> result.value == reply(attempts - 1).body
    ensures |sleeps| == attempts - 1
    ensures forall k :: 0 <= k < |sleeps| ==> sleeps[k] == RetryDelay * (k + 1)
  {
    result, attempts, sleeps, sent := RetryLoop(RequestFor(call, c), reply);
    RetryFromFacts(reply, 0, NoError);
  }

  /** The `while attempt < max_retries` loop itself, posting `request` on
      every attempt. */
  method RetryLoop(request: Request, reply: nat -> HttpOutcome)
    returns (result: Result<Json, string>, attempts: nat, sleeps: seq<nat>, sent: seq<Request>)
    ensures RetryRun(result, attempts, sleeps) == CallWithRetry(reply)
    ensures sent == Repeat(request, attempts)
  {
    var attempt: nat := 0;
    var lastError := NoError;
    sleeps := [];
    sent := [];
    while attempt < MaxRetries
      invariant attempt <= MaxRetries
      invariant sent == Repeat(request, attempt)
      invariant RetryFrom(reply, 0, NoError)
             == var rest := RetryFrom(reply, attempt, lastError);
                RetryRun(rest.result, rest.attempts, sleeps + rest.sleeps)
      decreases MaxRetries - attempt
    {
      RepeatOnce(request, attempt);
      sent := sent + [request];
      match reply(attempt)
      case Reply(status, text, body) =>
        attempts := attempt + 1;
        if status == 200 {
          result := Success(body);
        } else {
          result := Failure("Request failed: Request failed: " + NatToString(status) + ", " + text);
        }
        return;
      case Unexpected(m) =>
        attempts := attempt + 1;
        result := Failure("Request failed: " + m);
        return;
      case Transient(m) =>
        ghost var rest := RetryFrom(reply, attempt + 1, m);
        ghost var pause := if attempt + 1 < MaxRetries then [RetryDelay * (attempt + 1)] else [];
        assert sleeps + (pause + rest.sleeps) == (sleeps + pause) + rest.sleeps;
        lastError := m;
        attempt := attempt + 1;
        if attempt < MaxRetries {
          sleeps := sleeps + [RetryDelay * attempt];
        }
    }
    attempts := attempt;
    result := Failure("Failed after " + NatToString(MaxRetries) + " attempts: " + lastError);
  }

  /** Exhaustion: after three transient errors in a row the call gives up
      with the final message naming the last one, having slept 1 s and then
      2 s. */
  lemma RetryExhausted(reply: nat -> HttpOutcome)
    requires reply(0).Transient? && reply(1).Transient? && reply(2).Transient?
    ensures CallWithRetry(reply).result == Failure("Failed after 3 attempts: " + reply(2).message)
    ensures CallWithRetry(reply).attempts == 3
    ensures CallWithRetry(reply).sleeps == [1, 2]
  {
    var m := reply(2).message;
    assert NatToString(3) == "3";
    assert "Failed after " + NatToString(MaxRetries) + " attempts: " + m == "Failed after 3 attempts: " + m;
    assert RetryFrom(reply, 2, reply(1).message).result == RetryFrom(reply, 3, m).result;
  }

  /** A non-200 reply ends the call at once, with the doubly prefixed
      message. */
  lemma NonOkNotRetried(reply: nat -> HttpOutcome, k: nat)
    requires k < MaxRetries
    requires forall j :: 0 <= j < k ==> reply(j).Transient?
    requires reply(k).Reply? && reply(k).status != 200
    ensures CallWithRetry(reply).attempts == k + 1
    ensures CallWithRetry(reply).result
         == Failure("Request failed: Request failed: " + NatToString(reply(k).status) + ", " + reply(k).text)
  {
  }

  // ---------------------------------------------------------------------
  // Code-fence extraction
  // ---------------------------------------------------------------------

  const PythonFence: string := "```python"
  const Fence: string := "```"

  lemma MarkerStartsWithFence()
    ensures PythonFence[..|Fence|] == Fence
  {
  }

  /** `content.split(open)[1].split(close)[0]`: what follows the first
      `open`, cut at the second `open` if there is one, then cut at the
      first `close` occurring wholly inside that piece. */
  function Between(content: string, open: string, close: string): string
    requires |open| > 0 && |close| > 0 && Contains(content, open)
  {
    FirstPieceOf(FirstPieceOf(AfterFirst(content, open), open), close)
  }

  /** `content.split('```python')[1].split('```')[0]`, unstripped: what
      follows the first "```python", cut at a second "```python", then at
      the first "```" in that piece.  That "```" may be the start of a
      longer run of backticks, so it need not be where a reader would see
      the fence close. */
  function FenceBody(content: string): string
    requires Contains(content, PythonFence)
  {
    Between(content, PythonFence, Fence)
  }

  /** The second piece of `s.split(sep)`, when there is one, is the first
      piece of what follows the first separator. */
  lemma {:induction false} SecondPiece(s: string, sep: string)
    requires |sep| > 0 && Contains(s, sep)
    ensures |Split(s, sep)| >= 2 && Split(s, sep)[1] == FirstPieceOf(AfterFirst(s, sep), sep)
  {
    var i := Find(s, sep).value;
    SplitAt(s, sep, i);
    FirstPiece(AfterFirst(s, sep), sep);
  }

  /** When `open` starts with `close` (as "```python" starts with "```"),
      the text between them is a prefix of what follows the first `open`,
      holds no `close`, and is followed there by a `close` or by the end. */
  lemma {:induction false} BetweenPlaced(content: string, open: string, close: string)
    requires 0 < |close| <= |open| && open[..|close|] == close
    requires Contains(content, open)
    ensures var u := AfterFirst(content, open);
      var r := Between(content, open, close);
      |r| <= |u| && r == u[..|r|] && !Contains(r, close)
      && (|r| == |u| || OccursAt(u, close, |r|))
  {
    var u := AfterFirst(content, open);
    var piece := FirstPieceOf(u, open);
    var r := FirstPieceOf(piece, close);
    assert piece[..|r|] == u[..|r|];
    if |r| < |piece| {
      OccursInPrefix(u, close, |piece|, |r|);
    } else if |piece| < |u| {
      CloseAtOpen(u, open, close, |piece|);
    }
  }

  /** Another `open` starts with a `close`. */
  lemma CloseAtOpen(u: string, open: string, close: string, m: nat)
    requires |close| <= |open| && open[..|close|] == close
    requires OccursAt(u, open, m)
    ensures OccursAt(u, close, m)
  {
    assert u[m..m + |close|] == u[m..m + |open|][..|close|];
  }

  /** `extract_python_code`: with the marker, the fenced text stripped;
      without it, the whole content stripped.  The "Invalid script format"
      error cannot be raised. */
  function ExtractPythonCode(content: string): (r: Result<string, string>)
    ensures r.Success?
    ensures Contains(content, PythonFence) ==> r.value == Strip(FenceBody(content))
    ensures !Contains(content, PythonFence) ==> r.value == Strip(content)
  {
    if Contains(content, PythonFence) then
      var parts := Split(content, PythonFence);
      SecondPiece(content, PythonFence);
      FirstPiece(parts[1], Fence);
      if |parts| < 2 then Failure("Invalid script format")
      else Success(Strip(Split(parts[1], Fence)[0]))
    else Success(Strip(content))
  }

  predicate NoBacktick(s: string) {
    forall i :: 0 <= i < |s| ==> s[i] != '`'
  }

  /** No "```" starts inside backtick-free code at the front of `u`. */
  lemma NoFenceInCode(u: string, code: string, k: nat)
    requires |code| <= |u| && u[..|code|] == code && NoBacktick(code)
    requires k < |code|
    ensures !OccursAt(u, Fence, k)
  {
    assert u[k] == code[k];
    if k + 3 <= |u| {
      assert u[k..k + 3][0] == u[k];
    }
  }

  /** Where a "```" can occur in `code + "```" + tail` when the code has no
      backtick and the tail does not start with one. */
  lemma FenceFacts(u: string, code: string, tail: string)
    requires u == code + Fence + tail && NoBacktick(code)
    requires tail == [] || tail[0] != '`'
    ensures forall k :: 0 <= k < |code| ==> k < |u| && !OccursAt(u, Fence, k)
    ensures OccursAt(u, Fence, |code|)
    ensures |code| + 2 < |u| && !OccursAt(u, Fence, |code| + 1) && !OccursAt(u, Fence, |code| + 2)
    ensures forall n :: |code| + 3 <= n <= |u| ==> Contains(u[..n], Fence)
  {
    assert u[..|code|] == code;
    forall k | 0 <= k < |code| ensures k < |u| && !OccursAt(u, Fence, k) {
      NoFenceInCode(u, code, k);
    }
    assert u[|code|..|code| + 3] == Fence;
    var m := |code|;
    if m + 4 <= |u| {
      assert u[m + 3] == tail[0] != '`';
      assert u[m + 1..m + 4][2] == u[m + 3];
      assert u[m + 1..m + 4] != Fence;
    }
    if m + 5 <= |u| {
      assert u[m + 2..m + 5][1] == u[m + 3];
      assert u[m + 2..m + 5] != Fence;
    }
    forall n | m + 3 <= n <= |u| ensures Contains(u[..n], Fence) {
      assert u[..n][m..m + 3] == Fence;
      assert OccursAt(u[..n], Fence, m);
    }
  }

  /** The only place a fence-free piece of `code + "```" + tail` that stops
      at a fence or at the end can stop is right after the code. */
  lemma FenceEndsCode(u: string, code: string, tail: string, r: string)
    requires u == code + Fence + tail && NoBacktick(code)
    requires tail == [] || tail[0] != '`'
    requires |r| <= |u| && r == u[..|r|] && !Contains(r, Fence)
    requires |r| == |u| || OccursAt(u, Fence, |r|)
    ensures r == code
  {
    FenceFacts(u, code, tail);
    assert |r| == |code|;
    assert u[..|code|] == code;
  }

  lemma FindAfterProse(s: string, prose: string, rest: string)
    requires s == prose + PythonFence + rest && NoBacktick(prose)
    ensures Find(s, PythonFence) == Some(|prose|)
  {
    assert s[|prose|..|prose| + |PythonFence|] == PythonFence;
    assert OccursAt(s, PythonFence, |prose|);
    forall k | 0 <= k < |prose| ensures !OccursAt(s, PythonFence, k) {
      assert s[k] == prose[k];
    }
  }

  /** A reply laid out as a single fenced block: prose without backticks,
      the opening marker, code without backticks, the closing fence and a
      tail that does not start with a backtick.  The fenced code comes out
      exactly. */
  lemma FenceBodyOfBlock(prose: string, code: string, tail: string)
    requires NoBacktick(prose) && NoBacktick(code)
    requires tail == [] || tail[0] != '`'
    ensures Contains(prose + PythonFence + code + Fence + tail, PythonFence)
    ensures FenceBody(prose + PythonFence + code + Fence + tail) == code
    ensures ExtractPythonCode(prose + PythonFence + code + Fence + tail) == Success(Strip(code))
  {
    var u := code + Fence + tail;
    var s := prose + PythonFence + u;
    assert s == prose + PythonFence + code + Fence + tail;
    MarkerAfterProse(s, prose, u);
    BodyAfterMarker(s, u, code, tail);
  }

  /** The first marker of `prose + "```python" + u` ends where `u` starts. */
  lemma MarkerAfterProse(s: string, prose: string, u: string)
    requires s == prose + PythonFence + u && NoBacktick(prose)
    ensures Contains(s, PythonFence) && AfterFirst(s, PythonFence) == u
  {
    FindAfterProse(s, prose, u);
  }

  lemma BodyAfterMarker(s: string, u: string, code: string, tail: string)
    requires Contains(s, PythonFence) && AfterFirst(s, PythonFence) == u
    requires u == code + Fence + tail && NoBacktick(code)
    requires tail == [] || tail[0] != '`'
    ensures FenceBody(s) == code
  {
    MarkerStartsWithFence();
    BetweenPlaced(s, PythonFence, Fence);
    FenceEndsCode(u, code, tail, FenceBody(s));
  }
}
