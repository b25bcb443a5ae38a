/** The pieces of Python's `str` behaviour the add-on relies on: `isspace`,
    `strip`, `sep in s`, `split(sep)`, `splitlines()` and decimal formatting
    of non-negative integers in f-strings. */
module PyStr {
  import opened Wrappers

  /** Python's `str.isspace()` for one character: the ASCII controls TAB..CR,
      the separators 0x1C..0x1F, space, and the Unicode space characters. */
  predicate IsSpace(c: char) {
    var n := c as int;
    || (9 <= n <= 13) || (28 <= n <= 32) || n == 0x85 || n == 0xA0 || n == 0x1680
    || (0x2000 <= n <= 0x200A) || n == 0x2028 || n == 0x2029 || n == 0x202F
    || n == 0x205F || n == 0x3000
  }

  /** `not s.strip()`: the string is empty or holds only whitespace. */
  predicate IsBlank(s: string) {
    forall i :: 0 <= i < |s| ==> IsSpace(s[i])
  }

  /** `s.lstrip()`: the longest suffix that does not start with whitespace. */
  function LStrip(s: string): (r: string)
    ensures |r| <= |s| && r == s[|s| - |r|..]
    ensures IsBlank(s[..|s| - |r|])
    ensures |r| > 0 ==> !IsSpace(r[0])
    ensures r == [] <==> IsBlank(s)
    decreases |s|
  {
    if |s| > 0 && IsSpace(s[0]) then LStrip(s[1..]) else s
  }

  /** `s.rstrip()`: the longest prefix that does not end with whitespace. */
  function RStrip(s: string): (r: string)
    ensures |r| <= |s| && r == s[..|r|]
    ensures IsBlank(s[|r|..])
    ensures |r| > 0 ==> !IsSpace(r[|r| - 1])
    ensures r == [] <==> IsBlank(s)
    decreases |s|
  {
    if |s| > 0 && IsSpace(s[|s| - 1]) then RStrip(s[..|s| - 1]) else s
  }

  /** `s.strip()`. */
  function Strip(s: string): (r: string)
    ensures |r| > 0 ==> !IsSpace(r[0]) && !IsSpace(r[|r| - 1])
    ensures r == [] <==> IsBlank(s)
  {
    var l := LStrip(s);
    var r := RStrip(l);
    assert |r| > 0 ==> r[0] == l[0];
    r
  }

  /** Leading whitespace does not change the left-stripped string. */
  lemma {:induction false} LStripBlankPrefix(a: string, t: string)
    requires IsBlank(a)
    ensures LStrip(a + t) == LStrip(t)
    decreases |a|
  {
    if a == [] {
      assert a + t == t;
    } else {
      var s := a + t;
      assert s[0] == a[0];
      assert s[1..] == a[1..] + t;
      assert LStrip(s) == LStrip(s[1..]);
      assert IsBlank(a[1..]) by {
        forall i | 0 <= i < |a[1..]| ensures IsSpace(a[1..][i]) {
          assert a[1..][i] == a[i + 1];
        }
      }
      LStripBlankPrefix(a[1..], t);
    }
  }

  /** Trailing whitespace does not change the right-stripped string. */
  lemma {:induction false} RStripBlankSuffix(t: string, b: string)
    requires IsBlank(b)
    ensures RStrip(t + b) == RStrip(t)
    decreases |b|
  {
    if b == [] {
      assert t + b == t;
    } else {
      var s := t + b;
      assert s[|s| - 1] == b[|b| - 1];
      assert s[..|s| - 1] == t + b[..|b| - 1];
      assert RStrip(s) == RStrip(s[..|s| - 1]);
      var front := b[..|b| - 1];
      assert IsBlank(front) by {
        forall i | 0 <= i < |front| ensures IsSpace(front[i]) {
          assert front[i] == b[i];
        }
      }
      RStripBlankSuffix(t, front);
    }
  }

  /** Stripping removes exactly the whitespace padding: a core without
      leading or trailing whitespace comes back unchanged from any padding. */
  lemma StripOfPadded(a: string, x: string, b: string)
    requires IsBlank(a) && IsBlank(b)
    requires |x| > 0 ==> !IsSpace(x[0]) && !IsSpace(x[|x| - 1])
    ensures Strip(a + x + b) == x
  {
    var s := a + x + b;
    assert s == a + (x + b);
    LStripBlankPrefix(a, x + b);
    if x == [] {
      assert x + b == b;
      assert LStrip(s) == [];
    } else {
      assert (x + b)[0] == x[0];
      assert LStrip(x + b) == x + b;
      RStripBlankSuffix(x, b);
      assert RStrip(x) == x;
      assert RStrip(LStrip(s)) == x;
    }
  }

  /** `pat` occurs in `s` starting at index `k`. */
  predicate OccursAt(s: string, pat: string, k: int) {
    0 <= k && k + |pat| <= |s| && s[k..k + |pat|] == pat
  }

  /** Python's `pat in s`. */
  predicate Contains(s: string, pat: string) {
    exists k | 0 <= k <= |s| :: OccursAt(s, pat, k)
  }

  lemma OccursShift(s: string, pat: string, k: nat)
    requires |s| > 0
    ensures OccursAt(s[1..], pat, k) <==> OccursAt(s, pat, k + 1)
  {
    if k + |pat| <= |s| - 1 {
      assert s[1..][k..k + |pat|] == s[k + 1..k + 1 + |pat|];
    }
  }

  /** `s.find(pat)`: the leftmost occurrence, `None` standing for -1. */
  function Find(s: string, pat: string): (r: Option<nat>)
    requires |pat| > 0
    ensures r.Some? ==> OccursAt(s, pat, r.value)
    ensures r.Some? ==> forall k :: 0 <= k < r.value ==> !OccursAt(s, pat, k)
    ensures r.None? <==> !Contains(s, pat)
    decreases |s|
  {
    if |s| < |pat| then None
    else if s[..|pat|] == pat then assert OccursAt(s, pat, 0); Some(0)
    else
      var rest := Find(s[1..], pat);
      FindStep(s, pat, rest);
      match rest
      case None => None
      case Some(i) => Some(i + 1)
  }

  /** Searching from the second character finds the same occurrences,
      shifted by one, when there is none at the first. */
  lemma {:induction false} FindStep(s: string, pat: string, rest: Option<nat>)
    requires |pat| > 0 && |s| >= |pat| && s[..|pat|] != pat
    requires rest.Some? ==> OccursAt(s[1..], pat, rest.value)
    requires rest.Some? ==> forall k :: 0 <= k < rest.value ==> !OccursAt(s[1..], pat, k)
    requires rest.None? <==> !Contains(s[1..], pat)
    ensures rest.Some? ==> OccursAt(s, pat, rest.value + 1)
    ensures rest.Some? ==> forall k :: 0 <= k < rest.value + 1 ==> !OccursAt(s, pat, k)
    ensures rest.None? <==> !Contains(s, pat)
  {
    assert !OccursAt(s, pat, 0);
    if rest.Some? {
      OccursShift(s, pat, rest.value);
      forall k | 1 <= k < rest.value + 1 ensures !OccursAt(s, pat, k) {
        OccursShift(s, pat, k - 1);
      }
    }
    if Contains(s, pat) {
      var k :| 0 <= k <= |s| && OccursAt(s, pat, k);
      OccursShift(s, pat, k - 1);
      assert OccursAt(s[1..], pat, k - 1);
    }
    if Contains(s[1..], pat) {
      var k :| 0 <= k <= |s[1..]| && OccursAt(s[1..], pat, k);
      OccursShift(s, pat, k);
    }
  }

  /** An occurrence inside a prefix is an occurrence in the whole string. */
  lemma OccursInPrefix(s: string, pat: string, n: nat, k: int)
    requires n <= |s|
    requires OccursAt(s[..n], pat, k)
    ensures OccursAt(s, pat, k)
  {
    assert s[..n][k..k + |pat|] == s[k..k + |pat|];
  }

  /** Python's `s.split(sep)` for a non-empty separator: cut at every
      occurrence, scanning from the left without overlaps. */
  function Split(s: string, sep: string): (r: seq<string>)
    requires |sep| > 0
    ensures |r| >= 1
    ensures Contains(s, sep) <==> |r| >= 2
    decreases |s|
  {
    match Find(s, sep)
    case None => [s]
    case Some(i) => [s[..i]] + Split(s[i + |sep|..], sep)
  }

  /** Where the first piece of `s.split(sep)` ends: at the first
      separator, or at the end. */
  function PieceEnd(s: string, sep: string): (n: nat)
    requires |sep| > 0
    ensures n <= |s|
    ensures n == |s| || OccursAt(s, sep, n)
  {
    match Find(s, sep)
    case None => |s|
    case Some(i) => i
  }

  /** `s.split(sep)[0]`: the text before the first separator. */
  function FirstPieceOf(s: string, sep: string): (r: string)
    requires |sep| > 0
    ensures |r| <= |s| && r == s[..|r|]
    ensures !Contains(r, sep)
    ensures |r| == |s| || OccursAt(s, sep, |r|)
  {
    FirstPieceClean(s, sep);
    s[..PieceEnd(s, sep)]
  }

  /** The first piece of a split is the text up to its first separator. */
  lemma {:induction false} FirstPiece(s: string, sep: string)
    requires |sep| > 0
    ensures Split(s, sep)[0] == FirstPieceOf(s, sep)
  {
    match Find(s, sep)
    case None =>
    case Some(i) =>
  }

  /** The text before the first separator holds no separator. */
  lemma {:induction false} FirstPieceClean(s: string, sep: string)
    requires |sep| > 0
    ensures !Contains(s[..PieceEnd(s, sep)], sep)
  {
    var n := PieceEnd(s, sep);
    match Find(s, sep)
    case None =>
      forall k | 0 <= k <= n ensures !OccursAt(s[..n], sep, k) {
        NotInPrefix(s, sep, n, k);
      }
    case Some(i) =>
      forall k | 0 <= k <= n ensures !OccursAt(s[..n], sep, k) {
        if k < i {
          NotInPrefix(s, sep, n, k);
        }
      }
  }

  /** No occurrence in the whole string, none in a prefix. */
  lemma NotInPrefix(s: string, pat: string, n: nat, k: int)
    requires n <= |s| && !OccursAt(s, pat, k)
    ensures !OccursAt(s[..n], pat, k)
  {
    if 0 <= k && k + |pat| <= n {
      assert s[..n][k..k + |pat|] == s[k..k + |pat|];
    }
  }

  /** The text after the first occurrence of `sep`. */
  function AfterFirst(s: string, sep: string): (r: string)
    requires |sep| > 0 && Contains(s, sep)
    ensures Find(s, sep).Some? && Find(s, sep).value + |sep| + |r| == |s|
    ensures r == s[Find(s, sep).value + |sep|..]
  {
    s[Find(s, sep).value + |sep|..]
  }

  /** The first cut of a split that finds its separator. */
  lemma {:induction false} SplitAt(s: string, sep: string, i: nat)
    requires |sep| > 0 && Find(s, sep) == Some(i)
    ensures i + |sep| <= |s|
    ensures Split(s, sep) == [s[..i]] + Split(s[i + |sep|..], sep)
  {
  }

  /** `sep.join(pieces)`. */
  function Join(pieces: seq<string>, sep: string): string
    decreases |pieces|
  {
    if |pieces| == 0 then ""
    else if |pieces| == 1 then pieces[0]
    else pieces[0] + sep + Join(pieces[1..], sep)
  }

  /** Splitting loses nothing: joining the pieces with the separator gives
      back the original string. */
  lemma {:induction false} JoinSplit(s: string, sep: string)
    requires |sep| > 0
    ensures Join(Split(s, sep), sep) == s
    decreases |s|
  {
    match Find(s, sep)
    case None =>
    case Some(i) =>
      var rest := s[i + |sep|..];
      JoinSplit(rest, sep);
      SplitAt(s, sep, i);
      assert s == s[..i] + sep + rest;
  }

  /** The characters at which Python's `str.splitlines()` ends a line. */
  predicate IsLineBreak(c: char) {
    var n := c as int;
    (10 <= n <= 13) || (28 <= n <= 30) || n == 0x85 || n == 0x2028 || n == 0x2029
  }

  predicate NoLineBreak(s: string) {
    forall k :: 0 <= k < |s| ==> !IsLineBreak(s[k])
  }

  /** Index of the first line break, or `|s|` when there is none. */
  function FirstBreak(s: string): (r: nat)
    ensures r <= |s|
    ensures NoLineBreak(s[..r])
    ensures r < |s| ==> IsLineBreak(s[r])
    decreases |s|
  {
    if |s| == 0 || IsLineBreak(s[0]) then 0
    else
      var r := 1 + FirstBreak(s[1..]);
      assert s[..r] == [s[0]] + s[1..][..r - 1];
      r
  }

  /** Python's `s.splitlines()`: "\r\n" ends one line, and a trailing line
      break does not open an empty last line. */
  function SplitLines(s: string): (r: seq<string>)
    ensures forall i :: 0 <= i < |r| ==> NoLineBreak(r[i])
    decreases |s|
  {
    if s == [] then []
    else
      var e := FirstBreak(s);
      if e == |s| then [s]
      else
        var width := if s[e] == '\r' && e + 1 < |s| && s[e + 1] == '\n' then 2 else 1;
        [s[..e]] + SplitLines(s[e + width..])
  }

  /** `FirstBreak` finds the first line break and nothing earlier. */
  lemma {:induction false} FirstBreakAt(s: string, j: nat)
    requires j <= |s| && NoLineBreak(s[..j])
    requires j < |s| ==> IsLineBreak(s[j])
    ensures FirstBreak(s) == j
    decreases j
  {
    if j > 0 {
      assert s[..j][0] == s[0];
      assert s[1..][..j - 1] == s[..j][1..];
      FirstBreakAt(s[1..], j - 1);
    }
  }

  /** A text without line breaks is one line. */
  lemma SplitLinesSingle(a: string)
    requires a != [] && NoLineBreak(a)
    ensures SplitLines(a) == [a]
  {
    assert a[..|a|] == a;
    FirstBreakAt(a, |a|);
  }

  /** A "\n" or "\r\n" after a break-free prefix ends exactly that line. */
  lemma SplitLinesCons(a: string, brk: string, b: string)
    requires NoLineBreak(a)
    requires brk == "\n" || brk == "\r\n"
    ensures SplitLines(a + brk + b) == [a] + SplitLines(b)
  {
    var s := a + brk + b;
    assert s[..|a|] == a;
    FirstBreakAt(s, |a|);
    if brk == "\r\n" {
      assert s[|a| + 2..] == b;
    } else {
      assert s[|a| + 1..] == b;
    }
  }

  function DigitChar(d: nat): (c: char)
    requires d < 10
    ensures '0' <= c <= '9' && c as int - '0' as int == d
  {
    (d + '0' as int) as char
  }

  /** Decimal rendering of a non-negative integer, as `str(n)` or `f"{n}"`. */
  function NatToString(n: nat): (r: string)
    ensures |r| >= 1
    ensures forall i :: 0 <= i < |r| ==> '0' <= r[i] <= '9'
    ensures |r| > 1 ==> r[0] != '0'
    decreases n
  {
    if n < 10 then [DigitChar(n)] else NatToString(n / 10) + [DigitChar(n % 10)]
  }

  /** Reads a string of decimal digits back as a number. */
  function ParseDigits(s: string): nat
    requires forall i :: 0 <= i < |s| ==> '0' <= s[i] <= '9'
    decreases |s|
  {
    if s == [] then 0
    else 10 * ParseDigits(s[..|s| - 1]) + (s[|s| - 1] as int - '0' as int)
  }

  /** The decimal rendering reads back as the same number. */
  lemma {:induction false} ParseNatToString(n: nat)
    ensures ParseDigits(NatToString(n)) == n
    decreases n
  {
    if n >= 10 {
      ParseNatToString(n / 10);
      var s := NatToString(n);
      assert s[..|s| - 1] == NatToString(n / 10);
    }
  }

  /** Concatenation of a list of strings, `"".join(pieces)`. */
  function Concat(pieces: seq<string>): string
    decreases |pieces|
  {
    if pieces == [] then "" else pieces[0] + Concat(pieces[1..])
  }

  lemma {:induction false} ConcatAppend(pieces: seq<string>, last: string)
    ensures Concat(pieces + [last]) == Concat(pieces) + last
    decreases |pieces|
  {
    if pieces != [] {
      assert (pieces + [last])[1..] == pieces[1..] + [last];
      ConcatAppend(pieces[1..], last);
    }
  }
}
