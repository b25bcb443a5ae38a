/** Plain-text layout for the panel (ui/text.py): numbering the lines of a
    text, wrapping one line into rows of at most `rowLength` characters, and
    drawing a text as labels, one per row.  The row length is an integer
    input; the font-size scaling that the source applies to it is host
    state. */
module TextLayout {
  import opened Wrappers
  import opened PyStr

  /** One widget the drawing code adds to a layout, in drawing order. */
  datatype Widget =
    | Row(text: string)                                  // a label holding one wrapped row
    | Caption(text: string, icon: string)                // a label with an icon
    | CodeLine(number: nat, marker: Option<string>, text: string)  // a numbered code line, with a diff marker icon
    | Separator

  // ---------------------------------------------------------------------
  // iter_lines
  // ---------------------------------------------------------------------

  /** `enumerate(lines, start=start)`. */
  function Number(lines: seq<string>, start: nat): (r: seq<(string, nat)>)
    ensures |r| == |lines|
    ensures forall i :: 0 <= i < |r| ==> r[i].0 == lines[i] && r[i].1 == start + i
    decreases |lines|
  {
    if lines == [] then [] else [(lines[0], start)] + Number(lines[1..], start + 1)
  }

  /** `iter_lines`: each line of `text.splitlines()` with its number,
      counting from 1. */
  function IterLines(text: string): (r: seq<(string, nat)>)
    ensures |r| == |SplitLines(text)|
    ensures forall i :: 0 <= i < |r| ==> r[i] == (SplitLines(text)[i], i + 1)
  {
    Number(SplitLines(text), 1)
  }

  // ---------------------------------------------------------------------
  // line_to_rows
  // ---------------------------------------------------------------------

  /** The loop state of `line_to_rows`: the finished rows and the row being
      filled. */
  datatype Wrap = Wrap(rows: seq<string>, row: string)

  /** One step of the character loop for an over-long word: the character
      goes on the current row unless that would leave no room for a
      following space. */
  function PlaceChar(st: Wrap, c: char, rowLength: int): Wrap {
    if |st.row| + 1 + 1 > rowLength then Wrap(st.rows + [st.row], [c])
    else Wrap(st.rows, st.row + [c])
  }

  function PlaceChars(st: Wrap, w: string, rowLength: int): Wrap
    decreases |w|
  {
    if w == [] then st else PlaceChars(PlaceChar(st, w[0], rowLength), w[1..], rowLength)
  }

  /** One pass of the word loop.  An over-long word is first spelled out
      character by character; then, whatever happened, the word itself is
      placed: on a new row if it does not fit with a separating space, or
      appended after a space (or as the row, if the row is empty). */
  function PlaceWord(st: Wrap, w: string, rowLength: int): Wrap {
    var st1 := if |w| > rowLength then PlaceChars(st, w, rowLength) else st;
    if |st1.row| + |w| + 1 > rowLength then Wrap(st1.rows + [st1.row], w)
    else Wrap(st1.rows, if st1.row != [] then st1.row + " " + w else w)
  }

  function PlaceWords(st: Wrap, words: seq<string>, rowLength: int): Wrap
    decreases |words|
  {
    if words == [] then st else PlaceWords(PlaceWord(st, words[0], rowLength), words[1..], rowLength)
  }

  /** `line_to_rows`: the words are the pieces of `line.split(" ")`; the
      row being filled is appended at the end, so there is always a row. */
  function LineToRows(line: string, rowLength: int): (r: seq<string>)
    ensures |r| >= 1
  {
    var st := PlaceWords(Wrap([], ""), Split(line, " "), rowLength);
    st.rows + [st.row]
  }

  // ---------------------------------------------------------------------
  // Properties of the wrapper
  // ---------------------------------------------------------------------

  predicate RowsFit(st: Wrap, rowLength: int) {
    |st.row| <= rowLength && forall i :: 0 <= i < |st.rows| ==> |st.rows[i]| <= rowLength
  }

  predicate WordsFit(words: seq<string>, rowLength: int) {
    forall i :: 0 <= i < |words| ==> |words[i]| <= rowLength
  }

  lemma {:induction false} PlaceWordsFit(st: Wrap, words: seq<string>, rowLength: int)
    requires RowsFit(st, rowLength) && WordsFit(words, rowLength)
    ensures RowsFit(PlaceWords(st, words, rowLength), rowLength)
    decreases |words|
  {
    if words != [] {
      var next := PlaceWord(st, words[0], rowLength);
      assert RowsFit(next, rowLength);
      assert WordsFit(words[1..], rowLength) by {
        forall i | 0 <= i < |words[1..]| ensures |words[1..][i]| <= rowLength {
          assert words[1..][i] == words[i + 1];
        }
      }
      PlaceWordsFit(next, words[1..], rowLength);
    }
  }

  /** When no word is longer than the row length, no row is either. */
  lemma RowsWithinLength(line: string, rowLength: int)
    requires rowLength >= 0
    requires WordsFit(Split(line, " "), rowLength)
    ensures forall i :: 0 <= i < |LineToRows(line, rowLength)| ==> |LineToRows(line, rowLength)[i]| <= rowLength
  {
    PlaceWordsFit(Wrap([], ""), Split(line, " "), rowLength);
  }

  /** Finished rows are never revised. */
  lemma {:induction false} PlaceWordsKeepsRows(st: Wrap, words: seq<string>, rowLength: int)
    ensures |st.rows| <= |PlaceWords(st, words, rowLength).rows|
    ensures PlaceWords(st, words, rowLength).rows[..|st.rows|] == st.rows
    decreases |words|
  {
    if words != [] {
      var next := PlaceWord(st, words[0], rowLength);
      PlaceCharsKeepsRows(st, words[0], rowLength);
      PlaceWordsKeepsRows(next, words[1..], rowLength);
      assert next.rows[..|st.rows|] == st.rows;
    }
  }

  lemma {:induction false} PlaceCharsKeepsRows(st: Wrap, w: string, rowLength: int)
    ensures |st.rows| <= |PlaceChars(st, w, rowLength).rows|
    ensures PlaceChars(st, w, rowLength).rows[..|st.rows|] == st.rows
    decreases |w|
  {
    if w != [] {
      var next := PlaceChar(st, w[0], rowLength);
      PlaceCharsKeepsRows(next, w[1..], rowLength);
      assert next.rows[..|st.rows|] == st.rows;
    }
  }

  /** A first word of exactly the row length does not fit after the empty
      starting row plus a space, so the output starts with an empty row. */
  lemma FirstWordOfRowLength(line: string, rowLength: int)
    requires |Split(line, " ")[0]| == rowLength
    ensures LineToRows(line, rowLength)[0] == ""
  {
    var words := Split(line, " ");
    var first := PlaceWord(Wrap([], ""), words[0], rowLength);
    assert first.rows == [""];
    PlaceWordsKeepsRows(first, words[1..], rowLength);
  }

  // ---------------------------------------------------------------------
  // Over-long words
  // ---------------------------------------------------------------------

  /** `s` cut into consecutive pieces of `k` characters, the last one
      possibly shorter. */
  function Chunks(s: string, k: nat): (r: seq<string>)
    requires k >= 1
    ensures |r| >= 1
    ensures Concat(r) == s
    ensures forall i :: 0 <= i < |r| ==> |r[i]| <= k
    ensures s != [] ==> forall i :: 0 <= i < |r| ==> r[i] != []
    decreases |s|
  {
    if |s| <= k then [s]
    else
      var rest := Chunks(s[k..], k);
      assert Concat([s[..k]] + rest) == s[..k] + Concat(rest);
      [s[..k]] + rest
  }

  lemma ChunksAfterFull(p: string, w: string, k: nat)
    requires k >= 1 && |p| == k && w != []
    ensures Chunks(p + w, k) == [p] + Chunks(w, k)
  {
    assert (p + w)[..k] == p;
    assert (p + w)[k..] == w;
  }

  lemma DropLast(p: string, c: seq<string>)
    requires |c| >= 1
    ensures ([p] + c)[..|[p] + c| - 1] == [p] + c[..|c| - 1]
    ensures ([p] + c)[|[p] + c| - 1] == c[|c| - 1]
  {
  }

  /** The character loop, from a partly filled row: the rows it finishes
      are the chunks of the row so far followed by the word, all but the
      last chunk, which is left as the current row. */
  lemma {:induction false} PlaceCharsChunks(rows: seq<string>, p: string, w: string, rowLength: int)
    requires rowLength >= 2 && |p| <= rowLength - 1
    ensures var c := Chunks(p + w, rowLength - 1);
      PlaceChars(Wrap(rows, p), w, rowLength) == Wrap(rows + c[..|c| - 1], c[|c| - 1])
    decreases |w|, 1
  {
    if w == [] {
      assert p + w == p;
      assert Chunks(p + w, rowLength - 1) == [p];
    } else if |p| == rowLength - 1 {
      ChunksRowFull(rows, p, w, rowLength);
    } else {
      ChunksRowGrows(rows, p, w, rowLength);
    }
  }

  lemma ChunksFullRow(rows: seq<string>, p: string, w: string, k: nat)
    requires k >= 1 && |p| == k && w != []
    ensures var c := Chunks(p + w, k);
      var d := Chunks(w, k);
      rows + [p] + d[..|d| - 1] == rows + c[..|c| - 1] && d[|d| - 1] == c[|c| - 1]
  {
    var d := Chunks(w, k);
    var c := Chunks(p + w, k);
    ChunksAfterFull(p, w, k);
    DropLast(p, d);
    assert c[..|c| - 1] == [p] + d[..|d| - 1];
  }

  /** The row is full: it is finished and the character starts a new one. */
  lemma {:induction false} ChunksRowFull(rows: seq<string>, p: string, w: string, rowLength: int)
    requires rowLength >= 2 && |p| == rowLength - 1 && w != []
    ensures var c := Chunks(p + w, rowLength - 1);
      PlaceChars(Wrap(rows, p), w, rowLength) == Wrap(rows + c[..|c| - 1], c[|c| - 1])
    decreases |w|, 0
  {
    var k := rowLength - 1;
    var next := PlaceChar(Wrap(rows, p), w[0], rowLength);
    assert next == Wrap(rows + [p], [w[0]]);
    assert PlaceChars(Wrap(rows, p), w, rowLength) == PlaceChars(next, w[1..], rowLength);
    PlaceCharsChunks(rows + [p], [w[0]], w[1..], rowLength);
    assert [w[0]] + w[1..] == w;
    ChunksFullRow(rows, p, w, k);
  }

  /** The row has room: the character joins it. */
  lemma {:induction false} ChunksRowGrows(rows: seq<string>, p: string, w: string, rowLength: int)
    requires rowLength >= 2 && |p| < rowLength - 1 && w != []
    ensures var c := Chunks(p + w, rowLength - 1);
      PlaceChars(Wrap(rows, p), w, rowLength) == Wrap(rows + c[..|c| - 1], c[|c| - 1])
    decreases |w|, 0
  {
    var next := PlaceChar(Wrap(rows, p), w[0], rowLength);
    assert next == Wrap(rows, p + [w[0]]);
    assert PlaceChars(Wrap(rows, p), w, rowLength) == PlaceChars(next, w[1..], rowLength);
    PlaceCharsChunks(rows, p + [w[0]], w[1..], rowLength);
    assert (p + [w[0]]) + w[1..] == p + w;
  }

  /** A line that is one word longer than the row length (at least 2) comes
      out as the word's chunks of `rowLength - 1` characters, followed by
      the whole word again. */
  lemma OverlongWordTwice(w: string, rowLength: int)
    requires rowLength >= 2 && |w| > rowLength
    requires !Contains(w, " ")
    ensures LineToRows(w, rowLength) == Chunks(w, rowLength - 1) + [w]
  {
    assert Split(w, " ") == [w];
    PlaceOverlongWord(w, rowLength);
    assert PlaceWords(Wrap([], ""), [w], rowLength) == PlaceWord(Wrap([], ""), w, rowLength);
  }

  /** An over-long word met in any state: if the row being filled has room
      for another character and a space, the word's characters continue it
      directly (no space) and the rows fill with the chunks of row and word
      together; otherwise that row is finished first and the chunks are the
      word's own.  Either way the last chunk is finished too and the whole
      word becomes the row being filled. */
  lemma {:induction false} OverlongWordPlaced(st: Wrap, w: string, rowLength: int)
    requires rowLength >= 2 && |w| > rowLength
    ensures |st.row| < rowLength - 1 ==>
      PlaceWord(st, w, rowLength) == Wrap(st.rows + Chunks(st.row + w, rowLength - 1), w)
    ensures |st.row| >= rowLength - 1 ==>
      PlaceWord(st, w, rowLength) == Wrap(st.rows + [st.row] + Chunks(w, rowLength - 1), w)
  {
    var k := rowLength - 1;
    if |st.row| < k {
      PlaceCharsChunks(st.rows, st.row, w, rowLength);
      var c := Chunks(st.row + w, k);
      assert c[..|c| - 1] + [c[|c| - 1]] == c;
    } else {
      var next := PlaceChar(st, w[0], rowLength);
      assert next == Wrap(st.rows + [st.row], [w[0]]);
      assert PlaceChars(st, w, rowLength) == PlaceChars(next, w[1..], rowLength);
      PlaceCharsChunks(st.rows + [st.row], [w[0]], w[1..], rowLength);
      assert [w[0]] + w[1..] == w;
      var c := Chunks(w, k);
      assert c[..|c| - 1] + [c[|c| - 1]] == c;
    }
  }

  /** An overlong first word fills rows with its chunks, then starts the
      row being filled again with the whole word. */
  lemma PlaceOverlongWord(w: string, rowLength: int)
    requires rowLength >= 2 && |w| > rowLength
    ensures PlaceWord(Wrap([], ""), w, rowLength) == Wrap(Chunks(w, rowLength - 1), w)
  {
    PlaceCharsChunks([], "", w, rowLength);
    assert "" + w == w;
    var c := Chunks(w, rowLength - 1);
    assert PlaceChars(Wrap([], ""), w, rowLength) == Wrap(c[..|c| - 1], c[|c| - 1]);
    assert c[..|c| - 1] + [c[|c| - 1]] == c;
  }

  // ---------------------------------------------------------------------
  // Nothing is lost when every word fits
  // ---------------------------------------------------------------------

  lemma JoinAppend(xs: seq<string>, y: string, sep: string)
    ensures Join(xs + [y], sep) == if xs == [] then y else Join(xs, sep) + sep + y
    decreases |xs|
  {
    if |xs| > 1 {
      assert (xs + [y])[1..] == xs[1..] + [y];
      JoinAppend(xs[1..], y, sep);
    }
  }

  predicate WordsShort(words: seq<string>, rowLength: int) {
    forall i :: 0 <= i < |words| ==> 0 < |words[i]| < rowLength
  }

  lemma {:induction false} PlaceWordsJoin(st: Wrap, done: seq<string>, words: seq<string>, rowLength: int)
    requires done != [] && st.row != []
    requires Join(st.rows + [st.row], " ") == Join(done, " ")
    requires WordsShort(words, rowLength)
    ensures var r := PlaceWords(st, words, rowLength);
      r.row != [] && Join(r.rows + [r.row], " ") == Join(done + words, " ")
    decreases |words|
  {
    if words == [] {
      assert done + words == done;
    } else {
      var w := words[0];
      var next := PlaceWord(st, w, rowLength);
      PlaceWordJoin(st, done, w, rowLength);
      assert WordsShort(words[1..], rowLength) by {
        forall i | 0 <= i < |words[1..]| ensures 0 < |words[1..][i]| < rowLength {
          assert words[1..][i] == words[i + 1];
        }
      }
      PlaceWordsJoin(next, done + [w], words[1..], rowLength);
      assert done + [w] + words[1..] == done + words;
    }
  }

  /** Placing one short word keeps the rows joining to the words placed. */
  lemma {:induction false} PlaceWordJoin(st: Wrap, done: seq<string>, w: string, rowLength: int)
    requires done != [] && st.row != []
    requires Join(st.rows + [st.row], " ") == Join(done, " ")
    requires 0 < |w| < rowLength
    ensures var next := PlaceWord(st, w, rowLength);
      next.row != [] && Join(next.rows + [next.row], " ") == Join(done + [w], " ")
  {
    var next := PlaceWord(st, w, rowLength);
    JoinAppend(done, w, " ");
    JoinAppend(st.rows + [st.row], w, " ");
    JoinAppend(st.rows, st.row, " ");
    JoinAppend(st.rows, st.row + " " + w, " ");
    if |st.row| + |w| + 1 > rowLength {
      assert next == Wrap(st.rows + [st.row], w);
    } else {
      assert next == Wrap(st.rows, st.row + " " + w);
    }
  }

  /** When every word is non-empty and shorter than the row length, the
      rows joined with single spaces give the line back: wrapping only
      chooses which spaces become row breaks. */
  lemma RowsJoinToLine(line: string, rowLength: int)
    requires WordsShort(Split(line, " "), rowLength)
    ensures Join(LineToRows(line, rowLength), " ") == line
  {
    var words := Split(line, " ");
    var first := PlaceWord(Wrap([], ""), words[0], rowLength);
    assert first == Wrap([], words[0]);
    assert WordsShort(words[1..], rowLength) by {
      forall i | 0 <= i < |words[1..]| ensures 0 < |words[1..][i]| < rowLength {
        assert words[1..][i] == words[i + 1];
      }
    }
    PlaceWordsJoin(first, [words[0]], words[1..], rowLength);
    assert [words[0]] + words[1..] == words;
    JoinSplit(line, " ");
  }

  // ---------------------------------------------------------------------
  // draw_line and draw_text
  // ---------------------------------------------------------------------

  function RowsOf(rows: seq<string>): (r: seq<Widget>)
    ensures |r| == |rows|
    ensures forall i :: 0 <= i < |r| ==> r[i] == Row(rows[i])
    decreases |rows|
  {
    if rows == [] then [] else [Row(rows[0])] + RowsOf(rows[1..])
  }

  /** `draw_line`: one label per wrapped row. */
  function DrawLine(line: string, rowLength: int): (r: seq<Widget>)
    ensures |r| >= 1
  {
    RowsOf(LineToRows(line, rowLength))
  }

  function DrawLines(lines: seq<string>, rowLength: int): (r: seq<Widget>)
    ensures |r| >= |lines|
    decreases |lines|
  {
    if lines == [] then [] else DrawLine(lines[0], rowLength) + DrawLines(lines[1..], rowLength)
  }

  /** `draw_text`: the lines `iter_lines` yields, drawn in order; their
      numbers are not used. */
  function DrawText(text: string, rowLength: int): (r: seq<Widget>)
    ensures |r| >= |SplitLines(text)|
  {
    DrawLines(SplitLines(text), rowLength)
  }

  /** The first line of a text is drawn first and on its own, then the
      rest of the text. */
  lemma DrawTextCons(a: string, brk: string, b: string, rowLength: int)
    requires NoLineBreak(a)
    requires brk == "\n" || brk == "\r\n"
    ensures DrawText(a + brk + b, rowLength) == DrawLine(a, rowLength) + DrawText(b, rowLength)
  {
    SplitLinesCons(a, brk, b);
    assert ([a] + SplitLines(b))[1..] == SplitLines(b);
  }
}
