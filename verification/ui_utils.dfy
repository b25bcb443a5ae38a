/** Markdown drawing for the panel (ui/ui_utils.py `draw_markdown`): the
    text fold `handle_paragraph` over a parsed document, the widgets
    `handle_element` draws for headings, paragraphs, lists and fenced code,
    and the top-level loop.  The parser is an input: a document is its list
    of top-level nodes, or `None` when parsing failed. */
module Markdown {
  import opened Wrappers
  import opened PyStr
  import opened TextLayout

  /** The node types the drawing code distinguishes; `OtherNode` stands for
      every other type the parser produces (block quotes, links, images,
      blank lines, ...). */
  datatype Node =
    | Paragraph(children: seq<Node>)
    | Heading(children: seq<Node>)
    | LineBreak
    | RawText(text: string)
    | CodeSpan(text: string)
    | Emphasis(children: seq<Node>)
    | StrongEmphasis(children: seq<Node>)
    | MdList(ordered: bool, children: seq<Node>)
    | ListItem(children: seq<Node>)
    | FencedCode(lang: string, children: seq<Node>)
    | OtherNode(children: seq<Node>)

  // ---------------------------------------------------------------------
  // handle_paragraph
  // ---------------------------------------------------------------------

  /** `handle_paragraph` on a node with children `cs`: the texts of the
      children in order. */
  function InlineText(cs: seq<Node>): string
    decreases cs
  {
    if cs == [] then "" else ChildText(cs[0]) + InlineText(cs[1..])
  }

  /** What one child contributes: paragraphs and emphasis are transparent,
      a line break is a newline, raw text is itself, a code span is quoted,
      and anything else is nothing. */
  function ChildText(c: Node): string
    decreases c
  {
    match c
    case Paragraph(ch) => InlineText(ch)
    case Emphasis(ch) => InlineText(ch)
    case StrongEmphasis(ch) => InlineText(ch)
    case LineBreak => "\n"
    case RawText(t) => t
    case CodeSpan(t) => "'" + t + "'"
    case _ => ""
  }

  /** The fold is a homomorphism: the text of two runs of children is the
      text of the first followed by that of the second. */
  lemma {:induction false} InlineTextAppend(a: seq<Node>, b: seq<Node>)
    ensures InlineText(a + b) == InlineText(a) + InlineText(b)
    decreases |a|
  {
    if a != [] {
      assert (a + b)[0] == a[0];
      assert (a + b)[1..] == a[1..] + b;
      InlineTextAppend(a[1..], b);
    } else {
      assert a + b == b;
    }
  }

  /** The fold over one child is that child's text. */
  lemma InlineTextSingle(c: Node)
    ensures InlineText([c]) == ChildText(c)
  {
    assert [c][1..] == [];
  }

  /** Wrapping a run of children in a paragraph or in emphasis changes
      nothing in the text. */
  lemma WrappersTransparent(cs: seq<Node>)
    ensures InlineText([Paragraph(cs)]) == InlineText(cs)
    ensures InlineText([Emphasis(cs)]) == InlineText(cs)
    ensures InlineText([StrongEmphasis(cs)]) == InlineText(cs)
  {
    InlineTextSingle(Paragraph(cs));
    InlineTextSingle(Emphasis(cs));
    InlineTextSingle(StrongEmphasis(cs));
  }

  /** A node whose type the fold does not handle can be removed from
      anywhere among the children without changing the text; in particular
      a list item's nested lists are not part of its text. */
  lemma IgnoredChild(a: seq<Node>, c: Node, b: seq<Node>)
    requires c.Heading? || c.MdList? || c.ListItem? || c.FencedCode? || c.OtherNode?
    ensures InlineText(a + [c] + b) == InlineText(a + b)
  {
    InlineTextAppend(a + [c], b);
    InlineTextAppend(a, [c]);
    InlineTextSingle(c);
    InlineTextAppend(a, b);
  }

  /** The pieces of raw text, line breaks and code spans a run of children
      contributes, read off independently of the fold. */
  function Leaves(cs: seq<Node>): (r: seq<string>)
    decreases cs
  {
    if cs == [] then [] else LeavesOf(cs[0]) + Leaves(cs[1..])
  }

  function LeavesOf(c: Node): seq<string>
    decreases c
  {
    match c
    case Paragraph(ch) => Leaves(ch)
    case Emphasis(ch) => Leaves(ch)
    case StrongEmphasis(ch) => Leaves(ch)
    case LineBreak => ["\n"]
    case RawText(t) => [t]
    case CodeSpan(t) => ["'", t, "'"]
    case _ => []
  }

  /** The fold's text is the concatenation of the leaves, in document
      order. */
  lemma {:induction false} InlineTextIsLeaves(cs: seq<Node>)
    ensures InlineText(cs) == Concat(Leaves(cs))
    decreases cs
  {
    if cs != [] {
      ChildTextIsLeaves(cs[0]);
      InlineTextIsLeaves(cs[1..]);
      ConcatSplit(LeavesOf(cs[0]), Leaves(cs[1..]));
    }
  }

  lemma {:induction false} ChildTextIsLeaves(c: Node)
    ensures ChildText(c) == Concat(LeavesOf(c))
    decreases c
  {
    match c
    case Paragraph(ch) => InlineTextIsLeaves(ch);
    case Emphasis(ch) => InlineTextIsLeaves(ch);
    case StrongEmphasis(ch) => InlineTextIsLeaves(ch);
    case LineBreak =>
    case RawText(t) =>
    case CodeSpan(t) =>
      assert Concat(["'", t, "'"]) == "'" + Concat([t, "'"]);
      assert Concat([t, "'"]) == t + Concat(["'"]);
    case _ =>
  }

  lemma {:induction false} ConcatSplit(a: seq<string>, b: seq<string>)
    ensures Concat(a + b) == Concat(a) + Concat(b)
    decreases |a|
  {
    if a != [] {
      assert (a + b)[0] == a[0];
      assert (a + b)[1..] == a[1..] + b;
      ConcatSplit(a[1..], b);
    } else {
      assert a + b == b;
    }
  }

  // ---------------------------------------------------------------------
  // handle_element
  // ---------------------------------------------------------------------

  predicate NoSeparator(ws: seq<Widget>) {
    forall i :: 0 <= i < |ws| ==> !ws[i].Separator?
  }

  /** Plain text draws only rows. */
  lemma {:induction false} DrawLinesRows(lines: seq<string>, rowLength: int)
    ensures NoSeparator(DrawLines(lines, rowLength))
    decreases |lines|
  {
    if lines != [] {
      DrawLinesRows(lines[1..], rowLength);
    }
  }

  /** `draw_text` for one column, with the rows-only fact attached. */
  function Text(text: string, rowLength: int): (r: seq<Widget>)
    ensures r == DrawText(text, rowLength) && NoSeparator(r)
  {
    DrawLinesRows(SplitLines(text), rowLength);
    DrawText(text, rowLength)
  }

  /** The icon an unordered item at `depth` is given.  The label that would
      show it is disabled, so it is computed and not drawn. */
  function BulletIcon(depth: nat): (icon: string)
    ensures depth % 4 == 1 ==> icon == "DOT"
    ensures depth % 4 == 2 ==> icon == "dot_inverted.png"
    ensures depth % 4 == 3 ==> icon == "square.png"
    ensures depth % 4 == 0 ==> icon == "square_inverted.png"
  {
    var level := depth % 4;
    if level == 1 then "DOT"
    else if level == 2 then "dot_inverted.png"
    else if level == 3 then "square.png"
    else "square_inverted.png"
  }

  /** Icons repeat every four levels of nesting, and any four consecutive
      levels get four different icons. */
  lemma BulletIconCycle(depth: nat)
    ensures BulletIcon(depth + 4) == BulletIcon(depth)
    ensures BulletIcon(depth) != BulletIcon(depth + 1)
    ensures BulletIcon(depth) != BulletIcon(depth + 2)
    ensures BulletIcon(depth) != BulletIcon(depth + 3)
  {
  }

  /** The text of a list item: ordered items get their number, a period and
      two spaces in front. */
  function ItemText(ordered: bool, index: nat, children: seq<Node>): (r: string)
    ensures ordered ==> r == NatToString(index) + ".  " + InlineText(children)
    ensures !ordered ==> r == InlineText(children)
  {
    if ordered then NatToString(index) + ".  " + InlineText(children) else InlineText(children)
  }

  /** The caption of a fenced block: its label and icon by language. */
  function FenceCaption(lang: string): (w: Widget)
    ensures w.Caption?
    ensures lang == "python" ==> w == Caption("Python", "SCRIPT")
    ensures lang == "diff" ==> w == Caption("Changes", "FORCE_CHARGE")
    ensures lang != "python" && lang != "diff" ==> w == Caption(lang, "TEXT")
  {
    if lang == "python" then Caption("Python", "SCRIPT")
    else if lang == "diff" then Caption("Changes", "FORCE_CHARGE")
    else Caption(lang, "TEXT")
  }

  const RemovedIcon: string := "SEQUENCE_COLOR_01"
  const AddedIcon: string := "SEQUENCE_COLOR_04"
  const BlankIcon: string := "BLANK1"

  /** One non-empty code line as drawn: in a diff, a leading '-' or '+' is
      replaced by a coloured icon and other lines get a blank icon. */
  function CodeRow(number: nat, line: string, diff: bool): (w: Widget)
    requires line != []
    ensures w.CodeLine? && w.number == number
    ensures !diff ==> w.marker.None? && w.text == line
    ensures diff ==> w.marker.Some? && |w.text| + 1 >= |line|
  {
    if !diff then CodeLine(number, None, line)
    else if line[0] == '-' then CodeLine(number, Some(RemovedIcon), line[1..])
    else if line[0] == '+' then CodeLine(number, Some(AddedIcon), line[1..])
    else CodeLine(number, Some(BlankIcon), line)
  }

  /** The diff line a drawn row stands for, rebuilt from its icon. */
  function DiffSource(w: Widget): string
    requires w.CodeLine?
  {
    if w.marker == Some(RemovedIcon) then "-" + w.text
    else if w.marker == Some(AddedIcon) then "+" + w.text
    else w.text
  }

  /** Nothing of a diff line is lost: its icon and text give it back. */
  lemma DiffRowRoundTrip(number: nat, line: string)
    requires line != []
    ensures DiffSource(CodeRow(number, line, true)) == line
  {
    if line[0] == '-' || line[0] == '+' {
      assert line == [line[0]] + line[1..];
    }
  }

  /** How many lines are not empty. */
  function NonEmptyCount(lines: seq<string>): nat
    decreases |lines|
  {
    if lines == [] then 0 else (if lines[0] == [] then 0 else 1) + NonEmptyCount(lines[1..])
  }

  /** The numbered rows of a code block whose lines are `lines`, the first
      numbered `start`: empty lines are skipped but still counted. */
  function CodeRows(lines: seq<string>, start: nat, diff: bool): (r: seq<Widget>)
    ensures |r| == NonEmptyCount(lines)
    ensures forall k :: 0 <= k < |r| ==>
      r[k].CodeLine? && start <= r[k].number < start + |lines|
      && lines[r[k].number - start] != [] && r[k] == CodeRow(r[k].number, lines[r[k].number - start], diff)
    ensures forall k, m :: 0 <= k < m < |r| ==> r[k].number < r[m].number
    decreases |lines|
  {
    if lines == [] then []
    else
      var rest := CodeRows(lines[1..], start + 1, diff);
      if lines[0] == [] then rest
      else [CodeRow(start, lines[0], diff)] + rest
  }

  /** `handle_element` with its keyword arguments: the widgets one node
      draws.  Headings and paragraphs lose three characters of width per
      indent level, list items `2*indent+5`; a nested list keeps the depth
      under an ordered item and goes one deeper under an unordered one. */
  function HandleElement(node: Node, indent: nat, ordered: bool, listIndex: nat, depth: nat, rowLength: int): (r: seq<Widget>)
    ensures NoSeparator(r)
    decreases node, 1
  {
    match node
    case Heading(ch) => Text(InlineText(ch), rowLength - indent * 3)
    case Paragraph(ch) => Text(InlineText(ch), rowLength - indent * 3)
    case MdList(o, items) => HandleItems(items, indent, o, 1, depth, rowLength)
    case ListItem(ch) =>
      Text(ItemText(ordered, listIndex, ch), rowLength - (indent * 2 + 5))
        + HandleNested(ch, indent + 1, if ordered then depth else depth + 1, rowLength)
    case FencedCode(lang, ch) =>
      var code := InlineText(ch);
      if code == [] then [FenceCaption(lang)]
      else [FenceCaption(lang)] + CodeRows(SplitLines(code), 1, lang == "diff")
    case _ => []
  }

  /** The `List` branch: item i (from `start`) is drawn with index i. */
  function HandleItems(items: seq<Node>, indent: nat, ordered: bool, start: nat, depth: nat, rowLength: int): (r: seq<Widget>)
    ensures NoSeparator(r)
    decreases items
  {
    if items == [] then []
    else HandleElement(items[0], indent, ordered, start, depth, rowLength)
         + HandleItems(items[1..], indent, ordered, start + 1, depth, rowLength)
  }

  /** The nested lists among a list item's children, each drawn one indent
      level further in with index 0. */
  function HandleNested(children: seq<Node>, indent: nat, depth: nat, rowLength: int): (r: seq<Widget>)
    ensures NoSeparator(r)
    decreases children
  {
    if children == [] then []
    else
      var c := children[0];
      (if c.MdList? then HandleElement(c, indent, c.ordered, 0, depth, rowLength) else [])
        + HandleNested(children[1..], indent, depth, rowLength)
  }

  /** Drawing two runs of list items is drawing the first, then the second
      with its indices shifted past the first. */
  lemma {:induction false} HandleItemsAppend(a: seq<Node>, b: seq<Node>, indent: nat, ordered: bool, start: nat, depth: nat, rowLength: int)
    ensures HandleItems(a + b, indent, ordered, start, depth, rowLength)
         == HandleItems(a, indent, ordered, start, depth, rowLength)
            + HandleItems(b, indent, ordered, start + |a|, depth, rowLength)
    decreases |a|
  {
    if a == [] {
      assert a + b == b;
    } else {
      var x := HandleElement(a[0], indent, ordered, start, depth, rowLength);
      var rest := HandleItems(a[1..], indent, ordered, start + 1, depth, rowLength);
      var tail := HandleItems(b, indent, ordered, start + |a|, depth, rowLength);
      HandleItemsStep(a, b, indent, ordered, start, depth, rowLength);
      HandleItemsAppend(a[1..], b, indent, ordered, start + 1, depth, rowLength);
      assert x + (rest + tail) == (x + rest) + tail;
    }
  }

  /** The first item of a non-empty run is drawn first. */
  lemma HandleItemsStep(a: seq<Node>, b: seq<Node>, indent: nat, ordered: bool, start: nat, depth: nat, rowLength: int)
    requires a != []
    ensures HandleItems(a + b, indent, ordered, start, depth, rowLength)
         == HandleElement(a[0], indent, ordered, start, depth, rowLength)
            + HandleItems(a[1..] + b, indent, ordered, start + 1, depth, rowLength)
  {
    assert (a + b)[0] == a[0];
    assert (a + b)[1..] == a[1..] + b;
  }

  lemma HandleItemsSingle(x: Node, indent: nat, ordered: bool, start: nat, depth: nat, rowLength: int)
    ensures HandleItems([x], indent, ordered, start, depth, rowLength)
         == HandleElement(x, indent, ordered, start, depth, rowLength)
  {
    assert [x][1..] == [];
  }

  lemma HandleItemsAround(pre: seq<Node>, x: Node, post: seq<Node>, indent: nat, ordered: bool, start: nat, depth: nat, rowLength: int)
    ensures HandleItems(pre + [x] + post, indent, ordered, start, depth, rowLength)
         == HandleItems(pre, indent, ordered, start, depth, rowLength)
            + HandleElement(x, indent, ordered, start + |pre|, depth, rowLength)
            + HandleItems(post, indent, ordered, start + |pre| + 1, depth, rowLength)
  {
    HandleItemsAppend(pre + [x], post, indent, ordered, start, depth, rowLength);
    HandleItemsAppend(pre, [x], indent, ordered, start, depth, rowLength);
    HandleItemsSingle(x, indent, ordered, start + |pre|, depth, rowLength);
  }

  /** An ordered list numbers its items from 1 in order: the item after
      `pre` is drawn as an ordered item with index |pre|+1, between the
      items before and after it. */
  lemma OrderedNumbering(pre: seq<Node>, x: Node, post: seq<Node>, indent: nat, depth: nat, rowLength: int)
    ensures HandleElement(MdList(true, pre + [x] + post), indent, false, 0, depth, rowLength)
         == HandleItems(pre, indent, true, 1, depth, rowLength)
            + HandleElement(x, indent, true, |pre| + 1, depth, rowLength)
            + HandleItems(post, indent, true, |pre| + 2, depth, rowLength)
  {
    HandleItemsAround(pre, x, post, indent, true, 1, depth, rowLength);
  }

  /** The depth rule for one nested list: under an ordered item its items
      keep the depth, under an unordered item they are one level deeper,
      and they are indented one level further either way. */
  lemma NestedListDepth(ordered: bool, index: nat, text: seq<Node>, inner: bool, items: seq<Node>,
                        indent: nat, depth: nat, rowLength: int)
    requires forall i :: 0 <= i < |text| ==> !text[i].MdList?
    ensures HandleElement(ListItem(text + [MdList(inner, items)]), indent, ordered, index, depth, rowLength)
         == Text(ItemText(ordered, index, text), rowLength - (indent * 2 + 5))
            + HandleItems(items, indent + 1, inner, 1, if ordered then depth else depth + 1, rowLength)
  {
    var l := MdList(inner, items);
    var ch := text + [l];
    var d := if ordered then depth else depth + 1;
    assert HandleElement(ListItem(ch), indent, ordered, index, depth, rowLength)
        == Text(ItemText(ordered, index, ch), rowLength - (indent * 2 + 5)) + HandleNested(ch, indent + 1, d, rowLength);
    ItemTextIgnoresList(ordered, index, text, l);
    NestedOnlyLists(text, [l], indent + 1, d, rowLength);
    NestedSingleList(inner, items, indent + 1, d, rowLength);
  }

  /** A nested list adds nothing to its item's text. */
  lemma ItemTextIgnoresList(ordered: bool, index: nat, text: seq<Node>, l: Node)
    requires l.MdList?
    ensures ItemText(ordered, index, text + [l]) == ItemText(ordered, index, text)
  {
    IgnoredChild(text, l, []);
    assert text + [l] + [] == text + [l];
    assert text + [] == text;
  }

  /** A single nested list is drawn as its items, numbered from 1. */
  lemma NestedSingleList(inner: bool, items: seq<Node>, indent: nat, depth: nat, rowLength: int)
    ensures HandleNested([MdList(inner, items)], indent, depth, rowLength)
         == HandleItems(items, indent, inner, 1, depth, rowLength)
  {
    assert [MdList(inner, items)][1..] == [];
  }

  lemma {:induction false} NestedOnlyLists(a: seq<Node>, b: seq<Node>, indent: nat, depth: nat, rowLength: int)
    requires forall i :: 0 <= i < |a| ==> !a[i].MdList?
    ensures HandleNested(a + b, indent, depth, rowLength) == HandleNested(b, indent, depth, rowLength)
    decreases |a|
  {
    if a != [] {
      assert (a + b)[0] == a[0];
      assert (a + b)[1..] == a[1..] + b;
      NestedOnlyLists(a[1..], b, indent, depth, rowLength);
    } else {
      assert a + b == b;
    }
  }

  // ---------------------------------------------------------------------
  // draw_markdown
  // ---------------------------------------------------------------------

  /** The top-level loop: each node with the default arguments, a
      separator after every node but the last. */
  function DrawNodes(nodes: seq<Node>, rowLength: int): seq<Widget>
    decreases |nodes|
  {
    if nodes == [] then []
    else if |nodes| == 1 then HandleElement(nodes[0], 0, false, 0, 1, rowLength)
    else HandleElement(nodes[0], 0, false, 0, 1, rowLength) + [Separator] + DrawNodes(nodes[1..], rowLength)
  }

  function SeparatorCount(ws: seq<Widget>): nat
    decreases |ws|
  {
    if ws == [] then 0 else (if ws[0].Separator? then 1 else 0) + SeparatorCount(ws[1..])
  }

  lemma {:induction false} SeparatorCountAppend(a: seq<Widget>, b: seq<Widget>)
    ensures SeparatorCount(a + b) == SeparatorCount(a) + SeparatorCount(b)
    decreases |a|
  {
    if a != [] {
      assert (a + b)[0] == a[0];
      assert (a + b)[1..] == a[1..] + b;
      SeparatorCountAppend(a[1..], b);
    } else {
      assert a + b == b;
    }
  }

  lemma {:induction false} NoSeparatorCount(ws: seq<Widget>)
    requires NoSeparator(ws)
    ensures SeparatorCount(ws) == 0
    decreases |ws|
  {
    if ws != [] {
      NoSeparatorCount(ws[1..]);
    }
  }

  /** `draw_markdown` on the parse result: nothing when parsing failed,
      otherwise the nodes with exactly n-1 separators between n nodes. */
  function DrawMarkdown(document: Option<seq<Node>>, rowLength: int): (r: seq<Widget>)
    ensures document.None? ==> r == []
    ensures document.Some? && document.value != [] ==> SeparatorCount(r) == |document.value| - 1
  {
    match document
    case None => []
    case Some(nodes) =>
      if nodes == [] then []
      else
        SeparatorsBetween(nodes, rowLength);
        DrawNodes(nodes, rowLength)
  }

  lemma {:induction false} SeparatorsBetween(nodes: seq<Node>, rowLength: int)
    requires nodes != []
    ensures SeparatorCount(DrawNodes(nodes, rowLength)) == |nodes| - 1
    decreases |nodes|
  {
    var first := HandleElement(nodes[0], 0, false, 0, 1, rowLength);
    NoSeparatorCount(first);
    if |nodes| > 1 {
      SeparatorsBetween(nodes[1..], rowLength);
      SeparatorCountAppend(first + [Separator], DrawNodes(nodes[1..], rowLength));
      SeparatorCountAppend(first, [Separator]);
      assert SeparatorCount([Separator]) == 1;
    }
  }
}
