/** Indented outlines: the line format in which both printers show their trees, and the proof that an
    outline determines the forest it was printed from. A line is its depth and its text. */
module Outline {
  import opened Seqs

  datatype Tree<T> = Node(text: T, kids: seq<Tree<T>>)

  datatype Line<T> = Line(depth: nat, text: T)

  /** Each node on a line of its own, its children after it and one step deeper. */
  function Lines<T>(forest: seq<Tree<T>>, depth: nat): seq<Line<T>> {
    if forest == [] then []
    else
      [Line(depth, forest[0].text)] + Lines(forest[0].kids, depth + 1) + Lines(forest[1..], depth)
  }

  datatype Reading<T> = Reading(forest: seq<Tree<T>>, rest: seq<Line<T>>)

  /** Read back the forest at `depth` from the front of `lines`. */
  function ReadForest<T>(lines: seq<Line<T>>, depth: nat): (r: Reading<T>)
    ensures |r.rest| <= |lines|
    decreases |lines|
  {
    if lines == [] || lines[0].depth != depth then Reading([], lines)
    else
      var kids := ReadForest(lines[1..], depth + 1);
      var siblings := ReadForest(kids.rest, depth);
      Reading([Node(lines[0].text, kids.forest)] + siblings.forest, siblings.rest)
  }

  /** The lines of a non-empty forest: its first node, what is below it, and the rest. */
  lemma FirstNode<T>(forest: seq<Tree<T>>, depth: nat, rest: seq<Line<T>>)
    requires forest != [] && (rest == [] || rest[0].depth < depth)
    ensures var lines, tail := Lines(forest, depth) + rest, Lines(forest[1..], depth) + rest;
      && lines[0] == Line(depth, forest[0].text)
      && lines[1..] == Lines(forest[0].kids, depth + 1) + tail
      && (tail == [] || tail[0].depth < depth + 1)
  {
    var head := [Line(depth, forest[0].text)];
    var kids, siblings := Lines(forest[0].kids, depth + 1), Lines(forest[1..], depth);
    assert Lines(forest, depth) == head + kids + siblings;
    assert head + kids + siblings + rest == head + (kids + (siblings + rest));
    if siblings != [] {
      assert siblings[0] == Line(depth, forest[1].text);
    }
  }

  lemma ReadStep<T>(lines: seq<Line<T>>, depth: nat, kids: Reading<T>, siblings: Reading<T>)
    requires lines != [] && lines[0].depth == depth
    requires ReadForest(lines[1..], depth + 1) == kids && ReadForest(kids.rest, depth) == siblings
    ensures ReadForest(lines, depth) == Reading([Node(lines[0].text, kids.forest)] + siblings.forest, siblings.rest)
  {
  }

  lemma {:induction false} ReadsBack<T>(forest: seq<Tree<T>>, depth: nat, rest: seq<Line<T>>)
    requires rest == [] || rest[0].depth < depth
    ensures ReadForest(Lines(forest, depth) + rest, depth) == Reading(forest, rest)
    decreases forest
  {
    if forest == [] {
      assert Lines(forest, depth) + rest == rest;
    } else {
      var node, siblings := forest[0], forest[1..];
      var tail := Lines(siblings, depth) + rest;
      FirstNode(forest, depth, rest);
      ReadsBack(node.kids, depth + 1, tail);
      ReadsBack(siblings, depth, rest);
      ReadStep(Lines(forest, depth) + rest, depth, Reading(node.kids, tail), Reading(siblings, rest));
      assert [Node(node.text, node.kids)] + siblings == forest;
    }
  }

  /** An outline determines its forest. */
  lemma LinesAreInjective<T>(a: seq<Tree<T>>, b: seq<Tree<T>>, depth: nat)
    requires Lines(a, depth) == Lines(b, depth)
    ensures a == b
  {
    assert Lines(a, depth) + [] == Lines(a, depth) == Lines(b, depth) + [];
    ReadsBack(a, depth, []);
    ReadsBack(b, depth, []);
  }

  lemma {:induction false} LinesAppend<T>(a: seq<Tree<T>>, b: seq<Tree<T>>, depth: nat)
    ensures Lines(a + b, depth) == Lines(a, depth) + Lines(b, depth)
  {
    if a == [] {
      assert a + b == b;
    } else {
      assert (a + b)[0] == a[0] && (a + b)[1..] == a[1..] + b;
      LinesAppend(a[1..], b, depth);
    }
  }

  lemma OneNode<T>(node: Tree<T>, depth: nat)
    ensures Lines([node], depth) == [Line(depth, node.text)] + Lines(node.kids, depth + 1)
  {
    assert Lines([node][1..], depth) == [];
  }

  function Size<T>(forest: seq<Tree<T>>): nat {
    if forest == [] then 0 else 1 + Size(forest[0].kids) + Size(forest[1..])
  }

  lemma {:induction false} OneLinePerNode<T>(forest: seq<Tree<T>>, depth: nat)
    ensures |Lines(forest, depth)| == Size(forest)
    decreases forest
  {
    if forest == [] {
    } else {
      OneLinePerNode(forest[0].kids, depth + 1);
      OneLinePerNode(forest[1..], depth);
    }
  }

  lemma {:induction false} SizeAppend<T>(a: seq<Tree<T>>, b: seq<Tree<T>>)
    ensures Size(a + b) == Size(a) + Size(b)
  {
    if a == [] {
      assert a + b == b;
    } else {
      assert (a + b)[0] == a[0] && (a + b)[1..] == a[1..] + b;
      SizeAppend(a[1..], b);
    }
  }

  // ---- lines as a reader of the text counts them ----

  function Newlines(text: string): nat {
    if text == [] then 0 else (if text[0] == '\n' then 1 else 0) + Newlines(text[1..])
  }

  /** Each written line, and one more for every newline inside it. */
  function TextLines(lines: seq<Line<string>>): nat {
    if lines == [] then 0 else 1 + Newlines(lines[0].text) + TextLines(lines[1..])
  }

  predicate OneLined(lines: seq<Line<string>>) {
    forall i :: 0 <= i < |lines| ==> '\n' !in lines[i].text
  }

  lemma {:induction false} NoNewlines(text: string)
    ensures Newlines(text) == 0 <==> '\n' !in text
  {
    if text == [] {
    } else {
      NoNewlines(text[1..]);
      assert text == [text[0]] + text[1..];
    }
  }

  lemma OneLinedFirst(lines: seq<Line<string>>)
    requires lines != []
    ensures OneLined(lines) <==> '\n' !in lines[0].text && OneLined(lines[1..])
  {
    assert forall i :: 0 < i < |lines| ==> lines[i] == lines[1..][i - 1];
  }

  lemma {:induction false} TextLinesIff(lines: seq<Line<string>>)
    ensures TextLines(lines) >= |lines|
    ensures TextLines(lines) == |lines| <==> OneLined(lines)
  {
    if lines == [] {
    } else {
      TextLinesIff(lines[1..]);
      NoNewlines(lines[0].text);
      OneLinedFirst(lines);
    }
  }

  lemma OneLinedAppend(a: seq<Line<string>>, b: seq<Line<string>>)
    ensures OneLined(a + b) <==> OneLined(a) && OneLined(b)
  {
    assert forall i :: 0 <= i < |a| ==> a[i] == (a + b)[i];
    assert forall i :: 0 <= i < |b| ==> b[i] == (a + b)[|a| + i];
  }

  /** No text in the forest has a newline. */
  predicate NewlineFree(forest: seq<Tree<string>>) {
    forest == [] ||
    ('\n' !in forest[0].text && NewlineFree(forest[0].kids) && NewlineFree(forest[1..]))
  }

  lemma {:induction false} NewlineFreeLines(forest: seq<Tree<string>>, depth: nat)
    ensures OneLined(Lines(forest, depth)) <==> NewlineFree(forest)
    decreases forest
  {
    if forest == [] {
    } else {
      var head, kids := [Line(depth, forest[0].text)], Lines(forest[0].kids, depth + 1);
      NewlineFreeLines(forest[0].kids, depth + 1);
      NewlineFreeLines(forest[1..], depth);
      OneLinedAppend(head + kids, Lines(forest[1..], depth));
      OneLinedAppend(head, kids);
      assert OneLined(head) <==> '\n' !in head[0].text;
    }
  }

  lemma {:induction false} NewlineFreeAppend(a: seq<Tree<string>>, b: seq<Tree<string>>)
    ensures NewlineFree(a + b) <==> NewlineFree(a) && NewlineFree(b)
  {
    if a == [] {
      assert a + b == b;
    } else {
      assert (a + b)[0] == a[0] && (a + b)[1..] == a[1..] + b;
      NewlineFreeAppend(a[1..], b);
    }
  }

  lemma OneNewlineFree(node: Tree<string>)
    ensures NewlineFree([node]) <==> '\n' !in node.text && NewlineFree(node.kids)
  {
    assert NewlineFree([node][1..]);
  }

  /** A header and a forest print as many lines of text as were written iff no label has a newline. */
  lemma TextUnderHeader(header: string, forest: seq<Tree<string>>)
    requires '\n' !in header
    ensures var lines := [Line(0, header)] + Lines(forest, 1);
      TextLines(lines) >= |lines| && (TextLines(lines) == |lines| <==> NewlineFree(forest))
  {
    var lines := [Line(0, header)] + Lines(forest, 1);
    TextLinesIff(lines);
    OneLinedFirst(lines);
    assert lines[1..] == Lines(forest, 1);
    NewlineFreeLines(forest, 1);
  }

  // ---- the characters of the text, two spaces a depth ----

  function Indent(depth: nat): string {
    if depth == 0 then "" else "  " + Indent(depth - 1)
  }

  function TextOf(lines: seq<Line<string>>): string {
    if lines == [] then "" else Indent(lines[0].depth) + (lines[0].text + "\n" + TextOf(lines[1..]))
  }

  /** A text that can be told from its indentation and from the next line. */
  predicate Legible(text: string) {
    '\n' !in text && (text == "" || text[0] != ' ')
  }

  predicate LegibleLines(lines: seq<Line<string>>) {
    forall i :: 0 <= i < |lines| ==> Legible(lines[i].text)
  }

  lemma FirstCharacter(text: string, rest: string)
    requires Legible(text)
    ensures (text + "\n" + rest)[0] != ' '
  {
  }

  lemma {:induction false} FirstLineIsUnique(d: nat, a: string, rest: string, e: nat, b: string, rest': string)
    requires Legible(a) && Legible(b)
    requires Indent(d) + (a + "\n" + rest) == Indent(e) + (b + "\n" + rest')
    ensures d == e && a == b && rest == rest'
    decreases d
  {
    var s, t := a + "\n" + rest, b + "\n" + rest';
    FirstCharacter(a, rest);
    FirstCharacter(b, rest');
    assert d > 0 ==> (Indent(d) + s)[0] == ' ';
    assert e > 0 ==> (Indent(e) + t)[0] == ' ';
    assert d == 0 ==> Indent(d) + s == s;
    assert e == 0 ==> Indent(e) + t == t;
    if d == 0 {
      assert s == a + ['\n'] + rest && t == b + ['\n'] + rest';
      SplitAtFirst(a, '\n', rest, b, rest');
    } else {
      assert (Indent(d) + s)[2..] == Indent(d - 1) + s && (Indent(e) + t)[2..] == Indent(e - 1) + t;
      FirstLineIsUnique(d - 1, a, rest, e - 1, b, rest');
    }
  }

  /** Legible lines can be read back from the characters. */
  lemma {:induction false} TextIsInjective(a: seq<Line<string>>, b: seq<Line<string>>)
    requires LegibleLines(a) && LegibleLines(b)
    requires TextOf(a) == TextOf(b)
    ensures a == b
  {
    if a == [] || b == [] {
    } else {
      FirstLineIsUnique(a[0].depth, a[0].text, TextOf(a[1..]), b[0].depth, b[0].text, TextOf(b[1..]));
      TextIsInjective(a[1..], b[1..]);
      assert a == [a[0]] + a[1..] && b == [b[0]] + b[1..];
    }
  }

  /** The formatter the render functions write to, a line at a time. */
  class Formatter {
    var out: seq<Line<string>>

    constructor ()
      ensures out == []
    {
      out := [];
    }

    method WriteLine(depth: nat, text: string)
      modifies this
      ensures out == old(out) + [Line(depth, text)]
    {
      out := out + [Line(depth, text)];
    }
  }
}
