/** The `Display` of a trace (`src/trace.rs`) as (depth, text) lines, and what can be read back from
    it. The text of a line is given by an arbitrary labelling, since the real one abbreviates. */
module TracePrinter {
  import opened Ledger
  import opened Seqs
  import opened Trace
  import opened Outline

  /** The newline-free texts of a frame's opening line and of its result line. */
  datatype Labels = Labels(
    call: (ContractId, string, seq<ScVal>, bool) -> string,
    result: TraceResult -> string)
  {
    function CallText(frame: TraceFrame): string {
      call(frame.contract, frame.name, frame.args, frame.rolledBack)
    }
  }

  const HEADER := "[TRACE]"
  const EMPTY_HEADER :=
    HEADER + " (empty \U{2014} was" + " tracing(true)" + " set on ForkConfig" + " before invoke?)"

  /** The tree a printed frame shows: its children in order, and the result as a last leaf. */
  function Shape(labels: Labels, frames: seq<TraceFrame>): seq<Tree<string>> {
    if frames == [] then []
    else
      [Node(labels.CallText(frames[0]),
            Shape(labels, frames[0].children) + [Node(labels.result(frames[0].result), [])])]
      + Shape(labels, frames[1..])
  }

  function DisplayLines(labels: Labels, roots: seq<TraceFrame>): seq<Line<string>> {
    if roots == [] then [Line(0, EMPTY_HEADER)]
    else [Line(0, HEADER)] + Lines(Shape(labels, roots), 1)
  }

  method Display(labels: Labels, roots: seq<TraceFrame>) returns (f: Formatter)
    ensures fresh(f) && f.out == DisplayLines(labels, roots)
  {
    f := new Formatter();
    if roots == [] {
      f.WriteLine(0, EMPTY_HEADER);
      return;
    }
    f.WriteLine(0, HEADER);
    for i := 0 to |roots|
      invariant f.out == [Line(0, HEADER)] + Rendered(labels, roots[..i], 1)
    {
      Prefix(roots, i);
      RenderFrame(f, labels, roots[i], 1);
    }
    assert roots[..|roots|] == roots;
    RenderedIsOutline(labels, roots, 1);
  }

  /** `render_frame`: the opening line, the children one step in, the result line. */
  method RenderFrame(f: Formatter, labels: Labels, frame: TraceFrame, depth: nat)
    modifies f
    ensures f.out == old(f.out) + RenderedFrame(labels, frame, depth)
  {
    f.WriteLine(depth, labels.CallText(frame));
    ghost var headed := f.out;
    for i := 0 to |frame.children|
      invariant f.out == headed + Rendered(labels, frame.children[..i], depth + 1)
    {
      Prefix(frame.children, i);
      RenderFrame(f, labels, frame.children[i], depth + 1);
    }
    assert frame.children[..|frame.children|] == frame.children;
    f.WriteLine(depth + 1, labels.result(frame.result));
  }

  /** What the loops append, as they append it. */
  function Rendered(labels: Labels, frames: seq<TraceFrame>, depth: nat): seq<Line<string>> {
    if frames == [] then []
    else Rendered(labels, Init(frames), depth) + RenderedFrame(labels, Last(frames), depth)
  }

  function RenderedFrame(labels: Labels, frame: TraceFrame, depth: nat): seq<Line<string>> {
    [Line(depth, labels.CallText(frame))] + Rendered(labels, frame.children, depth + 1)
    + [Line(depth + 1, labels.result(frame.result))]
  }

  predicate AllDeeper(lines: seq<Line<string>>, depth: nat) {
    forall i :: 0 <= i < |lines| ==> lines[i].depth > depth
  }

  lemma {:induction false} ChildrenAreDeeper(labels: Labels, frames: seq<TraceFrame>, depth: nat)
    ensures AllDeeper(Rendered(labels, frames, depth + 1), depth)
    decreases frames
  {
    if frames == [] {
    } else {
      var last := Last(frames);
      ChildrenAreDeeper(labels, Init(frames), depth);
      ChildrenAreDeeper(labels, last.children, depth + 1);
      assert AllDeeper(RenderedFrame(labels, last, depth + 1), depth);
    }
  }

  /** A frame's block: its call at its own depth with everything a call line shows, then the blocks of its
      children, all deeper, then its result one step in. */
  lemma FrameBlock(labels: Labels, frame: TraceFrame, depth: nat)
    ensures var block := RenderedFrame(labels, frame, depth);
      && |block| >= 2
      && block[0] == Line(depth, labels.call(frame.contract, frame.name, frame.args, frame.rolledBack))
      && block[|block| - 1] == Line(depth + 1, labels.result(frame.result))
      && block[1..|block| - 1] == Rendered(labels, frame.children, depth + 1)
      && AllDeeper(block[1..], depth)
  {
    ChildrenAreDeeper(labels, frame.children, depth);
  }

  lemma {:induction false} RenderedIsOutline(labels: Labels, frames: seq<TraceFrame>, depth: nat)
    ensures Rendered(labels, frames, depth) == Lines(Shape(labels, frames), depth)
    decreases frames
  {
    if frames == [] {
    } else {
      var last := Last(frames);
      RenderedIsOutline(labels, Init(frames), depth);
      RenderedIsOutline(labels, last.children, depth + 1);
      OneFrame(labels, last, depth);
      Split(frames);
      ShapeAppend(labels, Init(frames), [last]);
      LinesAppend(Shape(labels, Init(frames)), Shape(labels, [last]), depth);
    }
  }

  lemma OneFrame(labels: Labels, frame: TraceFrame, depth: nat)
    ensures Lines(Shape(labels, [frame]), depth)
         == [Line(depth, labels.CallText(frame))] + Lines(Shape(labels, frame.children), depth + 1)
            + [Line(depth + 1, labels.result(frame.result))]
  {
    var kids := Shape(labels, frame.children);
    var leaf := Node(labels.result(frame.result), []);
    LinesAppend(kids, [leaf], depth + 1);
    OneShape(labels, frame);
    var node := Node(labels.CallText(frame), kids + [leaf]);
    OneNode(node, depth);
    OneNode(leaf, depth + 1);
  }

  lemma OneShape(labels: Labels, frame: TraceFrame)
    ensures Shape(labels, [frame])
         == [Node(labels.CallText(frame), Shape(labels, frame.children) + [Node(labels.result(frame.result), [])])]
  {
    assert Shape(labels, [frame][1..]) == [];
  }

  lemma {:induction false} ShapeAppend(labels: Labels, a: seq<TraceFrame>, b: seq<TraceFrame>)
    ensures Shape(labels, a + b) == Shape(labels, a) + Shape(labels, b)
  {
    if a == [] {
      assert a + b == b;
    } else {
      assert (a + b)[0] == a[0] && (a + b)[1..] == a[1..] + b;
      ShapeAppend(labels, a[1..], b);
    }
  }

  /** The printed lines determine the whole shape: every label, and who was called by whom. */
  lemma {:induction false} PrintedShapeIsUnique(labels: Labels, a: seq<TraceFrame>, b: seq<TraceFrame>)
    requires DisplayLines(labels, a) == DisplayLines(labels, b)
    ensures Shape(labels, a) == Shape(labels, b)
  {
    if a != [] && b != [] {
      assert DisplayLines(labels, a)[1..] == Lines(Shape(labels, a), 1);
      assert DisplayLines(labels, b)[1..] == Lines(Shape(labels, b), 1);
      LinesAreInjective(Shape(labels, a), Shape(labels, b), 1);
    } else {
      assert HEADER[|HEADER| - 1] == ']' && |HEADER| != |EMPTY_HEADER|;
      assert DisplayLines(labels, a)[0] == DisplayLines(labels, b)[0];
    }
  }

  /** The same calls nested the same way, and every call and result printed the same. */
  predicate Alike(labels: Labels, a: seq<TraceFrame>, b: seq<TraceFrame>) {
    if a == [] || b == [] then a == b
    else
      && labels.call(a[0].contract, a[0].name, a[0].args, a[0].rolledBack)
         == labels.call(b[0].contract, b[0].name, b[0].args, b[0].rolledBack)
      && labels.result(a[0].result) == labels.result(b[0].result)
      && Alike(labels, a[0].children, b[0].children)
      && Alike(labels, a[1..], b[1..])
  }

  /** Who was called by whom, with nothing said of the calls themselves. */
  function Nesting(frames: seq<TraceFrame>): seq<Tree<()>> {
    if frames == [] then [] else [Node((), Nesting(frames[0].children))] + Nesting(frames[1..])
  }

  lemma {:induction false} ShapeTellsAlike(labels: Labels, a: seq<TraceFrame>, b: seq<TraceFrame>)
    ensures Shape(labels, a) == Shape(labels, b) <==> Alike(labels, a, b)
    ensures Alike(labels, a, b) ==> Nesting(a) == Nesting(b)
    decreases a
  {
    if a != [] && b != [] {
      var x, y := FirstShape(labels, a), FirstShape(labels, b);
      assert Shape(labels, a) == [x] + Shape(labels, a[1..]) && Shape(labels, b) == [y] + Shape(labels, b[1..]);
      HeadAndTail(x, Shape(labels, a[1..]), y, Shape(labels, b[1..]));
      ShapeTellsAlike(labels, a[1..], b[1..]);
      ShapeTellsAlike(labels, a[0].children, b[0].children);
      LeafLast(Shape(labels, a[0].children), Node(labels.result(a[0].result), []),
               Shape(labels, b[0].children), Node(labels.result(b[0].result), []));
    }
  }

  function FirstShape(labels: Labels, frames: seq<TraceFrame>): Tree<string>
    requires frames != []
  {
    Node(labels.CallText(frames[0]),
         Shape(labels, frames[0].children) + [Node(labels.result(frames[0].result), [])])
  }

  lemma HeadAndTail<T>(x: T, xs: seq<T>, y: T, ys: seq<T>)
    ensures [x] + xs == [y] + ys <==> x == y && xs == ys
  {
    assert ([x] + xs)[0] == x && ([x] + xs)[1..] == xs;
    assert ([y] + ys)[0] == y && ([y] + ys)[1..] == ys;
  }

  lemma LeafLast<T>(xs: seq<T>, x: T, ys: seq<T>, y: T)
    ensures xs + [x] == ys + [y] <==> xs == ys && x == y
  {
    Pushed(xs, x);
    Pushed(ys, y);
  }

  /** Two traces print the same exactly when they are alike, and then they have the same nesting: what
      the labels abbreviate is all that a reader can miss. */
  lemma PrintedAlikeIff(labels: Labels, a: seq<TraceFrame>, b: seq<TraceFrame>)
    ensures DisplayLines(labels, a) == DisplayLines(labels, b) <==> Alike(labels, a, b)
    ensures Alike(labels, a, b) ==> Nesting(a) == Nesting(b)
  {
    ShapeTellsAlike(labels, a, b);
    if DisplayLines(labels, a) == DisplayLines(labels, b) {
      PrintedShapeIsUnique(labels, a, b);
    }
  }

  /** ... and the same of the characters printed, if no printed line starts with a space or has a newline. */
  lemma {:induction false} PrintedTextIff(labels: Labels, a: seq<TraceFrame>, b: seq<TraceFrame>)
    requires LegibleLines(DisplayLines(labels, a)) && LegibleLines(DisplayLines(labels, b))
    ensures TextOf(DisplayLines(labels, a)) == TextOf(DisplayLines(labels, b)) <==> Alike(labels, a, b)
  {
    PrintedAlikeIff(labels, a, b);
    if TextOf(DisplayLines(labels, a)) == TextOf(DisplayLines(labels, b)) {
      TextIsInjective(DisplayLines(labels, a), DisplayLines(labels, b));
    }
  }

  lemma {:induction false} ShapeSize(labels: Labels, frames: seq<TraceFrame>)
    ensures Size(Shape(labels, frames)) == 2 * FrameCount(frames)
    decreases frames
  {
    if frames == [] {
    } else {
      var last := Last(frames);
      ShapeSize(labels, Init(frames));
      ShapeSize(labels, last.children);
      Split(frames);
      ShapeAppend(labels, Init(frames), [last]);
      SizeAppend(Shape(labels, Init(frames)), Shape(labels, [last]));
      var kids, leaf := Shape(labels, last.children), Node(labels.result(last.result), []);
      OneShape(labels, last);
      SizeAppend(kids, [leaf]);
      assert Size([leaf]) == 1;
    }
  }

  /** A header, and two lines for every frame. */
  lemma LineCount(labels: Labels, roots: seq<TraceFrame>)
    ensures |DisplayLines(labels, roots)| == 1 + 2 * FrameCount(roots)
  {
    ShapeSize(labels, roots);
    OneLinePerNode(Shape(labels, roots), 1);
  }

  /** No call and no result prints with a newline in it. */
  predicate PrintsFlat(labels: Labels, frames: seq<TraceFrame>) {
    frames == [] ||
    ('\n' !in labels.call(frames[0].contract, frames[0].name, frames[0].args, frames[0].rolledBack)
     && '\n' !in labels.result(frames[0].result)
     && PrintsFlat(labels, frames[0].children) && PrintsFlat(labels, frames[1..]))
  }

  lemma {:induction false} FlatShape(labels: Labels, frames: seq<TraceFrame>)
    ensures NewlineFree(Shape(labels, frames)) <==> PrintsFlat(labels, frames)
    decreases frames
  {
    if frames == [] {
    } else {
      var leaf := Node(labels.result(frames[0].result), []);
      FlatShape(labels, frames[0].children);
      FlatShape(labels, frames[1..]);
      NewlineFreeAppend(Shape(labels, frames[0].children), [leaf]);
      NewlineFreeAppend([FirstShape(labels, frames)], Shape(labels, frames[1..]));
      OneNewlineFree(leaf);
      OneNewlineFree(FirstShape(labels, frames));
    }
  }

  lemma HeadersAreFlat()
    ensures '\n' !in HEADER && '\n' !in EMPTY_HEADER
  {
    assert '\n' !in " (empty \U{2014} was" && '\n' !in " tracing(true)";
    assert '\n' !in " set on ForkConfig" && '\n' !in " before invoke?)";
  }

  /** Read as text, the output has exactly 1 + 2 * frame_count lines iff no label has a newline in it;
      a string argument is printed as it is, so one may. */
  lemma {:induction false} TextLineCountIff(labels: Labels, roots: seq<TraceFrame>)
    ensures TextLines(DisplayLines(labels, roots)) == 1 + 2 * FrameCount(roots) <==> PrintsFlat(labels, roots)
    ensures TextLines(DisplayLines(labels, roots)) >= 1 + 2 * FrameCount(roots)
  {
    HeadersAreFlat();
    LineCount(labels, roots);
    FlatShape(labels, roots);
    if roots == [] {
      assert DisplayLines(labels, roots) == [Line(0, EMPTY_HEADER)] + Lines<string>([], 1);
      TextUnderHeader(EMPTY_HEADER, []);
    } else {
      TextUnderHeader(HEADER, Shape(labels, roots));
    }
  }

  /** The failing input: a call whose argument prints over two lines. */
  lemma NewlineAddsLine(frame: TraceFrame)
    ensures var labels := Labels((_, _, _, _) => "f(\"a\nb\")", _ => "()");
      TextLines(DisplayLines(labels, [frame])) > 1 + 2 * FrameCount([frame])
  {
    var labels := Labels((_, _, _, _) => "f(\"a\nb\")", _ => "()");
    assert labels.CallText(frame)[4] == '\n';
    assert !PrintsFlat(labels, [frame]);
    TextLineCountIff(labels, [frame]);
  }
}
