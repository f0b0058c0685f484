/** `src/auth_tree.rs`: recorded authorisation payloads, their count, and their outline. */
module AuthTree {
  import opened Wrappers
  import opened Ledger
  import opened Seqs
  import opened Outline

  datatype AuthorizedFunction =
    | ContractFn(contract: ScAddress, name: string, args: seq<ScVal>)
    | CreateContractHostFn(code: nat)
    | CreateContractV2HostFn(code: nat)

  datatype Invocation = Invocation(function_: AuthorizedFunction, subInvocations: seq<Invocation>)

  datatype Payload = Payload(address: Option<ScAddress>, nonce: Option<I64>, invocation: Invocation)

  datatype Labels = Labels(
    payload: (nat, Option<ScAddress>, Option<I64>) -> string,
    invocation: AuthorizedFunction -> string)

  const HEADER := "[AUTH]"
  const EMPTY_HEADER :=
    HEADER + " (empty \U{2014} has" + " invoke_contract run" + " yet, and did it" + " demand any auth?)"

  function CountInvocations(invocations: seq<Invocation>): nat {
    if invocations == [] then 0
    else 1 + CountInvocations(invocations[0].subInvocations) + CountInvocations(invocations[1..])
  }

  function InvocationCount(payloads: seq<Payload>): nat {
    if payloads == [] then 0
    else InvocationCount(payloads[..|payloads| - 1]) + CountInvocations([payloads[|payloads| - 1].invocation])
  }

  function InvocationShape(labels: Labels, invocations: seq<Invocation>): seq<Tree<string>> {
    if invocations == [] then []
    else
      [Node(labels.invocation(invocations[0].function_), InvocationShape(labels, invocations[0].subInvocations))]
      + InvocationShape(labels, invocations[1..])
  }

  /** One node for each payload, numbered from 0, over the tree of its invocation. */
  function Shape(labels: Labels, payloads: seq<Payload>): seq<Tree<string>> {
    if payloads == [] then []
    else
      var n := |payloads| - 1;
      var last := payloads[n];
      Shape(labels, payloads[..n]) + [PayloadShape(labels, n, last)]
  }

  function PayloadShape(labels: Labels, idx: nat, payload: Payload): Tree<string> {
    Node(labels.payload(idx, payload.address, payload.nonce), InvocationShape(labels, [payload.invocation]))
  }

  function DisplayLines(labels: Labels, payloads: seq<Payload>): seq<Line<string>> {
    if payloads == [] then [Line(0, EMPTY_HEADER)]
    else [Line(0, HEADER)] + Lines(Shape(labels, payloads), 1)
  }

  method Display(labels: Labels, payloads: seq<Payload>) returns (f: Formatter)
    ensures fresh(f) && f.out == DisplayLines(labels, payloads)
  {
    f := new Formatter();
    if payloads == [] {
      f.WriteLine(0, EMPTY_HEADER);
      return;
    }
    f.WriteLine(0, HEADER);
    for idx := 0 to |payloads|
      invariant f.out == [Line(0, HEADER)] + Rendered(labels, payloads[..idx])
    {
      assert payloads[..idx + 1][..idx] == payloads[..idx];
      RenderPayload(f, labels, idx, payloads[idx]);
    }
    assert payloads[..|payloads|] == payloads;
    RenderedIsOutline(labels, payloads);
  }

  method RenderPayload(f: Formatter, labels: Labels, idx: nat, payload: Payload)
    modifies f
    ensures f.out == old(f.out) + RenderedPayload(labels, idx, payload)
  {
    f.WriteLine(1, labels.payload(idx, payload.address, payload.nonce));
    RenderInvocation(f, labels, payload.invocation, 2);
  }

  /** `render_invocation`: the node's line, then its sub-invocations one step in. */
  method RenderInvocation(f: Formatter, labels: Labels, invocation: Invocation, depth: nat)
    modifies f
    ensures f.out == old(f.out) + RenderedInvocation(labels, invocation, depth)
  {
    f.WriteLine(depth, labels.invocation(invocation.function_));
    ghost var headed := f.out;
    for i := 0 to |invocation.subInvocations|
      invariant f.out == headed + RenderedSubs(labels, invocation.subInvocations[..i], depth + 1)
    {
      Prefix(invocation.subInvocations, i);
      RenderInvocation(f, labels, invocation.subInvocations[i], depth + 1);
    }
    assert invocation.subInvocations[..|invocation.subInvocations|] == invocation.subInvocations;
  }

  /** What the loops append, as they append it. */
  function Rendered(labels: Labels, payloads: seq<Payload>): seq<Line<string>> {
    if payloads == [] then []
    else Rendered(labels, Init(payloads)) + RenderedPayload(labels, |payloads| - 1, Last(payloads))
  }

  function RenderedPayload(labels: Labels, idx: nat, payload: Payload): seq<Line<string>> {
    [Line(1, labels.payload(idx, payload.address, payload.nonce))] + RenderedInvocation(labels, payload.invocation, 2)
  }

  function RenderedInvocation(labels: Labels, invocation: Invocation, depth: nat): seq<Line<string>> {
    [Line(depth, labels.invocation(invocation.function_))]
    + RenderedSubs(labels, invocation.subInvocations, depth + 1)
  }

  function RenderedSubs(labels: Labels, invocations: seq<Invocation>, depth: nat): seq<Line<string>> {
    if invocations == [] then []
    else RenderedSubs(labels, Init(invocations), depth) + RenderedInvocation(labels, Last(invocations), depth)
  }

  /** Blocks of lines: a payload's line at depth 1 over its invocation at depth 2, an invocation's line over
      its sub-invocations one step deeper, these one after another. */
  lemma Blocks(labels: Labels, idx: nat, payload: Payload, x: Invocation, xs: seq<Invocation>, depth: nat)
    ensures RenderedPayload(labels, idx, payload)
         == [Line(1, labels.payload(idx, payload.address, payload.nonce))]
            + RenderedInvocation(labels, payload.invocation, 2)
    ensures RenderedInvocation(labels, x, depth)
         == [Line(depth, labels.invocation(x.function_))] + RenderedSubs(labels, x.subInvocations, depth + 1)
    ensures RenderedSubs(labels, [], depth) == []
    ensures RenderedSubs(labels, xs + [x], depth)
         == RenderedSubs(labels, xs, depth) + RenderedInvocation(labels, x, depth)
  {
    Pushed(xs, x);
  }

  lemma {:induction false} SubsAreOutline(labels: Labels, invocations: seq<Invocation>, depth: nat)
    ensures RenderedSubs(labels, invocations, depth) == Lines(InvocationShape(labels, invocations), depth)
    decreases invocations
  {
    if invocations == [] {
    } else {
      var last := Last(invocations);
      SubsAreOutline(labels, Init(invocations), depth);
      SubsAreOutline(labels, last.subInvocations, depth + 1);
      Split(invocations);
      InvocationShapeSnoc(labels, Init(invocations), last);
      LinesAppend(InvocationShape(labels, Init(invocations)), InvocationShape(labels, [last]), depth);
      OneNode(Node(labels.invocation(last.function_), InvocationShape(labels, last.subInvocations)), depth);
    }
  }

  lemma {:induction false} RenderedIsOutline(labels: Labels, payloads: seq<Payload>)
    ensures Rendered(labels, payloads) == Lines(Shape(labels, payloads), 1)
  {
    if payloads == [] {
    } else {
      var n, last := |payloads| - 1, Last(payloads);
      RenderedIsOutline(labels, Init(payloads));
      SubsAreOutline(labels, [last.invocation], 2);
      assert [] + [last.invocation] == [last.invocation];
      Pushed<Invocation>([], last.invocation);
      assert RenderedSubs(labels, [last.invocation], 2) == RenderedInvocation(labels, last.invocation, 2);
      LinesAppend(Shape(labels, Init(payloads)), [PayloadShape(labels, n, last)], 1);
      OneNode(PayloadShape(labels, n, last), 1);
    }
  }

  lemma {:induction false} ShapeSizes(labels: Labels, payloads: seq<Payload>)
    ensures |Shape(labels, payloads)| == |payloads|
  {
    if payloads == [] {
    } else {
      ShapeSizes(labels, payloads[..|payloads| - 1]);
    }
  }

  lemma {:induction false} ShapeAt(labels: Labels, payloads: seq<Payload>, i: nat)
    requires i < |payloads|
    ensures |Shape(labels, payloads)| == |payloads|
    ensures Shape(labels, payloads)[i] == PayloadShape(labels, i, payloads[i])
  {
    var n := |payloads| - 1;
    ShapeSizes(labels, payloads[..n]);
    if i < n {
      ShapeAt(labels, payloads[..n], i);
    }
  }

  /** Payloads are numbered from 0 in their order, each over its own invocation. */
  lemma PayloadsAreNumbered(labels: Labels, payloads: seq<Payload>, i: nat)
    requires i < |payloads|
    ensures var shape := Shape(labels, payloads);
      && |shape| == |payloads|
      && shape[i].text == labels.payload(i, payloads[i].address, payloads[i].nonce)
      && |shape[i].kids| == 1 && shape[i].kids[0].text == labels.invocation(payloads[i].invocation.function_)
  {
    ShapeAt(labels, payloads, i);
    assert [] + [payloads[i].invocation] == [payloads[i].invocation];
    InvocationShapeSnoc(labels, [], payloads[i].invocation);
  }

  lemma {:induction false} InvocationShapeSnoc(labels: Labels, a: seq<Invocation>, x: Invocation)
    ensures InvocationShape(labels, a + [x]) == InvocationShape(labels, a) + InvocationShape(labels, [x])
    ensures InvocationShape(labels, [x])
         == [Node(labels.invocation(x.function_), InvocationShape(labels, x.subInvocations))]
  {
    if a == [] {
      assert a + [x] == [x] && InvocationShape(labels, [x][1..]) == [];
    } else {
      assert (a + [x])[0] == a[0] && (a + [x])[1..] == a[1..] + [x];
      InvocationShapeSnoc(labels, a[1..], x);
    }
  }

  /** The printed lines determine every label and the whole nesting. */
  lemma PrintedShapeIsUnique(labels: Labels, a: seq<Payload>, b: seq<Payload>)
    requires DisplayLines(labels, a) == DisplayLines(labels, b)
    ensures Shape(labels, a) == Shape(labels, b)
  {
    if a != [] && b != [] {
      assert DisplayLines(labels, a)[1..] == Lines(Shape(labels, a), 1);
      assert DisplayLines(labels, b)[1..] == Lines(Shape(labels, b), 1);
      LinesAreInjective(Shape(labels, a), Shape(labels, b), 1);
    } else {
      assert |HEADER| != |EMPTY_HEADER|;
      assert DisplayLines(labels, a)[0] == DisplayLines(labels, b)[0];
    }
  }

  /** The same functions invoked, nested the same way. */
  predicate AlikeInvocations(labels: Labels, a: seq<Invocation>, b: seq<Invocation>) {
    if a == [] || b == [] then a == b
    else
      && labels.invocation(a[0].function_) == labels.invocation(b[0].function_)
      && AlikeInvocations(labels, a[0].subInvocations, b[0].subInvocations)
      && AlikeInvocations(labels, a[1..], b[1..])
  }

  /** The same payloads in the same order, each over an alike invocation. */
  predicate Alike(labels: Labels, a: seq<Payload>, b: seq<Payload>) {
    |a| == |b| &&
    forall i :: 0 <= i < |a| ==>
      && labels.payload(i, a[i].address, a[i].nonce) == labels.payload(i, b[i].address, b[i].nonce)
      && AlikeInvocations(labels, [a[i].invocation], [b[i].invocation])
  }

  lemma {:induction false} InvocationShapeTellsAlike(labels: Labels, a: seq<Invocation>, b: seq<Invocation>)
    ensures InvocationShape(labels, a) == InvocationShape(labels, b) <==> AlikeInvocations(labels, a, b)
    decreases a
  {
    if a != [] && b != [] {
      InvocationShapeTellsAlike(labels, a[0].subInvocations, b[0].subInvocations);
      InvocationShapeTellsAlike(labels, a[1..], b[1..]);
      var x := Node(labels.invocation(a[0].function_), InvocationShape(labels, a[0].subInvocations));
      var y := Node(labels.invocation(b[0].function_), InvocationShape(labels, b[0].subInvocations));
      assert ([x] + InvocationShape(labels, a[1..]))[0] == x && ([x] + InvocationShape(labels, a[1..]))[1..]
          == InvocationShape(labels, a[1..]);
      assert ([y] + InvocationShape(labels, b[1..]))[0] == y && ([y] + InvocationShape(labels, b[1..]))[1..]
          == InvocationShape(labels, b[1..]);
    }
  }

  lemma OnePayloadAlike(labels: Labels, i: nat, x: Payload, y: Payload)
    ensures PayloadShape(labels, i, x) == PayloadShape(labels, i, y)
       <==> labels.payload(i, x.address, x.nonce) == labels.payload(i, y.address, y.nonce)
            && AlikeInvocations(labels, [x.invocation], [y.invocation])
  {
    InvocationShapeTellsAlike(labels, [x.invocation], [y.invocation]);
  }

  lemma ShapeTellsAlike(labels: Labels, a: seq<Payload>, b: seq<Payload>)
    ensures Shape(labels, a) == Shape(labels, b) <==> Alike(labels, a, b)
  {
    ShapeSizes(labels, a);
    ShapeSizes(labels, b);
    if |a| == |b| {
      forall i | 0 <= i < |a|
        ensures Shape(labels, a)[i] == Shape(labels, b)[i]
           <==> labels.payload(i, a[i].address, a[i].nonce) == labels.payload(i, b[i].address, b[i].nonce)
                && AlikeInvocations(labels, [a[i].invocation], [b[i].invocation])
      {
        ShapeAt(labels, a, i);
        ShapeAt(labels, b, i);
        OnePayloadAlike(labels, i, a[i], b[i]);
      }
    }
  }

  /** Two trees print the same exactly when they are alike. */
  lemma {:induction false} PrintedAlikeIff(labels: Labels, a: seq<Payload>, b: seq<Payload>)
    ensures DisplayLines(labels, a) == DisplayLines(labels, b) <==> Alike(labels, a, b)
  {
    ShapeTellsAlike(labels, a, b);
    if DisplayLines(labels, a) == DisplayLines(labels, b) {
      PrintedShapeIsUnique(labels, a, b);
    }
  }

  /** ... and so do the characters printed, if no printed line starts with a space or has a newline. */
  lemma {:induction false} PrintedTextIsUnique(labels: Labels, a: seq<Payload>, b: seq<Payload>)
    requires LegibleLines(DisplayLines(labels, a)) && LegibleLines(DisplayLines(labels, b))
    requires TextOf(DisplayLines(labels, a)) == TextOf(DisplayLines(labels, b))
    ensures Shape(labels, a) == Shape(labels, b)
  {
    TextIsInjective(DisplayLines(labels, a), DisplayLines(labels, b));
    PrintedShapeIsUnique(labels, a, b);
  }

  lemma {:induction false} InvocationShapeSize(labels: Labels, invocations: seq<Invocation>)
    ensures Size(InvocationShape(labels, invocations)) == CountInvocations(invocations)
    decreases invocations
  {
    if invocations == [] {
    } else {
      InvocationShapeSize(labels, invocations[0].subInvocations);
      InvocationShapeSize(labels, invocations[1..]);
      var shape := InvocationShape(labels, invocations);
      assert shape[1..] == InvocationShape(labels, invocations[1..]);
    }
  }

  lemma {:induction false} ShapeSize(labels: Labels, payloads: seq<Payload>)
    ensures Size(Shape(labels, payloads)) == |payloads| + InvocationCount(payloads)
  {
    if payloads == [] {
    } else {
      var n := |payloads| - 1;
      var last := payloads[n];
      var node := PayloadShape(labels, n, last);
      ShapeSize(labels, payloads[..n]);
      InvocationShapeSize(labels, [last.invocation]);
      SizeAppend(Shape(labels, payloads[..n]), [node]);
      assert Size([node]) == 1 + Size(node.kids);
    }
  }

  /** A header, a line for every payload, and a line for every invocation. */
  lemma LineCount(labels: Labels, payloads: seq<Payload>)
    ensures |DisplayLines(labels, payloads)| == 1 + |payloads| + InvocationCount(payloads)
  {
    ShapeSize(labels, payloads);
    OneLinePerNode(Shape(labels, payloads), 1);
  }

  predicate InvocationsPrintFlat(labels: Labels, invocations: seq<Invocation>) {
    invocations == [] ||
    ('\n' !in labels.invocation(invocations[0].function_)
     && InvocationsPrintFlat(labels, invocations[0].subInvocations) && InvocationsPrintFlat(labels, invocations[1..]))
  }

  /** No payload line and no invocation prints with a newline in it. */
  predicate PrintsFlat(labels: Labels, payloads: seq<Payload>) {
    forall i :: 0 <= i < |payloads| ==>
      '\n' !in labels.payload(i, payloads[i].address, payloads[i].nonce)
      && InvocationsPrintFlat(labels, [payloads[i].invocation])
  }

  lemma {:induction false} FlatInvocations(labels: Labels, invocations: seq<Invocation>)
    ensures NewlineFree(InvocationShape(labels, invocations)) <==> InvocationsPrintFlat(labels, invocations)
    decreases invocations
  {
    if invocations == [] {
    } else {
      var kids := InvocationShape(labels, invocations[0].subInvocations);
      var node := Node(labels.invocation(invocations[0].function_), kids);
      FlatInvocations(labels, invocations[0].subInvocations);
      FlatInvocations(labels, invocations[1..]);
      NewlineFreeAppend([node], InvocationShape(labels, invocations[1..]));
      OneNewlineFree(node);
    }
  }

  lemma {:induction false} FlatShape(labels: Labels, payloads: seq<Payload>)
    ensures NewlineFree(Shape(labels, payloads)) <==> PrintsFlat(labels, payloads)
  {
    if payloads == [] {
    } else {
      var n := |payloads| - 1;
      var before, last := payloads[..n], payloads[n];
      FlatShape(labels, before);
      FlatInvocations(labels, [last.invocation]);
      NewlineFreeAppend(Shape(labels, before), [PayloadShape(labels, n, last)]);
      OneNewlineFree(PayloadShape(labels, n, last));
      assert forall i :: 0 <= i < n ==> before[i] == payloads[i];
    }
  }

  lemma HeadersAreFlat()
    ensures '\n' !in HEADER && '\n' !in EMPTY_HEADER
  {
    assert '\n' !in " (empty \U{2014} has" && '\n' !in " invoke_contract run";
    assert '\n' !in " yet, and did it" && '\n' !in " demand any auth?)";
  }

  /** Read as text, the output has exactly that many lines iff no label has a newline in it. */
  lemma {:induction false} TextLineCountIff(labels: Labels, payloads: seq<Payload>)
    ensures TextLines(DisplayLines(labels, payloads)) == 1 + |payloads| + InvocationCount(payloads)
       <==> PrintsFlat(labels, payloads)
    ensures TextLines(DisplayLines(labels, payloads)) >= 1 + |payloads| + InvocationCount(payloads)
  {
    HeadersAreFlat();
    LineCount(labels, payloads);
    FlatShape(labels, payloads);
    if payloads == [] {
      assert DisplayLines(labels, payloads) == [Line(0, EMPTY_HEADER)] + Lines<string>([], 1);
      TextUnderHeader(EMPTY_HEADER, []);
    } else {
      TextUnderHeader(HEADER, Shape(labels, payloads));
    }
  }
}
