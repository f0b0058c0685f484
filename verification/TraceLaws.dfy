/** What `Trace.Parse` guarantees for every event stream, however malformed: preorder is call order,
    postorder is return order, and the frames that never returned form one last-child chain. */
module TraceLaws {
  import opened Ledger
  import opened Seqs
  import opened Trace

  // ---- readings of an event stream that know nothing of trees ----

  datatype CallHead = CallHead(contract: ContractId, name: string, args: seq<ScVal>)

  function HeadOf(frame: TraceFrame): CallHead {
    CallHead(frame.contract, frame.name, frame.args)
  }

  /** A well-formed `fn_call`: a diagnostic event with that symbol, a contract hash and a UTF-8 name. */
  predicate Opens(e: HostEvent) {
    && e.kind == Diagnostic && |e.topics| >= 3
    && e.topics[0] == Symbol(Utf8("fn_call"))
    && e.topics[1].Bytes? && |e.topics[1].raw| == 32
    && e.topics[2].Symbol? && e.topics[2].symbol.Utf8?
  }

  /** An `fn_return`, whatever else it carries. */
  predicate Closes(e: HostEvent) {
    e.kind == Diagnostic && e.topics != [] && e.topics[0] == Symbol(Utf8("fn_return"))
  }

  /** The arguments in an `fn_call` payload: none, several as a vector, or one as it is. */
  function ArgsIn(data: ScVal): seq<ScVal> {
    if data == Void || data == VecNone then [] else if data.Vec? then data.items else [data]
  }

  function CallIn(e: HostEvent): seq<CallHead> {
    if Opens(e) then [CallHead(e.topics[1].raw, e.topics[2].symbol.text, ArgsIn(e.data))] else []
  }

  /** The well-formed `fn_call` events, in stream order. */
  function Calls(events: seq<HostEvent>): seq<CallHead> {
    if events == [] then [] else Calls(Init(events)) + CallIn(Last(events))
  }

  function ReturnIn(e: HostEvent, someCallIsOpen: bool): seq<ScVal> {
    if Closes(e) && someCallIsOpen then [e.data] else []
  }

  /** The values of the `fn_return` events that arrive while some call is open, in stream order. */
  function Returns(events: seq<HostEvent>): seq<ScVal> {
    if events == [] then []
    else
      Returns(Init(events)) +
      ReturnIn(Last(events), |Calls(Init(events))| > |Returns(Init(events))|)
  }

  /** Some accepted call, or some return that closes one, carries the host's `failed_call` mark. */
  predicate SomeMarkedFailed(events: seq<HostEvent>) {
    events != [] &&
    (SomeMarkedFailed(Init(events)) ||
     (Last(events).failedCall &&
      (Opens(Last(events)) || (Closes(Last(events)) && |Calls(Init(events))| > |Returns(Init(events))|))))
  }

  // ---- readings of a forest ----

  function Preorder(frames: seq<TraceFrame>): seq<CallHead> {
    if frames == [] then []
    else Preorder(Init(frames)) + [HeadOf(Last(frames))] + Preorder(Last(frames).children)
  }

  function ReturnValue(frame: TraceFrame): seq<ScVal> {
    if frame.result.Returned? then [frame.result.value] else []
  }

  /** The return values in postorder; trapped frames contribute none. */
  function Postorder(frames: seq<TraceFrame>): seq<ScVal> {
    if frames == [] then []
    else Postorder(Init(frames)) + Postorder(Last(frames).children) + ReturnValue(Last(frames))
  }

  /** No frame of the forest is trapped. */
  predicate Settled(frames: seq<TraceFrame>) {
    frames == [] ||
    (Settled(Init(frames)) && Last(frames).result.Returned? && Settled(Last(frames).children))
  }

  /** The trapped frames are a chain that starts at the last root and goes from last child to last
      child, every frame of it rolled back; nothing off the chain is trapped. */
  predicate Spined(frames: seq<TraceFrame>) {
    frames == [] ||
    (Settled(Init(frames)) &&
     if Last(frames).result.Trapped? then Last(frames).rolledBack && Spined(Last(frames).children)
     else Settled(Last(frames).children))
  }

  function SpineLength(frames: seq<TraceFrame>): nat {
    if frames == [] || Last(frames).result.Returned? then 0 else 1 + SpineLength(Last(frames).children)
  }

  // ---- the same readings of a parser in mid-stream ----

  function StackPreorder(stack: seq<TraceFrame>): seq<CallHead> {
    if stack == [] then []
    else StackPreorder(Init(stack)) + [HeadOf(Last(stack))] + Preorder(Last(stack).children)
  }

  function StackPostorder(stack: seq<TraceFrame>): seq<ScVal> {
    if stack == [] then [] else StackPostorder(Init(stack)) + Postorder(Last(stack).children)
  }

  predicate StackSettled(stack: seq<TraceFrame>) {
    forall i :: 0 <= i < |stack| ==> Settled(stack[i].children)
  }

  predicate StackFailed(stack: seq<TraceFrame>) {
    stack != [] && (StackFailed(Init(stack)) || Last(stack).rolledBack || HadFailures(Last(stack).children))
  }

  // ---- pushing one frame ----

  lemma PushPreorder(frames: seq<TraceFrame>, frame: TraceFrame)
    ensures Preorder(frames + [frame]) == Preorder(frames) + [HeadOf(frame)] + Preorder(frame.children)
    ensures StackPreorder(frames + [frame]) == StackPreorder(frames) + [HeadOf(frame)] + Preorder(frame.children)
  {
    Pushed(frames, frame);
  }

  lemma PushPostorder(frames: seq<TraceFrame>, frame: TraceFrame)
    ensures Postorder(frames + [frame]) == Postorder(frames) + Postorder(frame.children) + ReturnValue(frame)
    ensures StackPostorder(frames + [frame]) == StackPostorder(frames) + Postorder(frame.children)
  {
    Pushed(frames, frame);
  }

  predicate Failed(frame: TraceFrame) {
    frame.rolledBack || frame.result.Trapped? || HadFailures(frame.children)
  }

  lemma PushFailures(frames: seq<TraceFrame>, frame: TraceFrame)
    ensures HadFailures(frames + [frame]) <==> HadFailures(frames) || Failed(frame)
    ensures StackFailed(frames + [frame])
       <==> StackFailed(frames) || frame.rolledBack || HadFailures(frame.children)
  {
    Pushed(frames, frame);
  }

  lemma PushShape(frames: seq<TraceFrame>, frame: TraceFrame)
    requires Settled(frames)
    ensures frame.result.Returned? && Settled(frame.children) ==> Settled(frames + [frame])
    ensures frame.result.Trapped? && frame.rolledBack && Spined(frame.children) ==>
              Spined(frames + [frame]) && SpineLength(frames + [frame]) == 1 + SpineLength(frame.children)
  {
    Pushed(frames, frame);
  }

  lemma Regroup<T>(a: seq<T>, b: seq<T>, c: seq<T>, d: seq<T>, e: seq<T>)
    ensures a + (b + (c + d + e)) == a + (b + c) + d + e
    ensures a + (b + c + d) == a + b + c + d
    ensures a + (b + c) == a + b + c
    ensures b + c + [] == b + c
  {
  }

  lemma RegroupCall<T>(a: seq<T>, b: seq<T>, h: seq<T>, c: seq<T>, e: seq<T>, f: seq<T>)
    ensures a + (b + h + (c + e + f)) == a + (b + h + c) + e + f
  {
  }

  // ---- attaching a closed frame moves it from stack to tree and disturbs no reading ----

  /** `Init(stack)` with its top's children extended, as `Attach` leaves it. */
  function Grown(stack: seq<TraceFrame>, frame: TraceFrame): TraceFrame
    requires stack != []
  {
    Last(stack).(children := Last(stack).children + [frame])
  }

  lemma AttachPreorder(stack: seq<TraceFrame>, roots: seq<TraceFrame>, frame: TraceFrame)
    ensures Preorder(Attach(stack, roots, frame).roots) + StackPreorder(Attach(stack, roots, frame).stack)
         == Preorder(roots) + StackPreorder(stack) + [HeadOf(frame)] + Preorder(frame.children)
  {
    if stack == [] {
      PushPreorder(roots, frame);
    } else {
      PushPreorder(Last(stack).children, frame);
      PushPreorder(Init(stack), Grown(stack, frame));
      RegroupCall(Preorder(roots), StackPreorder(Init(stack)), [HeadOf(Last(stack))], Preorder(Last(stack).children),
                  [HeadOf(frame)], Preorder(frame.children));
    }
  }

  lemma AttachPostorder(stack: seq<TraceFrame>, roots: seq<TraceFrame>, frame: TraceFrame)
    ensures Postorder(Attach(stack, roots, frame).roots) + StackPostorder(Attach(stack, roots, frame).stack)
         == Postorder(roots) + StackPostorder(stack) + Postorder(frame.children) + ReturnValue(frame)
  {
    if stack == [] {
      PushPostorder(roots, frame);
    } else {
      PushPostorder(Last(stack).children, frame);
      PushPostorder(Init(stack), Grown(stack, frame));
      Regroup(Postorder(roots), StackPostorder(Init(stack)), Postorder(Last(stack).children),
              Postorder(frame.children), ReturnValue(frame));
    }
  }

  lemma AttachFailures(stack: seq<TraceFrame>, roots: seq<TraceFrame>, frame: TraceFrame)
    ensures HadFailures(Attach(stack, roots, frame).roots) || StackFailed(Attach(stack, roots, frame).stack)
       <==> HadFailures(roots) || StackFailed(stack) || Failed(frame)
  {
    if stack == [] {
      PushFailures(roots, frame);
    } else {
      PushFailures(Last(stack).children, frame);
      PushFailures(Init(stack), Grown(stack, frame));
    }
  }

  // ---- the invariants of the event loop ----

  predicate Orderly(p: Parser, events: seq<HostEvent>) {
    && Preorder(p.roots) + StackPreorder(p.stack) == Calls(events)
    && Postorder(p.roots) + StackPostorder(p.stack) == Returns(events)
    && |p.stack| == |Calls(events)| - |Returns(events)|
  }

  predicate AllSettled(p: Parser) {
    Settled(p.roots) && StackSettled(p.stack)
  }

  predicate Marked(p: Parser) {
    HadFailures(p.roots) || StackFailed(p.stack)
  }

  /** The parser's reading of an event is this one. */
  lemma InterpretIsRaw(e: HostEvent)
    ensures Opens(e) <==> Interpret(e).Open?
    ensures Closes(e) <==> Interpret(e).Close?
    ensures Opens(e) ==>
      Interpret(e).frame
      == TraceFrame(e.topics[1].raw, e.topics[2].symbol.text, ArgsIn(e.data), Trapped, e.failedCall, [])
    ensures Closes(e) ==> Interpret(e) == Close(e.data, e.failedCall)
  {
  }

  lemma PreorderStep(p: Parser, e: HostEvent)
    ensures Preorder(Step(p, e).roots) + StackPreorder(Step(p, e).stack)
         == Preorder(p.roots) + StackPreorder(p.stack) + CallIn(e)
  {
    InterpretIsRaw(e);
    match Interpret(e)
    case Open(frame) =>
      PushPreorder(p.stack, frame);
      assert Preorder(frame.children) == [];
      Regroup(Preorder(p.roots), StackPreorder(p.stack), [HeadOf(frame)], [], []);
    case Close(value, failed) =>
      NothingAdded(Preorder(p.roots) + StackPreorder(p.stack));
      if p.stack != [] {
        ReleasePreorder(p, Finish(Last(p.stack), value, failed));
      }
    case Skip =>
      NothingAdded(Preorder(p.roots) + StackPreorder(p.stack));
  }

  lemma NothingAdded<T>(s: seq<T>)
    ensures s + [] == s
  {
  }

  lemma PostorderStep(p: Parser, e: HostEvent)
    ensures Postorder(Step(p, e).roots) + StackPostorder(Step(p, e).stack)
         == Postorder(p.roots) + StackPostorder(p.stack) + ReturnIn(e, p.stack != [])
  {
    InterpretIsRaw(e);
    match Interpret(e)
    case Open(frame) =>
      PushPostorder(p.stack, frame);
    case Close(value, failed) =>
      if p.stack != [] {
        ReleasePostorder(p, Finish(Last(p.stack), value, failed));
      }
    case Skip =>
  }

  /** Attaching the top frame, whatever result it was given, leaves the preorder alone. */
  lemma ReleasePreorder(p: Parser, done: TraceFrame)
    requires p.stack != []
    requires HeadOf(done) == HeadOf(Last(p.stack)) && done.children == Last(p.stack).children
    ensures var q := Attach(Init(p.stack), p.roots, done);
      Preorder(q.roots) + StackPreorder(q.stack) == Preorder(p.roots) + StackPreorder(p.stack)
  {
    AttachPreorder(Init(p.stack), p.roots, done);
    Regroup(Preorder(p.roots), StackPreorder(Init(p.stack)), [HeadOf(done)], Preorder(done.children), []);
  }

  lemma ReleasePostorder(p: Parser, done: TraceFrame)
    requires p.stack != [] && done.children == Last(p.stack).children
    ensures var q := Attach(Init(p.stack), p.roots, done);
      Postorder(q.roots) + StackPostorder(q.stack)
      == Postorder(p.roots) + StackPostorder(p.stack) + ReturnValue(done)
  {
    AttachPostorder(Init(p.stack), p.roots, done);
    Regroup(Postorder(p.roots), StackPostorder(Init(p.stack)), Postorder(done.children), [], []);
  }

  lemma SettledStep(p: Parser, e: HostEvent)
    requires AllSettled(p)
    ensures AllSettled(Step(p, e))
  {
    match Interpret(e)
    case Open(frame) =>
    case Close(value, failed) =>
      if p.stack != [] {
        var stack := Init(p.stack);
        var done := Finish(Last(p.stack), value, failed);
        assert Settled(Last(p.stack).children);
        if stack == [] {
          PushShape(p.roots, done);
        } else {
          assert Last(stack) == p.stack[|p.stack| - 2];
          PushShape(Last(stack).children, done);
        }
      }
    case Skip =>
  }

  lemma MarkedStep(p: Parser, e: HostEvent)
    ensures Marked(Step(p, e)) <==>
      Marked(p) || (e.failedCall && (Opens(e) || (Closes(e) && p.stack != [])))
  {
    InterpretIsRaw(e);
    match Interpret(e)
    case Open(frame) =>
      PushFailures(p.stack, frame);
    case Close(value, failed) =>
      if p.stack != [] {
        Split(p.stack);
        PushFailures(Init(p.stack), Last(p.stack));
        AttachFailures(Init(p.stack), p.roots, Finish(Last(p.stack), value, failed));
      }
    case Skip =>
  }

  predicate Consistent(p: Parser, events: seq<HostEvent>) {
    Orderly(p, events) && AllSettled(p) && (Marked(p) <==> SomeMarkedFailed(events))
  }

  lemma DepthStep(p: Parser, e: HostEvent)
    ensures |Step(p, e).stack| == |p.stack| + |CallIn(e)| - |ReturnIn(e, p.stack != [])|
  {
    InterpretIsRaw(e);
  }

  lemma OrderlyStep(p: Parser, events: seq<HostEvent>)
    requires events != [] && Orderly(p, Init(events))
    ensures Orderly(Step(p, Last(events)), events)
  {
    var e := Last(events);
    PreorderStep(p, e);
    PostorderStep(p, e);
    DepthStep(p, e);
    assert Calls(events) == Calls(Init(events)) + CallIn(e);
    assert Returns(events) == Returns(Init(events)) + ReturnIn(e, p.stack != []);
  }

  lemma MarksStep(p: Parser, events: seq<HostEvent>)
    requires events != [] && Orderly(p, Init(events))
    requires Marked(p) <==> SomeMarkedFailed(Init(events))
    ensures Marked(Step(p, Last(events))) <==> SomeMarkedFailed(events)
  {
    MarkedStep(p, Last(events));
  }

  lemma StepKeeps(p: Parser, events: seq<HostEvent>)
    requires events != [] && Consistent(p, Init(events))
    ensures Consistent(Step(p, Last(events)), events)
  {
    OrderlyStep(p, events);
    SettledStep(p, Last(events));
    MarksStep(p, events);
  }

  lemma {:induction false} RunKeeps(events: seq<HostEvent>)
    ensures Consistent(Run(Parser([], []), events), events)
  {
    if events == [] {
    } else {
      RunKeeps(Init(events));
      StepKeeps(Run(Parser([], []), Init(events)), events);
    }
  }

  // ---- draining ----

  function TrappedFrame(frame: TraceFrame): TraceFrame {
    frame.(result := Trapped, rolledBack := true)
  }

  lemma {:induction false} DrainOrders(p: Parser)
    ensures Preorder(Drain(p)) == Preorder(p.roots) + StackPreorder(p.stack)
    ensures Postorder(Drain(p)) == Postorder(p.roots) + StackPostorder(p.stack)
    ensures HadFailures(Drain(p)) <==> HadFailures(p.roots) || p.stack != []
    decreases |p.stack|
  {
    if p.stack != [] {
      var frame := TrappedFrame(Last(p.stack));
      var q := Attach(Init(p.stack), p.roots, frame);
      ReleasePreorder(p, frame);
      ReleasePostorder(p, frame);
      PushFailures(p.roots, frame);
      DrainOrders(q);
    }
  }

  /** The frames still open hang below one another, each the last child of the one before. */
  lemma {:induction false} DrainSpine(p: Parser)
    requires p.stack != [] && Settled(p.roots)
    requires StackSettled(Init(p.stack)) && Spined(Last(p.stack).children)
    ensures Spined(Drain(p))
    ensures SpineLength(Drain(p)) == |p.stack| + SpineLength(Last(p.stack).children)
    decreases |p.stack|
  {
    var frame := TrappedFrame(Last(p.stack));
    var stack := Init(p.stack);
    var q := Attach(stack, p.roots, frame);
    if stack == [] {
      PushShape(p.roots, frame);
      assert Drain(q) == p.roots + [frame];
    } else {
      var parent := Last(stack);
      assert parent == stack[|stack| - 1];
      PushShape(parent.children, frame);
      Pushed(Init(stack), Grown(stack, frame));
      assert Init(q.stack) == Init(stack);
      DrainSpine(q);
    }
  }

  lemma SettledIsSpined(frames: seq<TraceFrame>)
    requires Settled(frames)
    ensures Spined(frames) && SpineLength(frames) == 0
  {
  }

  // ---- the laws ----

  /** Call order is preorder and return order is postorder. */
  lemma {:induction false} OrdersAreKept(events: seq<HostEvent>)
    ensures Preorder(Parse(events)) == Calls(events)
    ensures Postorder(Parse(events)) == Returns(events)
  {
    RunKeeps(events);
    DrainOrders(Run(Parser([], []), events));
  }

  /** `frame_count` is the number of accepted calls. */
  lemma {:induction false} FrameCountIsCalls(events: seq<HostEvent>)
    ensures FrameCount(Parse(events)) == |Calls(events)|
  {
    OrdersAreKept(events);
    CountIsPreorder(Parse(events));
  }

  lemma {:induction false} CountIsPreorder(frames: seq<TraceFrame>)
    ensures FrameCount(frames) == |Preorder(frames)|
  {
    if frames == [] {
    } else {
      CountIsPreorder(Init(frames));
      CountIsPreorder(Last(frames).children);
    }
  }

  /** The trapped frames are one rolled-back last-child chain, as long as there are unanswered calls. */
  lemma TrappedFramesAreOneSpine(events: seq<HostEvent>)
    ensures Spined(Parse(events))
    ensures SpineLength(Parse(events)) == |Calls(events)| - |Returns(events)|
  {
    RunKeeps(events);
    var p := Run(Parser([], []), events);
    if p.stack == [] {
      SettledIsSpined(p.roots);
    } else {
      assert Last(p.stack) == p.stack[|p.stack| - 1];
      SettledIsSpined(Last(p.stack).children);
      DrainSpine(p);
    }
  }

  /** `had_failures` holds exactly when a call went unanswered or the host marked a failure. */
  lemma {:induction false} HadFailuresIff(events: seq<HostEvent>)
    ensures HadFailures(Parse(events))
       <==> |Calls(events)| > |Returns(events)| || SomeMarkedFailed(events)
  {
    RunKeeps(events);
    DrainOrders(Run(Parser([], []), events));
  }
}
