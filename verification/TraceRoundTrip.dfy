/** The round trip of `Trace.Parse`: what the host emits for a run of calls parses back to exactly that
    run, precisely when trapped calls form one spine and no call has an ambiguous single argument. */
module TraceRoundTrip {
  import opened Ledger
  import opened Seqs
  import opened Trace
  import opened TraceLaws

  // ---- what really happened, and what the host emits for it ----

  datatype Outcome = Return(value: ScVal, failed: bool) | Trap

  /** One executed call. `failed` is the host's mark on the `fn_call` event. */
  datatype Call = Call(
    contract: ContractId,
    name: string,
    args: seq<ScVal>,
    failed: bool,
    children: seq<Call>,
    outcome: Outcome)

  /** The host's arity packing: nothing, the argument itself, or a vector. */
  function PackArgs(args: seq<ScVal>): ScVal {
    if args == [] then Void else if |args| == 1 then args[0] else Vec(args)
  }

  predicate Ambiguous(args: seq<ScVal>) {
    |args| == 1 && (args[0].Void? || args[0].Vec? || args[0].VecNone?)
  }

  function CallEvent(c: Call): HostEvent {
    HostEvent(Diagnostic, [Symbol(Utf8("fn_call")), Bytes(c.contract), Symbol(Utf8(c.name))],
              PackArgs(c.args), c.failed)
  }

  function ReturnEvents(c: Call): seq<HostEvent> {
    match c.outcome
    case Return(value, failed) =>
      [HostEvent(Diagnostic, [Symbol(Utf8("fn_return")), Symbol(Utf8(c.name))], value, failed)]
    case Trap => []
  }

  function Emit(calls: seq<Call>): seq<HostEvent> {
    if calls == [] then []
    else Emit(Init(calls)) + ([CallEvent(Last(calls))] + Emit(Last(calls).children) + ReturnEvents(Last(calls)))
  }

  /** The trace a reader should see for these calls. */
  function Expected(calls: seq<Call>): seq<TraceFrame> {
    if calls == [] then [] else Expected(Init(calls)) + [ExpectedFrame(Last(calls))]
  }

  function ExpectedFrame(c: Call): TraceFrame {
    TraceFrame(c.contract, c.name, c.args, ResultOf(c.outcome), RolledBack(c), Expected(c.children))
  }

  function ResultOf(outcome: Outcome): TraceResult {
    match outcome
    case Return(value, _) => Returned(value)
    case Trap => Trapped
  }

  /** Rolled back: the call was marked, or its return was, or it trapped. */
  predicate RolledBack(c: Call) {
    c.failed || c.outcome.Trap? || c.outcome.failed
  }

  predicate Answered(calls: seq<Call>) {
    calls == [] ||
    (Answered(Init(calls)) && Last(calls).outcome.Return? && Answered(Last(calls).children))
  }

  /** Trapped calls only where a trap can really leave them: the last root, its last child, and so on,
      with every call above a trapped one trapped as well. */
  predicate TrapsOnSpine(calls: seq<Call>) {
    calls == [] ||
    (Answered(Init(calls)) &&
     if Last(calls).outcome.Trap? then TrapsOnSpine(Last(calls).children) else Answered(Last(calls).children))
  }

  predicate Unambiguous(calls: seq<Call>) {
    calls == [] ||
    (Unambiguous(Init(calls)) && !Ambiguous(Last(calls).args) && Unambiguous(Last(calls).children))
  }

  // ---- events that never matter ----

  /** The stream without the events the parser ignores: other kinds, malformed calls, and returns that
      arrive when no call is open. */
  function Kept(events: seq<HostEvent>): seq<HostEvent> {
    if events == [] then []
    else
      Kept(Init(events)) +
      if Opens(Last(events)) || (Closes(Last(events)) && |Calls(Init(events))| > |Returns(Init(events))|)
      then [Last(events)] else []
  }

  /** The stream without the events that are neither a well-formed `fn_call` nor an `fn_return`. */
  function CallsAndReturns(events: seq<HostEvent>): seq<HostEvent> {
    if events == [] then []
    else CallsAndReturns(Init(events)) + if Opens(Last(events)) || Closes(Last(events)) then [Last(events)] else []
  }

  lemma {:induction false} OtherEventsAreSkipped(p: Parser, events: seq<HostEvent>)
    ensures Run(p, CallsAndReturns(events)) == Run(p, events)
  {
    if events == [] {
    } else {
      OtherEventsAreSkipped(p, Init(events));
      InterpretIsRaw(Last(events));
      Pushed(CallsAndReturns(Init(events)), Last(events));
      assert CallsAndReturns(Init(events)) + [] == CallsAndReturns(Init(events));
    }
  }

  /** Contract and system events, malformed calls and every other diagnostic event might as well be
      missing; and so might returns that arrive when no call is open. */
  lemma {:induction false} OnlyCallsAndReturnsMatter(events: seq<HostEvent>)
    ensures Parse(CallsAndReturns(events)) == Parse(events)
    ensures Parse(Kept(events)) == Parse(events)
  {
    OtherEventsAreSkipped(Parser([], []), events);
    IgnoredEventsDoNotMatter(events);
  }

  lemma {:induction false} IgnoredEventsDoNotMatter(events: seq<HostEvent>)
    ensures Run(Parser([], []), Kept(events)) == Run(Parser([], []), events)
  {
    if events == [] {
    } else {
      var e := Last(events);
      IgnoredEventsDoNotMatter(Init(events));
      RunKeeps(Init(events));
      Pushed(Kept(Init(events)), e);
      var p := Run(Parser([], []), Init(events));
      InterpretIsRaw(e);
      if !Opens(e) && !(Closes(e) && p.stack != []) {
        assert Step(p, e) == p;
        assert Kept(events) == Kept(Init(events));
      }
    }
  }

  // ---- running the parser over an emission ----

  lemma {:induction false} RunAppend(p: Parser, a: seq<HostEvent>, b: seq<HostEvent>)
    ensures Run(p, a + b) == Run(Run(p, a), b)
  {
    if b == [] {
      assert a + b == a;
    } else {
      RunAppend(p, a, Init(b));
      assert a + b == a + Init(b) + [Last(b)];
      Pushed(a + Init(b), Last(b));
    }
  }

  lemma RunOne(p: Parser, e: HostEvent)
    ensures Run(p, [e]) == Step(p, e)
  {
    Pushed([], e);
    assert [] + [e] == [e];
    assert Run(p, Init([e])) == p;
  }

  /** The frame as recorded: as expected, except that its arguments went through the packing. */
  function RecordedFrame(c: Call): TraceFrame {
    TraceFrame(c.contract, c.name, UnwrapArgsPayload(PackArgs(c.args)), ResultOf(c.outcome), RolledBack(c),
               Recorded(c.children))
  }

  function Recorded(calls: seq<Call>): seq<TraceFrame> {
    if calls == [] then [] else Recorded(Init(calls)) + [RecordedFrame(Last(calls))]
  }

  function OpenFrame(c: Call): TraceFrame {
    TraceFrame(c.contract, c.name, UnwrapArgsPayload(PackArgs(c.args)), Trapped, c.failed, [])
  }

  /** The parser with a whole forest attached at the innermost open place. */
  function AttachAll(p: Parser, frames: seq<TraceFrame>): Parser {
    if p.stack == [] then Parser([], p.roots + frames)
    else Parser(Init(p.stack) + [Last(p.stack).(children := Last(p.stack).children + frames)], p.roots)
  }

  lemma CallOpens(p: Parser, c: Call)
    ensures Step(p, CallEvent(c)) == Parser(p.stack + [OpenFrame(c)], p.roots)
  {
    var e := CallEvent(c);
    assert e.topics[0] == Symbol(Utf8("fn_call"));
  }

  lemma ReturnCloses(p: Parser, c: Call)
    requires c.outcome.Return? && p.stack != []
    ensures |ReturnEvents(c)| == 1
    ensures Step(p, ReturnEvents(c)[0])
         == Attach(Init(p.stack), p.roots, Finish(Last(p.stack), c.outcome.value, c.outcome.failed))
  {
    assert ReturnEvents(c)[0].topics[0] == Symbol(Utf8("fn_return"));
  }

  lemma {:induction false} AnsweredCallsAttach(p: Parser, calls: seq<Call>)
    requires Answered(calls)
    ensures Run(p, Emit(calls)) == AttachAll(p, Recorded(calls))
    decreases calls, 1
  {
    if calls == [] {
      AttachNothing(p);
    } else {
      var c := Last(calls);
      var q := Run(p, Emit(Init(calls)));
      AnsweredCallsAttach(p, Init(calls));
      RunAppend(p, Emit(Init(calls)), [CallEvent(c)] + Emit(c.children) + ReturnEvents(c));
      AnsweredCallAttaches(q, c);
      AttachOneMore(p, Recorded(Init(calls)), RecordedFrame(c));
    }
  }

  lemma AttachNothing(p: Parser)
    ensures AttachAll(p, []) == p
  {
    if p.stack != [] {
      assert Last(p.stack).children + [] == Last(p.stack).children;
      Split(p.stack);
    }
  }

  lemma AttachOneMore(p: Parser, frames: seq<TraceFrame>, frame: TraceFrame)
    ensures Attach(AttachAll(p, frames).stack, AttachAll(p, frames).roots, frame) == AttachAll(p, frames + [frame])
  {
    if p.stack == [] {
      assert p.roots + frames + [frame] == p.roots + (frames + [frame]);
    } else {
      var top := Last(p.stack);
      Pushed(Init(p.stack), top.(children := top.children + frames));
      assert top.children + frames + [frame] == top.children + (frames + [frame]);
    }
  }

  lemma {:induction false} AnsweredCallAttaches(p: Parser, c: Call)
    requires c.outcome.Return? && Answered(c.children)
    ensures Run(p, [CallEvent(c)] + Emit(c.children) + ReturnEvents(c)) == Attach(p.stack, p.roots, RecordedFrame(c))
    decreases c, 0
  {
    var q := OpenAndFill(p, c);
    RunAppend(p, [CallEvent(c)] + Emit(c.children), ReturnEvents(c));
    AnsweredCallsAttach(Parser(p.stack + [OpenFrame(c)], p.roots), c.children);
    FilledTop(p, c);
    ReturnCloses(q, c);
    RunOne(q, ReturnEvents(c)[0]);
    assert ReturnEvents(c) == [ReturnEvents(c)[0]];
  }

  /** Opening the call and then running its children's events. */
  lemma OpenAndFill(p: Parser, c: Call) returns (q: Parser)
    ensures q == Run(p, [CallEvent(c)] + Emit(c.children))
    ensures q == Run(Parser(p.stack + [OpenFrame(c)], p.roots), Emit(c.children))
  {
    RunAppend(p, [CallEvent(c)], Emit(c.children));
    RunOne(p, CallEvent(c));
    CallOpens(p, c);
    q := Run(p, [CallEvent(c)] + Emit(c.children));
  }

  lemma FilledTop(p: Parser, c: Call)
    ensures AttachAll(Parser(p.stack + [OpenFrame(c)], p.roots), Recorded(c.children))
         == Parser(p.stack + [OpenFrame(c).(children := Recorded(c.children))], p.roots)
    ensures Init(p.stack + [OpenFrame(c).(children := Recorded(c.children))]) == p.stack
  {
    Pushed(p.stack, OpenFrame(c));
    assert [] + Recorded(c.children) == Recorded(c.children);
    Pushed(p.stack, OpenFrame(c).(children := Recorded(c.children)));
  }

  // ---- the open spine at the end of a stream ----

  /** Draining after a spined emission attaches the recorded forest at the open place first. */
  lemma {:induction false} SpinedCallsDrain(p: Parser, calls: seq<Call>)
    requires TrapsOnSpine(calls)
    ensures Drain(Run(p, Emit(calls))) == Drain(AttachAll(p, Recorded(calls)))
    decreases calls
  {
    if Answered(calls) {
      AnsweredCallsAttach(p, calls);
    } else {
      var c := Last(calls);
      var q := AttachAll(p, Recorded(Init(calls)));
      AnsweredCallsAttach(p, Init(calls));
      RunAppend(p, Emit(Init(calls)), [CallEvent(c)] + Emit(c.children) + ReturnEvents(c));
      assert [CallEvent(c)] + Emit(c.children) + ReturnEvents(c) == [CallEvent(c)] + Emit(c.children);
      var _ := OpenAndFill(q, c);
      SpinedCallsDrain(Parser(q.stack + [OpenFrame(c)], q.roots), c.children);
      FilledTop(q, c);
      AttachOneMore(p, Recorded(Init(calls)), RecordedFrame(c));
    }
  }

  lemma EmissionParses(events: seq<HostEvent>, calls: seq<Call>)
    requires Kept(events) == Emit(calls) && TrapsOnSpine(calls)
    ensures Parse(events) == Recorded(calls)
  {
    IgnoredEventsDoNotMatter(events);
    SpinedCallsDrain(Parser([], []), calls);
    assert [] + Recorded(calls) == Recorded(calls);
  }

  // ---- the packing is invertible exactly off the ambiguous arguments ----

  lemma PackingRoundTrip(args: seq<ScVal>)
    ensures UnwrapArgsPayload(PackArgs(args)) == args <==> !Ambiguous(args)
  {
    if |args| == 1 {
      assert args == [args[0]];
      assert args[0].Vec? && |args[0].items| == 1 ==> args[0].items[0] < args[0];
    }
  }

  lemma {:induction false} RecordedAsExpected(calls: seq<Call>)
    ensures Recorded(calls) == Expected(calls) <==> Unambiguous(calls)
    ensures |Recorded(calls)| == |Expected(calls)| == |calls|
    decreases calls
  {
    if calls == [] {
    } else {
      var c := Last(calls);
      RecordedAsExpected(Init(calls));
      RecordedAsExpected(c.children);
      PackingRoundTrip(c.args);
      Pushed(Recorded(Init(calls)), RecordedFrame(c));
      Pushed(Expected(Init(calls)), ExpectedFrame(c));
    }
  }

  /** A forest whose trapped frames form a spine comes only from calls whose traps do. */
  lemma {:induction false} SpineOfExpected(calls: seq<Call>)
    ensures Spined(Expected(calls)) ==> TrapsOnSpine(calls)
    ensures Settled(Expected(calls)) ==> Answered(calls)
    decreases calls
  {
    if calls == [] {
    } else {
      SpineOfExpected(Init(calls));
      SpineOfExpected(Last(calls).children);
      Pushed(Expected(Init(calls)), ExpectedFrame(Last(calls)));
    }
  }

  /** The round trip, with its exact condition. */
  lemma RoundTripIff(events: seq<HostEvent>, calls: seq<Call>)
    requires Kept(events) == Emit(calls)
    ensures Parse(events) == Expected(calls) <==> TrapsOnSpine(calls) && Unambiguous(calls)
  {
    if TrapsOnSpine(calls) {
      EmissionParses(events, calls);
      RecordedAsExpected(calls);
    } else {
      TrappedFramesAreOneSpine(events);
      SpineOfExpected(calls);
    }
  }

  // ---- what the host emits has nothing to ignore ----

  function Depth(events: seq<HostEvent>): int {
    |Calls(events)| - |Returns(events)|
  }

  lemma CallIsKept(events: seq<HostEvent>, c: Call)
    ensures Kept(events + [CallEvent(c)]) == Kept(events) + [CallEvent(c)]
    ensures Depth(events + [CallEvent(c)]) == Depth(events) + 1
  {
    Pushed(events, CallEvent(c));
    assert CallEvent(c).topics[0] == Symbol(Utf8("fn_call"));
    InterpretIsRaw(CallEvent(c));
  }

  lemma ReturnIsKept(events: seq<HostEvent>, c: Call)
    requires Depth(events) > 0
    ensures Kept(events + ReturnEvents(c)) == Kept(events) + ReturnEvents(c)
    ensures Depth(events + ReturnEvents(c)) >= Depth(events) - 1
  {
    match c.outcome
    case Return(value, failed) =>
      var e := ReturnEvents(c)[0];
      Pushed(events, e);
      assert e.topics[0] == Symbol(Utf8("fn_return"));
      assert Closes(e) && ReturnEvents(c) == [e];
    case Trap =>
      assert events + [] == events && Kept(events) + [] == Kept(events);
  }

  lemma Regrouped<T>(a: seq<T>, b: seq<T>, c: seq<T>, d: seq<T>, e: seq<T>)
    ensures a + (b + (c + d + e)) == a + b + c + d + e
  {
  }

  lemma NothingBefore<T>(s: seq<T>)
    ensures [] + s == s && s + [] == s
  {
  }

  lemma {:induction false} EmissionIsKeptAfter(events: seq<HostEvent>, calls: seq<Call>)
    requires Kept(events) == events && Depth(events) >= 0
    ensures Kept(events + Emit(calls)) == events + Emit(calls)
    ensures Depth(events + Emit(calls)) >= Depth(events)
    decreases calls
  {
    if calls == [] {
      NothingBefore(events);
    } else {
      var c := Last(calls);
      var before := events + Emit(Init(calls));
      var entered := before + [CallEvent(c)];
      var filled := entered + Emit(c.children);
      EmissionIsKeptAfter(events, Init(calls));
      CallIsKept(before, c);
      EmissionIsKeptAfter(entered, c.children);
      ReturnIsKept(filled, c);
      Regrouped(events, Emit(Init(calls)), [CallEvent(c)], Emit(c.children), ReturnEvents(c));
    }
  }

  lemma {:induction false} EmissionIsKept(calls: seq<Call>)
    ensures Kept(Emit(calls)) == Emit(calls)
  {
    EmissionIsKeptAfter([], calls);
    NothingBefore(Emit(calls));
  }

  /** Emit, then parse. */
  lemma {:induction false} EmitThenParseIff(calls: seq<Call>)
    ensures Parse(Emit(calls)) == Expected(calls) <==> TrapsOnSpine(calls) && Unambiguous(calls)
  {
    EmissionIsKept(calls);
    RoundTripIff(Emit(calls), calls);
  }

  /** A returned call above a trapped one is a last-child chain too, and does not survive the trip. */
  lemma TrapBelowReturnIsLost(id: ContractId)
    ensures var inner := Call(id, "inner", [], false, [], Trap);
      var outer := Call(id, "outer", [], false, [inner], Return(Void, false));
      Parse(Emit([outer])) != Expected([outer])
  {
    var inner := Call(id, "inner", [], false, [], Trap);
    var outer := Call(id, "outer", [], false, [inner], Return(Void, false));
    assert !Answered([inner]) by { assert Last([inner]) == inner; }
    assert Last([outer]) == outer;
    assert !TrapsOnSpine([outer]);
    EmitThenParseIff([outer]);
  }
}
