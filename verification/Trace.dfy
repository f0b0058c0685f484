/** `src/trace.rs`: the one-pass stack parser that turns the host's diagnostic event stream into a
    forest of call frames. `FromEvents` is the loop; `Parse` is its specification. */
module Trace {
  import opened Wrappers
  import opened Ledger
  import opened Seqs

  datatype EventType = ContractEvent | SystemEvent | Diagnostic

  datatype HostEvent = HostEvent(kind: EventType, topics: seq<ScVal>, data: ScVal, failedCall: bool)

  datatype TraceResult = Returned(value: ScVal) | Trapped

  datatype TraceFrame = TraceFrame(
    contract: ContractId,
    name: string,
    args: seq<ScVal>,
    result: TraceResult,
    rolledBack: bool,
    children: seq<TraceFrame>)

  /** The two locals of the loop: the open frames, innermost last, and the finished roots. */
  datatype Parser = Parser(stack: seq<TraceFrame>, roots: seq<TraceFrame>)

  function SymbolStr(v: ScVal): Option<string> {
    match v
    case Symbol(Utf8(text)) => Some(text)
    case _ => None
  }

  function AsContract(v: ScVal): Option<ContractId> {
    match v
    case Bytes(raw) => if |raw| == 32 then Some(raw) else None
    case _ => None
  }

  function Kind(topics: seq<ScVal>): Option<string> {
    if topics == [] then None else SymbolStr(topics[0])
  }

  function UnwrapArgsPayload(data: ScVal): seq<ScVal> {
    match data
    case Void => []
    case Vec(items) => items
    case VecNone => []
    case single => [single]
  }

  function ParseFnCall(topics: seq<ScVal>, data: ScVal, failed: bool): Option<TraceFrame> {
    if |topics| < 3 then None
    else
      match (AsContract(topics[1]), SymbolStr(topics[2]))
      case (Some(contract), Some(name)) =>
        Some(TraceFrame(contract, name, UnwrapArgsPayload(data), Trapped, failed, []))
      case _ => None
  }

  // ---- what one event asks of the parser ----

  datatype Signal = Open(frame: TraceFrame) | Close(value: ScVal, failed: bool) | Skip

  function Interpret(e: HostEvent): Signal {
    if e.kind != Diagnostic then Skip
    else
      match Kind(e.topics)
      case Some(kind) =>
        if kind == "fn_call" then
          match ParseFnCall(e.topics, e.data, e.failedCall)
          case Some(frame) => Open(frame)
          case None => Skip
        else if kind == "fn_return" then Close(e.data, e.failedCall)
        else Skip
      case None => Skip
  }

  function Attach(stack: seq<TraceFrame>, roots: seq<TraceFrame>, frame: TraceFrame): Parser {
    if stack == [] then Parser([], roots + [frame])
    else
      var parent := Last(stack);
      Parser(Init(stack) + [parent.(children := parent.children + [frame])], roots)
  }

  function Finish(frame: TraceFrame, value: ScVal, failed: bool): TraceFrame {
    frame.(result := Returned(value), rolledBack := frame.rolledBack || failed)
  }

  function Step(p: Parser, e: HostEvent): Parser {
    match Interpret(e)
    case Open(frame) => p.(stack := p.stack + [frame])
    case Close(value, failed) =>
      if p.stack == [] then p
      else Attach(Init(p.stack), p.roots, Finish(Last(p.stack), value, failed))
    case Skip => p
  }

  function Run(p: Parser, events: seq<HostEvent>): Parser {
    if events == [] then p else Step(Run(p, Init(events)), Last(events))
  }

  function Drain(p: Parser): seq<TraceFrame>
    decreases |p.stack|
  {
    if p.stack == [] then p.roots
    else Drain(Attach(Init(p.stack), p.roots, Last(p.stack).(result := Trapped, rolledBack := true)))
  }

  /** The forest that `Trace::from_events` returns. */
  function Parse(events: seq<HostEvent>): seq<TraceFrame> {
    Drain(Run(Parser([], []), events))
  }

  /** `Trace::from_events`, loop by loop. */
  method FromEvents(events: seq<HostEvent>) returns (roots: seq<TraceFrame>)
    ensures roots == Parse(events)
  {
    var stack: seq<TraceFrame> := [];
    roots := [];
    for i := 0 to |events|
      invariant Parser(stack, roots) == Run(Parser([], []), events[..i])
    {
      Prefix(events, i);
      var e := events[i];
      if e.kind != Diagnostic {
        continue;
      }
      var kind := Kind(e.topics);
      if kind == Some("fn_call") {
        var parsed := ParseFnCall(e.topics, e.data, e.failedCall);
        if parsed.None? {
          continue;
        }
        stack := stack + [parsed.value];
      } else if kind == Some("fn_return") {
        if stack != [] {
          var frame := Last(stack);
          stack := Init(stack);
          frame := frame.(result := Returned(e.data));
          if e.failedCall {
            frame := frame.(rolledBack := true);
          }
          stack, roots := AttachInPlace(stack, roots, frame);
        }
      }
    }
    assert events[..|events|] == events;
    while stack != []
      invariant Drain(Parser(stack, roots)) == Parse(events)
      decreases |stack|
    {
      var frame := Last(stack);
      stack, roots := AttachInPlace(Init(stack), roots, frame.(result := Trapped, rolledBack := true));
    }
  }

  /** `attach`: push under the innermost open frame, or among the roots when none is open. */
  method AttachInPlace(stack: seq<TraceFrame>, roots: seq<TraceFrame>, frame: TraceFrame)
    returns (stack': seq<TraceFrame>, roots': seq<TraceFrame>)
    ensures Parser(stack', roots') == Attach(stack, roots, frame)
    ensures |stack'| == |stack|
  {
    stack', roots' := stack, roots;
    if stack != [] {
      var parent := Last(stack);
      stack' := stack'[|stack| - 1 := parent.(children := parent.children + [frame])];
    } else {
      roots' := roots + [frame];
    }
  }

  // ---- the accessors ----

  function FrameCount(frames: seq<TraceFrame>): nat {
    if frames == [] then 0
    else FrameCount(Init(frames)) + 1 + FrameCount(Last(frames).children)
  }

  predicate HadFailures(frames: seq<TraceFrame>) {
    frames != [] &&
    (HadFailures(Init(frames)) || Last(frames).rolledBack || Last(frames).result.Trapped?
     || HadFailures(Last(frames).children))
  }
}
