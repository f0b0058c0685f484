/** Handlers on pairwise disjoint keys are serialisable: however their commands interleave, the ledger
    and the clock end as if the requests had run one after another, each at the moment of its read. */
module Serialisability {
  import opened Ledger
  import opened Seqs
  import Views
  import opened Actor
  import opened ActorViews
  import opened Handlers
  import opened Interleaving

  /** The ledger keys a request reads in order to write, or writes. */
  function Keys(sha: Sha256, req: Request): set<LedgerKey> {
    match req
    case SetStorage(contract, key, _, durability, _) => {ContractDataKey(contract, key, durability)}
    case SetCode(wasm, _) => {CodeKey(sha, wasm)}
    case SetBalance(_, _, _) => {BalanceKey(req)}
    case Etch(contract, wasm, _) => {CodeKey(sha, wasm), InstanceKey(contract)}
    case Close(_, _) => {}
    case Read(_) => {}
  }

  predicate Disjoint(sha: Sha256, requests: seq<Request>) {
    forall i, j :: 0 <= i < j < |requests| ==> Keys(sha, requests[i]) !! Keys(sha, requests[j])
  }

  /** The step at which a request takes its place in the serial order: its read, or its only write. */
  predicate TakesEffect(req: Request, pc: Pc) {
    if req.Etch? then pc.EtchRead? else pc.Start?
  }

  /** The requests in the order in which they took effect. */
  function SerialOrder(sha: Sha256, requests: seq<Request>, s: System, schedule: seq<nat>): (order: seq<nat>)
    requires AllFit(requests, s.pcs)
    ensures forall j :: 0 <= j < |order| ==> order[j] < |requests|
  {
    if schedule == [] then []
    else
      var before := RunSchedule(sha, requests, s, Init(schedule));
      var i := Last(schedule);
      SerialOrder(sha, requests, s, Init(schedule))
      + if i < |requests| && TakesEffect(requests[i], before.pcs[i]) then [i] else []
  }

  /** The requests of `order`, one whole request after another. */
  function RunSerially(sha: Sha256, requests: seq<Request>, fork: Fork, order: seq<nat>): Fork
    requires forall j :: 0 <= j < |order| ==> order[j] < |requests|
  {
    if order == [] then fork
    else Alone(sha, requests[Last(order)], RunSerially(sha, requests, fork, Init(order))).0
  }

  // ---- what a handler in mid-flight still owes, or has done ahead of its turn ----

  function Owed(sha: Sha256, req: Request, pc: Pc): LedgerView
    requires Fits(req, pc)
  {
    match pc
    case EtchWrite(_) => WriteInstance(sha, req, pc)
    case BalanceWrite(_, _) => WriteBalance(req, pc)
    case _ => map[]
  }

  function Ahead(sha: Sha256, req: Request, pc: Pc): LedgerView
    requires Fits(req, pc)
  {
    if pc.EtchRead? then WriteCode(sha, req) else map[]
  }

  predicate Settles(sha: Sha256, req: Request, pc: Pc, actual: LedgerView, serial: LedgerView)
    requires Fits(req, pc)
  {
    forall k :: k in Keys(sha, req) ==>
      LookupIn(actual + Owed(sha, req, pc), k) == LookupIn(serial + Ahead(sha, req, pc), k)
  }

  ghost predicate Linked(sha: Sha256, requests: seq<Request>, s: System, serial: Fork)
    requires AllFit(requests, s.pcs)
  {
    && s.fork.clock == serial.clock
    && (forall i :: 0 <= i < |requests| ==> Settles(sha, requests[i], s.pcs[i], s.fork.view, serial.view))
    && (forall k :: Unclaimed(sha, requests, k) ==> LookupIn(s.fork.view, k) == LookupIn(serial.view, k))
  }

  predicate Unclaimed(sha: Sha256, requests: seq<Request>, k: LedgerKey) {
    forall i :: 0 <= i < |requests| ==> k !in Keys(sha, requests[i])
  }

  ghost predicate SameElsewhere(a: LedgerView, b: LedgerView, keys: set<LedgerKey>) {
    forall k :: k !in keys ==> LookupIn(a, k) == LookupIn(b, k)
  }

  lemma OwnKeysOnly(sha: Sha256, req: Request, pc: Pc, fork: Fork)
    requires Fits(req, pc) && !Finished(pc)
    ensures SameElsewhere(Answer(fork, NextCommand(sha, req, pc)).0.view, fork.view, Keys(sha, req))
    ensures SameElsewhere(fork.view + Effect(sha, req, fork), fork.view, Keys(sha, req))
  {
  }

  /** The serial run after the interleaved one has taken a step of `req` at `pc`. */
  function Follow(sha: Sha256, req: Request, pc: Pc, serial: Fork): Fork {
    if TakesEffect(req, pc) then Alone(sha, req, serial).0 else serial
  }

  /** A handler's own keys after one of its own steps, with the serial run following. */
  predicate OwnStep(sha: Sha256, req: Request, pc: Pc, actual: Fork, serial: Fork)
    requires Fits(req, pc) && !Finished(pc)
  {
    var (actual', reply) := Answer(actual, NextCommand(sha, req, pc));
    var serial' := Follow(sha, req, pc, serial);
    actual'.clock == serial'.clock && Settles(sha, req, Resume(req, pc, reply), actual'.view, serial'.view)
  }

  lemma OverlayLookup(a: LedgerView, b: LedgerView, overlay: LedgerView, k: LedgerKey)
    requires k in overlay || LookupIn(a, k) == LookupIn(b, k)
    ensures LookupIn(a + overlay, k) == LookupIn(b + overlay, k)
    ensures a + map[] == a
  {
  }

  lemma BalanceReads(sha: Sha256, req: Request, fork: Fork)
    requires req.SetBalance?
    ensures var (fork', reply) := Answer(fork, NextCommand(sha, req, Start));
      && fork' == fork
      && Resume(req, Start, reply) == AfterBalanceRead(req, LookupIn(fork.view, BalanceKey(req)), fork.clock.sequence)
  {
    OneLookup(fork.view, BalanceKey(req));
  }

  lemma BalanceStarts(sha: Sha256, req: Request, actual: Fork, serial: Fork)
    requires req.SetBalance? && actual.clock == serial.clock
    requires Settles(sha, req, Start, actual.view, serial.view)
    ensures OwnStep(sha, req, Start, actual, serial)
  {
    var key := BalanceKey(req);
    assert key in Keys(sha, req);
    OverlayLookup(actual.view, actual.view, map[], key);
    OverlayLookup(serial.view, serial.view, map[], key);
    assert LookupIn(actual.view, key) == LookupIn(serial.view, key);
    BalanceReads(sha, req, actual);
    BalanceAlone(sha, req, serial);
    var pc := AfterBalanceRead(req, LookupIn(serial.view, key), serial.clock.sequence);
    var owed := WriteBalance(req, pc);
    assert Owed(sha, req, pc) == owed && Effect(sha, req, serial) == owed;
    OverlayLookup(actual.view, serial.view, owed, key);
    OverlayLookup(serial.view + owed, serial.view + owed, map[], key);
  }

  lemma EtchStarts(sha: Sha256, req: Request, actual: Fork, serial: Fork)
    requires req.Etch? && actual.clock == serial.clock
    requires Settles(sha, req, Start, actual.view, serial.view)
    ensures OwnStep(sha, req, Start, actual, serial)
  {
    var code := WriteCode(sha, req);
    OneWrite(actual.view, CodeKey(sha, req.wasm), Stored(CodeEntry(sha, req.wasm), req.liveUntil));
    forall k | k in Keys(sha, req)
      ensures LookupIn(actual.view + code + map[], k) == LookupIn(serial.view + code, k)
    {
      OverlayLookup(actual.view, actual.view, map[], k);
      OverlayLookup(serial.view, serial.view, map[], k);
      OverlayLookup(actual.view, serial.view, code, k);
      OverlayLookup(actual.view + code, actual.view + code, map[], k);
    }
  }

  /** What an etch overlays on the serial view, in the two parts in which the handler writes it. */
  lemma EtchAloneInParts(sha: Sha256, req: Request, serial: Fork)
    requires req.Etch?
    ensures Alone(sha, req, serial).0
         == serial.(view := serial.view + WriteCode(sha, req)
                      + WriteInstance(sha, req, AfterInstanceRead(LookupIn(serial.view, InstanceKey(req.contract)))))
  {
    var code := WriteCode(sha, req);
    var owed := WriteInstance(sha, req, AfterInstanceRead(LookupIn(serial.view, InstanceKey(req.contract))));
    EtchAlone(sha, req, serial);
    assert Effect(sha, req, serial) == code + owed;
    assert serial.view + code + owed == serial.view + (code + owed);
  }

  lemma EtchReads(sha: Sha256, req: Request, actual: Fork, serial: Fork)
    requires req.Etch? && actual.clock == serial.clock
    requires Settles(sha, req, EtchRead, actual.view, serial.view)
    ensures OwnStep(sha, req, EtchRead, actual, serial)
  {
    var key, code := InstanceKey(req.contract), WriteCode(sha, req);
    assert key in Keys(sha, req) && CodeKey(sha, req.wasm) in Keys(sha, req);
    OverlayLookup(actual.view, actual.view, map[], key);
    assert LookupIn(serial.view + code, key) == LookupIn(serial.view, key);
    OneLookup(actual.view, key);
    var pc := AfterInstanceRead(LookupIn(serial.view, key));
    assert Answer(actual, NextCommand(sha, req, EtchRead)).1
        == Entries([LookupIn(serial.view, key)], actual.clock.sequence);
    EtchAloneInParts(sha, req, serial);
    var owed := Owed(sha, req, pc);
    var serial' := serial.view + code + owed;
    forall k | k in Keys(sha, req) ensures LookupIn(actual.view + owed, k) == LookupIn(serial' + map[], k) {
      assert LookupIn(actual.view + map[], k) == LookupIn(serial.view + code, k);
      OverlayLookup(actual.view, serial.view + code, owed, k);
      OverlayLookup(serial', serial', map[], k);
    }
  }

  lemma OwnStepSettles(sha: Sha256, req: Request, pc: Pc, actual: Fork, serial: Fork)
    requires Fits(req, pc) && !Finished(pc) && actual.clock == serial.clock
    requires Settles(sha, req, pc, actual.view, serial.view)
    ensures OwnStep(sha, req, pc, actual, serial)
  {
    if pc.Start? && req.SetBalance? {
      BalanceStarts(sha, req, actual, serial);
    } else if pc.Start? && req.Etch? {
      EtchStarts(sha, req, actual, serial);
    } else if pc.EtchRead? {
      EtchReads(sha, req, actual, serial);
    } else if pc.Start? {
      AloneIsEffect(sha, req, serial);
    }
  }

  lemma StepStaysLinked(sha: Sha256, requests: seq<Request>, s: System, serial: Fork, i: nat)
    requires AllFit(requests, s.pcs) && Disjoint(sha, requests) && Linked(sha, requests, s, serial)
    requires i < |requests| && !Finished(s.pcs[i])
    ensures Linked(sha, requests, Tick(sha, requests, s, i), Follow(sha, requests[i], s.pcs[i], serial))
  {
    var req, pc := requests[i], s.pcs[i];
    var s' := Tick(sha, requests, s, i);
    var serial' := Follow(sha, req, pc, serial);
    OwnStepSettles(sha, req, pc, s.fork, serial);
    OwnKeysOnly(sha, req, pc, s.fork);
    OwnKeysOnly(sha, req, pc, serial);
    AloneIsEffect(sha, req, serial);
    assert SameElsewhere(s'.fork.view, s.fork.view, Keys(sha, req));
    assert SameElsewhere(serial'.view, serial.view, Keys(sha, req));
    forall j | 0 <= j < |requests|
      ensures Settles(sha, requests[j], s'.pcs[j], s'.fork.view, serial'.view)
    {
      if j != i {
        OthersStaySettled(sha, requests[j], s.pcs[j], s.fork.view, serial.view,
                          s'.fork.view, serial'.view, Keys(sha, req));
      }
    }
    forall k | Unclaimed(sha, requests, k) ensures LookupIn(s'.fork.view, k) == LookupIn(serial'.view, k) {
      assert k !in Keys(sha, req);
    }
  }

  lemma OthersStaySettled(
    sha: Sha256, req: Request, pc: Pc, actual: LedgerView, serial: LedgerView, actual': LedgerView, serial': LedgerView,
    touched: set<LedgerKey>)
    requires Fits(req, pc) && Settles(sha, req, pc, actual, serial) && Keys(sha, req) !! touched
    requires SameElsewhere(actual', actual, touched) && SameElsewhere(serial', serial, touched)
    ensures Settles(sha, req, pc, actual', serial')
  {
    forall k | k in Keys(sha, req)
      ensures LookupIn(actual' + Owed(sha, req, pc), k) == LookupIn(serial' + Ahead(sha, req, pc), k)
    {
      assert k !in touched;
      assert LookupIn(actual', k) == LookupIn(actual, k) && LookupIn(serial', k) == LookupIn(serial, k);
      assert LookupIn(actual + Owed(sha, req, pc), k) == LookupIn(serial + Ahead(sha, req, pc), k);
    }
  }

  // ---- whole schedules ----

  /** A request has taken effect once it is past its step. */
  predicate HasTakenEffect(req: Request, pc: Pc) {
    !pc.Start? && !pc.EtchRead?
  }

  predicate OrderIsRight(requests: seq<Request>, pcs: seq<Pc>, order: seq<nat>)
    requires |pcs| == |requests|
  {
    && (forall j :: 0 <= j < |order| ==> order[j] < |requests|)
    && Distinct(order)
    && (forall i :: 0 <= i < |requests| ==> (i in order <==> HasTakenEffect(requests[i], pcs[i])))
  }

  lemma OrderStep(sha: Sha256, requests: seq<Request>, s: System, order: seq<nat>, i: nat)
    requires AllFit(requests, s.pcs) && OrderIsRight(requests, s.pcs, order)
    requires i < |requests| && !Finished(s.pcs[i])
    ensures OrderIsRight(requests, Tick(sha, requests, s, i).pcs,
                         order + if TakesEffect(requests[i], s.pcs[i]) then [i] else [])
  {
    var req, pc := requests[i], s.pcs[i];
    var order' := order + if TakesEffect(req, pc) then [i] else [];
    var (_, reply) := Answer(s.fork, NextCommand(sha, req, pc));
    var pc' := Resume(req, pc, reply);
    assert TakesEffect(req, pc) || HasTakenEffect(req, pc') == HasTakenEffect(req, pc);
    assert TakesEffect(req, pc) ==> HasTakenEffect(req, pc') && !HasTakenEffect(req, pc);
    forall j | 0 <= j < |requests| ensures j in order' <==> HasTakenEffect(requests[j], s.pcs[i := pc'][j]) {
      assert j in order' <==> j in order || (TakesEffect(req, pc) && j == i);
    }
  }

  lemma {:induction false} OrderStaysRight(sha: Sha256, requests: seq<Request>, fork: Fork, schedule: seq<nat>)
    ensures var start := System(fork, AllStart(|requests|));
      OrderIsRight(requests, RunSchedule(sha, requests, start, schedule).pcs,
                   SerialOrder(sha, requests, start, schedule))
  {
    if schedule == [] {
    } else {
      var start := System(fork, AllStart(|requests|));
      var s := RunSchedule(sha, requests, start, Init(schedule));
      var i := Last(schedule);
      OrderStaysRight(sha, requests, fork, Init(schedule));
      if i < |requests| && !Finished(s.pcs[i]) {
        OrderStep(sha, requests, s, SerialOrder(sha, requests, start, Init(schedule)), i);
      }
    }
  }

  lemma StartIsLinked(sha: Sha256, requests: seq<Request>, fork: Fork)
    ensures Linked(sha, requests, System(fork, AllStart(|requests|)), fork)
  {
  }

  /** The serial run along the order in which requests have taken effect so far. */
  function SerialSoFar(sha: Sha256, requests: seq<Request>, fork: Fork, schedule: seq<nat>): Fork {
    RunSerially(sha, requests, fork, SerialOrder(sha, requests, System(fork, AllStart(|requests|)), schedule))
  }

  lemma OrderOneMore(sha: Sha256, requests: seq<Request>, start: System, schedule: seq<nat>)
    requires schedule != [] && AllFit(requests, start.pcs)
    ensures var s := RunSchedule(sha, requests, start, Init(schedule));
      var i := Last(schedule);
      var order := SerialOrder(sha, requests, start, Init(schedule));
      && RunSchedule(sha, requests, start, schedule) == Tick(sha, requests, s, i)
      && (i < |requests| ==>
            SerialOrder(sha, requests, start, schedule)
            == order + if TakesEffect(requests[i], s.pcs[i]) then [i] else [])
      && (i >= |requests| || Finished(s.pcs[i]) ==> SerialOrder(sha, requests, start, schedule) == order)
  {
  }

  /** The serial run after one more tick of the schedule. */
  lemma SerialOneMore(sha: Sha256, requests: seq<Request>, fork: Fork, schedule: seq<nat>)
    requires schedule != []
    ensures var s := RunSchedule(sha, requests, System(fork, AllStart(|requests|)), Init(schedule));
      var i := Last(schedule);
      SerialSoFar(sha, requests, fork, schedule)
      == if i < |requests| && !Finished(s.pcs[i])
         then Follow(sha, requests[i], s.pcs[i], SerialSoFar(sha, requests, fork, Init(schedule)))
         else SerialSoFar(sha, requests, fork, Init(schedule))
  {
    var start := System(fork, AllStart(|requests|));
    var i := Last(schedule);
    OrderOneMore(sha, requests, start, schedule);
    if i < |requests| {
      var pc := RunSchedule(sha, requests, start, Init(schedule)).pcs[i];
      FollowsInOrder(sha, requests, fork, SerialOrder(sha, requests, start, Init(schedule)), i, pc);
    }
  }

  lemma {:induction false} ScheduleStaysLinked(sha: Sha256, requests: seq<Request>, fork: Fork, schedule: seq<nat>)
    requires Disjoint(sha, requests)
    ensures Linked(sha, requests, RunSchedule(sha, requests, System(fork, AllStart(|requests|)), schedule),
                   SerialSoFar(sha, requests, fork, schedule))
  {
    var start := System(fork, AllStart(|requests|));
    if schedule == [] {
      StartIsLinked(sha, requests, fork);
    } else {
      var s := RunSchedule(sha, requests, start, Init(schedule));
      var i := Last(schedule);
      ScheduleStaysLinked(sha, requests, fork, Init(schedule));
      OrderOneMore(sha, requests, start, schedule);
      SerialOneMore(sha, requests, fork, schedule);
      if i < |requests| && !Finished(s.pcs[i]) {
        StepStaysLinked(sha, requests, s, SerialSoFar(sha, requests, fork, Init(schedule)), i);
      }
    }
  }

  lemma FollowsInOrder(sha: Sha256, requests: seq<Request>, fork: Fork, order: seq<nat>, i: nat, pc: Pc)
    requires i < |requests| && forall j :: 0 <= j < |order| ==> order[j] < |requests|
    ensures var order' := order + if TakesEffect(requests[i], pc) then [i] else [];
      && (forall j :: 0 <= j < |order'| ==> order'[j] < |requests|)
      && RunSerially(sha, requests, fork, order')
         == Follow(sha, requests[i], pc, RunSerially(sha, requests, fork, order))
  {
    Pushed(order, i);
    assert order + [] == order;
  }

  lemma NothingIsOwed(sha: Sha256, requests: seq<Request>, s: System, serial: Fork)
    requires AllFit(requests, s.pcs) && Linked(sha, requests, s, serial) && AllFinished(s.pcs)
    ensures s.fork == serial
  {
    forall k ensures LookupIn(s.fork.view, k) == LookupIn(serial.view, k) {
      if i :| 0 <= i < |requests| && k in Keys(sha, requests[i]) {
        assert Finished(s.pcs[i]);
        assert Settles(sha, requests[i], s.pcs[i], s.fork.view, serial.view);
        OverlayLookup(s.fork.view, s.fork.view, map[], k);
        OverlayLookup(serial.view, serial.view, map[], k);
      } else {
        assert Unclaimed(sha, requests, k);
      }
    }
    Views.SameLookups(s.fork.view, serial.view);
  }

  /** Any interleaving that runs every handler to its end leaves the ledger and the clock that the
      serial order leaves, and that order is a permutation of the requests. */
  lemma Serialisable(sha: Sha256, requests: seq<Request>, fork: Fork, schedule: seq<nat>)
    requires Disjoint(sha, requests)
    requires AllFinished(RunSchedule(sha, requests, System(fork, AllStart(|requests|)), schedule).pcs)
    ensures var start := System(fork, AllStart(|requests|));
      var order := SerialOrder(sha, requests, start, schedule);
      && Distinct(order) && (forall i :: i in order <==> 0 <= i < |requests|)
      && RunSchedule(sha, requests, start, schedule).fork == RunSerially(sha, requests, fork, order)
  {
    var s := RunSchedule(sha, requests, System(fork, AllStart(|requests|)), schedule);
    var order := SerialOrder(sha, requests, System(fork, AllStart(|requests|)), schedule);
    ScheduleStaysLinked(sha, requests, fork, schedule);
    OrderStaysRight(sha, requests, fork, schedule);
    var serial := RunSerially(sha, requests, fork, order);
    NothingIsOwed(sha, requests, s, serial);
  }

  /** The same of the worker that really ran the commands. */
  lemma WorkerIsSerialisable(env: Env, sha: Sha256, requests: seq<Request>, w: State, schedule: seq<nat>)
    requires Reliable(env.cfg) && w.alive && Disjoint(sha, requests)
    requires AllFinished(RunWorker(env, sha, requests, w, schedule).1)
    ensures var order := SerialOrder(sha, requests, System(ForkOf(env, w), AllStart(|requests|)), schedule);
      && Distinct(order) && (forall i :: i in order <==> 0 <= i < |requests|)
      && ForkOf(env, RunWorker(env, sha, requests, w, schedule).0) == RunSerially(sha, requests, ForkOf(env, w), order)
  {
    WorkerRunsAsFork(env, sha, requests, w, schedule);
    Serialisable(sha, requests, ForkOf(env, w), schedule);
  }
}
