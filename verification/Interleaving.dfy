/** Handlers interleaved over one worker. Their commands see the worker only through its ledger view and
    clock, so an interleaving can be followed on that pair alone. */
module Interleaving {
  import opened Wrappers
  import opened Ledger
  import opened Seqs
  import opened Actor
  import opened ActorViews
  import opened Handlers

  /** The part of a worker that the handlers can see. */
  datatype Fork = Fork(view: LedgerView, clock: Clock)

  function ForkOf(env: Env, w: State): Fork {
    Fork(ViewOf(env, w), w.clock)
  }

  predicate HandlerCommand(c: Command) {
    c.SetLedgerEntry? || c.GetLedgerEntries? || c.CloseLedgers? || c.GetLatestLedger?
  }

  function Answer(fork: Fork, c: Command): (Fork, Reply)
    requires HandlerCommand(c)
  {
    match c
    case SetLedgerEntry(key, entry, liveUntil) => (fork.(view := fork.view[key := Stored(entry, liveUntil)]), Written)
    case GetLedgerEntries(keys) => (fork, Entries(Lookups(fork.view, keys), fork.clock.sequence))
    case CloseLedgers(ledgers, seconds) =>
      var clock := Warp(fork.clock, ledgers, seconds);
      (fork.(clock := clock), Closed(clock.sequence, clock.timestamp))
    case GetLatestLedger => (fork, LatestLedger(fork.clock.sequence))
  }

  /** A worker that cannot lose a fetch answers these commands as its fork does. */
  lemma WorkerAnswersAsFork(env: Env, w: State, c: Command)
    requires Reliable(env.cfg) && w.alive && HandlerCommand(c)
    ensures var (w', reply) := Exec(env, w, c);
      w'.alive && (ForkOf(env, w'), reply) == Answer(ForkOf(env, w), c)
  {
    match c
    case SetLedgerEntry(key, entry, liveUntil) => WriteOnView(env, w, key, entry, liveUntil);
    case GetLedgerEntries(keys) => ReadsKeepView(env.cfg, w.source, keys);
    case _ =>
  }

  // ---- schedules ----

  datatype System = System(fork: Fork, pcs: seq<Pc>)

  predicate AllFit(requests: seq<Request>, pcs: seq<Pc>) {
    |pcs| == |requests| && forall i :: 0 <= i < |pcs| ==> Fits(requests[i], pcs[i])
  }

  function AllStart(n: nat): seq<Pc> {
    seq(n, _ => Start)
  }

  /** Handler `i` sends its next command and takes the reply; nothing if it has finished. */
  function Tick(sha: Sha256, requests: seq<Request>, s: System, i: nat): (r: System)
    requires AllFit(requests, s.pcs)
    ensures AllFit(requests, r.pcs)
  {
    if i >= |requests| || Finished(s.pcs[i]) then s
    else
      var (fork, reply) := Answer(s.fork, NextCommand(sha, requests[i], s.pcs[i]));
      System(fork, s.pcs[i := Resume(requests[i], s.pcs[i], reply)])
  }

  function RunSchedule(sha: Sha256, requests: seq<Request>, s: System, schedule: seq<nat>): (r: System)
    requires AllFit(requests, s.pcs)
    ensures AllFit(requests, r.pcs)
  {
    if schedule == [] then s else Tick(sha, requests, RunSchedule(sha, requests, s, Init(schedule)), Last(schedule))
  }

  predicate AllFinished(pcs: seq<Pc>) {
    forall i :: 0 <= i < |pcs| ==> Finished(pcs[i])
  }

  /** The same schedule on the worker itself. */
  function RunWorker(env: Env, sha: Sha256, requests: seq<Request>, w: State, schedule: seq<nat>): (r: (State, seq<Pc>))
    ensures AllFit(requests, r.1)
  {
    if schedule == [] then (w, AllStart(|requests|))
    else
      var (w', pcs) := RunWorker(env, sha, requests, w, Init(schedule));
      var i := Last(schedule);
      if i >= |requests| || Finished(pcs[i]) then (w', pcs)
      else
        var (w'', reply) := Exec(env, w', NextCommand(sha, requests[i], pcs[i]));
        (w'', pcs[i := Resume(requests[i], pcs[i], reply)])
  }

  lemma {:induction false} WorkerRunsAsFork(
    env: Env, sha: Sha256, requests: seq<Request>, w: State, schedule: seq<nat>)
    requires Reliable(env.cfg) && w.alive
    ensures var (w', pcs) := RunWorker(env, sha, requests, w, schedule);
      w'.alive &&
      System(ForkOf(env, w'), pcs) == RunSchedule(sha, requests, System(ForkOf(env, w), AllStart(|requests|)), schedule)
  {
    if schedule == [] {
    } else {
      WorkerRunsAsFork(env, sha, requests, w, Init(schedule));
      var (w', pcs) := RunWorker(env, sha, requests, w, Init(schedule));
      var i := Last(schedule);
      if i < |requests| && !Finished(pcs[i]) {
        WorkerAnswersAsFork(env, w', NextCommand(sha, requests[i], pcs[i]));
      }
    }
  }

  // ---- one request with the fork to itself ----

  function Finish(sha: Sha256, req: Request, pc: Pc, fork: Fork): (Fork, Pc)
    requires Fits(req, pc)
    decreases StepsLeft(pc)
  {
    if Finished(pc) then (fork, pc)
    else
      var (fork', reply) := Answer(fork, NextCommand(sha, req, pc));
      Finish(sha, req, Resume(req, pc, reply), fork')
  }

  function Alone(sha: Sha256, req: Request, fork: Fork): (Fork, Pc) {
    Finish(sha, req, Start, fork)
  }

  /** The handlers' code, run undisturbed, does to the fork what `Alone` says. */
  lemma {:induction false} UndisturbedHandler(env: Env, sha: Sha256, req: Request, pc: Pc, w: State)
    requires Reliable(env.cfg) && w.alive && Fits(req, pc)
    ensures var (w', result) := FinishOn(env, sha, req, pc, w);
      w'.alive && (ForkOf(env, w'), result) == Finish(sha, req, pc, ForkOf(env, w))
    decreases StepsLeft(pc)
  {
    if !Finished(pc) {
      var c := NextCommand(sha, req, pc);
      WorkerAnswersAsFork(env, w, c);
      var (w', reply) := Exec(env, w, c);
      UndisturbedHandler(env, sha, req, Resume(req, pc, reply), w');
    }
  }

  // ---- what a request writes when it runs alone ----

  function WriteBalance(req: Request, pc: Pc): LedgerView
    requires req.SetBalance?
  {
    if pc.BalanceWrite? then map[BalanceKey(req) := Stored(pc.entry, None)] else map[]
  }

  function WriteInstance(sha: Sha256, req: Request, pc: Pc): LedgerView
    requires req.Etch?
  {
    if pc.EtchWrite? then map[InstanceKey(req.contract) := Stored(InstanceEntry(sha, req, pc.storage), req.liveUntil)]
    else map[]
  }

  function WriteCode(sha: Sha256, req: Request): LedgerView
    requires req.Etch? || req.SetCode?
  {
    map[CodeKey(sha, req.wasm) := Stored(CodeEntry(sha, req.wasm), req.liveUntil)]
  }

  function WriteStorage(req: Request): LedgerView
    requires req.SetStorage?
  {
    map[ContractDataKey(req.contract, req.key, req.durability) :=
          Stored(StorageEntry(req.contract, req.key, req.durability, req.value), req.liveUntil)]
  }

  function Effect(sha: Sha256, req: Request, fork: Fork): LedgerView {
    match req
    case SetStorage(_, _, _, _, _) => WriteStorage(req)
    case SetCode(_, _) => WriteCode(sha, req)
    case SetBalance(_, _, _) =>
      WriteBalance(req, AfterBalanceRead(req, LookupIn(fork.view, BalanceKey(req)), fork.clock.sequence))
    case Etch(_, _, _) =>
      WriteCode(sha, req)
      + WriteInstance(sha, req, AfterInstanceRead(LookupIn(fork.view, InstanceKey(req.contract))))
    case Close(_, _) => map[]
    case Read(_) => map[]
  }

  function ClockAfter(req: Request, clock: Clock): Clock {
    if req.Close? then Warp(clock, req.ledgers, req.seconds) else clock
  }

  lemma OneLookup(view: LedgerView, key: LedgerKey)
    ensures Lookups(view, [key]) == [LookupIn(view, key)]
  {
    assert Init([key]) == [] && Last([key]) == key;
  }

  lemma OneWrite(view: LedgerView, key: LedgerKey, stored: Stored)
    ensures view[key := stored] == view + map[key := stored]
  {
  }

  lemma BalanceAlone(sha: Sha256, req: Request, fork: Fork)
    requires req.SetBalance?
    ensures Alone(sha, req, fork).0 == Fork(fork.view + Effect(sha, req, fork), fork.clock)
  {
    var key := BalanceKey(req);
    var pc := AfterBalanceRead(req, LookupIn(fork.view, key), fork.clock.sequence);
    var c := NextCommand(sha, req, Start);
    OneLookup(fork.view, key);
    assert Answer(fork, c) == (fork, Entries([LookupIn(fork.view, key)], fork.clock.sequence));
    assert Resume(req, Start, Answer(fork, c).1) == pc;
    if pc.BalanceWrite? {
      OneWrite(fork.view, key, Stored(pc.entry, None));
      assert Finish(sha, req, pc, fork).0 == fork.(view := fork.view + WriteBalance(req, pc));
    } else {
      assert fork.view + map[] == fork.view;
    }
  }

  lemma EtchAlone(sha: Sha256, req: Request, fork: Fork)
    requires req.Etch?
    ensures Alone(sha, req, fork).0 == Fork(fork.view + Effect(sha, req, fork), fork.clock)
  {
    var key := InstanceKey(req.contract);
    var installed := fork.(view := fork.view + WriteCode(sha, req));
    OneWrite(fork.view, CodeKey(sha, req.wasm), Stored(CodeEntry(sha, req.wasm), req.liveUntil));
    assert Answer(fork, NextCommand(sha, req, Start)) == (installed, Written);
    assert Alone(sha, req, fork) == Finish(sha, req, EtchRead, installed);
    var pc := AfterInstanceRead(LookupIn(fork.view, key));
    EtchFromRead(sha, req, installed);
    assert LookupIn(installed.view, key) == LookupIn(fork.view, key);
    assert fork.view + WriteCode(sha, req) + WriteInstance(sha, req, pc)
        == fork.view + (WriteCode(sha, req) + WriteInstance(sha, req, pc));
  }

  lemma EtchFromRead(sha: Sha256, req: Request, fork: Fork)
    requires req.Etch?
    ensures Finish(sha, req, EtchRead, fork).0
         == fork.(view := fork.view
                    + WriteInstance(sha, req, AfterInstanceRead(LookupIn(fork.view, InstanceKey(req.contract)))))
  {
    var key := InstanceKey(req.contract);
    var c := NextCommand(sha, req, EtchRead);
    var pc := AfterInstanceRead(LookupIn(fork.view, key));
    OneLookup(fork.view, key);
    assert Answer(fork, c) == (fork, Entries([LookupIn(fork.view, key)], fork.clock.sequence));
    assert Resume(req, EtchRead, Answer(fork, c).1) == pc;
    assert Finish(sha, req, EtchRead, fork) == Finish(sha, req, pc, fork);
    if pc.EtchWrite? {
      OneWrite(fork.view, key, Stored(InstanceEntry(sha, req, pc.storage), req.liveUntil));
      var written := fork.(view := fork.view + WriteInstance(sha, req, pc));
      assert Answer(fork, NextCommand(sha, req, pc)) == (written, Written);
      FinishLatest(sha, req, written);
    } else {
      assert fork.view + map[] == fork.view;
    }
  }

  lemma WriteAlone(sha: Sha256, req: Request, fork: Fork)
    requires req.SetStorage? || req.SetCode?
    ensures Alone(sha, req, fork).0 == Fork(fork.view + Effect(sha, req, fork), fork.clock)
  {
    var c := NextCommand(sha, req, Start);
    OneWrite(fork.view, c.key, Stored(c.entry, c.liveUntil));
    var written := fork.(view := fork.view + Effect(sha, req, fork));
    assert Answer(fork, c) == (written, Written);
    FinishLatest(sha, req, written);
  }

  /** Alone, a request does nothing but overlay its effect and, for `closeLedgers`, move the clock. */
  lemma AloneIsEffect(sha: Sha256, req: Request, fork: Fork)
    ensures Alone(sha, req, fork).0 == Fork(fork.view + Effect(sha, req, fork), ClockAfter(req, fork.clock))
  {
    match req
    case SetStorage(_, _, _, _, _) => WriteAlone(sha, req, fork);
    case SetCode(_, _) => WriteAlone(sha, req, fork);
    case SetBalance(_, _, _) => BalanceAlone(sha, req, fork);
    case Etch(_, _, _) => EtchAlone(sha, req, fork);
    case Close(_, _) => assert fork.view + map[] == fork.view;
    case Read(_) => assert fork.view + map[] == fork.view;
  }

  lemma FinishLatest(sha: Sha256, req: Request, fork: Fork)
    requires Fits(req, AskLatest)
    ensures Finish(sha, req, AskLatest, fork).0 == fork
  {
  }
}
