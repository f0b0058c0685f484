/** `fork_etch` under races (`src/server/handlers.rs`): whatever runs beside it, an etched instance names
    code that is there and hashes to its key, and etches alone never lose instance storage. */
module EtchRaces {
  import opened Wrappers
  import opened Ledger
  import opened Seqs
  import opened Actor
  import opened ActorViews
  import opened Handlers
  import opened Interleaving

  /** For each key written so far, the request that wrote it last. */
  function Writers(sha: Sha256, requests: seq<Request>, s: System, schedule: seq<nat>): (r: map<LedgerKey, nat>)
    requires AllFit(requests, s.pcs)
    ensures forall k :: k in r ==> r[k] < |requests|
  {
    if schedule == [] then map[]
    else
      var before := RunSchedule(sha, requests, s, Init(schedule));
      var writers := Writers(sha, requests, s, Init(schedule));
      var i := Last(schedule);
      if i < |requests| && !Finished(before.pcs[i]) && NextCommand(sha, requests[i], before.pcs[i]).SetLedgerEntry?
      then writers[NextCommand(sha, requests[i], before.pcs[i]).key := i]
      else writers
  }

  /** Request `i`, stepping in `before`, writes `key`. */
  predicate StepWrites(sha: Sha256, requests: seq<Request>, before: System, i: nat, key: LedgerKey)
    requires AllFit(requests, before.pcs)
  {
    i < |requests| && !Finished(before.pcs[i]) &&
    var c := NextCommand(sha, requests[i], before.pcs[i]);
    c.SetLedgerEntry? && c.key == key
  }

  /** For each step of `schedule`, whether it writes `key`. */
  function Marks(sha: Sha256, requests: seq<Request>, s: System, schedule: seq<nat>, key: LedgerKey): (r: seq<bool>)
    requires AllFit(requests, s.pcs)
    ensures |r| == |schedule|
  {
    if schedule == [] then []
    else
      Marks(sha, requests, s, Init(schedule), key)
      + [StepWrites(sha, requests, RunSchedule(sha, requests, s, Init(schedule)), Last(schedule), key)]
  }

  predicate LastTrue(marks: seq<bool>, n: nat) {
    n < |marks| && marks[n] && forall m :: n < m < |marks| ==> !marks[m]
  }

  lemma OneMoreMark(marks: seq<bool>, mark: bool, n: nat)
    ensures mark ==> LastTrue(marks + [mark], |marks|)
    ensures !mark ==> (LastTrue(marks + [mark], n) <==> LastTrue(marks, n))
  {
    if !mark && LastTrue(marks + [mark], n) {
      assert n != |marks|;
      assert forall m :: 0 <= m < |marks| ==> marks[m] == (marks + [mark])[m];
    }
  }

  lemma OneMoreWriter(sha: Sha256, requests: seq<Request>, s: System, schedule: seq<nat>, key: LedgerKey)
    requires AllFit(requests, s.pcs) && schedule != []
    ensures var before := RunSchedule(sha, requests, s, Init(schedule));
      var earlier, writers := Writers(sha, requests, s, Init(schedule)), Writers(sha, requests, s, schedule);
      if StepWrites(sha, requests, before, Last(schedule), key) then key in writers && writers[key] == Last(schedule)
      else (key in writers <==> key in earlier) && (key in earlier ==> writers[key] == earlier[key])
  {
  }

  /** `Writers` knows exactly the keys that some step has written, and for each the request that wrote it
      last. */
  lemma {:induction false} WritersWroteLast(
    sha: Sha256, requests: seq<Request>, s: System, schedule: seq<nat>, key: LedgerKey)
    requires AllFit(requests, s.pcs)
    ensures var writers, marks := Writers(sha, requests, s, schedule), Marks(sha, requests, s, schedule, key);
      if key in writers then exists n: nat :: LastTrue(marks, n) && writers[key] == schedule[n]
      else true !in marks
  {
    if schedule == [] {
    } else {
      var before := Marks(sha, requests, s, Init(schedule), key);
      var mark := StepWrites(sha, requests, RunSchedule(sha, requests, s, Init(schedule)), Last(schedule), key);
      WritersWroteLast(sha, requests, s, Init(schedule), key);
      OneMoreWriter(sha, requests, s, schedule, key);
      OneMoreMark(before, mark, 0);
      if mark {
        assert LastTrue(before + [mark], |before|) && schedule[|before|] == Last(schedule);
      } else if key in Writers(sha, requests, s, Init(schedule)) {
        var n: nat :| LastTrue(before, n) && Writers(sha, requests, s, Init(schedule))[key] == Init(schedule)[n];
        OneMoreMark(before, mark, n);
        assert schedule[n] == Init(schedule)[n];
      }
    }
  }

  /** The entry under a code key is code whose hash is that key. */
  predicate HoldsItsCode(sha: Sha256, view: LedgerView, key: LedgerKey) {
    key.ContractCodeKey? && key in view && view[key].entry.data.ContractCode? &&
    view[key].entry.data.hash == key.hash && sha(view[key].entry.data.code) == key.hash
  }

  /** The entry under the etched contract's instance key runs the wasm of `req`. */
  predicate NamesItsCode(sha: Sha256, view: LedgerView, req: Request)
    requires req.Etch?
  {
    var key := InstanceKey(req.contract);
    key in view && view[key].entry.data.ContractData? && view[key].entry.data.val.ContractInstance? &&
    view[key].entry.data.val.executable == Wasm(sha(req.wasm))
  }

  predicate Sound(sha: Sha256, requests: seq<Request>, s: System, writers: map<LedgerKey, nat>)
    requires AllFit(requests, s.pcs) && forall k :: k in writers ==> writers[k] < |requests|
  {
    && (forall k :: k in writers && k.ContractCodeKey? ==> HoldsItsCode(sha, s.fork.view, k))
    && (forall i :: 0 <= i < |requests| && requests[i].Etch? && !s.pcs[i].Start? ==>
          CodeKey(sha, requests[i].wasm) in writers)
    && (forall k :: k in writers && requests[writers[k]].Etch? && k == InstanceKey(requests[writers[k]].contract) ==>
          NamesItsCode(sha, s.fork.view, requests[writers[k]]) && !s.pcs[writers[k]].Start?)
  }

  lemma TickStaysSound(sha: Sha256, requests: seq<Request>, s: System, writers: map<LedgerKey, nat>, i: nat)
    requires AllFit(requests, s.pcs) && forall k :: k in writers ==> writers[k] < |requests|
    requires Sound(sha, requests, s, writers) && i < |requests| && !Finished(s.pcs[i])
    ensures var c := NextCommand(sha, requests[i], s.pcs[i]);
      Sound(sha, requests, Tick(sha, requests, s, i), if c.SetLedgerEntry? then writers[c.key := i] else writers)
  {
    var req, pc := requests[i], s.pcs[i];
    var c := NextCommand(sha, req, pc);
    var s' := Tick(sha, requests, s, i);
    var writers' := if c.SetLedgerEntry? then writers[c.key := i] else writers;
    forall k | k in writers' && k.ContractCodeKey? ensures HoldsItsCode(sha, s'.fork.view, k) {
      if c.SetLedgerEntry? && k == c.key {
        assert pc.Start? && (req.Etch? || req.SetCode?);
      } else {
        assert HoldsItsCode(sha, s.fork.view, k);
      }
    }
    forall j | 0 <= j < |requests| && requests[j].Etch? && !s'.pcs[j].Start?
      ensures CodeKey(sha, requests[j].wasm) in writers'
    {
    }
    forall k | k in writers' && requests[writers'[k]].Etch? && k == InstanceKey(requests[writers'[k]].contract)
      ensures NamesItsCode(sha, s'.fork.view, requests[writers'[k]]) && !s'.pcs[writers'[k]].Start?
    {
      if c.SetLedgerEntry? && k == c.key {
        assert pc.EtchWrite?;
      } else {
        assert NamesItsCode(sha, s.fork.view, requests[writers[k]]);
      }
    }
  }

  lemma {:induction false} RunStaysSound(sha: Sha256, requests: seq<Request>, fork: Fork, schedule: seq<nat>)
    ensures var start := System(fork, AllStart(|requests|));
      Sound(sha, requests, RunSchedule(sha, requests, start, schedule), Writers(sha, requests, start, schedule))
  {
    if schedule == [] {
    } else {
      var start := System(fork, AllStart(|requests|));
      var s := RunSchedule(sha, requests, start, Init(schedule));
      RunStaysSound(sha, requests, fork, Init(schedule));
      if Last(schedule) < |requests| && !Finished(s.pcs[Last(schedule)]) {
        TickStaysSound(sha, requests, s, Writers(sha, requests, start, Init(schedule)), Last(schedule));
      }
    }
  }

  /** In every reachable ledger: a code entry these handlers wrote hashes to its key, and an instance an
      etch wrote last names code that is present and hashes to the name. */
  lemma {:induction false} EtchIntegrity(
    env: Env, sha: Sha256, requests: seq<Request>, w: State, schedule: seq<nat>, key: LedgerKey)
    requires Reliable(env.cfg) && w.alive
    ensures var view := ViewOf(env, RunWorker(env, sha, requests, w, schedule).0);
      var writers := Writers(sha, requests, System(ForkOf(env, w), AllStart(|requests|)), schedule);
      key in writers ==>
        var req := requests[writers[key]];
        && (key.ContractCodeKey? ==> HoldsItsCode(sha, view, key))
        && (req.Etch? && key == InstanceKey(req.contract) ==>
              NamesItsCode(sha, view, req)
              && HoldsItsCode(sha, view, ContractCodeKey(view[key].entry.data.val.executable.hash)))
  {
    WorkerRunsAsFork(env, sha, requests, w, schedule);
    RunStaysSound(sha, requests, ForkOf(env, w), schedule);
    var writers := Writers(sha, requests, System(ForkOf(env, w), AllStart(|requests|)), schedule);
    if key in writers && requests[writers[key]].Etch? {
      assert key == InstanceKey(requests[writers[key]].contract) ==>
               CodeKey(sha, requests[writers[key]].wasm) in writers;
    }
  }

  // ---- instance storage ----

  datatype InstanceStorage = Kept(storage: Option<seq<(ScVal, ScVal)>>) | NotAnInstance(entry: LedgerEntry)

  /** A contract without an instance has, for this purpose, an instance with no storage. */
  function StorageOf(view: LedgerView, contract: ContractId): InstanceStorage {
    match LookupIn(view, InstanceKey(contract))
    case None => Kept(None)
    case Some(stored) =>
      match stored.entry.data
      case ContractData(_, _, _, ContractInstance(_, storage)) => Kept(storage)
      case _ => NotAnInstance(stored.entry)
  }

  /** Nothing but etches of `contract` writes its instance key. */
  predicate OnlyEtchesWrite(requests: seq<Request>, contract: ContractId) {
    forall i :: 0 <= i < |requests| && requests[i].SetStorage? ==>
      ContractDataKey(requests[i].contract, requests[i].key, requests[i].durability) != InstanceKey(contract)
  }

  predicate StorageKept(requests: seq<Request>, s: System, contract: ContractId, storage: InstanceStorage)
    requires AllFit(requests, s.pcs)
  {
    && StorageOf(s.fork.view, contract) == storage
    && (forall i :: 0 <= i < |requests| && requests[i].Etch? && requests[i].contract == contract
                    && s.pcs[i].EtchWrite? ==>
          storage == Kept(s.pcs[i].storage))
  }

  lemma TickKeepsStorage(
    sha: Sha256, requests: seq<Request>, s: System, contract: ContractId, storage: InstanceStorage, i: nat)
    requires AllFit(requests, s.pcs) && OnlyEtchesWrite(requests, contract)
    requires StorageKept(requests, s, contract, storage) && i < |requests| && !Finished(s.pcs[i])
    ensures StorageKept(requests, Tick(sha, requests, s, i), contract, storage)
  {
    var req, pc := requests[i], s.pcs[i];
    var c := NextCommand(sha, req, pc);
    if pc.EtchRead? {
      OneLookup(s.fork.view, InstanceKey(req.contract));
      assert Tick(sha, requests, s, i).pcs[i] == AfterInstanceRead(LookupIn(s.fork.view, InstanceKey(req.contract)));
    } else if c.SetLedgerEntry? && c.key == InstanceKey(contract) {
      assert pc.EtchWrite? && req.contract == contract;
    }
  }

  lemma {:induction false} RunKeepsStorage(
    sha: Sha256, requests: seq<Request>, fork: Fork, schedule: seq<nat>, contract: ContractId)
    requires OnlyEtchesWrite(requests, contract)
    ensures StorageKept(requests, RunSchedule(sha, requests, System(fork, AllStart(|requests|)), schedule), contract,
                        StorageOf(fork.view, contract))
  {
    if schedule == [] {
    } else {
      var s := RunSchedule(sha, requests, System(fork, AllStart(|requests|)), Init(schedule));
      RunKeepsStorage(sha, requests, fork, Init(schedule), contract);
      if Last(schedule) < |requests| && !Finished(s.pcs[Last(schedule)]) {
        TickKeepsStorage(sha, requests, s, contract, StorageOf(fork.view, contract), Last(schedule));
      }
    }
  }

  /** Racing etches of one contract, with no other writer of its instance, never change its storage. */
  lemma RacingEtchesKeepStorage(
    env: Env, sha: Sha256, requests: seq<Request>, w: State, schedule: seq<nat>, contract: ContractId)
    requires Reliable(env.cfg) && w.alive && OnlyEtchesWrite(requests, contract)
    ensures StorageOf(ViewOf(env, RunWorker(env, sha, requests, w, schedule).0), contract)
         == StorageOf(ViewOf(env, w), contract)
  {
    WorkerRunsAsFork(env, sha, requests, w, schedule);
    RunKeepsStorage(sha, requests, ForkOf(env, w), schedule, contract);
  }
}
