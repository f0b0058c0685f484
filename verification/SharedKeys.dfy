/** Why `Serialisability` asks for disjoint keys. On a shared key the order of the reads need not be the
    serial order, and there may be no serial order at all: an etch between whose read and write another
    client writes the instance loses that client's update. */
module SharedKeys {
  import opened Wrappers
  import opened Ledger
  import opened Seqs
  import opened Actor
  import opened Handlers
  import opened Interleaving
  import opened Serialisability

  // ---- two setBalance calls that both read first, the second reader writing first ----

  function Requests(account: AccountId): seq<Request> {
    [SetBalance(account, Native, 10), SetBalance(account, Native, 20)]
  }

  function Begin(clock: Clock): System {
    System(Fork(map[], clock), AllStart(2))
  }

  function Write(account: AccountId, amount: I64, clock: Clock): Pc {
    BalanceWrite(DefaultAccount(account, amount, clock.sequence), clock.sequence)
  }

  function Holding(account: AccountId, amount: I64, clock: Clock): Fork {
    Fork(map[AccountKey(account) := Stored(DefaultAccount(account, amount, clock.sequence), None)], clock)
  }

  lemma BothRead(sha: Sha256, account: AccountId, clock: Clock)
    ensures var one := Tick(sha, Requests(account), Begin(clock), 0);
      && one == System(Fork(map[], clock), [Write(account, 10, clock), Start])
      && Tick(sha, Requests(account), one, 1)
         == System(Fork(map[], clock), [Write(account, 10, clock), Write(account, 20, clock)])
  {
    OneLookup(map[], AccountKey(account));
  }

  lemma SecondWritesFirst(sha: Sha256, account: AccountId, clock: Clock)
    ensures var two := System(Fork(map[], clock), [Write(account, 10, clock), Write(account, 20, clock)]);
      var three := Tick(sha, Requests(account), two, 1);
      && three == System(Holding(account, 20, clock), [Write(account, 10, clock), Done(clock.sequence)])
      && Tick(sha, Requests(account), three, 0)
         == System(Holding(account, 10, clock), [Done(clock.sequence), Done(clock.sequence)])
  {
  }

  lemma RaceRuns(sha: Sha256, account: AccountId, clock: Clock)
    ensures RunSchedule(sha, Requests(account), Begin(clock), [0, 1, 1, 0]).fork == Holding(account, 10, clock)
    ensures SerialOrder(sha, Requests(account), Begin(clock), [0, 1, 1, 0]) == [0, 1]
  {
    var requests, start := Requests(account), Begin(clock);
    BothRead(sha, account, clock);
    SecondWritesFirst(sha, account, clock);
    var a: seq<nat>, b: seq<nat>, c: seq<nat>, d: seq<nat> := [0], [0, 1], [0, 1, 1], [0, 1, 1, 0];
    assert Init(a) == [] && Init(b) == a && Init(c) == b && Init(d) == c;
    OrderOneMore(sha, requests, start, a);
    OrderOneMore(sha, requests, start, b);
    OrderOneMore(sha, requests, start, c);
    OrderOneMore(sha, requests, start, d);
  }

  lemma TwiceAlone(sha: Sha256, account: AccountId, clock: Clock)
    ensures var (one, two) := (Requests(account)[0], Requests(account)[1]);
      && Alone(sha, one, Alone(sha, two, Fork(map[], clock)).0).0 == Holding(account, 10, clock)
      && Alone(sha, two, Alone(sha, one, Fork(map[], clock)).0).0 == Holding(account, 20, clock)
  {
    var one, two := Requests(account)[0], Requests(account)[1];
    BalanceAlone(sha, one, Fork(map[], clock));
    BalanceAlone(sha, two, Fork(map[], clock));
    BalanceAlone(sha, one, Alone(sha, two, Fork(map[], clock)).0);
    BalanceAlone(sha, two, Alone(sha, one, Fork(map[], clock)).0);
  }

  lemma TwoInOrder(sha: Sha256, requests: seq<Request>, fork: Fork, i: nat, j: nat)
    requires i < |requests| && j < |requests|
    ensures RunSerially(sha, requests, fork, [i, j]) == Alone(sha, requests[j], Alone(sha, requests[i], fork).0).0
  {
    var one: seq<nat>, two: seq<nat> := [i], [i, j];
    assert Init(two) == one && Init(one) == [];
    assert RunSerially(sha, requests, fork, one) == Alone(sha, requests[i], fork).0;
  }

  /** The first reader's amount stays: the order of the reads is not the serial order, the other is. */
  lemma ReadOrderMayFail(sha: Sha256, account: AccountId, clock: Clock)
    ensures var end := RunSchedule(sha, Requests(account), Begin(clock), [0, 1, 1, 0]).fork;
      && SerialOrder(sha, Requests(account), Begin(clock), [0, 1, 1, 0]) == [0, 1]
      && end != RunSerially(sha, Requests(account), Begin(clock).fork, [0, 1])
      && end == RunSerially(sha, Requests(account), Begin(clock).fork, [1, 0])
  {
    RaceRuns(sha, account, clock);
    TwiceAlone(sha, account, clock);
    TwoInOrder(sha, Requests(account), Fork(map[], clock), 0, 1);
    TwoInOrder(sha, Requests(account), Fork(map[], clock), 1, 0);
    assert Holding(account, 10, clock).view[AccountKey(account)]
        != Holding(account, 20, clock).view[AccountKey(account)];
  }

  // ---- an etch, and a setStorage of the instance between its read and its write ----

  type Storage = Option<seq<(ScVal, ScVal)>>

  function Rivals(contract: ContractId, wasm: seq<Byte>, other: Executable, storage: Storage): seq<Request> {
    [Etch(contract, wasm, None),
     SetStorage(contract, LedgerKeyContractInstance, ContractInstance(other, storage), Persistent, None)]
  }

  function Instance(contract: ContractId, executable: Executable, storage: Storage): Stored {
    Stored(StorageEntry(contract, LedgerKeyContractInstance, Persistent, ContractInstance(executable, storage)), None)
  }

  function Code(sha: Sha256, wasm: seq<Byte>): LedgerView {
    map[CodeKey(sha, wasm) := Stored(CodeEntry(sha, wasm), None)]
  }

  lemma EtchReadsFirst(
    sha: Sha256, contract: ContractId, wasm: seq<Byte>, other: Executable, storage: Storage, clock: Clock)
    ensures var requests := Rivals(contract, wasm, other, storage);
      var one := Tick(sha, requests, Begin(clock), 0);
      && one == System(Fork(Code(sha, wasm), clock), [EtchRead, Start])
      && Tick(sha, requests, one, 0) == System(Fork(Code(sha, wasm), clock), [EtchWrite(None), Start])
  {
    OneLookup(Code(sha, wasm), InstanceKey(contract));
  }

  lemma EtchWritesLast(
    sha: Sha256, contract: ContractId, wasm: seq<Byte>, other: Executable, storage: Storage, clock: Clock)
    ensures var requests, key := Rivals(contract, wasm, other, storage), InstanceKey(contract);
      var two := System(Fork(Code(sha, wasm), clock), [EtchWrite(None), Start]);
      var three := Tick(sha, requests, two, 1);
      var four := Tick(sha, requests, three, 0);
      && four.pcs == [AskLatest, AskLatest] && key in four.fork.view
      && four.fork.view[key] == Instance(contract, Wasm(sha(wasm)), None)
  {
  }

  lemma LatestOnly(sha: Sha256, requests: seq<Request>, s: System, i: nat)
    requires AllFit(requests, s.pcs) && i < |requests| && s.pcs[i].AskLatest?
    ensures Tick(sha, requests, s, i) == System(s.fork, s.pcs[i := Done(s.fork.clock.sequence)])
  {
  }

  lemma OneMoreTick(sha: Sha256, requests: seq<Request>, s: System, schedule: seq<nat>, i: nat)
    requires AllFit(requests, s.pcs)
    ensures RunSchedule(sha, requests, s, schedule + [i])
         == Tick(sha, requests, RunSchedule(sha, requests, s, schedule), i)
  {
    Pushed(schedule, i);
  }

  lemma SixTicks(sha: Sha256, requests: seq<Request>, s: System, a: nat, b: nat, c: nat, d: nat, e: nat, f: nat)
    requires AllFit(requests, s.pcs)
    ensures var two := Tick(sha, requests, Tick(sha, requests, s, a), b);
      var four := Tick(sha, requests, Tick(sha, requests, two, c), d);
      RunSchedule(sha, requests, s, [a, b, c, d, e, f]) == Tick(sha, requests, Tick(sha, requests, four, e), f)
  {
    var schedule: seq<nat> := [a, b, c, d, e, f];
    assert schedule[..1] == [] + [a] && schedule[..2] == schedule[..1] + [b] && schedule[..3] == schedule[..2] + [c];
    assert schedule[..4] == schedule[..3] + [d] && schedule[..5] == schedule[..4] + [e];
    assert schedule == schedule[..5] + [f];
    OneMoreTick(sha, requests, s, [], a);
    OneMoreTick(sha, requests, s, schedule[..1], b);
    OneMoreTick(sha, requests, s, schedule[..2], c);
    OneMoreTick(sha, requests, s, schedule[..3], d);
    OneMoreTick(sha, requests, s, schedule[..4], e);
    OneMoreTick(sha, requests, s, schedule[..5], f);
  }

  lemma RivalsRace(
    sha: Sha256, contract: ContractId, wasm: seq<Byte>, other: Executable, storage: Storage, clock: Clock)
    ensures var s := RunSchedule(sha, Rivals(contract, wasm, other, storage), Begin(clock), [0, 0, 1, 0, 0, 1]);
      && AllFinished(s.pcs)
      && LookupIn(s.fork.view, InstanceKey(contract)) == Some(Instance(contract, Wasm(sha(wasm)), None))
  {
    var requests := Rivals(contract, wasm, other, storage);
    SixTicks(sha, requests, Begin(clock), 0, 0, 1, 0, 0, 1);
    EtchReadsFirst(sha, contract, wasm, other, storage, clock);
    EtchWritesLast(sha, contract, wasm, other, storage, clock);
    var two := System(Fork(Code(sha, wasm), clock), [EtchWrite(None), Start]);
    var four := Tick(sha, requests, Tick(sha, requests, two, 1), 0);
    LatestOnly(sha, requests, four, 0);
    LatestOnly(sha, requests, Tick(sha, requests, four, 0), 1);
  }

  lemma EtchThenSet(
    sha: Sha256, contract: ContractId, wasm: seq<Byte>, other: Executable, storage: Storage, clock: Clock)
    ensures LookupIn(RunSerially(sha, Rivals(contract, wasm, other, storage), Fork(map[], clock), [0, 1]).view,
                     InstanceKey(contract))
         == Some(Instance(contract, other, storage))
  {
    var requests := Rivals(contract, wasm, other, storage);
    TwoInOrder(sha, requests, Fork(map[], clock), 0, 1);
    WriteAlone(sha, requests[1], Alone(sha, requests[0], Fork(map[], clock)).0);
  }

  lemma SetThenEtch(
    sha: Sha256, contract: ContractId, wasm: seq<Byte>, other: Executable, storage: Storage, clock: Clock)
    ensures LookupIn(RunSerially(sha, Rivals(contract, wasm, other, storage), Fork(map[], clock), [1, 0]).view,
                     InstanceKey(contract))
         == Some(Instance(contract, Wasm(sha(wasm)), storage))
  {
    var requests := Rivals(contract, wasm, other, storage);
    TwoInOrder(sha, requests, Fork(map[], clock), 1, 0);
    WriteAlone(sha, requests[1], Fork(map[], clock));
    EtchAlone(sha, requests[0], Alone(sha, requests[1], Fork(map[], clock)).0);
  }

  /** The storage that `fork_setStorage` put there is gone; whichever request goes first, it would stay. */
  lemma SharedKeysAreNotSerial(
    sha: Sha256, contract: ContractId, wasm: seq<Byte>, other: Executable, storage: Storage, clock: Clock)
    requires storage.Some?
    ensures var requests := Rivals(contract, wasm, other, storage);
      var end := RunSchedule(sha, requests, Begin(clock), [0, 0, 1, 0, 0, 1]);
      && AllFinished(end.pcs)
      && end.fork != RunSerially(sha, requests, Begin(clock).fork, [0, 1])
      && end.fork != RunSerially(sha, requests, Begin(clock).fork, [1, 0])
  {
    RivalsRace(sha, contract, wasm, other, storage, clock);
    EtchThenSet(sha, contract, wasm, other, storage, clock);
    SetThenEtch(sha, contract, wasm, other, storage, clock);
  }
}
