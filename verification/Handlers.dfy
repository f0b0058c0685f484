/** `src/server/handlers.rs`: the write-side handlers as programs. Each sends worker commands one at a
    time and keeps only its own locals in between, so the commands of several handlers interleave. */
module Handlers {
  import opened Wrappers
  import opened Ledger
  import opened Actor

  // ---- decoded requests ----

  datatype ClassicAsset = Native | Credit(asset: TrustLineAsset)

  datatype Request =
    | SetStorage(contract: ContractId, key: ScVal, value: ScVal, durability: Durability, liveUntil: Option<U32>)
    | SetCode(wasm: seq<Byte>, liveUntil: Option<U32>)
    | SetBalance(account: AccountId, classic: ClassicAsset, amount: I64)
    | Etch(contract: ContractId, wasm: seq<Byte>, liveUntil: Option<U32>)
    | Close(ledgers: U32, seconds: U64)
    | Read(keys: seq<LedgerKey>)

  type Sha256 = seq<Byte> -> Hash

  function CodeKey(sha: Sha256, wasm: seq<Byte>): LedgerKey {
    ContractCodeKey(sha(wasm))
  }

  function CodeEntry(sha: Sha256, wasm: seq<Byte>): LedgerEntry {
    LedgerEntry(0, ContractCode(sha(wasm), wasm), 0)
  }

  function StorageEntry(contract: ContractId, key: ScVal, durability: Durability, val: ScVal): LedgerEntry {
    LedgerEntry(0, ContractData(contract, key, durability, val), 0)
  }

  function InstanceKey(contract: ContractId): LedgerKey {
    ContractDataKey(contract, LedgerKeyContractInstance, Persistent)
  }

  function InstanceEntry(sha: Sha256, req: Request, storage: Option<seq<(ScVal, ScVal)>>): LedgerEntry
    requires req.Etch?
  {
    StorageEntry(req.contract, LedgerKeyContractInstance, Persistent, ContractInstance(Wasm(sha(req.wasm)), storage))
  }

  function BalanceKey(req: Request): LedgerKey
    requires req.SetBalance?
  {
    match req.classic
    case Native => AccountKey(req.account)
    case Credit(asset) => TrustlineKey(req.account, asset)
  }

  // ---- program counters, with the locals that live across commands ----

  datatype Pc =
    | Start
    | EtchRead                                              // code installed, instance not yet read
    | EtchWrite(storage: Option<seq<(ScVal, ScVal)>>)       // instance read, its storage kept
    | BalanceWrite(entry: LedgerEntry, latest: U32)         // entry read and edited
    | AskLatest                                             // writes done, ledger number wanted
    | Done(latest: U32)
    | Failed

  predicate Finished(pc: Pc) { pc.Done? || pc.Failed? }

  function StepsLeft(pc: Pc): nat {
    match pc
    case Start => 4
    case EtchRead => 3
    case EtchWrite(_) => 2
    case BalanceWrite(_, _) => 2
    case AskLatest => 1
    case _ => 0
  }

  /** The storage an etch preserves; none if there is no instance, no answer if it is not an instance. */
  function AfterInstanceRead(existing: Option<Stored>): Pc {
    match existing
    case None => EtchWrite(None)
    case Some(stored) =>
      match stored.entry.data
      case ContractData(_, _, _, ContractInstance(_, storage)) => EtchWrite(storage)
      case _ => Failed
  }

  const I64_MAX: I64 := 0x7FFF_FFFF_FFFF_FFFF

  function DefaultAccount(account: AccountId, amount: I64, latest: U32): LedgerEntry {
    LedgerEntry(latest, Account(AccountEntry(account, amount, WrapI64(latest * 0x1_0000_0000),
                                             AccountRest(0, 0, [1, 0, 0, 0], 0))), 0)
  }

  function DefaultTrustline(account: AccountId, asset: TrustLineAsset, amount: I64, latest: U32): LedgerEntry {
    LedgerEntry(latest, Trustline(TrustLineEntry(account, asset, amount, I64_MAX, 1, 0)), 0)
  }

  /** The edited entry that `fork_setBalance` will write, or a failure when the shape is wrong. */
  function AfterBalanceRead(req: Request, existing: Option<Stored>, latest: U32): Pc
    requires req.SetBalance?
  {
    match (req.classic, existing)
    case (Native, Some(stored)) =>
      (match stored.entry.data
       case Account(a) =>
         BalanceWrite(stored.entry.(lastModified := latest, data := Account(a.(balance := req.amount))), latest)
       case _ => Failed)
    case (Native, None) => BalanceWrite(DefaultAccount(req.account, req.amount, latest), latest)
    case (Credit(_), Some(stored)) =>
      (match stored.entry.data
       case Trustline(t) =>
         BalanceWrite(stored.entry.(lastModified := latest, data := Trustline(t.(balance := req.amount))), latest)
       case _ => Failed)
    case (Credit(asset), None) => BalanceWrite(DefaultTrustline(req.account, asset, req.amount, latest), latest)
  }

  // ---- one step of a handler: the command it sends, and what it makes of the reply ----

  predicate Fits(req: Request, pc: Pc) {
    match pc
    case EtchRead => req.Etch?
    case EtchWrite(_) => req.Etch?
    case BalanceWrite(_, _) => req.SetBalance?
    case AskLatest => req.SetStorage? || req.SetCode? || req.Etch?
    case _ => true
  }

  function NextCommand(sha: Sha256, req: Request, pc: Pc): Command
    requires Fits(req, pc) && !Finished(pc)
  {
    match pc
    case Start =>
      (match req
       case SetStorage(contract, key, value, durability, liveUntil) =>
         SetLedgerEntry(
           ContractDataKey(contract, key, durability), StorageEntry(contract, key, durability, value), liveUntil)
       case SetCode(wasm, liveUntil) => SetLedgerEntry(CodeKey(sha, wasm), CodeEntry(sha, wasm), liveUntil)
       case SetBalance(_, _, _) => GetLedgerEntries([BalanceKey(req)])
       case Etch(_, wasm, liveUntil) => SetLedgerEntry(CodeKey(sha, wasm), CodeEntry(sha, wasm), liveUntil)
       case Close(ledgers, seconds) => CloseLedgers(ledgers, seconds)
       case Read(keys) => GetLedgerEntries(keys))
    case EtchRead => GetLedgerEntries([InstanceKey(req.contract)])
    case EtchWrite(storage) =>
      SetLedgerEntry(InstanceKey(req.contract), InstanceEntry(sha, req, storage), req.liveUntil)
    case BalanceWrite(entry, _) => SetLedgerEntry(BalanceKey(req), entry, None)
    case AskLatest => GetLatestLedger
  }

  /** `entries.into_iter().next().flatten()` */
  function FirstEntry(reply: Reply): Option<Stored>
    requires reply.Entries?
  {
    if reply.entries == [] then None else reply.entries[0]
  }

  function Resume(req: Request, pc: Pc, reply: Reply): (r: Pc)
    requires Fits(req, pc) && !Finished(pc)
    ensures Fits(req, r) && StepsLeft(r) < StepsLeft(pc)
  {
    match (pc, reply)
    case (Start, Written) =>
      if req.SetStorage? || req.SetCode? then AskLatest else if req.Etch? then EtchRead else Failed
    case (Start, Entries(_, latest)) =>
      if req.SetBalance? then AfterBalanceRead(req, FirstEntry(reply), latest)
      else if req.Read? then Done(latest)
      else Failed
    case (Start, Closed(sequence, _)) => Done(sequence)
    case (EtchRead, Entries(_, _)) => AfterInstanceRead(FirstEntry(reply))
    case (EtchWrite(_), Written) => AskLatest
    case (BalanceWrite(_, latest), Written) => Done(latest)
    case (AskLatest, LatestLedger(sequence)) => Done(sequence)
    case _ => Failed
  }

  // ---- the handlers as code, against a worker nobody else is talking to ----

  /** A request run to its end on worker states. */
  function FinishOn(env: Env, sha: Sha256, req: Request, pc: Pc, w: State): (State, Pc)
    requires Fits(req, pc)
    decreases StepsLeft(pc)
  {
    if Finished(pc) then (w, pc)
    else
      var (w', reply) := Exec(env, w, NextCommand(sha, req, pc));
      FinishOn(env, sha, req, Resume(req, pc, reply), w')
  }

  /** `ActorHandle::send`. */
  method Ask(worker: Worker, c: Command) returns (reply: Reply)
    requires worker.Valid()
    modifies worker, worker.source
    ensures worker.Valid() && (worker.Value(), reply) == Exec(worker.env, old(worker.Value()), c)
  {
    if !worker.alive {
      return WorkerGone;
    }
    reply := worker.Handle(c);
  }

  /** The closing `getLatestLedger` that most handlers put into their response. */
  method AskForLatest(worker: Worker, ghost sha: Sha256, ghost req: Request) returns (result: Pc)
    requires worker.Valid() && Fits(req, AskLatest)
    modifies worker, worker.source
    ensures worker.Valid()
    ensures (worker.Value(), result) == FinishOn(worker.env, sha, req, AskLatest, old(worker.Value()))
  {
    var reply := Ask(worker, GetLatestLedger);
    match reply {
      case LatestLedger(sequence) => result := Done(sequence);
      case _ => result := Failed;
    }
  }

  method HandleForkSetStorage(worker: Worker, ghost sha: Sha256, req: Request) returns (result: Pc)
    requires worker.Valid() && req.SetStorage?
    modifies worker, worker.source
    ensures worker.Valid()
    ensures (worker.Value(), result) == FinishOn(worker.env, sha, req, Start, old(worker.Value()))
  {
    var key := ContractDataKey(req.contract, req.key, req.durability);
    var entry := StorageEntry(req.contract, req.key, req.durability, req.value);
    var reply := Ask(worker, SetLedgerEntry(key, entry, req.liveUntil));
    if !reply.Written? {
      return Failed;
    }
    result := AskForLatest(worker, sha, req);
  }

  method HandleForkSetCode(worker: Worker, sha: Sha256, req: Request) returns (result: Pc)
    requires worker.Valid() && req.SetCode?
    modifies worker, worker.source
    ensures worker.Valid()
    ensures (worker.Value(), result) == FinishOn(worker.env, sha, req, Start, old(worker.Value()))
  {
    var hash := sha(req.wasm);
    var entry := LedgerEntry(0, ContractCode(hash, req.wasm), 0);
    var reply := Ask(worker, SetLedgerEntry(ContractCodeKey(hash), entry, req.liveUntil));
    if !reply.Written? {
      return Failed;
    }
    result := AskForLatest(worker, sha, req);
  }

  method HandleForkSetBalance(worker: Worker, ghost sha: Sha256, req: Request) returns (result: Pc)
    requires worker.Valid() && req.SetBalance?
    modifies worker, worker.source
    ensures worker.Valid()
    ensures (worker.Value(), result) == FinishOn(worker.env, sha, req, Start, old(worker.Value()))
  {
    var key := BalanceKey(req);
    var existing := Ask(worker, GetLedgerEntries([key]));
    if !existing.Entries? {
      return Failed;
    }
    var entry;
    match FirstEntry(existing) {
      case Some(stored) =>
        entry := stored.entry;
        if req.classic.Native? && entry.data.Account? {
          entry := entry.(data := Account(entry.data.account.(balance := req.amount)));
        } else if req.classic.Credit? && entry.data.Trustline? {
          entry := entry.(data := Trustline(entry.data.trustline.(balance := req.amount)));
        } else {
          return Failed;
        }
        entry := entry.(lastModified := existing.latest);
      case None =>
        match req.classic {
          case Native => entry := DefaultAccount(req.account, req.amount, existing.latest);
          case Credit(asset) => entry := DefaultTrustline(req.account, asset, req.amount, existing.latest);
        }
    }
    var reply := Ask(worker, SetLedgerEntry(key, entry, None));
    result := if reply.Written? then Done(existing.latest) else Failed;
  }

  method HandleForkEtch(worker: Worker, sha: Sha256, req: Request) returns (result: Pc)
    requires worker.Valid() && req.Etch?
    modifies worker, worker.source
    ensures worker.Valid()
    ensures (worker.Value(), result) == FinishOn(worker.env, sha, req, Start, old(worker.Value()))
  {
    var hash := sha(req.wasm);
    var codeEntry := LedgerEntry(0, ContractCode(hash, req.wasm), 0);
    var reply := Ask(worker, SetLedgerEntry(ContractCodeKey(hash), codeEntry, req.liveUntil));
    if !reply.Written? {
      return Failed;
    }
    var existing := Ask(worker, GetLedgerEntries([InstanceKey(req.contract)]));
    if !existing.Entries? {
      return Failed;
    }
    var storage: Option<seq<(ScVal, ScVal)>> := None;
    match FirstEntry(existing) {
      case Some(stored) =>
        match stored.entry.data {
          case ContractData(_, _, _, ContractInstance(_, kept)) => storage := kept;
          case _ => return Failed;
        }
      case None =>
    }
    reply := Ask(worker, SetLedgerEntry(InstanceKey(req.contract), InstanceEntry(sha, req, storage), req.liveUntil));
    if !reply.Written? {
      return Failed;
    }
    result := AskForLatest(worker, sha, req);
  }
}
