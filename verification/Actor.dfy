/** `src/server/actor.rs`: the worker that owns the fork and runs one command at a time. `Exec` says on
    values what a command does and replies; the class `Worker` is the code. */
module Actor {
  import opened Wrappers
  import opened Ledger
  import opened Seqs
  import opened Source

  // ---- the host, an uninterpreted deterministic function ----

  datatype Clock = Clock(sequence: U32, timestamp: U64)

  datatype HostFunction =
    | InvokeContract(contract: ContractId, name: string, args: seq<ScVal>)
    | OtherFunction(id: nat)

  datatype Recording =
    | Recorded(invokeResult: Result<ScVal, string>, changes: seq<Change>, resources: int)
    | RecordingFailed(message: string)

  /** One recording-mode invocation: what it yields, and the keys it touched on the way. */
  datatype HostOutcome = HostOutcome(recording: Recording, touched: seq<LedgerKey>)

  type FeeConfig = map<nat, int>

  /** What a worker is built with: its source, the host, the transaction hash, the fee formula. */
  datatype Env = Env(
    cfg: Config,
    host: (LedgerView, Clock, HostFunction, AccountId) -> HostOutcome,
    txHash: seq<Byte> -> Hash,
    resourceFee: (FeeConfig, int, U32) -> int)

  // ---- commands and replies ----

  datatype Command =
    | GetNetwork
    | GetLatestLedger
    | GetLedgersPage
    | GetLedgerEntries(keys: seq<LedgerKey>)
    | SimulateTransaction(fn: HostFunction, source: AccountId, size: U32)
    | SendTransaction(envelope: seq<Byte>, fn: HostFunction, source: AccountId, now: U64)
    | SetLedgerEntry(key: LedgerKey, entry: LedgerEntry, liveUntil: Option<U32>)
    | CloseLedgers(ledgers: U32, seconds: U64)
    | GetTransaction(hash: Hash)

  datatype TxReceipt = TxReceipt(
    result: Result<ScVal, string>,
    envelope: seq<Byte>,
    ledger: U32,
    createdAt: U64,
    appliedChanges: U32)

  datatype Reply =
    | Network
    | LatestLedger(sequence: U32)
    | LedgersPage(sequence: U32, closeTime: U64)
    | Entries(entries: seq<Option<Stored>>, latest: U32)
    | Simulated(result: Result<ScVal, string>, minResourceFee: Option<int>, latest: U32)
    | Sent(hash: Hash, receipt: TxReceipt)
    | Written
    | Closed(sequence: U32, closeTime: U64)
    | Receipt(found: Option<TxReceipt>)
    | WorkerGone

  datatype State = State(
    source: SourceState,
    clock: Clock,
    receipts: map<Hash, TxReceipt>,
    fees: Option<FeeConfig>,
    alive: bool)

  // ---- reading several keys ----

  /** Read `keys` in order, stopping where a fetch panics. */
  function AfterReads(cfg: Config, s: SourceState, keys: seq<LedgerKey>): SourceState {
    if keys == [] then s
    else if !ReadsSucceed(cfg, s, Init(keys)) then AfterReads(cfg, s, Init(keys))
    else AfterGet(cfg, AfterReads(cfg, s, Init(keys)), Last(keys))
  }

  predicate ReadsSucceed(cfg: Config, s: SourceState, keys: seq<LedgerKey>) {
    keys == [] ||
    (ReadsSucceed(cfg, s, Init(keys)) && GetReply(cfg, AfterReads(cfg, s, Init(keys)), Last(keys)).Got?)
  }

  function ReadReplies(cfg: Config, s: SourceState, keys: seq<LedgerKey>): seq<Option<Stored>>
    requires ReadsSucceed(cfg, s, keys)
  {
    if keys == [] then []
    else ReadReplies(cfg, s, Init(keys)) + [GetReply(cfg, AfterReads(cfg, s, Init(keys)), Last(keys)).stored]
  }

  // ---- the fee schedule, read on first use and kept ----

  const COMPUTE_V0: nat := 1
  const LEDGER_COST_V0: nat := 2
  const HISTORICAL_DATA_V0: nat := 3
  const EVENTS_V0: nat := 4
  const BANDWIDTH_V0: nat := 5
  const LEDGER_COST_EXT_V0: nat := 15

  const FEE_SETTINGS: seq<nat> :=
    [COMPUTE_V0, LEDGER_COST_V0, LEDGER_COST_EXT_V0, HISTORICAL_DATA_V0, EVENTS_V0, BANDWIDTH_V0]

  datatype Schedule = Schedule(fees: FeeConfig) | Unavailable | ReadPanicked

  /** `apply_setting`: the entry found under the key names the field it fills. */
  function ApplySetting(got: Got, fees: FeeConfig): Schedule {
    match got
    case Panicked => ReadPanicked
    case Got(None) => Unavailable
    case Got(Some(stored)) =>
      match stored.entry.data
      case ConfigSetting(setting, payload) =>
        if setting in FEE_SETTINGS then Schedule(fees[setting := payload]) else Unavailable
      case _ => Unavailable
  }

  function FetchFees(cfg: Config, s: SourceState, settings: seq<nat>): (SourceState, Schedule) {
    if settings == [] then (s, Schedule(map[]))
    else
      var (s', sofar) := FetchFees(cfg, s, Init(settings));
      if !sofar.Schedule? then (s', sofar)
      else
        var key := ConfigSettingKey(Last(settings));
        (AfterGet(cfg, s', key), ApplySetting(GetReply(cfg, s', key), sofar.fees))
  }

  // ---- the commands on values ----

  function Gone(w: State, source: SourceState): (State, Reply) {
    (w.(source := source, alive := false), WorkerGone)
  }

  function ResultOf(recording: Recording): Result<ScVal, string> {
    match recording
    case Recorded(Ok(value), _, _) => Ok(value)
    case Recorded(Err(e), _, _) => Err("host error: " + e)
    case RecordingFailed(message) => Err("recording-mode error: " + message)
  }

  function Simulate(env: Env, w: State, c: Command): (State, Reply)
    requires c.SimulateTransaction?
  {
    var outcome := env.host(View(env.cfg, w.source.cache), w.clock, c.fn, c.source);
    var s := AfterReads(env.cfg, w.source, outcome.touched);
    if !ReadsSucceed(env.cfg, w.source, outcome.touched) then Gone(w, s)
    else
      var result := ResultOf(outcome.recording);
      match outcome.recording
      case RecordingFailed(_) => (w.(source := s), Simulated(result, None, w.clock.sequence))
      case Recorded(_, _, resources) =>
        if w.fees.Some? then
          (w.(source := s),
           Simulated(result, Some(env.resourceFee(w.fees.value, resources, c.size)), w.clock.sequence))
        else
          var (s', schedule) := FetchFees(env.cfg, s, FEE_SETTINGS);
          match schedule
          case Schedule(fees) =>
            (w.(source := s', fees := Some(fees)),
             Simulated(result, Some(env.resourceFee(fees, resources, c.size)), w.clock.sequence))
          case Unavailable => (w.(source := s'), Simulated(result, None, w.clock.sequence))
          case ReadPanicked => Gone(w, s')
  }

  function CappedCount(changes: seq<Change>): U32 {
    if CountWrites(changes) < 0x1_0000_0000 then CountWrites(changes) else 0xFFFF_FFFF
  }

  function Send(env: Env, w: State, c: Command): (State, Reply)
    requires c.SendTransaction?
  {
    var outcome := env.host(View(env.cfg, w.source.cache), w.clock, c.fn, c.source);
    var s := AfterReads(env.cfg, w.source, outcome.touched);
    if !ReadsSucceed(env.cfg, w.source, outcome.touched) then Gone(w, s)
    else
      var result := ResultOf(outcome.recording);
      var applied := if result.Ok? then CappedCount(outcome.recording.changes) else 0;
      var cache :=
        if result.Ok? then AfterBump(AfterChanges(s.cache, outcome.recording.changes), c.source) else s.cache;
      var receipt := TxReceipt(result, c.envelope, w.clock.sequence, c.now, applied);
      var hash := env.txHash(c.envelope);
      (w.(source := s.(cache := cache), receipts := w.receipts[hash := receipt]), Sent(hash, receipt))
  }

  function Warp(clock: Clock, ledgers: U32, seconds: U64): Clock {
    Clock(SaturatingAddU32(clock.sequence, ledgers), SaturatingAddU64(clock.timestamp, seconds))
  }

  function Exec(env: Env, w: State, c: Command): (State, Reply) {
    if !w.alive then (w, WorkerGone)
    else
      match c
      case GetNetwork => (w, Network)
      case GetLatestLedger => (w, LatestLedger(w.clock.sequence))
      case GetLedgersPage => (w, LedgersPage(w.clock.sequence, w.clock.timestamp))
      case GetLedgerEntries(keys) =>
        var s := AfterReads(env.cfg, w.source, keys);
        if ReadsSucceed(env.cfg, w.source, keys) then
          (w.(source := s), Entries(ReadReplies(env.cfg, w.source, keys), w.clock.sequence))
        else Gone(w, s)
      case SimulateTransaction(_, _, _) => Simulate(env, w, c)
      case SendTransaction(_, _, _, _) => Send(env, w, c)
      case SetLedgerEntry(key, entry, liveUntil) =>
        (w.(source := w.source.(cache := w.source.cache[key := Some(Encode(Stored(entry, liveUntil)))])), Written)
      case CloseLedgers(ledgers, seconds) =>
        var clock := Warp(w.clock, ledgers, seconds);
        (w.(clock := clock), Closed(clock.sequence, clock.timestamp))
      case GetTransaction(hash) =>
        (w, Receipt(if hash in w.receipts then Some(w.receipts[hash]) else None))
  }

  function Run(env: Env, w: State, commands: seq<Command>): (State, seq<Reply>) {
    if commands == [] then (w, [])
    else
      var (before, replies) := Run(env, w, Init(commands));
      var (after, reply) := Exec(env, before, Last(commands));
      (after, replies + [reply])
  }

  // ---- the code ----

  class Worker {
    const env: Env
    const source: RpcSnapshotSource
    var clock: Clock
    var receipts: map<Hash, TxReceipt>
    var fees: Option<FeeConfig>
    var alive: bool

    ghost predicate Valid()
      reads this, source
    {
      source.Valid() && source.cfg == env.cfg
    }

    ghost function Value(): State
      reads this, source
    {
      State(source.Value(), clock, receipts, fees, alive)
    }

    constructor (env: Env, source: RpcSnapshotSource, clock: Clock)
      requires source.Valid() && source.cfg == env.cfg
      ensures Valid() && this.env == env && this.source == source
      ensures Value() == State(source.Value(), clock, map[], None, true)
    {
      this.env, this.source, this.clock := env, source, clock;
      receipts, fees, alive := map[], None, true;
    }

    /** Read a batch of keys through the source; `ok` is false if a fetch panicked. */
    method ReadBatch(keys: seq<LedgerKey>) returns (ok: bool, entries: seq<Option<Stored>>)
      requires Valid()
      modifies source
      ensures Valid() && source.Value() == AfterReads(env.cfg, old(source.Value()), keys)
      ensures ok == ReadsSucceed(env.cfg, old(source.Value()), keys)
      ensures ok ==> entries == ReadReplies(env.cfg, old(source.Value()), keys)
    {
      ghost var s0 := source.Value();
      entries := [];
      for i := 0 to |keys|
        invariant Valid() && source.Value() == AfterReads(env.cfg, s0, keys[..i])
        invariant ReadsSucceed(env.cfg, s0, keys[..i])
        invariant entries == ReadReplies(env.cfg, s0, keys[..i])
      {
        Prefix(keys, i);
        var got := source.Get(keys[i]);
        if got.Panicked? {
          PrefixFails(env.cfg, s0, keys, i + 1);
          return false, [];
        }
        entries := entries + [got.stored];
      }
      assert keys[..|keys|] == keys;
      ok := true;
    }

    /** `fees::fetch_fee_configuration`. */
    method FetchFeeConfiguration() returns (schedule: Schedule)
      requires Valid()
      modifies source
      ensures Valid() && (source.Value(), schedule) == FetchFees(env.cfg, old(source.Value()), FEE_SETTINGS)
    {
      ghost var s0 := source.Value();
      schedule := Schedule(map[]);
      for i := 0 to |FEE_SETTINGS|
        invariant Valid() && schedule.Schedule?
        invariant (source.Value(), schedule) == FetchFees(env.cfg, s0, FEE_SETTINGS[..i])
      {
        Prefix(FEE_SETTINGS, i);
        var got := source.Get(ConfigSettingKey(FEE_SETTINGS[i]));
        schedule := ApplySetting(got, schedule.fees);
        if !schedule.Schedule? {
          FeesStop(env.cfg, s0, FEE_SETTINGS, i + 1);
          return;
        }
      }
      assert FEE_SETTINGS[..|FEE_SETTINGS|] == FEE_SETTINGS;
    }

    method SimulateTransaction(fn: HostFunction, account: AccountId, size: U32) returns (reply: Reply)
      requires Valid() && alive
      modifies this, source
      ensures Valid()
      ensures (Value(), reply) == Exec(env, old(Value()), Command.SimulateTransaction(fn, account, size))
    {
      var outcome := env.host(View(env.cfg, source.cache), clock, fn, account);
      var ok, _ := ReadBatch(outcome.touched);
      if !ok {
        alive := false;
        return WorkerGone;
      }
      var result := ResultOf(outcome.recording);
      match outcome.recording {
        case RecordingFailed(_) =>
          return Simulated(result, None, clock.sequence);
        case Recorded(_, _, resources) =>
          if fees.None? {
            var schedule := FetchFeeConfiguration();
            match schedule {
              case Schedule(cfg) => fees := Some(cfg);
              case Unavailable => return Simulated(result, None, clock.sequence);
              case ReadPanicked =>
                alive := false;
                return WorkerGone;
            }
          }
          return Simulated(result, Some(env.resourceFee(fees.value, resources, size)), clock.sequence);
      }
    }

    method SendTransaction(envelope: seq<Byte>, fn: HostFunction, account: AccountId, now: U64) returns (reply: Reply)
      requires Valid() && alive
      modifies this, source
      ensures Valid()
      ensures (Value(), reply) == Exec(env, old(Value()), Command.SendTransaction(envelope, fn, account, now))
    {
      var outcome := env.host(View(env.cfg, source.cache), clock, fn, account);
      var ok, _ := ReadBatch(outcome.touched);
      if !ok {
        alive := false;
        return WorkerGone;
      }
      var hash := env.txHash(envelope);
      var result := ResultOf(outcome.recording);
      var applied := 0;
      if result.Ok? {
        applied := source.ApplyChanges(outcome.recording.changes);
        var _ := source.BumpAccountSeq(account);
      }
      var receipt := TxReceipt(result, envelope, clock.sequence, now, applied);
      receipts := receipts[hash := receipt];
      reply := Sent(hash, receipt);
    }

    /** One turn of `worker_loop`. */
    method Handle(c: Command) returns (reply: Reply)
      requires Valid() && alive
      modifies this, source
      ensures Valid()
      ensures (Value(), reply) == Exec(env, old(Value()), c)
    {
      match c {
        case GetNetwork => reply := Network;
        case GetLatestLedger => reply := LatestLedger(clock.sequence);
        case GetLedgersPage => reply := LedgersPage(clock.sequence, clock.timestamp);
        case GetLedgerEntries(keys) =>
          var ok, entries := ReadBatch(keys);
          if ok {
            reply := Entries(entries, clock.sequence);
          } else {
            alive := false;
            reply := WorkerGone;
          }
        case SimulateTransaction(fn, account, size) => reply := SimulateTransaction(fn, account, size);
        case SendTransaction(envelope, fn, account, now) => reply := SendTransaction(envelope, fn, account, now);
        case SetLedgerEntry(key, entry, liveUntil) =>
          source.SetEntry(key, entry, liveUntil);
          reply := Written;
        case CloseLedgers(ledgers, seconds) =>
          clock := Clock(SaturatingAddU32(clock.sequence, ledgers), SaturatingAddU64(clock.timestamp, seconds));
          reply := Closed(clock.sequence, clock.timestamp);
        case GetTransaction(hash) =>
          reply := Receipt(if hash in receipts then Some(receipts[hash]) else None);
      }
    }

    /** `worker_loop` over the commands that arrive before the channel closes. */
    method WorkerLoop(commands: seq<Command>) returns (replies: seq<Reply>)
      requires Valid()
      modifies this, source
      ensures Valid() && (Value(), replies) == Run(env, old(Value()), commands)
    {
      ghost var w0 := Value();
      replies := [];
      for i := 0 to |commands|
        invariant Valid() && (Value(), replies) == Run(env, w0, commands[..i])
      {
        Prefix(commands, i);
        var reply := WorkerGone;
        if alive {
          reply := Handle(commands[i]);
        }
        replies := replies + [reply];
      }
      assert commands[..|commands|] == commands;
    }
  }

  lemma PrefixFails(cfg: Config, s: SourceState, keys: seq<LedgerKey>, n: nat)
    requires n <= |keys| && !ReadsSucceed(cfg, s, keys[..n])
    ensures !ReadsSucceed(cfg, s, keys) && AfterReads(cfg, s, keys) == AfterReads(cfg, s, keys[..n])
    decreases |keys|
  {
    if n == |keys| {
      assert keys[..n] == keys;
    } else {
      assert Init(keys)[..n] == keys[..n];
      PrefixFails(cfg, s, Init(keys), n);
    }
  }

  lemma FeesStop(cfg: Config, s: SourceState, settings: seq<nat>, n: nat)
    requires n <= |settings| && !FetchFees(cfg, s, settings[..n]).1.Schedule?
    ensures FetchFees(cfg, s, settings) == FetchFees(cfg, s, settings[..n])
    decreases |settings|
  {
    if n == |settings| {
      assert settings[..n] == settings;
    } else {
      assert Init(settings)[..n] == settings[..n];
      FeesStop(cfg, s, Init(settings), n);
    }
  }
}
