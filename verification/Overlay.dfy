/** What the cache of `Source` means: a plain overlay of writes over the remote ledger. */
module Overlay {
  import opened Wrappers
  import opened Ledger
  import opened Seqs
  import opened Source
  import opened Views

  // ---- the reference: no memory of reads at all, only of writes ----

  datatype Op =
    | Preload(entries: seq<Triple>)
    | Get(key: LedgerKey)
    | SetEntry(key: LedgerKey, entry: LedgerEntry, liveUntil: Option<U32>)
    | ApplyChanges(changes: seq<Change>)
    | Bump(account: AccountId)

  datatype Reply = Done | Answer(stored: Option<Stored>) | NewSeq(seqNum: Option<I64>) | Crash | Gone

  /** The cached source; `alive` is false once a Strict fetch has panicked. */
  datatype Machine = Machine(src: SourceState, alive: bool)

  datatype Reference = Reference(writes: map<LedgerKey, Option<Stored>>, alive: bool)

  function ExecCached(cfg: Config, m: Machine, op: Op): (Machine, Reply) {
    if !m.alive then (m, Gone)
    else
      var s := m.src;
      match op
      case Preload(entries) => (m.(src := s.(cache := AfterPreload(s.cache, entries))), Done)
      case Get(key) =>
        (Machine(AfterGet(cfg, s, key), GetReply(cfg, s, key).Got?),
         match GetReply(cfg, s, key) case Got(stored) => Answer(stored) case Panicked => Crash)
      case SetEntry(key, entry, liveUntil) =>
        (m.(src := s.(cache := s.cache[key := Some(Encode(Stored(entry, liveUntil)))])), Done)
      case ApplyChanges(changes) => (m.(src := s.(cache := AfterChanges(s.cache, changes))), Done)
      case Bump(account) =>
        (m.(src := s.(cache := AfterBump(s.cache, account))), NewSeq(BumpReply(s.cache, account)))
  }

  function ReferenceAt(cfg: Config, r: Reference, key: LedgerKey): Option<Stored> {
    if key in r.writes then r.writes[key] else RemoteAt(cfg, key)
  }

  function PreloadWrites(writes: map<LedgerKey, Option<Stored>>, entries: seq<Triple>): map<LedgerKey, Option<Stored>> {
    if entries == [] then writes
    else
      var (key, entry, liveUntil) := Last(entries);
      PreloadWrites(writes, Init(entries))[key := Some(Stored(entry, liveUntil))]
  }

  function ChangeWrites(writes: map<LedgerKey, Option<Stored>>, changes: seq<Change>): map<LedgerKey, Option<Stored>> {
    if changes == [] then writes
    else
      var before := ChangeWrites(writes, Init(changes));
      if Last(changes).readOnly then before else before[Last(changes).key := WrittenBy(Last(changes))]
  }

  function ExecReference(cfg: Config, r: Reference, op: Op): (Reference, Reply) {
    if !r.alive then (r, Gone)
    else
      match op
      case Preload(entries) => (r.(writes := PreloadWrites(r.writes, entries)), Done)
      case Get(key) =>
        if key !in r.writes && Panics(cfg, key) then (r.(alive := false), Crash)
        else (r, Answer(ReferenceAt(cfg, r, key)))
      case SetEntry(key, entry, liveUntil) => (r.(writes := r.writes[key := Some(Stored(entry, liveUntil))]), Done)
      case ApplyChanges(changes) => (r.(writes := ChangeWrites(r.writes, changes)), Done)
      case Bump(account) =>
        var key := AccountKey(account);
        match ReferenceAt(cfg, r, key)
        case Some(stored) =>
          (match BumpEntry(stored.entry)
           case Some(entry) =>
             (r.(writes := r.writes[key := Some(stored.(entry := entry))]), NewSeq(Some(entry.data.account.seqNum)))
           case None => (r, NewSeq(None)))
        case None => (r, NewSeq(None))
  }

  function RunCached(cfg: Config, ops: seq<Op>): (Machine, seq<Reply>) {
    if ops == [] then (Machine(SourceState(map[], []), true), [])
    else
      var (m, replies) := RunCached(cfg, Init(ops));
      var (m', reply) := ExecCached(cfg, m, Last(ops));
      (m', replies + [reply])
  }

  function RunReference(cfg: Config, ops: seq<Op>): (Reference, seq<Reply>) {
    if ops == [] then (Reference(map[], true), [])
    else
      var (r, replies) := RunReference(cfg, Init(ops));
      var (r', reply) := ExecReference(cfg, r, Last(ops));
      (r', replies + [reply])
  }

  // ---- the refinement and its exact condition ----

  /** A bump that misses: the remote holds the account, but nothing has brought it into the cache. */
  predicate BlindBump(cfg: Config, m: Machine, op: Op) {
    m.alive && op.Bump? && AccountKey(op.account) !in m.src.cache &&
    RemoteAt(cfg, AccountKey(op.account)).Some? && BumpEntry(RemoteAt(cfg, AccountKey(op.account)).value.entry).Some?
  }

  predicate NoBlindBump(cfg: Config, ops: seq<Op>) {
    ops == [] || (NoBlindBump(cfg, Init(ops)) && !BlindBump(cfg, RunCached(cfg, Init(ops)).0, Last(ops)))
  }

  predicate Refines(cfg: Config, m: Machine, r: Reference) {
    && m.alive == r.alive
    && (forall key :: key in r.writes ==> key in m.src.cache && DecodeAll(m.src.cache[key]) == r.writes[key])
    && (forall key :: key in m.src.cache && key !in r.writes ==>
          !Panics(cfg, key) && DecodeAll(m.src.cache[key]) == RemoteAt(cfg, key))
  }

  lemma {:induction false} PreloadRefines(cfg: Config, m: Machine, r: Reference, entries: seq<Triple>)
    requires Refines(cfg, m, r)
    ensures Refines(cfg, m.(src := m.src.(cache := AfterPreload(m.src.cache, entries))),
                    r.(writes := PreloadWrites(r.writes, entries)))
  {
    if entries == [] {
    } else {
      PreloadRefines(cfg, m, r, Init(entries));
    }
  }

  lemma {:induction false} ChangesRefine(cfg: Config, m: Machine, r: Reference, changes: seq<Change>)
    requires Refines(cfg, m, r)
    ensures Refines(cfg, m.(src := m.src.(cache := AfterChanges(m.src.cache, changes))),
                    r.(writes := ChangeWrites(r.writes, changes)))
  {
    if changes == [] {
    } else {
      ChangesRefine(cfg, m, r, Init(changes));
    }
  }

  lemma StepRefines(cfg: Config, m: Machine, r: Reference, op: Op)
    requires Refines(cfg, m, r)
    ensures ExecCached(cfg, m, op).1 == ExecReference(cfg, r, op).1 <==> !BlindBump(cfg, m, op)
    ensures !BlindBump(cfg, m, op) ==> Refines(cfg, ExecCached(cfg, m, op).0, ExecReference(cfg, r, op).0)
  {
    match op
    case Preload(entries) => PreloadRefines(cfg, m, r, entries);
    case ApplyChanges(changes) => ChangesRefine(cfg, m, r, changes);
    case _ =>
  }

  lemma {:induction false} RunRefines(cfg: Config, ops: seq<Op>)
    ensures |RunCached(cfg, ops).1| == |RunReference(cfg, ops).1|
    ensures RunCached(cfg, ops).1 == RunReference(cfg, ops).1 <==> NoBlindBump(cfg, ops)
    ensures NoBlindBump(cfg, ops) ==> Refines(cfg, RunCached(cfg, ops).0, RunReference(cfg, ops).0)
  {
    if ops == [] {
    } else {
      RunRefines(cfg, Init(ops));
      var (m, replies) := RunCached(cfg, Init(ops));
      var (r, replies') := RunReference(cfg, Init(ops));
      Pushed(replies, ExecCached(cfg, m, Last(ops)).1);
      Pushed(replies', ExecReference(cfg, r, Last(ops)).1);
      if NoBlindBump(cfg, Init(ops)) {
        StepRefines(cfg, m, r, Last(ops));
      }
    }
  }

  /** Every history of the cache answers as the overlay would, exactly when no bump was blind. */
  lemma {:induction false} CacheRefinesOverlayIff(cfg: Config, ops: seq<Op>)
    ensures RunCached(cfg, ops).1 == RunReference(cfg, ops).1 <==> NoBlindBump(cfg, ops)
    ensures NoBlindBump(cfg, ops) ==>
      forall key :: ViewAt(cfg, RunCached(cfg, ops).0.src.cache, key) == ReferenceAt(cfg, RunReference(cfg, ops).0, key)
  {
    RunRefines(cfg, ops);
  }

  function OnlyRemote(account: AccountId, entry: LedgerEntry): Config {
    Config(Remote(map[AccountKey(account) := Stored(entry, None)], {}), Strict)
  }

  lemma OneMoreOp(cfg: Config, ops: seq<Op>, op: Op)
    ensures NoBlindBump(cfg, ops + [op]) <==> NoBlindBump(cfg, ops) && !BlindBump(cfg, RunCached(cfg, ops).0, op)
    ensures RunCached(cfg, ops + [op]).0 == ExecCached(cfg, RunCached(cfg, ops).0, op).0
  {
    Pushed(ops, op);
  }

  lemma BumpUnread(account: AccountId, entry: LedgerEntry)
    requires entry.data.Account?
    ensures !NoBlindBump(OnlyRemote(account, entry), [Bump(account), Get(AccountKey(account))])
  {
    var cfg, bump, get := OnlyRemote(account, entry), Bump(account), Get(AccountKey(account));
    OneMoreOp(cfg, [], bump);
    assert [] + [bump] == [bump] && [bump] + [get] == [bump, get];
    OneMoreOp(cfg, [bump], get);
  }

  lemma BumpRead(account: AccountId, entry: LedgerEntry)
    requires entry.data.Account?
    ensures NoBlindBump(OnlyRemote(account, entry), [Get(AccountKey(account)), Bump(account), Get(AccountKey(account))])
  {
    var cfg, bump, get := OnlyRemote(account, entry), Bump(account), Get(AccountKey(account));
    OneMoreOp(cfg, [], get);
    assert [] + [get] == [get] && [get] + [bump] == [get, bump] && [get, bump] + [get] == [get, bump, get];
    OneMoreOp(cfg, [get], bump);
    OneMoreOp(cfg, [get, bump], get);
  }

  /** A read can matter after all: whether the account was read first decides whether a bump lands. */
  lemma BlindBumpExists(account: AccountId, entry: LedgerEntry)
    requires entry.data.Account?
    ensures var cfg, key := OnlyRemote(account, entry), AccountKey(account);
      && RunCached(cfg, [Bump(account), Get(key)]).1 != RunReference(cfg, [Bump(account), Get(key)]).1
      && RunCached(cfg, [Get(key), Bump(account), Get(key)]).1
         == RunReference(cfg, [Get(key), Bump(account), Get(key)]).1
  {
    var cfg, key := OnlyRemote(account, entry), AccountKey(account);
    BumpUnread(account, entry);
    BumpRead(account, entry);
    RunRefines(cfg, [Bump(account), Get(key)]);
    RunRefines(cfg, [Get(key), Bump(account), Get(key)]);
  }

  // ---- fetching ----

  lemma {:induction false} AskedOnce(cfg: Config, ops: seq<Op>)
    ensures var m := RunCached(cfg, ops).0;
      && Distinct(m.src.asked)
      && (m.alive ==> forall i :: 0 <= i < |m.src.asked| ==> m.src.asked[i] in m.src.cache)
  {
    if ops == [] {
    } else {
      AskedOnce(cfg, Init(ops));
      CacheOnlyGrows(cfg, RunCached(cfg, Init(ops)).0, Last(ops));
    }
  }

  lemma CacheOnlyGrows(cfg: Config, m: Machine, op: Op)
    ensures m.src.cache.Keys <= ExecCached(cfg, m, op).0.src.cache.Keys
  {
    match op
    case Preload(entries) => PreloadGrows(m.src.cache, entries);
    case ApplyChanges(changes) => ChangesGrow(m.src.cache, changes);
    case _ =>
  }

  lemma PreloadGrows(cache: Cache, entries: seq<Triple>)
    ensures cache.Keys <= AfterPreload(cache, entries).Keys
  {
    if entries == [] {
    } else {
      PreloadGrows(cache, Init(entries));
    }
  }

  /** The operation puts something under `key`; a change record of a mere read does not. */
  predicate Writes(op: Op, key: LedgerKey) {
    match op
    case Preload(entries) => exists i :: 0 <= i < |entries| && entries[i].0 == key
    case Get(_) => false
    case SetEntry(k, _, _) => k == key
    case ApplyChanges(changes) => exists i :: 0 <= i < |changes| && !changes[i].readOnly && changes[i].key == key
    case Bump(account) => false
  }

  function RunFrom(cfg: Config, m: Machine, ops: seq<Op>): Machine {
    if ops == [] then m else ExecCached(cfg, RunFrom(cfg, m, Init(ops)), Last(ops)).0
  }

  /** A key the cache knows to be absent stays absent, and is not asked for, until it is written. */
  lemma {:induction false} RemovedStaysRemoved(cfg: Config, m: Machine, ops: seq<Op>, key: LedgerKey)
    requires key in m.src.cache && m.src.cache[key].None?
    requires forall i :: 0 <= i < |ops| ==> !Writes(ops[i], key)
    ensures var m' := RunFrom(cfg, m, ops);
      && key in m'.src.cache && m'.src.cache[key].None?
      && m.src.asked <= m'.src.asked && key !in m'.src.asked[|m.src.asked|..]
      && (m'.alive ==> ExecCached(cfg, m', Get(key)) == (m', Answer(None)))
  {
    if ops == [] {
    } else {
      RemovedStaysRemoved(cfg, m, Init(ops), key);
      var before := RunFrom(cfg, m, Init(ops)).src.cache;
      assert !Writes(ops[|ops| - 1], key);
      match Last(ops)
      case Preload(entries) => PreloadFrame(before, entries, key);
      case ApplyChanges(changes) => ChangesFrame(before, changes, key);
      case _ =>
    }
  }

  lemma {:induction false} PreloadFrame(cache: Cache, entries: seq<Triple>, key: LedgerKey)
    requires key in cache && forall i :: 0 <= i < |entries| ==> entries[i].0 != key
    ensures key in AfterPreload(cache, entries) && AfterPreload(cache, entries)[key] == cache[key]
  {
    if entries == [] {
    } else {
      PreloadFrame(cache, Init(entries), key);
    }
  }

  lemma {:induction false} ChangesFrame(cache: Cache, changes: seq<Change>, key: LedgerKey)
    requires key in cache && forall i :: 0 <= i < |changes| ==> changes[i].readOnly || changes[i].key != key
    ensures key in AfterChanges(cache, changes) && AfterChanges(cache, changes)[key] == cache[key]
  {
    if changes == [] {
    } else {
      ChangesFrame(cache, Init(changes), key);
    }
  }
}
