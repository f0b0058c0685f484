/** Read erasure (`src/server/actor.rs`): may read-only commands be struck from a history without
    anyone noticing? Exactly when no struck read was what let a later sequence bump land. */
module ReadErasure {
  import opened Wrappers
  import opened Ledger
  import opened Seqs
  import opened Source
  import opened Views
  import opened Actor
  import opened ActorViews

  /** One command of a history, and whether the erasure keeps it. */
  datatype Item = Item(command: Command, kept: bool)

  predicate StrikesOnlyReads(history: seq<Item>) {
    forall i :: 0 <= i < |history| && !history[i].kept ==> IsRead(history[i].command)
  }

  function KeptCommands(history: seq<Item>): seq<Command> {
    if history == [] then []
    else KeptCommands(Init(history)) + if Last(history).kept then [Last(history).command] else []
  }

  /** Every command runs; the replies to the kept ones are collected. */
  function RunFull(env: Env, w: State, history: seq<Item>): (State, seq<Reply>) {
    if history == [] then (w, [])
    else
      var (before, replies) := RunFull(env, w, Init(history));
      var (after, reply) := Exec(env, before, Last(history).command);
      (after, if Last(history).kept then replies + [reply] else replies)
  }

  function RunErased(env: Env, w: State, history: seq<Item>): (State, seq<Reply>) {
    Run(env, w, KeptCommands(history))
  }

  // ---- the condition, read off the one real run ----

  function KeysOf(keys: seq<LedgerKey>): set<LedgerKey> {
    set k | k in keys
  }

  function WrittenKeys(changes: seq<Change>): set<LedgerKey> {
    set i | 0 <= i < |changes| && !changes[i].readOnly :: changes[i].key
  }

  /** The keys a command reads or writes, the fee settings apart. */
  function Touches(env: Env, w: State, c: Command): set<LedgerKey> {
    match c
    case GetLedgerEntries(keys) => KeysOf(keys)
    case SetLedgerEntry(key, _, _) => {key}
    case SimulateTransaction(fn, account, _) => KeysOf(env.host(ViewOf(env, w), w.clock, fn, account).touched)
    case SendTransaction(_, fn, account, _) =>
      var outcome := env.host(ViewOf(env, w), w.clock, fn, account);
      KeysOf(outcome.touched) + if ResultOf(outcome.recording).Ok? then WrittenKeys(outcome.recording.changes) else {}
    case _ => {}
  }

  /** The keys that were cached at the start, or that a kept command of the real run has touched since. */
  function KeptTouched(env: Env, w: State, history: seq<Item>): set<LedgerKey> {
    if history == [] then w.source.cache.Keys
    else
      KeptTouched(env, w, Init(history)) +
      if Last(history).kept then Touches(env, RunFull(env, w, Init(history)).0, Last(history).command) else {}
  }

  /** In state `w` a successful send from an existing account is about to bump its sequence number, and
      no kept command, nor the send itself, has ever touched the account: a struck read is what let it. */
  predicate BumpHangsOnStruckRead(env: Env, w: State, kept: set<LedgerKey>, c: Command) {
    c.SendTransaction? && CachedAtBump(env, w, c) && AccountKey(c.source) !in kept + Touches(env, w, c) &&
    var outcome := env.host(ViewOf(env, w), w.clock, c.fn, c.source);
    var before := ViewBeforeBump(ViewOf(env, w), outcome);
    AccountKey(c.source) in before && before[AccountKey(c.source)].entry.data.Account?
  }

  /** No kept send of the real run hangs on a struck read. */
  predicate NoBumpHangs(env: Env, w: State, history: seq<Item>) {
    history == [] ||
    (NoBumpHangs(env, w, Init(history)) &&
     (Last(history).kept ==>
        !BumpHangsOnStruckRead(env, RunFull(env, w, Init(history)).0, KeptTouched(env, w, Init(history)),
                               Last(history).command)))
  }

  /** After every prefix of the history both runs show the same ledger. */
  predicate SameViewsThroughout(env: Env, w: State, history: seq<Item>) {
    (history == [] || SameViewsThroughout(env, w, Init(history))) &&
    ViewOf(env, RunFull(env, w, history).0) == ViewOf(env, RunErased(env, w, history).0)
  }

  // ---- the two runs side by side ----

  ghost predicate Twins(env: Env, full: State, erased: State, kept: set<LedgerKey>) {
    && full.alive && erased.alive
    && ViewOf(env, full) == ViewOf(env, erased)
    && full.clock == erased.clock && full.receipts == erased.receipts
    && erased.source.cache.Keys <= full.source.cache.Keys
    && (erased.fees.Some? ==> full.fees.Some?)
    && MemoBacked(full)
    && KnowsAccounts(erased, kept)
  }

  /** The accounts in the cache are those in `kept`. */
  ghost predicate KnowsAccounts(w: State, kept: set<LedgerKey>) {
    forall account: AccountId :: AccountKey(account) in w.source.cache <==> AccountKey(account) in kept
  }

  /** The fee memo is filled only by reading the six settings, so they are in the cache. */
  predicate MemoBacked(w: State) {
    w.fees.Some? ==> forall setting :: setting in FEE_SETTINGS ==> ConfigSettingKey(setting) in w.source.cache
  }

  // ---- which keys a command leaves in the cache ----

  lemma {:induction false} ReadsCache(cfg: Config, s: SourceState, keys: seq<LedgerKey>)
    requires Reliable(cfg)
    ensures AfterReads(cfg, s, keys).cache.Keys == s.cache.Keys + KeysOf(keys)
  {
    if keys == [] {
    } else {
      ReadsCache(cfg, s, Init(keys));
      ReadsKeepView(cfg, s, Init(keys));
      Split(keys);
      assert KeysOf(keys) == KeysOf(Init(keys)) + {Last(keys)};
    }
  }

  lemma {:induction false} ChangesCache(cache: Cache, changes: seq<Change>)
    ensures AfterChanges(cache, changes).Keys == cache.Keys + WrittenKeys(changes)
  {
    if changes == [] {
    } else {
      ChangesCache(cache, Init(changes));
      var n := |changes| - 1;
      assert WrittenKeys(changes)
          == WrittenKeys(Init(changes)) + if changes[n].readOnly then {} else {changes[n].key};
    }
  }

  lemma {:induction false} FeesFetchOnlySettings(cfg: Config, s: SourceState, settings: seq<nat>)
    ensures forall k :: k in FetchFees(cfg, s, settings).0.cache && k !in s.cache ==>
              exists setting :: setting in settings && k == ConfigSettingKey(setting)
    ensures FetchFees(cfg, s, settings).1.Schedule? ==>
              forall setting :: setting in settings ==> ConfigSettingKey(setting) in FetchFees(cfg, s, settings).0.cache
    decreases |settings|
  {
    if settings == [] {
    } else {
      FeesFetchOnlySettings(cfg, s, Init(settings));
      Split(settings);
      forall k | k in FetchFees(cfg, s, settings).0.cache && k !in s.cache
        ensures exists setting :: setting in settings && k == ConfigSettingKey(setting)
      {
        if k !in FetchFees(cfg, s, Init(settings)).0.cache {
          assert Last(settings) in settings && k == ConfigSettingKey(Last(settings));
        } else {
          var setting :| setting in Init(settings) && k == ConfigSettingKey(setting);
          assert setting in settings;
        }
      }
    }
  }

  lemma FeesCacheNoAccount(cfg: Config, s: SourceState)
    ensures forall account: AccountId ::
      AccountKey(account) in FetchFees(cfg, s, FEE_SETTINGS).0.cache <==> AccountKey(account) in s.cache
  {
    FeesKeepView(cfg, s, FEE_SETTINGS);
    FeesFetchOnlySettings(cfg, s, FEE_SETTINGS);
  }

  lemma TouchedBySimulate(env: Env, w: State, kept: set<LedgerKey>, c: Command)
    requires Reliable(env.cfg) && w.alive && KnowsAccounts(w, kept) && c.SimulateTransaction?
    ensures KnowsAccounts(Exec(env, w, c).0, kept + Touches(env, w, c))
  {
    var outcome := env.host(ViewOf(env, w), w.clock, c.fn, c.source);
    var s := AfterReads(env.cfg, w.source, outcome.touched);
    ReadsKeepView(env.cfg, w.source, outcome.touched);
    ReadsCache(env.cfg, w.source, outcome.touched);
    FeesCacheNoAccount(env.cfg, s);
  }

  lemma TouchedBySend(env: Env, w: State, kept: set<LedgerKey>, c: Command)
    requires Reliable(env.cfg) && w.alive && KnowsAccounts(w, kept) && c.SendTransaction?
    ensures KnowsAccounts(Exec(env, w, c).0, kept + Touches(env, w, c))
    ensures ResultOf(env.host(ViewOf(env, w), w.clock, c.fn, c.source).recording).Ok? ==>
      (CachedAtBump(env, w, c) <==> AccountKey(c.source) in kept + Touches(env, w, c))
  {
    var outcome := env.host(ViewOf(env, w), w.clock, c.fn, c.source);
    var cache := AfterReads(env.cfg, w.source, outcome.touched).cache;
    ReadsKeepView(env.cfg, w.source, outcome.touched);
    ReadsCache(env.cfg, w.source, outcome.touched);
    if ResultOf(outcome.recording).Ok? {
      ChangesCache(cache, outcome.recording.changes);
      assert AfterBump(AfterChanges(cache, outcome.recording.changes), c.source).Keys
          == AfterChanges(cache, outcome.recording.changes).Keys;
    }
  }

  /** Of accounts, a command leaves in the cache those that were there and those it touches. */
  lemma TouchedIsCached(env: Env, w: State, kept: set<LedgerKey>, c: Command)
    requires Reliable(env.cfg) && w.alive && KnowsAccounts(w, kept)
    ensures KnowsAccounts(Exec(env, w, c).0, kept + Touches(env, w, c))
  {
    match c
    case GetLedgerEntries(keys) =>
      ReadsKeepView(env.cfg, w.source, keys);
      ReadsCache(env.cfg, w.source, keys);
    case SimulateTransaction(_, _, _) => TouchedBySimulate(env, w, kept, c);
    case SendTransaction(_, _, _, _) => TouchedBySend(env, w, kept, c);
    case _ =>
  }

  lemma {:induction false} ChangesKeepOrder(a: Cache, b: Cache, changes: seq<Change>)
    requires a.Keys <= b.Keys
    ensures AfterChanges(a, changes).Keys <= AfterChanges(b, changes).Keys
  {
    if changes == [] {
    } else {
      ChangesKeepOrder(a, b, Init(changes));
    }
  }

  lemma BumpMoves(view: LedgerView, account: AccountId)
    ensures BumpView(view, account) != view
       <==> AccountKey(account) in view && view[AccountKey(account)].entry.data.Account?
  {
    var key := AccountKey(account);
    if key in view && view[key].entry.data.Account? {
      var before: int := view[key].entry.data.account.seqNum;
      assert BumpView(view, account)[key].entry.data.account.seqNum == WrapI64(before + 1);
      WrapMoves(before);
    }
  }

  lemma WrapMoves(n: I64)
    ensures WrapI64(n + 1) != n
  {
  }

  lemma TwinsSend(env: Env, full: State, erased: State, kept: set<LedgerKey>, c: Command)
    requires Reliable(env.cfg) && Twins(env, full, erased, kept) && c.SendTransaction?
    ensures ViewOf(env, Exec(env, full, c).0) == ViewOf(env, Exec(env, erased, c).0)
       <==> !BumpHangsOnStruckRead(env, full, kept, c)
    ensures !BumpHangsOnStruckRead(env, full, kept, c) ==>
              Twins(env, Exec(env, full, c).0, Exec(env, erased, c).0, kept + Touches(env, full, c))
    ensures Exec(env, full, c).1 == Exec(env, erased, c).1
  {
    var outcome := env.host(ViewOf(env, full), full.clock, c.fn, c.source);
    SendOnView(env, full, c);
    SendOnView(env, erased, c);
    TouchedBySend(env, erased, kept, c);
    ReadsKeepView(env.cfg, full.source, outcome.touched);
    ReadsKeepView(env.cfg, erased.source, outcome.touched);
    ReadsKeepOrder(env.cfg, erased.source, full.source, outcome.touched);
    BumpMoves(ViewBeforeBump(ViewOf(env, full), outcome), c.source);
    if ResultOf(outcome.recording).Ok? {
      ChangesKeepOrder(AfterReads(env.cfg, erased.source, outcome.touched).cache,
                       AfterReads(env.cfg, full.source, outcome.touched).cache, outcome.recording.changes);
      ChangesGrow(AfterReads(env.cfg, full.source, outcome.touched).cache, outcome.recording.changes);
    }
  }

  lemma TwinsSimulate(env: Env, full: State, erased: State, kept: set<LedgerKey>, c: Command)
    requires Reliable(env.cfg) && Twins(env, full, erased, kept) && c.SimulateTransaction?
    ensures Twins(env, Exec(env, full, c).0, Exec(env, erased, c).0, kept + Touches(env, full, c))
  {
    var outcome := env.host(ViewOf(env, full), full.clock, c.fn, c.source);
    var f := AfterReads(env.cfg, full.source, outcome.touched);
    var e := AfterReads(env.cfg, erased.source, outcome.touched);
    ReadCommandKeepsView(env, full, c);
    ReadCommandKeepsView(env, erased, c);
    TouchedBySimulate(env, erased, kept, c);
    ReadsKeepView(env.cfg, full.source, outcome.touched);
    ReadsKeepView(env.cfg, erased.source, outcome.touched);
    ReadsKeepOrder(env.cfg, erased.source, full.source, outcome.touched);
    if outcome.recording.Recorded? && erased.fees.None? {
      FeesKeepView(env.cfg, e, FEE_SETTINGS);
      FeesFetchOnlySettings(env.cfg, e, FEE_SETTINGS);
      if full.fees.None? {
        FeesKeepView(env.cfg, f, FEE_SETTINGS);
        FeesFetchOnlySettings(env.cfg, f, FEE_SETTINGS);
        FeesKeepOrder(env.cfg, e, f, FEE_SETTINGS);
      }
    }
  }

  /** The full run reads on its own. */
  lemma StruckRead(env: Env, full: State, erased: State, kept: set<LedgerKey>, c: Command)
    requires Reliable(env.cfg) && Twins(env, full, erased, kept) && IsRead(c)
    ensures Twins(env, Exec(env, full, c).0, erased, kept)
  {
    ReadCommandKeepsView(env, full, c);
    if c.SimulateTransaction? && full.fees.None? {
      var outcome := env.host(ViewOf(env, full), full.clock, c.fn, c.source);
      FeesFetchOnlySettings(env.cfg, AfterReads(env.cfg, full.source, outcome.touched), FEE_SETTINGS);
    }
  }

  lemma TwinsStep(env: Env, full: State, erased: State, kept: set<LedgerKey>, c: Command)
    requires Reliable(env.cfg) && Twins(env, full, erased, kept)
    ensures ViewOf(env, Exec(env, full, c).0) == ViewOf(env, Exec(env, erased, c).0)
       <==> !BumpHangsOnStruckRead(env, full, kept, c)
    ensures !BumpHangsOnStruckRead(env, full, kept, c) ==>
              Twins(env, Exec(env, full, c).0, Exec(env, erased, c).0, kept + Touches(env, full, c))
  {
    TouchedIsCached(env, erased, kept, c);
    match c
    case SendTransaction(_, _, _, _) => TwinsSend(env, full, erased, kept, c);
    case SimulateTransaction(_, _, _) => TwinsSimulate(env, full, erased, kept, c);
    case GetLedgerEntries(keys) =>
      ReadsKeepOrder(env.cfg, erased.source, full.source, keys);
      ReadsKeepView(env.cfg, full.source, keys);
      ReadsKeepView(env.cfg, erased.source, keys);
    case SetLedgerEntry(key, entry, liveUntil) =>
      WriteOnView(env, full, key, entry, liveUntil);
      WriteOnView(env, erased, key, entry, liveUntil);
    case _ =>
  }

  lemma KeptSnoc(history: seq<Item>)
    requires history != []
    ensures Last(history).kept ==>
      KeptCommands(history) != [] && Init(KeptCommands(history)) == KeptCommands(Init(history))
      && Last(KeptCommands(history)) == Last(history).command
    ensures !Last(history).kept ==> KeptCommands(history) == KeptCommands(Init(history))
  {
    if Last(history).kept {
      Pushed(KeptCommands(Init(history)), Last(history).command);
    }
  }

  lemma {:induction false} ErasureRun(env: Env, w: State, history: seq<Item>)
    requires Reliable(env.cfg) && w.alive && MemoBacked(w) && StrikesOnlyReads(history)
    ensures SameViewsThroughout(env, w, history) <==> NoBumpHangs(env, w, history)
    ensures NoBumpHangs(env, w, history) ==>
              Twins(env, RunFull(env, w, history).0, RunErased(env, w, history).0, KeptTouched(env, w, history))
  {
    if history == [] {
    } else {
      ErasureRun(env, w, Init(history));
      KeptSnoc(history);
      var full, erased := RunFull(env, w, Init(history)).0, RunErased(env, w, Init(history)).0;
      var kept := KeptTouched(env, w, Init(history));
      if NoBumpHangs(env, w, Init(history)) {
        if Last(history).kept {
          TwinsStep(env, full, erased, kept, Last(history).command);
        } else {
          assert !history[|history| - 1].kept;
          StruckRead(env, full, erased, kept, Last(history).command);
        }
      }
    }
  }

  /** Striking reads is invisible in the ledger, at every point of the history, exactly when no struck
      read is what lets a send's sequence bump land. */
  lemma ReadErasureIff(env: Env, w: State, history: seq<Item>)
    requires Reliable(env.cfg) && w.alive && MemoBacked(w) && StrikesOnlyReads(history)
    ensures SameViewsThroughout(env, w, history) <==> NoBumpHangs(env, w, history)
  {
    ErasureRun(env, w, history);
  }

  // ---- replies ----

  /** The memo, where filled, holds the schedule that `view` shows. */
  predicate MemoHonest(view: LedgerView, w: State) {
    w.fees.Some? ==> ScheduleIn(view, FEE_SETTINGS) == Schedule(w.fees.value)
  }

  lemma MemoStays(env: Env, w: State, c: Command)
    requires MemoHonest(ViewOf(env, w), w)
    ensures MemoHonest(ViewOf(env, w), Exec(env, w, c).0)
  {
    if w.alive && c.SimulateTransaction? {
      var outcome := env.host(ViewOf(env, w), w.clock, c.fn, c.source);
      ReadsKeepView(env.cfg, w.source, outcome.touched);
      FeesKeepView(env.cfg, AfterReads(env.cfg, w.source, outcome.touched), FEE_SETTINGS);
    }
  }

  lemma TwinsReply(env: Env, full: State, erased: State, kept: set<LedgerKey>, c: Command)
    requires Reliable(env.cfg) && Twins(env, full, erased, kept)
    requires MemoHonest(ViewOf(env, full), full) && MemoHonest(ViewOf(env, full), erased)
    ensures Exec(env, full, c).1 == Exec(env, erased, c).1
  {
    match c
    case SendTransaction(_, _, _, _) => TwinsSend(env, full, erased, kept, c);
    case SimulateTransaction(fn, account, _) =>
      var outcome := env.host(ViewOf(env, full), full.clock, fn, account);
      ReadsKeepView(env.cfg, full.source, outcome.touched);
      ReadsKeepView(env.cfg, erased.source, outcome.touched);
      FeesKeepView(env.cfg, AfterReads(env.cfg, full.source, outcome.touched), FEE_SETTINGS);
      FeesKeepView(env.cfg, AfterReads(env.cfg, erased.source, outcome.touched), FEE_SETTINGS);
    case GetLedgerEntries(keys) =>
      ReadsKeepView(env.cfg, full.source, keys);
      ReadsKeepView(env.cfg, erased.source, keys);
    case _ =>
  }

  /** Nothing in the history changes what the six fee settings say. */
  predicate FeeSettingsUntouched(env: Env, w: State, history: seq<Item>) {
    history == [] ||
    (FeeSettingsUntouched(env, w, Init(history)) &&
     forall setting :: setting in FEE_SETTINGS ==>
       LookupIn(ViewOf(env, RunFull(env, w, history).0), ConfigSettingKey(setting))
       == LookupIn(ViewOf(env, w), ConfigSettingKey(setting)))
  }

  lemma {:induction false} ScheduleOfSettings(a: LedgerView, b: LedgerView, settings: seq<nat>)
    requires forall setting :: setting in settings ==>
      LookupIn(a, ConfigSettingKey(setting)) == LookupIn(b, ConfigSettingKey(setting))
    ensures ScheduleIn(a, settings) == ScheduleIn(b, settings)
  {
    if settings == [] {
    } else {
      Split(settings);
      ScheduleOfSettings(a, b, Init(settings));
    }
  }

  lemma {:induction false} MemosStayHonest(env: Env, w: State, history: seq<Item>)
    requires Reliable(env.cfg) && w.alive && MemoBacked(w) && StrikesOnlyReads(history)
    requires NoBumpHangs(env, w, history) && FeeSettingsUntouched(env, w, history)
    requires MemoHonest(ViewOf(env, w), w)
    ensures MemoHonest(ViewOf(env, RunFull(env, w, history).0), RunFull(env, w, history).0)
    ensures MemoHonest(ViewOf(env, RunFull(env, w, history).0), RunErased(env, w, history).0)
  {
    if history == [] {
    } else {
      MemosStayHonest(env, w, Init(history));
      ErasureRun(env, w, Init(history));
      KeptSnoc(history);
      var full, erased := RunFull(env, w, Init(history)).0, RunErased(env, w, Init(history)).0;
      MemoStays(env, full, Last(history).command);
      MemoStays(env, erased, Last(history).command);
      ScheduleOfSettings(ViewOf(env, w), ViewOf(env, RunFull(env, w, history).0), FEE_SETTINGS);
      if Init(history) != [] {
        ScheduleOfSettings(ViewOf(env, w), ViewOf(env, full), FEE_SETTINGS);
      }
    }
  }

  /** ... and then, the fee settings being left alone, no remaining reply changes either. */
  lemma {:induction false} ErasedRepliesAgree(env: Env, w: State, history: seq<Item>)
    requires Reliable(env.cfg) && w.alive && MemoBacked(w) && StrikesOnlyReads(history)
    requires NoBumpHangs(env, w, history) && FeeSettingsUntouched(env, w, history)
    requires MemoHonest(ViewOf(env, w), w)
    ensures RunFull(env, w, history).1 == RunErased(env, w, history).1
  {
    if history == [] {
    } else {
      ErasedRepliesAgree(env, w, Init(history));
      KeptSnoc(history);
      if Last(history).kept {
        MemosStayHonest(env, w, Init(history));
        ErasureRun(env, w, Init(history));
        TwinsReply(env, RunFull(env, w, Init(history)).0, RunErased(env, w, Init(history)).0,
                   KeptTouched(env, w, Init(history)), Last(history).command);
      }
    }
  }

  /** A difference in the ledger is one that a client can see: some single-key read then answers
      differently. So the condition on views above is the condition on replies to any further read. */
  lemma DifferencesAreVisible(env: Env, full: State, erased: State)
    requires Reliable(env.cfg) && full.alive && erased.alive && full.clock == erased.clock
    ensures ViewOf(env, full) == ViewOf(env, erased)
       <==> forall key :: Exec(env, full, GetLedgerEntries([key])).1 == Exec(env, erased, GetLedgerEntries([key])).1
  {
    forall key
      ensures Exec(env, full, GetLedgerEntries([key])).1 == Exec(env, erased, GetLedgerEntries([key])).1
         <==> LookupIn(ViewOf(env, full), key) == LookupIn(ViewOf(env, erased), key)
    {
      OneKey(env, full, key);
      OneKey(env, erased, key);
    }
    if forall key :: Exec(env, full, GetLedgerEntries([key])).1 == Exec(env, erased, GetLedgerEntries([key])).1 {
      SameLookups(ViewOf(env, full), ViewOf(env, erased));
    }
  }

  lemma OneKey(env: Env, w: State, key: LedgerKey)
    requires Reliable(env.cfg) && w.alive
    ensures Exec(env, w, GetLedgerEntries([key])).1 == Entries([LookupIn(ViewOf(env, w), key)], w.clock.sequence)
  {
    ReadsKeepView(env.cfg, w.source, [key]);
    assert Init([key]) == [] && Last([key]) == key;
    assert Lookups(ViewOf(env, w), [key]) == [LookupIn(ViewOf(env, w), key)];
  }

  lemma ClockAfterCommand(env: Env, w: State, c: Command)
    requires Reliable(env.cfg) && w.alive
    ensures var w' := Exec(env, w, c).0;
      w'.alive && w'.clock == if c.CloseLedgers? then Warp(w.clock, c.ledgers, c.seconds) else w.clock
  {
    if IsRead(c) {
      ReadCommandKeepsView(env, w, c);
    } else if c.SendTransaction? {
      SendOnView(env, w, c);
    }
  }

  /** Struck or not, reads touch no clock and lose no worker. */
  lemma {:induction false} ClocksAgree(env: Env, w: State, history: seq<Item>)
    requires Reliable(env.cfg) && w.alive && StrikesOnlyReads(history)
    ensures var full, erased := RunFull(env, w, history).0, RunErased(env, w, history).0;
      full.alive && erased.alive && full.clock == erased.clock
  {
    if history == [] {
    } else {
      ClocksAgree(env, w, Init(history));
      KeptSnoc(history);
      assert !history[|history| - 1].kept ==> IsRead(history[|history| - 1].command);
      ClockAfterCommand(env, RunFull(env, w, Init(history)).0, Last(history).command);
      ClockAfterCommand(env, RunErased(env, w, Init(history)).0, Last(history).command);
    }
  }

  /** After every prefix of the history, a read of any one key answers alike in both runs. */
  ghost predicate NoReadTells(env: Env, w: State, history: seq<Item>) {
    (history == [] || NoReadTells(env, w, Init(history))) &&
    forall key :: Exec(env, RunFull(env, w, history).0, GetLedgerEntries([key])).1
               == Exec(env, RunErased(env, w, history).0, GetLedgerEntries([key])).1
  }

  lemma {:induction false} ReadsTellViews(env: Env, w: State, history: seq<Item>)
    requires Reliable(env.cfg) && w.alive && StrikesOnlyReads(history)
    ensures NoReadTells(env, w, history) <==> SameViewsThroughout(env, w, history)
  {
    ClocksAgree(env, w, history);
    DifferencesAreVisible(env, RunFull(env, w, history).0, RunErased(env, w, history).0);
    if history == [] {
    } else {
      ReadsTellViews(env, w, Init(history));
    }
  }

  /** Striking reads goes unnoticed by every read a client could send, at every point of the history,
      exactly when no bump hangs on a struck read. */
  lemma {:induction false} ErasureRepliesIff(env: Env, w: State, history: seq<Item>)
    requires Reliable(env.cfg) && w.alive && MemoBacked(w) && StrikesOnlyReads(history)
    ensures NoReadTells(env, w, history) <==> NoBumpHangs(env, w, history)
  {
    ReadsTellViews(env, w, history);
    ReadErasureIff(env, w, history);
  }

  // ---- the failing input ----

  function SeqShown(view: LedgerView, account: AccountId): ScVal {
    if AccountKey(account) in view && view[AccountKey(account)].entry.data.Account?
    then I128(view[AccountKey(account)].entry.data.account.seqNum, 0)
    else Void
  }

  /** A fork that has never touched `account`, over a host that only returns its sequence number. */
  function EchoEnv(account: AccountId, entry: LedgerEntry): Env {
    Env(Config(Remote(map[AccountKey(account) := Stored(entry, None)], {}), Strict),
        (view: LedgerView, clock: Clock, fn: HostFunction, source: AccountId) =>
          HostOutcome(Recorded(Ok(SeqShown(view, account)), [], 0), []),
        (envelope: seq<Byte>) => seq(32, _ => 0),
        (fees: FeeConfig, resources: int, size: U32) => 0)
  }

  function Untouched(clock: Clock): State {
    State(SourceState(map[], []), clock, map[], None, true)
  }

  lemma OneMoreItem(env: Env, w: State, history: seq<Item>, item: Item)
    ensures var (before, replies) := RunFull(env, w, history);
      var (after, reply) := Exec(env, before, item.command);
      RunFull(env, w, history + [item]) == (after, if item.kept then replies + [reply] else replies)
  {
    Pushed(history, item);
  }

  lemma OneMoreCommand(env: Env, w: State, commands: seq<Command>, c: Command)
    ensures var (before, replies) := Run(env, w, commands);
      var (after, reply) := Exec(env, before, c);
      Run(env, w, commands + [c]) == (after, replies + [reply])
  {
    Pushed(commands, c);
  }

  lemma FullRunOfTwo(env: Env, w: State, x: Item, y: Item)
    requires !x.kept && y.kept
    ensures var (after, replies) := RunFull(env, w, [x, y]);
      after == Exec(env, Exec(env, w, x.command).0, y.command).0 && |replies| == 1
  {
    OneMoreItem(env, w, [], x);
    NothingBefore(x);
    OneMoreItem(env, w, [x], y);
    assert [x] + [y] == [x, y];
  }

  lemma LastFullReply(env: Env, w: State, x: Item, y: Item, z: Item)
    requires !x.kept && y.kept && z.kept
    ensures var (before, replies) := RunFull(env, w, [x, y]);
      RunFull(env, w, [x, y, z]).1 == replies + [Exec(env, before, z.command).1]
  {
    OneMoreItem(env, w, [x, y], z);
    assert [x, y] + [z] == [x, y, z];
  }

  lemma NothingBefore<T>(x: T)
    ensures [] + [x] == [x]
  {
  }

  lemma OneMoreKept(history: seq<Item>, item: Item)
    ensures KeptCommands(history + [item]) == KeptCommands(history) + if item.kept then [item.command] else []
  {
    Pushed(history, item);
  }

  lemma KeptOfThree(a: Command, b: Command, c: Command)
    ensures KeptCommands([Item(a, false), Item(b, true), Item(c, true)]) == [b, c]
  {
    var x, y, z := Item(a, false), Item(b, true), Item(c, true);
    OneMoreKept([], x);
    NothingBefore(x);
    OneMoreKept([x], y);
    assert [x] + [y] == [x, y];
    OneMoreKept([x, y], z);
    assert [x, y] + [z] == [x, y, z];
  }

  lemma RunOfTwo(env: Env, w: State, b: Command, c: Command)
    ensures Run(env, w, [b, c]).1 == [Exec(env, w, b).1, Exec(env, Exec(env, w, b).0, c).1]
  {
    OneMoreCommand(env, w, [], b);
    NothingBefore(b);
    OneMoreCommand(env, w, [b], c);
    assert [b] + [c] == [b, c];
  }

  /** The two forks show the account with different sequence numbers. */
  predicate TellApart(account: AccountId, full: State, erased: State, entry: LedgerEntry) {
    var env, key := EchoEnv(account, entry), AccountKey(account);
    && full.alive && erased.alive && entry.data.Account?
    && key in ViewOf(env, full) && ViewOf(env, full)[key].entry == BumpEntry(entry).value
    && key in ViewOf(env, erased) && ViewOf(env, erased)[key].entry == entry
  }

  /** The account's entry as the first send leaves it: bumped after the read, not bumped without. */
  lemma FirstSend(account: AccountId, entry: LedgerEntry, fn: HostFunction, clock: Clock)
    requires entry.data.Account?
    ensures var env, w, key := EchoEnv(account, entry), Untouched(clock), AccountKey(account);
      var send := SendTransaction([], fn, account, 0);
      var full := Exec(env, Exec(env, w, GetLedgerEntries([key])).0, send).0;
      var erased := Exec(env, w, send).0;
      TellApart(account, full, erased, entry)
  {
    var env, w, key := EchoEnv(account, entry), Untouched(clock), AccountKey(account);
    var send := SendTransaction([], fn, account, 0);
    var afterRead := Exec(env, w, GetLedgerEntries([key])).0;
    ReadCommandKeepsView(env, w, GetLedgerEntries([key]));
    ReadsCache(env.cfg, w.source, [key]);
    assert key in KeysOf([key]);
    ViewLookup(env.cfg, w.source.cache, key);
    assert LookupIn(ViewOf(env, w), key) == Some(Stored(entry, None));
    SendOnView(env, afterRead, send);
    SendOnView(env, w, send);
  }

  lemma LaterReadDiffers(account: AccountId, entry: LedgerEntry, full: State, erased: State)
    requires TellApart(account, full, erased, entry)
    ensures var env, read := EchoEnv(account, entry), GetLedgerEntries([AccountKey(account)]);
      Exec(env, full, read).1 != Exec(env, erased, read).1
  {
    var env, key := EchoEnv(account, entry), AccountKey(account);
    WrapMoves(entry.data.account.seqNum);
    OneKey(env, full, key);
    OneKey(env, erased, key);
    assert Exec(env, full, GetLedgerEntries([key])).1.entries[0]
        != Exec(env, erased, GetLedgerEntries([key])).1.entries[0];
  }

  lemma LaterSendDiffers(account: AccountId, entry: LedgerEntry, fn: HostFunction, full: State, erased: State)
    requires TellApart(account, full, erased, entry)
    ensures var env, send := EchoEnv(account, entry), SendTransaction([], fn, account, 0);
      Exec(env, full, send).1 != Exec(env, erased, send).1
  {
    var env, send := EchoEnv(account, entry), SendTransaction([], fn, account, 0);
    WrapMoves(entry.data.account.seqNum);
    SendOnView(env, full, send);
    SendOnView(env, erased, send);
    assert Exec(env, full, send).1.receipt.result != Exec(env, erased, send).1.receipt.result;
  }

  /** `getLedgerEntries(account)`, a send from it, and then either another read or another send: with the
      first read struck, the last reply is a different one. Striking every read can change a receipt. */
  lemma StruckReadCanShow(account: AccountId, entry: LedgerEntry, fn: HostFunction, clock: Clock)
    requires entry.data.Account?
    ensures var env, read := EchoEnv(account, entry), GetLedgerEntries([AccountKey(account)]);
      var send := SendTransaction([], fn, account, 0);
      forall last :: last == read || last == send ==>
        var history := [Item(read, false), Item(send, true), Item(last, true)];
        RunFull(env, Untouched(clock), history).1 != RunErased(env, Untouched(clock), history).1
  {
    var env, w, read := EchoEnv(account, entry), Untouched(clock), GetLedgerEntries([AccountKey(account)]);
    var send := SendTransaction([], fn, account, 0);
    var full, erased := Exec(env, Exec(env, w, read).0, send).0, Exec(env, w, send).0;
    FirstSend(account, entry, fn, clock);
    LaterReadDiffers(account, entry, full, erased);
    LaterSendDiffers(account, entry, fn, full, erased);
    forall last | last == read || last == send
      ensures var history := [Item(read, false), Item(send, true), Item(last, true)];
        RunFull(env, w, history).1 != RunErased(env, w, history).1
    {
      var history := [Item(read, false), Item(send, true), Item(last, true)];
      FullRunOfTwo(env, w, Item(read, false), Item(send, true));
      LastFullReply(env, w, Item(read, false), Item(send, true), Item(last, true));
      KeptOfThree(read, send, last);
      RunOfTwo(env, w, send, last);
      assert RunFull(env, w, history).1[1] != RunErased(env, w, history).1[1];
    }
  }
}
