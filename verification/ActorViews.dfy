/** What one worker command does to the ledger a reader sees. Reads, of whatever kind, do nothing. */
module ActorViews {
  import opened Wrappers
  import opened Ledger
  import opened Seqs
  import opened Source
  import opened Views
  import opened Actor

  function ViewOf(env: Env, w: State): LedgerView {
    View(env.cfg, w.source.cache)
  }

  /** No fetch can panic. */
  predicate Reliable(cfg: Config) {
    cfg.mode.Lenient? || cfg.remote.unreachable == {}
  }

  predicate IsRead(c: Command) {
    !c.SendTransaction? && !c.SetLedgerEntry? && !c.CloseLedgers?
  }

  function Lookups(view: LedgerView, keys: seq<LedgerKey>): seq<Option<Stored>> {
    if keys == [] then [] else Lookups(view, Init(keys)) + [LookupIn(view, Last(keys))]
  }

  lemma {:induction false} ReadsKeepView(cfg: Config, s: SourceState, keys: seq<LedgerKey>)
    ensures View(cfg, AfterReads(cfg, s, keys).cache) == View(cfg, s.cache)
    ensures s.cache.Keys <= AfterReads(cfg, s, keys).cache.Keys
    ensures forall k :: k in s.cache ==> AfterReads(cfg, s, keys).cache[k] == s.cache[k]
    ensures ReadsSucceed(cfg, s, keys) ==> ReadReplies(cfg, s, keys) == Lookups(View(cfg, s.cache), keys)
    ensures Reliable(cfg) ==> ReadsSucceed(cfg, s, keys)
  {
    if keys == [] {
    } else {
      ReadsKeepView(cfg, s, Init(keys));
      GetKeepsView(cfg, AfterReads(cfg, s, Init(keys)), Last(keys));
    }
  }

  /** With the keys cached by one run among those cached by another, reading the same keys keeps it so. */
  lemma {:induction false} ReadsKeepOrder(cfg: Config, s: SourceState, t: SourceState, keys: seq<LedgerKey>)
    requires Reliable(cfg) && s.cache.Keys <= t.cache.Keys
    ensures AfterReads(cfg, s, keys).cache.Keys <= AfterReads(cfg, t, keys).cache.Keys
  {
    if keys == [] {
    } else {
      ReadsKeepOrder(cfg, s, t, Init(keys));
      ReadsKeepView(cfg, s, Init(keys));
      ReadsKeepView(cfg, t, Init(keys));
    }
  }

  // ---- the fee schedule as a function of the view ----

  function ScheduleIn(view: LedgerView, settings: seq<nat>): Schedule {
    if settings == [] then Schedule(map[])
    else
      var sofar := ScheduleIn(view, Init(settings));
      if !sofar.Schedule? then sofar
      else ApplySetting(Got(LookupIn(view, ConfigSettingKey(Last(settings)))), sofar.fees)
  }

  lemma {:induction false} FeesKeepView(cfg: Config, s: SourceState, settings: seq<nat>)
    ensures View(cfg, FetchFees(cfg, s, settings).0.cache) == View(cfg, s.cache)
    ensures s.cache.Keys <= FetchFees(cfg, s, settings).0.cache.Keys
    ensures forall k :: k in s.cache ==> FetchFees(cfg, s, settings).0.cache[k] == s.cache[k]
    ensures FetchFees(cfg, s, settings).1 == ReadPanicked
         || FetchFees(cfg, s, settings).1 == ScheduleIn(View(cfg, s.cache), settings)
    ensures Reliable(cfg) ==> FetchFees(cfg, s, settings).1 != ReadPanicked
    decreases |settings|
  {
    if settings == [] {
    } else {
      FeesKeepView(cfg, s, Init(settings));
      GetKeepsView(cfg, FetchFees(cfg, s, Init(settings)).0, ConfigSettingKey(Last(settings)));
    }
  }

  lemma {:induction false} FeesKeepOrder(cfg: Config, s: SourceState, t: SourceState, settings: seq<nat>)
    requires Reliable(cfg) && s.cache.Keys <= t.cache.Keys && View(cfg, s.cache) == View(cfg, t.cache)
    ensures FetchFees(cfg, s, settings).0.cache.Keys <= FetchFees(cfg, t, settings).0.cache.Keys
    decreases |settings|
  {
    if settings == [] {
    } else {
      FeesKeepOrder(cfg, s, t, Init(settings));
      FeesKeepView(cfg, s, Init(settings));
      FeesKeepView(cfg, t, Init(settings));
    }
  }

  // ---- one command ----

  /** The source after a read command knows all it knew, and shows the same ledger. */
  predicate OnlyLearns(cfg: Config, s: SourceState, s': SourceState) {
    && View(cfg, s'.cache) == View(cfg, s.cache)
    && s.cache.Keys <= s'.cache.Keys
    && (forall k :: k in s.cache ==> s'.cache[k] == s.cache[k])
  }

  lemma SimulateOnlyLearns(env: Env, w: State, c: Command)
    requires c.SimulateTransaction?
    ensures var w' := Simulate(env, w, c).0;
      && OnlyLearns(env.cfg, w.source, w'.source) && w'.clock == w.clock && w'.receipts == w.receipts
      && (Reliable(env.cfg) ==> w'.alive == w.alive)
  {
    var outcome := env.host(ViewOf(env, w), w.clock, c.fn, c.source);
    var s := AfterReads(env.cfg, w.source, outcome.touched);
    ReadsKeepView(env.cfg, w.source, outcome.touched);
    assert OnlyLearns(env.cfg, w.source, s);
    if ReadsSucceed(env.cfg, w.source, outcome.touched) && outcome.recording.Recorded? && w.fees.None? {
      var (s', schedule) := FetchFees(env.cfg, s, FEE_SETTINGS);
      FeesKeepView(env.cfg, s, FEE_SETTINGS);
      assert OnlyLearns(env.cfg, w.source, s');
    }
  }

  /** A read command leaves the view, the clock and the receipts alone, and forgets nothing. */
  lemma ReadCommandKeepsView(env: Env, w: State, c: Command)
    requires IsRead(c)
    ensures var w' := Exec(env, w, c).0;
      && OnlyLearns(env.cfg, w.source, w'.source) && w'.clock == w.clock && w'.receipts == w.receipts
      && (Reliable(env.cfg) ==> w'.alive == w.alive)
  {
    if w.alive {
      match c
      case GetLedgerEntries(keys) => ReadsKeepView(env.cfg, w.source, keys);
      case SimulateTransaction(_, _, _) => SimulateOnlyLearns(env, w, c);
      case _ =>
    }
  }

  /** The cache entries a successful send would bump: read, written or cached before. */
  predicate CachedAtBump(env: Env, w: State, c: Command)
    requires c.SendTransaction?
  {
    var outcome := env.host(ViewOf(env, w), w.clock, c.fn, c.source);
    ResultOf(outcome.recording).Ok? &&
    AccountKey(c.source)
      in AfterChanges(AfterReads(env.cfg, w.source, outcome.touched).cache, outcome.recording.changes)
  }

  /** The view just before the bump of a successful send. */
  function ViewBeforeBump(view: LedgerView, outcome: HostOutcome): LedgerView {
    if ResultOf(outcome.recording).Ok? then ViewAfterChanges(view, outcome.recording.changes) else view
  }

  lemma SendOnView(env: Env, w: State, c: Command)
    requires c.SendTransaction? && w.alive
    ensures var outcome := env.host(ViewOf(env, w), w.clock, c.fn, c.source);
      var (w', reply) := Exec(env, w, c);
      && (Reliable(env.cfg) ==> w'.alive)
      && w'.clock == w.clock
      && (w'.alive ==>
            && reply.Sent? && reply.receipt.result == ResultOf(outcome.recording)
            && ViewOf(env, w')
               == if CachedAtBump(env, w, c) then BumpView(ViewBeforeBump(ViewOf(env, w), outcome), c.source)
                  else ViewBeforeBump(ViewOf(env, w), outcome))
      && (!w'.alive ==> ViewOf(env, w') == ViewOf(env, w))
  {
    var outcome := env.host(ViewOf(env, w), w.clock, c.fn, c.source);
    ReadsKeepView(env.cfg, w.source, outcome.touched);
    if ResultOf(outcome.recording).Ok? {
      var s := AfterReads(env.cfg, w.source, outcome.touched);
      ChangesAreSeen(env.cfg, s.cache, outcome.recording.changes);
      BumpIsSeen(env.cfg, AfterChanges(s.cache, outcome.recording.changes), c.source);
    }
  }

  /** A failed send changes no key's entry. */
  lemma FailedSendKeepsView(env: Env, w: State, c: Command)
    requires c.SendTransaction?
    requires Exec(env, w, c).1.Sent? ==> Exec(env, w, c).1.receipt.result.Err?
    ensures ViewOf(env, Exec(env, w, c).0) == ViewOf(env, w)
  {
    if w.alive {
      SendOnView(env, w, c);
    }
  }

  lemma WriteOnView(env: Env, w: State, key: LedgerKey, entry: LedgerEntry, liveUntil: Option<U32>)
    requires w.alive
    ensures ViewOf(env, Exec(env, w, SetLedgerEntry(key, entry, liveUntil)).0)
         == ViewOf(env, w)[key := Stored(entry, liveUntil)]
  {
    WriteIsSeen(env.cfg, w.source.cache, key, Some(Stored(entry, liveUntil)));
  }
}
