/** Concurrent `SnapshotSource::get` (`src/source.rs`): the lock is held for the lookup and for the
    insert but not across the fetch between them, so any number of readers may race. */
module Readers {
  import opened Wrappers
  import opened Ledger
  import opened Seqs
  import opened Source

  /** Where a reader thread is inside `get`. */
  datatype Pc =
    | Idle
    | Missed(key: LedgerKey)                              // looked up, found nothing, lock released
    | Counted(key: LedgerKey)                             // fetch_count incremented
    | Answered(key: LedgerKey, stored: Option<Stored>)    // the RPC has answered
    | Finished(key: LedgerKey, stored: Option<Stored>)    // get returned
    | Dead                                                // a Strict fetch panicked

  datatype System = System(cache: Cache, fetchCount: U32, threads: seq<Pc>)

  datatype Step = Lookup(t: nat, key: LedgerKey) | Count(t: nat) | Fetch(t: nat) | Insert(t: nat)

  predicate Enabled(s: System, step: Step) {
    step.t < |s.threads| &&
    match step
    case Lookup(t, _) => s.threads[t].Idle? || s.threads[t].Finished?
    case Count(t) => s.threads[t].Missed?
    case Fetch(t) => s.threads[t].Counted?
    case Insert(t) => s.threads[t].Answered?
  }

  function At(s: System, t: nat, pc: Pc): System
    requires t < |s.threads|
  {
    s.(threads := s.threads[t := pc])
  }

  function Next(cfg: Config, s: System, step: Step): System
    requires Enabled(s, step)
  {
    var pc := s.threads[step.t];
    match step
    case Lookup(t, key) =>
      At(s, t, if key in s.cache then Finished(key, DecodeAll(s.cache[key])) else Missed(key))
    case Count(t) =>
      At(s, t, Counted(pc.key)).(fetchCount := (s.fetchCount + 1) % 0x1_0000_0000)
    case Fetch(t) =>
      At(s, t, if Panics(cfg, pc.key) then Dead else Answered(pc.key, RemoteAt(cfg, pc.key)))
    case Insert(t) =>
      At(s, t, Finished(pc.key, pc.stored)).(cache := s.cache[pc.key := EncodeAll(pc.stored)])
  }

  /** A source preloaded with `entries`, and `n` threads that have not started. */
  function Start(entries: seq<Triple>, n: nat): System {
    System(AfterPreload(map[], entries), 0, seq(n, _ => Idle))
  }

  /** The system after `steps`, each taken if it is enabled when its turn comes. */
  function Run(cfg: Config, s: System, steps: seq<Step>): System {
    if steps == [] then s
    else
      var before := Run(cfg, s, Init(steps));
      if Enabled(before, Last(steps)) then Next(cfg, before, Last(steps)) else before
  }

  /** The lookups that missed. */
  function Misses(cfg: Config, s: System, steps: seq<Step>): nat {
    if steps == [] then 0
    else
      var before := Run(cfg, s, Init(steps));
      Misses(cfg, s, Init(steps)) +
      if Enabled(before, Last(steps)) && Last(steps).Lookup? && Last(steps).key !in before.cache then 1 else 0
  }

  /** The threads that have missed but not yet counted their fetch. */
  function Uncounted(threads: seq<Pc>): nat {
    if threads == [] then 0 else Uncounted(Init(threads)) + if Last(threads).Missed? then 1 else 0
  }

  predicate Agrees(cfg: Config, truth: Cache, s: System) {
    && truth.Keys <= s.cache.Keys
    && (forall key :: key in s.cache ==> DecodeAll(s.cache[key]) == ViewAt(cfg, truth, key))
    && (forall t :: 0 <= t < |s.threads| ==> AgreesThread(cfg, truth, s.cache, s.threads[t]))
  }

  predicate AgreesThread(cfg: Config, truth: Cache, cache: Cache, pc: Pc) {
    match pc
    case Missed(key) => key !in truth
    case Counted(key) => key !in truth
    case Answered(key, stored) => key !in truth && stored == RemoteAt(cfg, key)
    case Finished(key, stored) => key in cache && stored == ViewAt(cfg, truth, key)
    case _ => true
  }

  lemma NextAgrees(cfg: Config, truth: Cache, s: System, step: Step)
    requires Agrees(cfg, truth, s) && Enabled(s, step)
    ensures Agrees(cfg, truth, Next(cfg, s, step))
  {
    var s' := Next(cfg, s, step);
    assert AgreesThread(cfg, truth, s.cache, s.threads[step.t]);
    forall t | 0 <= t < |s'.threads| ensures AgreesThread(cfg, truth, s'.cache, s'.threads[t]) {
      if t != step.t {
        assert s'.threads[t] == s.threads[t];
      }
    }
  }

  lemma {:induction false} RunAgrees(cfg: Config, truth: Cache, s: System, steps: seq<Step>)
    requires Agrees(cfg, truth, s)
    ensures Agrees(cfg, truth, Run(cfg, s, steps))
  {
    if steps == [] {
    } else {
      RunAgrees(cfg, truth, s, Init(steps));
      var before := Run(cfg, s, Init(steps));
      if Enabled(before, Last(steps)) {
        NextAgrees(cfg, truth, before, Last(steps));
      }
    }
  }

  lemma {:induction false} PreloadHas(cfg: Config, entries: seq<Triple>, n: nat)
    ensures Agrees(cfg, AfterPreload(map[], entries), Start(entries, n))
  {
  }

  /** However the readers race, the cache says of every key what preload-over-remote says, and every
      finished `get` returned exactly that. */
  lemma RacesAgreeWithPreloadOverRemote(cfg: Config, entries: seq<Triple>, n: nat, steps: seq<Step>)
    ensures var s := Run(cfg, Start(entries, n), steps);
      var truth := AfterPreload(map[], entries);
      && (forall key :: ViewAt(cfg, s.cache, key) == ViewAt(cfg, truth, key))
      && (forall t :: 0 <= t < |s.threads| && s.threads[t].Finished? ==>
            s.threads[t].stored == ViewAt(cfg, truth, s.threads[t].key))
  {
    PreloadHas(cfg, entries, n);
    RunAgrees(cfg, AfterPreload(map[], entries), Start(entries, n), steps);
    var s := Run(cfg, Start(entries, n), steps);
    var truth := AfterPreload(map[], entries);
    forall t | 0 <= t < |s.threads| && s.threads[t].Finished?
      ensures s.threads[t].stored == ViewAt(cfg, truth, s.threads[t].key)
    {
      assert AgreesThread(cfg, truth, s.cache, s.threads[t]);
    }
  }

  lemma {:induction false} RunGrows(cfg: Config, s: System, steps: seq<Step>)
    ensures s.cache.Keys <= Run(cfg, s, steps).cache.Keys
    ensures |Run(cfg, s, steps).threads| == |s.threads|
  {
    if steps == [] {
    } else {
      RunGrows(cfg, s, Init(steps));
    }
  }

  /** Once some `get` of a key has finished, no `get` of it that begins later fetches. */
  lemma FinishedKeysAreNeverFetched(
    cfg: Config, entries: seq<Triple>, n: nat, before: seq<Step>, mid: System, after: seq<Step>,
    t: nat, key: LedgerKey, late: nat)
    requires mid == Run(cfg, Start(entries, n), before)
    requires t < |mid.threads| && mid.threads[t].Finished? && mid.threads[t].key == key
    requires Enabled(Run(cfg, mid, after), Lookup(late, key))
    ensures Next(cfg, Run(cfg, mid, after), Lookup(late, key)).threads[late]
         == Finished(key, ViewAt(cfg, AfterPreload(map[], entries), key))
  {
    var truth := AfterPreload(map[], entries);
    PreloadHas(cfg, entries, n);
    RunAgrees(cfg, truth, Start(entries, n), before);
    RunGrows(cfg, Start(entries, n), before);
    assert AgreesThread(cfg, truth, mid.cache, mid.threads[t]);
    RunGrows(cfg, mid, after);
    RunAgrees(cfg, truth, mid, after);
  }

  lemma {:induction false} UncountedUpdate(threads: seq<Pc>, t: nat, pc: Pc)
    requires t < |threads|
    ensures Uncounted(threads[t := pc])
         == Uncounted(threads) + (if pc.Missed? then 1 else 0) - (if threads[t].Missed? then 1 else 0)
  {
    if t == |threads| - 1 {
      assert Init(threads[t := pc]) == Init(threads);
    } else {
      assert Init(threads[t := pc]) == Init(threads)[t := pc];
      UncountedUpdate(Init(threads), t, pc);
    }
  }

  lemma {:induction false} NoneUncounted(n: nat)
    ensures Uncounted(seq(n, _ => Idle)) == 0
  {
    if n > 0 {
      assert Init(seq(n, _ => Idle)) == seq(n - 1, _ => Idle);
      NoneUncounted(n - 1);
    }
  }

  predicate CountsMisses(s: System, misses: nat) {
    Uncounted(s.threads) <= misses && s.fetchCount == (misses - Uncounted(s.threads)) % 0x1_0000_0000
  }

  lemma NextCounts(cfg: Config, s: System, step: Step, misses: nat)
    requires CountsMisses(s, misses) && Enabled(s, step)
    ensures CountsMisses(Next(cfg, s, step), misses + if step.Lookup? && step.key !in s.cache then 1 else 0)
  {
    UncountedUpdate(s.threads, step.t, Next(cfg, s, step).threads[step.t]);
    match step
    case Count(t) =>
      UncountedPositive(s.threads, t);
    case _ =>
  }

  lemma UncountedPositive(threads: seq<Pc>, t: nat)
    requires t < |threads| && threads[t].Missed?
    ensures Uncounted(threads) > 0
  {
    if t < |threads| - 1 { UncountedPositive(Init(threads), t); }
  }

  lemma OneMoreStep(cfg: Config, s: System, steps: seq<Step>)
    requires steps != []
    ensures var before := Run(cfg, s, Init(steps));
      if Enabled(before, Last(steps)) then
        && Run(cfg, s, steps) == Next(cfg, before, Last(steps))
        && Misses(cfg, s, steps)
           == Misses(cfg, s, Init(steps)) + if Last(steps).Lookup? && Last(steps).key !in before.cache then 1 else 0
      else Run(cfg, s, steps) == before && Misses(cfg, s, steps) == Misses(cfg, s, Init(steps))
  {
  }

  lemma NoneCounted(entries: seq<Triple>, n: nat)
    ensures CountsMisses(Start(entries, n), 0)
  {
    NoneUncounted(n);
  }

  /** The fetch counter is the number of misses, less the threads just about to count theirs. */
  lemma {:induction false} FetchCountIsMisses(cfg: Config, entries: seq<Triple>, n: nat, steps: seq<Step>)
    ensures CountsMisses(Run(cfg, Start(entries, n), steps), Misses(cfg, Start(entries, n), steps))
  {
    var s := Start(entries, n);
    if steps == [] {
      NoneCounted(entries, n);
    } else {
      FetchCountIsMisses(cfg, entries, n, Init(steps));
      OneMoreStep(cfg, s, steps);
      var before := Run(cfg, s, Init(steps));
      if Enabled(before, Last(steps)) {
        NextCounts(cfg, before, Last(steps), Misses(cfg, s, Init(steps)));
      }
    }
  }

  // ---- one thread undisturbed ----

  /** `get` from its lookup to its return, with nobody else moving. */
  function WholeGet(t: nat, key: LedgerKey): seq<Step> {
    [Lookup(t, key), Count(t), Fetch(t), Insert(t)]
  }

  lemma RunPushed(cfg: Config, s: System, steps: seq<Step>, step: Step)
    ensures var before := Run(cfg, s, steps);
      Run(cfg, s, steps + [step]) == if Enabled(before, step) then Next(cfg, before, step) else before
  {
    Pushed(steps, step);
  }

  /** The steps of one undisturbed thread are the `get` of `Source`: the same cache, the same reply, the
      same number of fetches. */
  lemma WholeGetIsGet(cfg: Config, s: System, asked: seq<LedgerKey>, t: nat, key: LedgerKey)
    requires t < |s.threads| && (s.threads[t].Idle? || s.threads[t].Finished?)
    requires s.fetchCount == |asked| % 0x1_0000_0000
    ensures var s' := Run(cfg, s, WholeGet(t, key));
      var before := SourceState(s.cache, asked);
      && s'.cache == AfterGet(cfg, before, key).cache
      && s'.fetchCount == |AfterGet(cfg, before, key).asked| % 0x1_0000_0000
      && s'.threads == s.threads[t :=
           match GetReply(cfg, before, key)
           case Got(stored) => Finished(key, stored)
           case Panicked => Dead]
  {
    var one, two, three := [Lookup(t, key)], [Lookup(t, key), Count(t)], [Lookup(t, key), Count(t), Fetch(t)];
    assert one == [] + [Lookup(t, key)] && two == one + [Count(t)];
    assert three == two + [Fetch(t)] && WholeGet(t, key) == three + [Insert(t)];
    RunPushed(cfg, s, [], Lookup(t, key));
    RunPushed(cfg, s, one, Count(t));
    RunPushed(cfg, s, two, Fetch(t));
    RunPushed(cfg, s, three, Insert(t));
  }

  /** Two readers of one key may both miss it and both ask the remote. */
  lemma TwoReadersMayBothFetch(cfg: Config, key: LedgerKey)
    ensures var s := Run(cfg, Start([], 2), [Lookup(0, key), Lookup(1, key), Count(0), Count(1)]);
      s.threads == [Counted(key), Counted(key)] && s.fetchCount == 2
  {
    var one, two := [Lookup(0, key)], [Lookup(0, key), Lookup(1, key)];
    var three := [Lookup(0, key), Lookup(1, key), Count(0)];
    assert one == [] + [Lookup(0, key)] && two == one + [Lookup(1, key)] && three == two + [Count(0)];
    assert [Lookup(0, key), Lookup(1, key), Count(0), Count(1)] == three + [Count(1)];
    RunPushed(cfg, Start([], 2), [], Lookup(0, key));
    RunPushed(cfg, Start([], 2), one, Lookup(1, key));
    RunPushed(cfg, Start([], 2), two, Count(0));
    RunPushed(cfg, Start([], 2), three, Count(1));
  }
}
