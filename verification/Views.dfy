/** The ledger a reader sees through the cache of `Source`, and what each operation does to it. */
module Views {
  import opened Wrappers
  import opened Ledger
  import opened Seqs
  import opened Source

  // ---- effects on the view ----

  function WriteView(view: LedgerView, key: LedgerKey, stored: Option<Stored>): LedgerView {
    if stored.Some? then view[key := stored.value] else view - {key}
  }

  function WrittenBy(change: Change): Option<Stored> {
    match change.newValue
    case Some(bytes) => Some(Stored(DecodeEntry(bytes), change.newLiveUntil))
    case None => None
  }

  function ViewAfterChanges(view: LedgerView, changes: seq<Change>): LedgerView {
    if changes == [] then view
    else
      var before := ViewAfterChanges(view, Init(changes));
      if Last(changes).readOnly then before else WriteView(before, Last(changes).key, WrittenBy(Last(changes)))
  }

  lemma ViewLookup(cfg: Config, cache: Cache, key: LedgerKey)
    ensures LookupIn(View(cfg, cache), key) == ViewAt(cfg, cache, key)
  {
  }

  /** What a reader sees: the cached entry with its cached hint, nothing for a key known to be absent,
      and for an unknown key whatever the remote holds, if it can be reached. */
  lemma ViewShows(cfg: Config, cache: Cache, key: LedgerKey)
    ensures LookupIn(View(cfg, cache), key)
         == if key in cache then
              if cache[key].None? then None
              else Some(Stored(DecodeEntry(cache[key].value.bytes), cache[key].value.liveUntil))
            else if key in cfg.remote.ledger && key !in cfg.remote.unreachable then Some(cfg.remote.ledger[key])
            else None
  {
    ViewLookup(cfg, cache, key);
  }

  /** A `get` of an unknown key: one question to the remote, and its answer, entry and hint or absence,
      returned and remembered. If the remote cannot be reached, a Strict source panics and remembers
      nothing, and a Lenient one takes it for an absence. */
  lemma UnknownKeyIsFetched(cfg: Config, s: SourceState, key: LedgerKey)
    requires key !in s.cache
    ensures var s' := AfterGet(cfg, s, key);
      var reached := key !in cfg.remote.unreachable;
      && s'.asked == s.asked + [key]
      && (!reached && cfg.mode.Strict? ==> GetReply(cfg, s, key) == Panicked && s'.cache == s.cache)
      && (reached && key in cfg.remote.ledger ==>
            var stored := cfg.remote.ledger[key];
            && GetReply(cfg, s, key) == Got(Some(stored))
            && s'.cache == s.cache[key := Some(Cached(EncodeEntry(stored.entry), stored.liveUntil))])
      && ((reached && key !in cfg.remote.ledger) || (!reached && cfg.mode.Lenient?) ==>
            GetReply(cfg, s, key) == Got(None) && s'.cache == s.cache[key := None])
  {
  }

  /** A key in the cache is answered from it, and nothing changes. */
  lemma KnownKeyIsAnswered(cfg: Config, s: SourceState, key: LedgerKey)
    requires key in s.cache
    ensures AfterGet(cfg, s, key) == s
    ensures GetReply(cfg, s, key)
         == Got(if s.cache[key].None? then None
                else Some(Stored(DecodeEntry(s.cache[key].value.bytes), s.cache[key].value.liveUntil)))
  {
  }

  lemma WriteIsSeen(cfg: Config, cache: Cache, key: LedgerKey, stored: Option<Stored>)
    ensures View(cfg, cache[key := EncodeAll(stored)]) == WriteView(View(cfg, cache), key, stored)
  {
    var after, expected := View(cfg, cache[key := EncodeAll(stored)]), WriteView(View(cfg, cache), key, stored);
    forall k ensures LookupIn(after, k) == LookupIn(expected, k) {
      ViewLookup(cfg, cache, k);
      ViewLookup(cfg, cache[key := EncodeAll(stored)], k);
    }
    SameLookups(after, expected);
  }

  lemma SameLookups(a: LedgerView, b: LedgerView)
    requires forall k :: LookupIn(a, k) == LookupIn(b, k)
    ensures a == b
  {
    assert forall k :: k in a <==> LookupIn(a, k).Some?;
    assert forall k :: k in b <==> LookupIn(b, k).Some?;
    assert forall k :: k in a ==> LookupIn(a, k).value == LookupIn(b, k).value;
  }

  /** Reading a key, cached or not, changes no reader's view of any key. */
  lemma GetKeepsView(cfg: Config, s: SourceState, key: LedgerKey)
    ensures View(cfg, AfterGet(cfg, s, key).cache) == View(cfg, s.cache)
    ensures !Panics(cfg, key) ==> key in AfterGet(cfg, s, key).cache
    ensures GetReply(cfg, s, key).Got? ==> GetReply(cfg, s, key).stored == LookupIn(View(cfg, s.cache), key)
  {
    ViewLookup(cfg, s.cache, key);
    forall k ensures LookupIn(View(cfg, AfterGet(cfg, s, key).cache), k) == LookupIn(View(cfg, s.cache), k) {
      ViewLookup(cfg, s.cache, k);
      ViewLookup(cfg, AfterGet(cfg, s, key).cache, k);
    }
    SameLookups(View(cfg, AfterGet(cfg, s, key).cache), View(cfg, s.cache));
  }

  /** A batch of host changes acts on the view as the left-to-right fold of its writes. */
  lemma {:induction false} ChangesAreSeen(cfg: Config, cache: Cache, changes: seq<Change>)
    ensures View(cfg, AfterChanges(cache, changes)) == ViewAfterChanges(View(cfg, cache), changes)
  {
    if changes == [] {
    } else {
      ChangesAreSeen(cfg, cache, Init(changes));
      WriteIsSeen(cfg, AfterChanges(cache, Init(changes)), Last(changes).key, WrittenBy(Last(changes)));
    }
  }

  /** ... so the last write to a key wins, with the hint that came with it and no other, and a removal
      leaves nothing; and a key not written keeps its value. */
  lemma {:induction false} LastWriteWins(view: LedgerView, changes: seq<Change>, i: nat)
    requires i < |changes| && !changes[i].readOnly
    requires forall j :: i < j < |changes| && !changes[j].readOnly ==> changes[j].key != changes[i].key
    ensures LookupIn(ViewAfterChanges(view, changes), changes[i].key)
         == if changes[i].newValue.None? then None
            else Some(Stored(DecodeEntry(changes[i].newValue.value), changes[i].newLiveUntil))
  {
    if i < |changes| - 1 {
      LastWriteWins(view, Init(changes), i);
    }
  }

  lemma {:induction false} UnwrittenKeyKeeps(view: LedgerView, changes: seq<Change>, key: LedgerKey)
    requires forall j :: 0 <= j < |changes| && !changes[j].readOnly ==> changes[j].key != key
    ensures LookupIn(ViewAfterChanges(view, changes), key) == LookupIn(view, key)
  {
    if changes == [] {
    } else {
      UnwrittenKeyKeeps(view, Init(changes), key);
    }
  }

  /** Bumping, as a reader sees it, when the account is cached. */
  function BumpView(view: LedgerView, account: AccountId): LedgerView {
    var key := AccountKey(account);
    if key in view && BumpEntry(view[key].entry).Some?
    then view[key := view[key].(entry := BumpEntry(view[key].entry).value)]
    else view
  }

  /** An account entry with its sequence number forgotten. */
  function ButSeqNum(entry: LedgerEntry): LedgerEntry
    requires entry.data.Account?
  {
    entry.(data := Account(entry.data.account.(seqNum := 0)))
  }

  predicate HoldsAccount(cache: Cache, key: LedgerKey) {
    key in cache && cache[key].Some? && DecodeEntry(cache[key].value.bytes).data.Account?
  }

  /** The frame of a bump: one sequence number, one higher modulo 2^64, and nothing else of the entry, of
      its hint or of the cache. If the account is unknown, absent or not an account, nothing at all. */
  lemma BumpFrame(cache: Cache, account: AccountId)
    ensures var key, after := AccountKey(account), AfterBump(cache, account);
      && after.Keys == cache.Keys
      && (forall k :: k in cache && k != key ==> after[k] == cache[k])
      && (!HoldsAccount(cache, key) ==> after == cache && BumpReply(cache, account) == None)
      && (HoldsAccount(cache, key) ==>
            HoldsAccount(after, key) &&
            var was, now := DecodeEntry(cache[key].value.bytes), DecodeEntry(after[key].value.bytes);
            && ButSeqNum(now) == ButSeqNum(was)
            && after[key].value.liveUntil == cache[key].value.liveUntil
            && (now.data.account.seqNum - (was.data.account.seqNum + 1)) % 0x1_0000_0000_0000_0000 == 0
            && BumpReply(cache, account) == Some(now.data.account.seqNum))
  {
  }

  lemma BumpIsSeen(cfg: Config, cache: Cache, account: AccountId)
    ensures View(cfg, AfterBump(cache, account))
         == if AccountKey(account) in cache then BumpView(View(cfg, cache), account) else View(cfg, cache)
  {
    var key := AccountKey(account);
    ViewLookup(cfg, cache, key);
    if Bumpable(cache, account).Some? {
      var stored := Decode(cache[key].value).(entry := Bumpable(cache, account).value);
      assert AfterBump(cache, account) == cache[key := EncodeAll(Some(stored))];
      WriteIsSeen(cfg, cache, key, Some(stored));
    }
  }

  lemma ChangesGrow(cache: Cache, changes: seq<Change>)
    ensures cache.Keys <= AfterChanges(cache, changes).Keys
  {
    if changes == [] {
    } else {
      ChangesGrow(cache, Init(changes));
    }
  }

  /** The number that `apply_changes` reports before it is capped: how many changes are not mere reads. */
  lemma {:induction false} WritesAreCounted(changes: seq<Change>)
    ensures CountWrites(changes) == |set i | 0 <= i < |changes| && !changes[i].readOnly|
  {
    if changes == [] {
    } else {
      var n, before := |changes| - 1, Init(changes);
      WritesAreCounted(before);
      var written := set i | 0 <= i < n && !before[i].readOnly;
      assert (set i | 0 <= i < |changes| && !changes[i].readOnly)
          == if changes[n].readOnly then written else written + {n};
    }
  }
}
