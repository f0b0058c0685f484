/** `src/source.rs`: the three-state lazy cache in front of the remote ledger. The class is the code;
    the functions before it say on values what each method does to the cache. */
module Source {
  import opened Wrappers
  import opened Ledger
  import opened Seqs

  // ---- the remote ledger, frozen, and how a source reacts when it cannot be reached ----

  datatype FetchMode = Strict | Lenient

  datatype Remote = Remote(ledger: LedgerView, unreachable: set<LedgerKey>)

  datatype Fetch = Fetched(stored: Stored) | NotFound | TransportError

  datatype Config = Config(remote: Remote, mode: FetchMode)

  function FetchEntry(remote: Remote, key: LedgerKey): Fetch {
    if key in remote.unreachable then TransportError
    else if key in remote.ledger then Fetched(remote.ledger[key])
    else NotFound
  }

  /** A fetch of `key` panics: the transport fails and the mode is Strict. */
  predicate Panics(cfg: Config, key: LedgerKey) {
    cfg.mode.Strict? && key in cfg.remote.unreachable
  }

  /** What the source remembers for a key it had to ask for. */
  function RemoteAt(cfg: Config, key: LedgerKey): Option<Stored> {
    match FetchEntry(cfg.remote, key)
    case Fetched(stored) => Some(stored)
    case _ => None
  }

  // ---- the cache: absent = never asked, None = known absent, Some = known present ----

  datatype Cached = Cached(bytes: Xdr, liveUntil: Option<U32>)

  type Cache = map<LedgerKey, Option<Cached>>

  function Encode(stored: Stored): Cached { Cached(EncodeEntry(stored.entry), stored.liveUntil) }

  function Decode(cached: Cached): Stored { Stored(DecodeEntry(cached.bytes), cached.liveUntil) }

  function EncodeAll(stored: Option<Stored>): Option<Cached> {
    match stored
    case Some(s) => Some(Encode(s))
    case None => None
  }

  function DecodeAll(cached: Option<Cached>): Option<Stored> {
    match cached
    case Some(c) => Some(Decode(c))
    case None => None
  }

  /** What a reader of `key` sees: the cache where it knows, the remote where it does not. */
  function ViewAt(cfg: Config, cache: Cache, key: LedgerKey): Option<Stored> {
    if key in cache then DecodeAll(cache[key]) else RemoteAt(cfg, key)
  }

  function View(cfg: Config, cache: Cache): LedgerView {
    map key | key in cache.Keys + cfg.remote.ledger.Keys && ViewAt(cfg, cache, key).Some?
      :: ViewAt(cfg, cache, key).value
  }

  // ---- the operations on values ----

  /** `asked` is the list of keys for which the remote was asked, in order. */
  datatype SourceState = SourceState(cache: Cache, asked: seq<LedgerKey>)

  datatype Got = Got(stored: Option<Stored>) | Panicked

  /** A fetch: the insert at its end is unconditional, whatever has reached the cache meanwhile. */
  function AfterFetch(cfg: Config, s: SourceState, key: LedgerKey): SourceState {
    if Panics(cfg, key) then s.(asked := s.asked + [key])
    else SourceState(s.cache[key := EncodeAll(RemoteAt(cfg, key))], s.asked + [key])
  }

  function FetchReply(cfg: Config, key: LedgerKey): Got {
    if Panics(cfg, key) then Panicked else Got(RemoteAt(cfg, key))
  }

  function AfterGet(cfg: Config, s: SourceState, key: LedgerKey): SourceState {
    if key in s.cache then s else AfterFetch(cfg, s, key)
  }

  function GetReply(cfg: Config, s: SourceState, key: LedgerKey): Got {
    if key in s.cache then Got(DecodeAll(s.cache[key])) else FetchReply(cfg, key)
  }

  type Triple = (LedgerKey, LedgerEntry, Option<U32>)

  function AfterPreload(cache: Cache, entries: seq<Triple>): Cache {
    if entries == [] then cache
    else
      var (key, entry, liveUntil) := Last(entries);
      AfterPreload(cache, Init(entries))[key := Some(Encode(Stored(entry, liveUntil)))]
  }

  /** The host's record of one touched entry; `newValue` is absent when the entry was removed. */
  datatype Change = Change(key: LedgerKey, readOnly: bool, newValue: Option<Xdr>, newLiveUntil: Option<U32>)

  function AfterChange(cache: Cache, change: Change): Cache {
    if change.readOnly then cache
    else
      match change.newValue
      case Some(bytes) => cache[change.key := Some(Cached(bytes, change.newLiveUntil))]
      case None => cache[change.key := None]
  }

  function AfterChanges(cache: Cache, changes: seq<Change>): Cache {
    if changes == [] then cache else AfterChange(AfterChanges(cache, Init(changes)), Last(changes))
  }

  function CountWrites(changes: seq<Change>): nat {
    if changes == [] then 0 else CountWrites(Init(changes)) + if Last(changes).readOnly then 0 else 1
  }

  /** The entry with its account sequence number one higher, if it is an account. */
  function BumpEntry(entry: LedgerEntry): Option<LedgerEntry> {
    match entry.data
    case Account(account) =>
      Some(entry.(data := Account(account.(seqNum := WrapI64(account.seqNum + 1)))))
    case _ => None
  }

  /** The account entry a bump of `account` would change: it must be in the cache already. */
  function Bumpable(cache: Cache, account: AccountId): Option<LedgerEntry> {
    var key := AccountKey(account);
    if key !in cache || cache[key].None? then None else BumpEntry(DecodeEntry(cache[key].value.bytes))
  }

  function AfterBump(cache: Cache, account: AccountId): Cache {
    match Bumpable(cache, account)
    case Some(entry) =>
      var key := AccountKey(account);
      assert key in cache && cache[key].Some?;
      cache[key := Some(cache[key].value.(bytes := EncodeEntry(entry)))]
    case None => cache
  }

  function BumpReply(cache: Cache, account: AccountId): Option<I64> {
    match Bumpable(cache, account)
    case Some(entry) => Some(entry.data.account.seqNum)
    case None => None
  }

  /** `entries` lists each present key of `cache` exactly once, with its entry and TTL. */
  predicate Lists(entries: seq<Triple>, cache: Cache) {
    && (forall i, j :: 0 <= i < j < |entries| ==> entries[i].0 != entries[j].0)
    && (forall i :: 0 <= i < |entries| ==>
          entries[i].0 in cache && DecodeAll(cache[entries[i].0]) == Some(Stored(entries[i].1, entries[i].2)))
    && (forall key :: key in cache && cache[key].Some? ==> exists i :: 0 <= i < |entries| && entries[i].0 == key)
  }

  // ---- the code ----

  class RpcSnapshotSource {
    const cfg: Config
    var cache: Cache
    var fetchCount: U32
    ghost var asked: seq<LedgerKey>

    ghost predicate Valid()
      reads this
    {
      fetchCount == |asked| % 0x1_0000_0000
    }

    ghost function Value(): SourceState
      reads this
    {
      SourceState(cache, asked)
    }

    constructor (cfg: Config)
      ensures Valid() && this.cfg == cfg && Value() == SourceState(map[], [])
    {
      this.cfg, cache, fetchCount, asked := cfg, map[], 0, [];
    }

    method Preload(entries: seq<Triple>)
      requires Valid()
      modifies this
      ensures Valid() && Value() == SourceState(AfterPreload(old(cache), entries), old(asked))
    {
      for i := 0 to |entries|
        invariant Valid() && asked == old(asked)
        invariant cache == AfterPreload(old(cache), entries[..i])
      {
        Prefix(entries, i);
        var (key, entry, liveUntil) := entries[i];
        cache := cache[key := Some(Cached(EncodeEntry(entry), liveUntil))];
      }
      assert entries[..|entries|] == entries;
    }

    method SetEntry(key: LedgerKey, entry: LedgerEntry, liveUntil: Option<U32>)
      requires Valid()
      modifies this
      ensures Valid() && Value() == SourceState(old(cache)[key := Some(Encode(Stored(entry, liveUntil)))], old(asked))
    {
      var bytes := EncodeEntry(entry);
      cache := cache[key := Some(Cached(bytes, liveUntil))];
    }

    method BumpAccountSeq(account: AccountId) returns (r: Option<I64>)
      requires Valid()
      modifies this
      ensures Valid() && Value() == SourceState(AfterBump(old(cache), account), old(asked))
      ensures r == BumpReply(old(cache), account)
    {
      var key := AccountKey(account);
      if key !in cache {
        return None;
      }
      var cached := cache[key];
      if cached.None? {
        return None;
      }
      var entry := DecodeEntry(cached.value.bytes);
      match entry.data {
        case Account(a) =>
          var next := WrapI64(a.seqNum + 1);
          entry := entry.(data := Account(a.(seqNum := next)));
          cache := cache[key := Some(cached.value.(bytes := EncodeEntry(entry)))];
          return Some(next);
        case _ =>
          return None;
      }
    }

    method ApplyChanges(changes: seq<Change>) returns (applied: U32)
      requires Valid()
      modifies this
      ensures Valid() && Value() == SourceState(AfterChanges(old(cache), changes), old(asked))
      ensures applied == if CountWrites(changes) < 0x1_0000_0000 then CountWrites(changes) else 0xFFFF_FFFF
    {
      applied := 0;
      for i := 0 to |changes|
        invariant Valid() && asked == old(asked)
        invariant cache == AfterChanges(old(cache), changes[..i])
        invariant applied
               == if CountWrites(changes[..i]) < 0x1_0000_0000 then CountWrites(changes[..i]) else 0xFFFF_FFFF
      {
        Prefix(changes, i);
        var change := changes[i];
        if change.readOnly {
          continue;
        }
        match change.newValue {
          case Some(bytes) => cache := cache[change.key := Some(Cached(bytes, change.newLiveUntil))];
          case None => cache := cache[change.key := None];
        }
        applied := SaturatingAddU32(applied, 1);
      }
      assert changes[..|changes|] == changes;
    }

    method Entries() returns (entries: seq<Triple>)
      requires Valid()
      ensures Lists(entries, cache)
    {
      entries := [];
      var left := cache.Keys;
      while left != {}
        invariant left <= cache.Keys
        invariant forall i :: 0 <= i < |entries| ==> entries[i].0 in cache.Keys - left
        invariant Lists(entries, map key | key in cache.Keys - left :: cache[key])
        decreases left
      {
        ghost var seen := map key | key in cache.Keys - left :: cache[key];
        ghost var before := entries;
        var key :| key in left;
        left := left - {key};
        if cache[key].Some? {
          var stored := Decode(cache[key].value);
          entries := entries + [(key, stored.entry, stored.liveUntil)];
          assert entries[|before|].0 == key;
        }
        forall k | k in cache.Keys - left && cache[k].Some?
          ensures exists i :: 0 <= i < |entries| && entries[i].0 == k
        {
          if k != key {
            assert k in seen && seen[k].Some?;
            var i :| 0 <= i < |before| && before[i].0 == k;
            assert entries[i].0 == k;
          }
        }
      }
      assert (map key | key in cache.Keys - left :: cache[key]) == cache;
    }

    method FetchFromRpc(key: LedgerKey) returns (r: Got)
      requires Valid()
      modifies this
      ensures Valid() && Value() == AfterFetch(cfg, old(Value()), key)
      ensures r == FetchReply(cfg, key)
    {
      fetchCount := (fetchCount + 1) % 0x1_0000_0000;
      asked := asked + [key];
      var result: Option<Stored>;
      match FetchEntry(cfg.remote, key) {
        case Fetched(stored) => result := Some(stored);
        case NotFound => result := None;
        case TransportError =>
          match cfg.mode {
            case Strict => return Panicked;
            case Lenient => result := None;
          }
      }
      cache := cache[key := EncodeAll(result)];
      r := Got(result);
    }

    method Get(key: LedgerKey) returns (r: Got)
      requires Valid()
      modifies this
      ensures Valid() && Value() == AfterGet(cfg, old(Value()), key)
      ensures r == GetReply(cfg, old(Value()), key)
    {
      if key in cache {
        return Got(DecodeAll(cache[key]));
      }
      r := FetchFromRpc(key);
    }
  }
}
