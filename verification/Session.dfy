/** From one session to the next (`src/source.rs`, `src/cache.rs`, `src/lib.rs`): export, save, load,
    preload, mint test accounts. */
module Session {
  import opened Wrappers
  import opened Ledger
  import opened Seqs
  import opened Source
  import SaveProtocol

  /** The cache without its known-absent keys. */
  function Present(cache: Cache): Cache {
    map key | key in cache && cache[key].Some? :: cache[key]
  }

  /** The snapshot file after `do_save_cache`: an empty export writes nothing. */
  function Saved(file: Option<seq<Triple>>, entries: seq<Triple>): Option<seq<Triple>> {
    if entries == [] then file else Some(entries)
  }

  /** The cache with which `build` starts: the file's entries if it can be read, else nothing. */
  function Loaded(file: Option<seq<Triple>>): Cache {
    match file
    case Some(entries) => AfterPreload(map[], entries)
    case None => map[]
  }

  /** `do_save_cache`: export and save. `works` says whether `save_snapshot` succeeds; `AfterCrashes`
      below says what becomes of the file in between. */
  method SaveCache(source: RpcSnapshotSource, file: Option<seq<Triple>>, works: bool)
    returns (ok: bool, file': Option<seq<Triple>>)
    requires source.Valid()
    ensures ok <==> Present(source.cache) == map[] || works
    ensures if ok then exists entries :: Lists(entries, source.cache) && file' == Saved(file, entries)
            else file' == file
  {
    var entries := source.Entries();
    ListedCacheReloads(entries, source.cache);
    if entries == [] {
      return true, file;
    }
    assert entries[0].0 in AfterPreload(map[], entries);
    ok := works;
    file' := if works then Some(entries) else file;
  }

  /** `build`: a fresh source, the file preloaded, then the minted accounts. */
  method Build(cfg: Config, file: Option<seq<Triple>>, minted: seq<Triple>) returns (source: RpcSnapshotSource)
    ensures fresh(source) && source.Valid() && source.cfg == cfg
    ensures source.Value() == SourceState(AfterPreload(Loaded(file), minted), [])
  {
    source := new RpcSnapshotSource(cfg);
    if file.Some? {
      source.Preload(file.value);
    }
    if minted != [] {
      source.Preload(minted);
    }
  }

  lemma {:induction false} PreloadMisses(entries: seq<Triple>, base: Cache, key: LedgerKey)
    requires forall i :: 0 <= i < |entries| ==> entries[i].0 != key
    ensures key in AfterPreload(base, entries) <==> key in base
    ensures key in base ==> AfterPreload(base, entries)[key] == base[key]
  {
    if entries == [] {
    } else {
      PreloadMisses(Init(entries), base, key);
    }
  }

  lemma {:induction false} PreloadHits(entries: seq<Triple>, base: Cache, i: nat)
    requires i < |entries| && forall j :: i < j < |entries| ==> entries[j].0 != entries[i].0
    ensures entries[i].0 in AfterPreload(base, entries)
    ensures AfterPreload(base, entries)[entries[i].0] == Some(Encode(Stored(entries[i].1, entries[i].2)))
  {
    if i < |entries| - 1 {
      PreloadHits(Init(entries), base, i);
    }
  }

  /** One key, as reloaded from a listing of the cache. */
  lemma ListedKeyReloads(entries: seq<Triple>, cache: Cache, key: LedgerKey)
    requires Lists(entries, cache)
    ensures var reloaded := AfterPreload(map[], entries);
      && (key in reloaded <==> key in Present(cache))
      && (key in reloaded ==> reloaded[key] == Present(cache)[key])
  {
    if i :| 0 <= i < |entries| && entries[i].0 == key {
      PreloadHits(entries, map[], i);
      assert DecodeAll(cache[entries[i].0]) == Some(Stored(entries[i].1, entries[i].2));
    } else {
      PreloadMisses(entries, map[], key);
    }
  }

  lemma ListedCacheReloads(entries: seq<Triple>, cache: Cache)
    requires Lists(entries, cache)
    ensures AfterPreload(map[], entries) == Present(cache)
  {
    forall key
      ensures var reloaded := AfterPreload(map[], entries);
        && (key in reloaded <==> key in Present(cache))
        && (key in reloaded ==> reloaded[key] == Present(cache)[key])
    {
      ListedKeyReloads(entries, cache, key);
    }
  }

  /** The next session starts with exactly the present entries of this one, TTLs included, unless there
      were none while an older file was lying there: that file then survives and is loaded. */
  lemma SessionRoundTripIff(cache: Cache, entries: seq<Triple>, file: Option<seq<Triple>>)
    requires Lists(entries, cache)
    ensures Loaded(Saved(file, entries)) == Present(cache)
       <==> Present(cache) != map[] || file == None || file.value == []
  {
    ListedCacheReloads(entries, cache);
    if entries != [] {
      assert entries[0].0 in AfterPreload(map[], entries);
    } else {
      assert Present(cache) == map[];
      if file.Some? && file.value != [] {
        assert Last(file.value).0 in Loaded(file);
      }
    }
  }

  /** A key known to be absent is unknown again in the next session. */
  lemma NegativesAreForgotten(cache: Cache, entries: seq<Triple>, key: LedgerKey)
    requires Lists(entries, cache) && key in cache && cache[key].None?
    ensures key !in AfterPreload(map[], entries)
  {
    ListedCacheReloads(entries, cache);
  }

  /** Minted entries replace loaded ones on their own keys, the last one minted for a key winning, and
      leave every other key alone. */
  lemma {:induction false} MintingOverridesOwnKeysOnly(loaded: Cache, minted: seq<Triple>, key: LedgerKey)
    ensures var cache := AfterPreload(loaded, minted);
      && (forall i :: 0 <= i < |minted| && minted[i].0 == key
                      && (forall j :: i < j < |minted| ==> minted[j].0 != key) ==>
            key in cache && cache[key] == Some(Encode(Stored(minted[i].1, minted[i].2))))
      && ((forall i :: 0 <= i < |minted| ==> minted[i].0 != key) ==>
            (key in cache <==> key in loaded) && (key in loaded ==> cache[key] == loaded[key]))
  {
    forall i | 0 <= i < |minted| && minted[i].0 == key && (forall j :: i < j < |minted| ==> minted[j].0 != key)
      ensures key in AfterPreload(loaded, minted)
      ensures AfterPreload(loaded, minted)[key] == Some(Encode(Stored(minted[i].1, minted[i].2)))
    {
      PreloadHits(minted, loaded, i);
    }
    if forall i :: 0 <= i < |minted| ==> minted[i].0 != key {
      PreloadMisses(minted, loaded, key);
    }
  }

  // ---- what an empty export does to a session that loaded a file ----

  /** A session forgets no key. If it started from `file` and nothing is present in the end, then all that
      the file held was removed in it, and all of it is back in the next session. */
  lemma EmptyExportResurrects(file: seq<Triple>, cache: Cache, key: LedgerKey)
    requires Loaded(Some(file)).Keys <= cache.Keys && Present(cache) == map[]
    ensures Lists([], cache)
    ensures key in Loaded(Some(file)) ==>
      cache[key].None? && key in Loaded(Saved(Some(file), [])) && Loaded(Saved(Some(file), []))[key].Some?
  {
    forall k | k in cache ensures cache[k].None? {
      assert cache[k].Some? ==> k in Present(cache);
    }
    LoadedIsPresent(file, key);
  }

  lemma {:induction false} LoadedIsPresent(file: seq<Triple>, key: LedgerKey)
    ensures key in Loaded(Some(file)) ==> Loaded(Some(file))[key].Some?
  {
    if file == [] {
    } else {
      LoadedIsPresent(Init(file), key);
    }
  }

  /** The failing input: load one entry, remove it in a transaction, save, and it is there again. */
  lemma EmptyExportKeepsOldFile(stale: Triple)
    ensures var after := AfterChanges(Loaded(Some([stale])), [Change(stale.0, false, None, None)]);
      && Lists([], after) && stale.0 in after && after[stale.0].None?
      && stale.0 in Loaded(Saved(Some([stale]), [])) && Loaded(Saved(Some([stale]), [])) != Present(after)
  {
    var removal := Change(stale.0, false, None, None);
    var loaded := Loaded(Some([stale]));
    PreloadHits([stale], map[], 0);
    forall k | k != stale.0 ensures k !in loaded {
      PreloadMisses([stale], map[], k);
    }
    assert Init([removal]) == [] && Last([removal]) == removal;
    assert AfterChanges(loaded, [removal]) == loaded[stale.0 := None];
    EmptyExportResurrects([stale], AfterChanges(loaded, [removal]), stale.0);
  }

  // ---- the next session after any number of concurrent, crashing saves ----

  /** What `build` finds at `path`: nothing if there is no file, or none it can read. */
  function FileAt(read: seq<Byte> -> Option<seq<Triple>>, files: SaveProtocol.Files, path: SaveProtocol.Path)
    : Option<seq<Triple>>
  {
    if path in files then read(files[path]) else None
  }

  /** Sessions export their caches and save them at one path, each through its own temporary file; what
      each means to write reads back as its export. Stop the world at any moment, crashes and failures
      included: the next session starts from what was there before if no save has succeeded, and else
      from all present entries of the last session whose save did. */
  lemma AfterCrashes(
    read: seq<Byte> -> Option<seq<Triple>>, target: SaveProtocol.Path,
    caches: seq<Cache>, exports: seq<seq<Triple>>, writers: seq<SaveProtocol.Writer>,
    files: SaveProtocol.Files, steps: seq<SaveProtocol.Step>)
    requires |caches| == |exports| == |writers|
    requires forall i :: 0 <= i < |writers| ==>
      Lists(exports[i], caches[i]) && read(writers[i].content) == Some(exports[i])
    requires SaveProtocol.DistinctNames(target, writers)
    ensures var d := SaveProtocol.Run(target, writers, files, steps);
      var loaded := Loaded(FileAt(read, d.files, target));
      if d.renamed == [] then loaded == Loaded(FileAt(read, files, target))
      else Last(d.renamed) < |caches| && loaded == Present(caches[Last(d.renamed)])
  {
    SaveProtocol.RunIsSafe(target, writers, files, steps);
    var d := SaveProtocol.Run(target, writers, files, steps);
    if d.renamed != [] {
      var i := Last(d.renamed);
      assert d.renamed[|d.renamed| - 1] < |writers|;
      assert SaveProtocol.At(d.files, target) == Some(writers[i].content);
      ListedCacheReloads(exports[i], caches[i]);
    }
  }
}
