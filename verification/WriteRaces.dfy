/** Writers beside racing readers (`src/source.rs`). The insert that ends a fetch is unconditional, so a
    write that lands between a reader's miss and its insert is lost; this says exactly when. Inside the
    server the worker is the only one to touch the source, and then no reader is ever in between. */
module WriteRaces {
  import opened Wrappers
  import opened Ledger
  import opened Seqs
  import opened Source
  import opened Readers

  /** A reader moves, or some other thread writes under the lock: an entry, or the absence of one. */
  datatype Event = Reader(step: Step) | Write(key: LedgerKey, value: Option<Stored>)

  function Occur(cfg: Config, s: System, e: Event): System {
    match e
    case Reader(step) => if Enabled(s, step) then Next(cfg, s, step) else s
    case Write(key, value) => s.(cache := s.cache[key := EncodeAll(value)])
  }

  function Play(cfg: Config, s: System, events: seq<Event>): System {
    if events == [] then s else Occur(cfg, Play(cfg, s, Init(events)), Last(events))
  }

  /** The thread has looked `key` up in vain and has not yet inserted what it will find. */
  predicate InFlight(pc: Pc, key: LedgerKey) {
    (pc.Missed? || pc.Counted? || pc.Answered?) && pc.key == key
  }

  predicate Inserts(s: System, e: Event, key: LedgerKey) {
    e.Reader? && e.step.Insert? && Enabled(s, e.step) && s.threads[e.step.t].key == key
  }

  /** Somewhere in `events` a reader inserts under `key`. */
  predicate LateInsert(cfg: Config, s: System, events: seq<Event>, key: LedgerKey) {
    events != [] &&
    (LateInsert(cfg, s, Init(events), key) || Inserts(Play(cfg, s, Init(events)), Last(events), key))
  }

  predicate NoWrite(events: seq<Event>, key: LedgerKey) {
    forall i :: 0 <= i < |events| ==> !(events[i].Write? && events[i].key == key)
  }

  /** What the remote answered is what it holds. */
  predicate Honest(cfg: Config, s: System) {
    forall t :: 0 <= t < |s.threads| && s.threads[t].Answered? ==>
      s.threads[t].stored == RemoteAt(cfg, s.threads[t].key)
  }

  lemma {:induction false} PlayStaysHonest(cfg: Config, s: System, events: seq<Event>)
    requires Honest(cfg, s)
    ensures Honest(cfg, Play(cfg, s, events))
  {
    if events == [] {
    } else {
      PlayStaysHonest(cfg, s, Init(events));
    }
  }

  /** What the key holds after a write and whatever follows it, no other write to the key included. */
  lemma {:induction false} FateOfWrite(cfg: Config, s: System, key: LedgerKey, value: Option<Stored>, after: seq<Event>)
    requires Honest(cfg, s) && NoWrite(after, key)
    ensures var written := Occur(cfg, s, Write(key, value));
      var end := Play(cfg, written, after);
      && key in end.cache
      && DecodeAll(end.cache[key]) == if LateInsert(cfg, written, after, key) then RemoteAt(cfg, key) else value
  {
    var written := Occur(cfg, s, Write(key, value));
    if after == [] {
    } else {
      FateOfWrite(cfg, s, key, value, Init(after));
      PlayStaysHonest(cfg, written, Init(after));
      assert !(after[|after| - 1].Write? && after[|after| - 1].key == key);
    }
  }

  /** With the key in the cache no reader starts to fetch it: who is in flight was so from the start. */
  lemma {:induction false} NobodyTakesOff(cfg: Config, s: System, key: LedgerKey, events: seq<Event>)
    requires key in s.cache
    ensures var end := Play(cfg, s, events);
      && key in end.cache && |end.threads| == |s.threads|
      && (forall t :: 0 <= t < |s.threads| && InFlight(end.threads[t], key) ==> InFlight(s.threads[t], key))
  {
    if events == [] {
    } else {
      NobodyTakesOff(cfg, s, key, Init(events));
    }
  }

  lemma {:induction false} InserterWasInFlight(cfg: Config, s: System, key: LedgerKey, events: seq<Event>)
    requires key in s.cache && LateInsert(cfg, s, events, key)
    ensures exists t :: 0 <= t < |s.threads| && InFlight(s.threads[t], key)
  {
    if LateInsert(cfg, s, Init(events), key) {
      InserterWasInFlight(cfg, s, key, Init(events));
    } else {
      NobodyTakesOff(cfg, s, key, Init(events));
      assert InFlight(Play(cfg, s, Init(events)).threads[Last(events).step.t], key);
    }
  }

  /** In any race of readers and writers, a write is still what its key holds exactly when no reader
      inserts under that key after it, or the remote says the same; and only a reader that had missed the
      key before the write can do that. Otherwise the key holds what the remote says. */
  lemma WriteSurvivesIff(
    cfg: Config, entries: seq<Triple>, n: nat, before: seq<Event>,
    key: LedgerKey, value: Option<Stored>, after: seq<Event>)
    requires NoWrite(after, key)
    ensures var s := Play(cfg, Start(entries, n), before);
      var written := Occur(cfg, s, Write(key, value));
      var end := Play(cfg, written, after);
      var late := LateInsert(cfg, written, after, key);
      && key in end.cache
      && (DecodeAll(end.cache[key]) == value <==> !late || RemoteAt(cfg, key) == value)
      && (late ==> DecodeAll(end.cache[key]) == RemoteAt(cfg, key))
      && (late ==> exists t :: 0 <= t < |s.threads| && InFlight(s.threads[t], key))
  {
    var s := Play(cfg, Start(entries, n), before);
    var written := Occur(cfg, s, Write(key, value));
    PlayStaysHonest(cfg, Start(entries, n), before);
    FateOfWrite(cfg, s, key, value, after);
    if LateInsert(cfg, written, after, key) {
      InserterWasInFlight(cfg, written, key, after);
    }
  }

  lemma OneMoreEvent(cfg: Config, s: System, events: seq<Event>, e: Event)
    ensures Play(cfg, s, events + [e]) == Occur(cfg, Play(cfg, s, events), e)
  {
    Pushed(events, e);
  }

  /** The failing input: one reader, and a write between its fetch and its insert. */
  lemma WriteIsLost(cfg: Config, key: LedgerKey, value: Option<Stored>)
    requires !Panics(cfg, key) && value != RemoteAt(cfg, key)
    ensures var before := [Reader(Lookup(0, key)), Reader(Count(0)), Reader(Fetch(0))];
      var written := Occur(cfg, Play(cfg, Start([], 1), before), Write(key, value));
      var end := Play(cfg, written, [Reader(Insert(0))]);
      key in end.cache && DecodeAll(end.cache[key]) == RemoteAt(cfg, key) != value
  {
    var one, two := [Reader(Lookup(0, key))], [Reader(Lookup(0, key)), Reader(Count(0))];
    var three := [Reader(Lookup(0, key)), Reader(Count(0)), Reader(Fetch(0))];
    assert one == [] + [Reader(Lookup(0, key))] && two == one + [Reader(Count(0))] && three == two + [Reader(Fetch(0))];
    OneMoreEvent(cfg, Start([], 1), [], Reader(Lookup(0, key)));
    OneMoreEvent(cfg, Start([], 1), one, Reader(Count(0)));
    OneMoreEvent(cfg, Start([], 1), two, Reader(Fetch(0)));
    var written := Occur(cfg, Play(cfg, Start([], 1), three), Write(key, value));
    OneMoreEvent(cfg, written, [], Reader(Insert(0)));
    assert [] + [Reader(Insert(0))] == [Reader(Insert(0))];
  }
}
