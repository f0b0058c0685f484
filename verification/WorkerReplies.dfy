/** What a client of the worker gets to see (`src/server/actor.rs`): each reply, and each stored receipt,
    in terms of the ledger view, the clock and the command alone. */
module WorkerReplies {
  import opened Wrappers
  import opened Ledger
  import opened Seqs
  import opened Source
  import opened Views
  import opened Actor
  import opened ActorViews

  // ---- reads of the ledger and of its metadata ----

  lemma {:induction false} LookupsAt(view: LedgerView, keys: seq<LedgerKey>, i: nat)
    requires i < |keys|
    ensures |Lookups(view, keys)| == |keys| && Lookups(view, keys)[i] == LookupIn(view, keys[i])
  {
    if i < |keys| - 1 {
      LookupsAt(view, Init(keys), i);
    } else if i > 0 {
      LookupsAt(view, Init(keys), i - 1);
    }
  }

  /** `getLedgerEntries`: for each key asked, in the order asked, what the view shows. */
  lemma EntriesAnswered(env: Env, w: State, keys: seq<LedgerKey>)
    requires Reliable(env.cfg) && w.alive
    ensures var reply := Exec(env, w, GetLedgerEntries(keys)).1;
      && reply.Entries? && reply.latest == w.clock.sequence && |reply.entries| == |keys|
      && forall i :: 0 <= i < |keys| ==>
           reply.entries[i] == if keys[i] in ViewOf(env, w) then Some(ViewOf(env, w)[keys[i]]) else None
  {
    ReadsKeepView(env.cfg, w.source, keys);
    if keys != [] {
      LookupsAt(ViewOf(env, w), keys, 0);
    }
    forall i | 0 <= i < |keys| ensures Lookups(ViewOf(env, w), keys)[i] == LookupIn(ViewOf(env, w), keys[i]) {
      LookupsAt(ViewOf(env, w), keys, i);
    }
  }

  /** The metadata commands tell the clock, `closeLedgers` the clock it has moved to, and a lost worker
      nothing any more. */
  lemma ClockIsAnswered(env: Env, w: State, ledgers: U32, seconds: U64)
    requires w.alive
    ensures Exec(env, w, GetLatestLedger) == (w, LatestLedger(w.clock.sequence))
    ensures Exec(env, w, GetLedgersPage) == (w, LedgersPage(w.clock.sequence, w.clock.timestamp))
    ensures var (w', reply) := Exec(env, w, CloseLedgers(ledgers, seconds));
      && w' == w.(clock := w'.clock) && reply == Closed(w'.clock.sequence, w'.clock.timestamp)
      && w'.clock.sequence == (if w.clock.sequence + ledgers <= 0xFFFF_FFFF then w.clock.sequence + ledgers
                               else 0xFFFF_FFFF)
      && w'.clock.timestamp == (if w.clock.timestamp + seconds <= 0xFFFF_FFFF_FFFF_FFFF then w.clock.timestamp + seconds
                                else 0xFFFF_FFFF_FFFF_FFFF)
  {
  }

  /** Some key of a batch is unknown to the source and cannot be fetched by it. */
  predicate SomeFetchPanics(cfg: Config, cache: Cache, keys: seq<LedgerKey>) {
    cfg.mode.Strict? && exists i :: 0 <= i < |keys| && keys[i] !in cache && keys[i] in cfg.remote.unreachable
  }

  lemma {:induction false} ReadsFailIff(cfg: Config, s: SourceState, keys: seq<LedgerKey>)
    ensures !ReadsSucceed(cfg, s, keys) <==> SomeFetchPanics(cfg, s.cache, keys)
    ensures forall k :: k in AfterReads(cfg, s, keys).cache ==>
              k in s.cache || !(cfg.mode.Strict? && k in cfg.remote.unreachable)
    ensures s.cache.Keys <= AfterReads(cfg, s, keys).cache.Keys
  {
    if keys == [] {
    } else {
      ReadsFailIff(cfg, s, Init(keys));
      assert forall i :: 0 <= i < |keys| - 1 ==> keys[i] == Init(keys)[i];
      assert keys[|keys| - 1] == Last(keys);
    }
  }

  /** A Strict source that cannot be reached for some key asked loses the worker, and with it this reply and
      every later one. A read or a send is lost only so, a simulation also over a fee setting; receipts,
      clock and memo stay as they were. */
  lemma PanicLosesWorker(env: Env, w: State, c: Command)
    requires w.alive
    ensures var touched := match c
              case GetLedgerEntries(keys) => keys
              case SimulateTransaction(fn, account, _) => env.host(ViewOf(env, w), w.clock, fn, account).touched
              case SendTransaction(_, fn, account, _) => env.host(ViewOf(env, w), w.clock, fn, account).touched
              case _ => [];
      SomeFetchPanics(env.cfg, w.source.cache, touched) ==> !Exec(env, w, c).0.alive
    ensures var (w', reply) := Exec(env, w, c);
      && (reply == WorkerGone <==> !w'.alive)
      && (!w'.alive ==> w'.receipts == w.receipts && w'.clock == w.clock && w'.fees == w.fees)
    ensures !Exec(env, w, c).0.alive && (c.GetLedgerEntries? || c.SendTransaction?) ==>
      SomeFetchPanics(env.cfg, w.source.cache,
                      if c.GetLedgerEntries? then c.keys
                      else env.host(ViewOf(env, w), w.clock, c.fn, c.source).touched)
  {
    match c
    case GetLedgerEntries(keys) => ReadsFailIff(env.cfg, w.source, keys);
    case SimulateTransaction(fn, account, _) =>
      ReadsFailIff(env.cfg, w.source, env.host(ViewOf(env, w), w.clock, fn, account).touched);
    case SendTransaction(_, fn, account, _) =>
      ReadsFailIff(env.cfg, w.source, env.host(ViewOf(env, w), w.clock, fn, account).touched);
    case _ =>
  }

  lemma LostWorkerIsSilent(env: Env, w: State, c: Command)
    requires !w.alive
    ensures Exec(env, w, c) == (w, WorkerGone)
  {
  }

  /** The result a client gets for a recording, errors told apart by their prefix. */
  predicate ResultFits(recording: Recording, result: Result<ScVal, string>) {
    match recording
    case Recorded(Ok(value), _, _) => result == Ok(value)
    case Recorded(Err(e), _, _) => result == Err("host error: " + e)
    case RecordingFailed(message) => result == Err("recording-mode error: " + message)
  }

  // ---- simulation and its fee ----

  /** The fee setting that the view shows under a number: which of the six it fills, and its content. */
  function Shown(view: LedgerView, number: nat): Option<(nat, int)> {
    var key := ConfigSettingKey(number);
    if key in view && view[key].entry.data.ConfigSetting? && view[key].entry.data.setting in {1, 2, 3, 4, 5, 15}
    then Some((view[key].entry.data.setting, view[key].entry.data.payload))
    else None
  }

  /** All six are there: compute (1), ledger cost (2) and its extension (15), history (3), events (4) and
      bandwidth (5). */
  predicate SettingsShown(view: LedgerView) {
    Shown(view, 1).Some? && Shown(view, 2).Some? && Shown(view, 15).Some? &&
    Shown(view, 3).Some? && Shown(view, 4).Some? && Shown(view, 5).Some?
  }

  /** The schedule they make up, filled in that order. */
  function FeesShown(view: LedgerView): FeeConfig
    requires SettingsShown(view)
  {
    var (a, b, c) := (Shown(view, 1).value, Shown(view, 2).value, Shown(view, 15).value);
    var (d, e, f) := (Shown(view, 3).value, Shown(view, 4).value, Shown(view, 5).value);
    map[][a.0 := a.1][b.0 := b.1][c.0 := c.1][d.0 := d.1][e.0 := e.1][f.0 := f.1]
  }

  lemma TheSixSettings(number: nat)
    ensures number in FEE_SETTINGS <==> number in {1, 2, 3, 4, 5, 15}
  {
    var s := FEE_SETTINGS;
    assert |s| == 6 && s[0] == 1 && s[1] == 2 && s[2] == 15 && s[3] == 3 && s[4] == 4 && s[5] == 5;
  }

  lemma SettingApplies(view: LedgerView, number: nat, fees: FeeConfig)
    ensures ApplySetting(Got(LookupIn(view, ConfigSettingKey(number))), fees)
         == if Shown(view, number).None? then Unavailable
            else Schedule(fees[Shown(view, number).value.0 := Shown(view, number).value.1])
  {
    var key := ConfigSettingKey(number);
    if key in view && view[key].entry.data.ConfigSetting? {
      TheSixSettings(view[key].entry.data.setting);
    }
  }

  lemma OneMoreSetting(view: LedgerView, settings: seq<nat>, number: nat)
    ensures ScheduleIn(view, settings + [number])
         == if !ScheduleIn(view, settings).Schedule? then ScheduleIn(view, settings)
            else if Shown(view, number).None? then Unavailable
            else Schedule(ScheduleIn(view, settings).fees[Shown(view, number).value.0 := Shown(view, number).value.1])
  {
    Pushed(settings, number);
    if ScheduleIn(view, settings).Schedule? {
      SettingApplies(view, number, ScheduleIn(view, settings).fees);
    }
  }

  lemma ScheduleIsShown(view: LedgerView)
    ensures ScheduleIn(view, FEE_SETTINGS) == if SettingsShown(view) then Schedule(FeesShown(view)) else Unavailable
  {
    var s: seq<nat> := [1, 2, 15, 3, 4, 5];
    assert s[..1] == [] + [1] && s[..2] == s[..1] + [2] && s[..3] == s[..2] + [15];
    assert s[..4] == s[..3] + [3] && s[..5] == s[..4] + [4] && s == s[..5] + [5] && s == FEE_SETTINGS;
    OneMoreSetting(view, [], 1);
    OneMoreSetting(view, s[..1], 2);
    OneMoreSetting(view, s[..2], 15);
    OneMoreSetting(view, s[..3], 3);
    OneMoreSetting(view, s[..4], 4);
    OneMoreSetting(view, s[..5], 5);
  }

  /** Entries kept under their own numbers make a schedule of exactly these six. */
  lemma FeesByNumber(view: LedgerView)
    requires SettingsShown(view)
    requires forall n: nat :: n in {1, 2, 3, 4, 5, 15} ==> view[ConfigSettingKey(n)].entry.data.setting == n
    ensures FeesShown(view).Keys == {1, 2, 3, 4, 5, 15}
    ensures forall n: nat :: n in {1, 2, 3, 4, 5, 15} ==>
              FeesShown(view)[n] == view[ConfigSettingKey(n)].entry.data.payload
  {
    forall n: nat | n in {1, 2, 3, 4, 5, 15}
      ensures Shown(view, n) == Some((n, view[ConfigSettingKey(n)].entry.data.payload))
    {
    }
  }

  /** A simulation that came through is charged by its resources and its size, on the schedule remembered
      from before or else on the one the view shows, which is then remembered; there is no charge where a
      setting is missing or misshapen, nor where the recording failed. */
  lemma SimulateAnswered(env: Env, w: State, c: Command)
    requires Reliable(env.cfg) && w.alive && c.SimulateTransaction?
    ensures var view := ViewOf(env, w);
      var recording := env.host(view, w.clock, c.fn, c.source).recording;
      var (w', reply) := Exec(env, w, c);
      && reply.Simulated? && reply.latest == w.clock.sequence && ResultFits(recording, reply.result)
      && (recording.RecordingFailed? ==> reply.minResourceFee == None && w'.fees == w.fees)
      && (recording.Recorded? ==>
            if w.fees.Some? then
              && reply.minResourceFee == Some(env.resourceFee(w.fees.value, recording.resources, c.size))
              && w'.fees == w.fees
            else if SettingsShown(view) then
              && reply.minResourceFee == Some(env.resourceFee(FeesShown(view), recording.resources, c.size))
              && w'.fees == Some(FeesShown(view))
            else reply.minResourceFee == None && w'.fees == None)
  {
    var outcome := env.host(ViewOf(env, w), w.clock, c.fn, c.source);
    ReadsKeepView(env.cfg, w.source, outcome.touched);
    FeesKeepView(env.cfg, AfterReads(env.cfg, w.source, outcome.touched), FEE_SETTINGS);
    ScheduleIsShown(ViewOf(env, w));
  }

  // ---- sends and their receipts ----

  /** The receipt that a send of `c` in state `w` deserves. */
  predicate ReceiptFits(env: Env, w: State, c: Command, receipt: TxReceipt)
    requires c.SendTransaction?
  {
    var recording := env.host(ViewOf(env, w), w.clock, c.fn, c.source).recording;
    && ResultFits(recording, receipt.result)
    && receipt.envelope == c.envelope && receipt.createdAt == c.now && receipt.ledger == w.clock.sequence
    && receipt.appliedChanges
       == if receipt.result.Err? then 0
          else
            var written := |set i | 0 <= i < |recording.changes| && !recording.changes[i].readOnly|;
            if written <= 0xFFFF_FFFF then written else 0xFFFF_FFFF
  }

  /** A send that is answered is answered with the hash of its envelope and with that receipt, which is
      stored under the hash; nothing else touches the receipts. */
  lemma SendAnswered(env: Env, w: State, c: Command)
    requires Exec(env, w, c).0.alive
    ensures w.alive
    ensures var (w', reply) := Exec(env, w, c);
      if c.SendTransaction? then
        && reply.Sent? && reply.hash == env.txHash(c.envelope) && ReceiptFits(env, w, c, reply.receipt)
        && w'.receipts == w.receipts[env.txHash(c.envelope) := reply.receipt]
      else w'.receipts == w.receipts
  {
    if c.SendTransaction? {
      var recording := env.host(ViewOf(env, w), w.clock, c.fn, c.source).recording;
      if recording.Recorded? {
        WritesAreCounted(recording.changes);
      }
    }
  }

  /** Command `i` is the last send whose envelope has this hash. */
  predicate LastSend(env: Env, commands: seq<Command>, hash: Hash, i: nat) {
    && i < |commands| && commands[i].SendTransaction? && env.txHash(commands[i].envelope) == hash
    && forall j :: i < j < |commands| && commands[j].SendTransaction? ==> env.txHash(commands[j].envelope) != hash
  }

  predicate NeverSent(env: Env, commands: seq<Command>, hash: Hash) {
    forall i :: 0 <= i < |commands| && commands[i].SendTransaction? ==> env.txHash(commands[i].envelope) != hash
  }

  /** `found` is the receipt of the last send with this hash, as it was when that send ran. */
  ghost predicate Deserved(env: Env, w: State, commands: seq<Command>, hash: Hash, found: Option<TxReceipt>) {
    && (found.None? <==> NeverSent(env, commands, hash))
    && (found.Some? ==> forall i: nat :: LastSend(env, commands, hash, i) ==>
          ReceiptFits(env, Run(env, w, commands[..i]).0, commands[i], found.value))
  }

  predicate SendsHash(env: Env, c: Command, hash: Hash) {
    c.SendTransaction? && env.txHash(c.envelope) == hash
  }

  lemma LastSendIsLast(env: Env, commands: seq<Command>, hash: Hash)
    requires commands != [] && SendsHash(env, Last(commands), hash)
    ensures !NeverSent(env, commands, hash)
    ensures forall i: nat :: LastSend(env, commands, hash, i) ==> i == |commands| - 1
  {
    assert SendsHash(env, commands[|commands| - 1], hash);
  }

  lemma LastSendIsBefore(env: Env, commands: seq<Command>, hash: Hash)
    requires commands != [] && !SendsHash(env, Last(commands), hash)
    ensures NeverSent(env, commands, hash) <==> NeverSent(env, Init(commands), hash)
    ensures forall i: nat :: LastSend(env, commands, hash, i) ==>
      LastSend(env, Init(commands), hash, i) && commands[..i] == Init(commands)[..i] && commands[i] == Init(commands)[i]
  {
    assert forall i :: 0 <= i < |commands| - 1 ==> commands[i] == Init(commands)[i];
    assert !SendsHash(env, commands[|commands| - 1], hash);
  }

  lemma DeservedAnew(env: Env, w: State, commands: seq<Command>, hash: Hash, receipt: TxReceipt)
    requires commands != [] && SendsHash(env, Last(commands), hash)
    requires ReceiptFits(env, Run(env, w, Init(commands)).0, Last(commands), receipt)
    ensures Deserved(env, w, commands, hash, Some(receipt))
  {
    LastSendIsLast(env, commands, hash);
    var n := |commands| - 1;
    assert commands[..n] == Init(commands) && commands[n] == Last(commands);
    assert ReceiptFits(env, Run(env, w, commands[..n]).0, commands[n], receipt);
  }

  lemma StillDeserved(env: Env, w: State, commands: seq<Command>, hash: Hash, found: Option<TxReceipt>)
    requires commands != [] && !SendsHash(env, Last(commands), hash)
    requires Deserved(env, w, Init(commands), hash, found)
    ensures Deserved(env, w, commands, hash, found)
  {
    LastSendIsBefore(env, commands, hash);
    forall i: nat | found.Some? && LastSend(env, commands, hash, i)
      ensures ReceiptFits(env, Run(env, w, commands[..i]).0, commands[i], found.value)
    {
      assert LastSend(env, Init(commands), hash, i);
      assert commands[..i] == Init(commands)[..i] && commands[i] == Init(commands)[i];
    }
  }

  lemma {:induction false} ReceiptsAreDeserved(env: Env, w: State, commands: seq<Command>, hash: Hash)
    requires w.receipts == map[] && Run(env, w, commands).0.alive
    ensures var receipts := Run(env, w, commands).0.receipts;
      Deserved(env, w, commands, hash, if hash in receipts then Some(receipts[hash]) else None)
  {
    if commands == [] {
    } else {
      var before := Run(env, w, Init(commands)).0;
      SendAnswered(env, before, Last(commands));
      ReceiptsAreDeserved(env, w, Init(commands), hash);
      if SendsHash(env, Last(commands), hash) {
        DeservedAnew(env, w, commands, hash, Exec(env, before, Last(commands)).1.receipt);
      } else {
        StillDeserved(env, w, commands, hash, if hash in before.receipts then Some(before.receipts[hash]) else None);
      }
    }
  }

  /** After any history, a live worker answers `getTransaction` with the receipt of the last send whose
      envelope has that hash, and with nothing iff there was no such send. */
  lemma {:induction false} TransactionAnswered(env: Env, w: State, commands: seq<Command>, hash: Hash)
    requires w.receipts == map[] && Run(env, w, commands).0.alive
    ensures var reply := Exec(env, Run(env, w, commands).0, GetTransaction(hash)).1;
      reply.Receipt? && Deserved(env, w, commands, hash, reply.found)
  {
    ReceiptsAreDeserved(env, w, commands, hash);
  }
}
