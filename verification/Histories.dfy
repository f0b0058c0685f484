/** Whole histories of the worker (`src/server/actor.rs`): sequence numbers, receipts and the clock. */
module Histories {
  import opened Wrappers
  import opened Ledger
  import opened Seqs
  import opened Source
  import opened Views
  import opened Actor
  import opened ActorViews

  predicate Succeeded(c: Command, reply: Reply, account: AccountId) {
    c.SendTransaction? && c.source == account && reply.Sent? && reply.receipt.result.Ok?
  }

  /** How many sends from `account` the worker answers with success. */
  function Successes(env: Env, w: State, commands: seq<Command>, account: AccountId): nat {
    if commands == [] then 0
    else
      Successes(env, w, Init(commands), account)
      + if Succeeded(Last(commands), Exec(env, Run(env, w, Init(commands)).0, Last(commands)).1, account) then 1 else 0
  }

  // ---- sequence numbers ----

  /** The account is in the cache, as an account entry with this sequence number. */
  predicate HasSeq(cache: Cache, account: AccountId, n: I64) {
    var key := AccountKey(account);
    key in cache && cache[key].Some? &&
    DecodeEntry(cache[key].value.bytes).data.Account? &&
    DecodeEntry(cache[key].value.bytes).data.account.seqNum == n
  }

  /** The host never removes the account, nor writes it with another sequence number. */
  ghost predicate HostKeepsSeq(env: Env, account: AccountId) {
    forall view: LedgerView, clock: Clock, fn: HostFunction, source: AccountId, n: I64 ::
      LookupIn(view, AccountKey(account)).Some? && HasSeqEntry(view[AccountKey(account)].entry, n) ==>
        ChangesKeepSeq(env.host(view, clock, fn, source).recording, account, n)
  }

  /** A host that never writes the account is such a host. */
  lemma HostThatLeavesItAlone(env: Env, account: AccountId)
    requires forall view: LedgerView, clock: Clock, fn: HostFunction, source: AccountId ::
      LeavesAlone(env.host(view, clock, fn, source).recording, account)
    ensures HostKeepsSeq(env, account)
  {
    forall view: LedgerView, clock: Clock, fn: HostFunction, source: AccountId, n: I64
      ensures ChangesKeepSeq(env.host(view, clock, fn, source).recording, account, n)
    {
      assert LeavesAlone(env.host(view, clock, fn, source).recording, account);
    }
  }

  predicate LeavesAlone(recording: Recording, account: AccountId) {
    recording.Recorded? ==>
      forall i :: 0 <= i < |recording.changes| ==> recording.changes[i].key != AccountKey(account)
  }

  predicate HasSeqEntry(entry: LedgerEntry, n: I64) {
    entry.data.Account? && entry.data.account.seqNum == n
  }

  predicate ChangesKeepSeq(recording: Recording, account: AccountId, n: I64) {
    recording.Recorded? ==>
      forall i :: 0 <= i < |recording.changes| ==>
        var c := recording.changes[i];
        c.readOnly || c.key != AccountKey(account)
        || (c.newValue.Some? && HasSeqEntry(DecodeEntry(c.newValue.value), n))
  }

  lemma {:induction false} SeqAfterChanges(cache: Cache, changes: seq<Change>, account: AccountId, n: I64)
    requires HasSeq(cache, account, n)
    requires forall i :: 0 <= i < |changes| ==>
      changes[i].readOnly || changes[i].key != AccountKey(account) ||
      (changes[i].newValue.Some? && HasSeqEntry(DecodeEntry(changes[i].newValue.value), n))
    ensures HasSeq(AfterChanges(cache, changes), account, n)
  {
    if changes == [] {
    } else {
      SeqAfterChanges(cache, Init(changes), account, n);
    }
  }

  lemma SeqAfterBump(cache: Cache, bumped: AccountId, account: AccountId, n: I64)
    requires HasSeq(cache, account, n)
    ensures HasSeq(AfterBump(cache, bumped), account, if bumped == account then WrapI64(n + 1) else n)
  {
  }

  lemma SeqAfterSend(env: Env, w: State, c: Command, account: AccountId, n: I64)
    requires HostKeepsSeq(env, account) && HasSeq(w.source.cache, account, n)
    requires c.SendTransaction? && w.alive
    ensures HasSeq(Exec(env, w, c).0.source.cache, account,
                   if Succeeded(c, Exec(env, w, c).1, account) then WrapI64(n + 1) else n)
  {
    var view := ViewOf(env, w);
    var outcome := env.host(view, w.clock, c.fn, c.source);
    var s := AfterReads(env.cfg, w.source, outcome.touched);
    ReadsKeepView(env.cfg, w.source, outcome.touched);
    ViewLookup(env.cfg, w.source.cache, AccountKey(account));
    assert HasSeqEntry(view[AccountKey(account)].entry, n);
    assert HasSeq(s.cache, account, n);
    if ResultOf(outcome.recording).Ok? {
      assert ChangesKeepSeq(outcome.recording, account, n);
      SeqAfterChanges(s.cache, outcome.recording.changes, account, n);
      SeqAfterBump(AfterChanges(s.cache, outcome.recording.changes), c.source, account, n);
    }
  }

  lemma SeqAfterCommand(env: Env, w: State, c: Command, account: AccountId, n: I64)
    requires HostKeepsSeq(env, account) && HasSeq(w.source.cache, account, n)
    requires c.SetLedgerEntry? ==> c.key != AccountKey(account)
    ensures HasSeq(Exec(env, w, c).0.source.cache, account,
                   if Succeeded(c, Exec(env, w, c).1, account) then WrapI64(n + 1) else n)
  {
    if w.alive && c.SendTransaction? {
      SeqAfterSend(env, w, c, account, n);
    } else if IsRead(c) {
      ReadCommandKeepsView(env, w, c);
    }
  }

  /** A cached account's sequence number counts its successful sends, wrapping at 64 bits. */
  lemma {:induction false} SeqCountsSuccesses(
    env: Env, w: State, commands: seq<Command>, account: AccountId, start: I64)
    requires HostKeepsSeq(env, account) && HasSeq(w.source.cache, account, start)
    requires forall i :: 0 <= i < |commands| && commands[i].SetLedgerEntry? ==> commands[i].key != AccountKey(account)
    ensures HasSeq(Run(env, w, commands).0.source.cache, account,
                   WrapI64(start + Successes(env, w, commands, account)))
  {
    if commands == [] {
      WrapIdentity(start);
    } else {
      SeqCountsSuccesses(env, w, Init(commands), account, start);
      CountedSend(env, Run(env, w, Init(commands)).0, Last(commands), account,
                  start + Successes(env, w, Init(commands), account));
    }
  }

  lemma CountedSend(env: Env, w: State, c: Command, account: AccountId, n: int)
    requires HostKeepsSeq(env, account) && HasSeq(w.source.cache, account, WrapI64(n))
    requires c.SetLedgerEntry? ==> c.key != AccountKey(account)
    ensures HasSeq(Exec(env, w, c).0.source.cache, account,
                   WrapI64(n + if Succeeded(c, Exec(env, w, c).1, account) then 1 else 0))
  {
    SeqAfterCommand(env, w, c, account, WrapI64(n));
    WrapSucc(n);
  }

  lemma WrapIdentity(n: I64)
    ensures WrapI64(n) == n
  {
  }

  lemma WrapSucc(n: int)
    ensures WrapI64(WrapI64(n) + 1) == WrapI64(n + 1)
  {
  }

  // ---- receipts ----

  /** The receipt of the last send answered with `hash`. */
  function LatestReceipt(replies: seq<Reply>, hash: Hash): Option<TxReceipt> {
    if replies == [] then None
    else if Last(replies).Sent? && Last(replies).hash == hash then Some(Last(replies).receipt)
    else LatestReceipt(Init(replies), hash)
  }

  lemma {:induction false} NothingWasSent(replies: seq<Reply>, hash: Hash)
    ensures LatestReceipt(replies, hash).None?
       <==> forall i :: 0 <= i < |replies| ==> !(replies[i].Sent? && replies[i].hash == hash)
  {
    if replies == [] {
    } else {
      NothingWasSent(Init(replies), hash);
      assert replies[|replies| - 1] == Last(replies);
    }
  }

  function ReceiptUnder(receipts: map<Hash, TxReceipt>, hash: Hash): Option<TxReceipt> {
    if hash in receipts then Some(receipts[hash]) else None
  }

  lemma ReceiptStored(env: Env, w: State, c: Command)
    ensures var (w', reply) := Exec(env, w, c);
      w'.receipts == if reply.Sent? then w.receipts[reply.hash := reply.receipt] else w.receipts
  {
  }

  lemma OneMoreReply(replies: seq<Reply>, reply: Reply, hash: Hash)
    ensures LatestReceipt(replies + [reply], hash)
         == if reply.Sent? && reply.hash == hash then Some(reply.receipt) else LatestReceipt(replies, hash)
  {
    Pushed(replies, reply);
  }

  lemma OneMoreReceipt(env: Env, w: State, c: Command, replies: seq<Reply>, hash: Hash)
    requires ReceiptUnder(w.receipts, hash) == LatestReceipt(replies, hash)
    ensures var (w', reply) := Exec(env, w, c);
      ReceiptUnder(w'.receipts, hash) == LatestReceipt(replies + [reply], hash)
  {
    ReceiptStored(env, w, c);
    OneMoreReply(replies, Exec(env, w, c).1, hash);
  }

  lemma {:induction false} ReceiptsKept(env: Env, w: State, commands: seq<Command>, hash: Hash)
    requires w.receipts == map[]
    ensures ReceiptUnder(Run(env, w, commands).0.receipts, hash) == LatestReceipt(Run(env, w, commands).1, hash)
  {
    if commands == [] {
    } else {
      ReceiptsKept(env, w, Init(commands), hash);
      var (before, replies) := Run(env, w, Init(commands));
      OneMoreReceipt(env, before, Last(commands), replies, hash);
    }
  }

  /** `getTransaction` finds the receipt of the latest send with that hash, and nothing iff there was none. */
  lemma ReceiptIsLatestSend(env: Env, w: State, commands: seq<Command>, hash: Hash)
    requires w.receipts == map[]
    ensures var (w', replies) := Run(env, w, commands);
      && ReceiptUnder(w'.receipts, hash) == LatestReceipt(replies, hash)
      && (w'.alive ==> Exec(env, w', GetTransaction(hash)).1 == Receipt(LatestReceipt(replies, hash)))
      && (LatestReceipt(replies, hash).None?
          <==> forall i :: 0 <= i < |replies| ==> !(replies[i].Sent? && replies[i].hash == hash))
  {
    ReceiptsKept(env, w, commands, hash);
    NothingWasSent(Run(env, w, commands).1, hash);
  }

  // ---- the clock ----

  /** The ledgers closed by the commands of a history that never lost its worker. */
  function LedgersClosed(commands: seq<Command>): nat {
    if commands == [] then 0
    else LedgersClosed(Init(commands)) + if Last(commands).CloseLedgers? then Last(commands).ledgers else 0
  }

  function SecondsPassed(commands: seq<Command>): nat {
    if commands == [] then 0
    else SecondsPassed(Init(commands)) + if Last(commands).CloseLedgers? then Last(commands).seconds else 0
  }

  function Cap(n: nat, max: nat): nat {
    if n < max then n else max
  }

  /** Only `closeLedgers` moves the clock, and many small closes saturate where one big one would. */
  lemma {:induction false} ClockCountsCloses(env: Env, w: State, commands: seq<Command>)
    requires Reliable(env.cfg) && w.alive
    ensures var w' := Run(env, w, commands).0;
      && w'.alive
      && w'.clock.sequence == Cap(w.clock.sequence + LedgersClosed(commands), 0xFFFF_FFFF)
      && w'.clock.timestamp == Cap(w.clock.timestamp + SecondsPassed(commands), 0xFFFF_FFFF_FFFF_FFFF)
  {
    if commands == [] {
    } else {
      ClockCountsCloses(env, w, Init(commands));
      var before := Run(env, w, Init(commands)).0;
      var c := Last(commands);
      if IsRead(c) {
        ReadCommandKeepsView(env, before, c);
      } else if c.SendTransaction? {
        SendOnView(env, before, c);
      }
    }
  }
}
