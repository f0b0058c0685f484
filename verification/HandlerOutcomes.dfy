/** What each write-side handler comes to when nothing interferes (`src/server/handlers.rs`): the ledger,
    the clock and the answer, field by field. `fork_setBalance` has its own module, `Balances`. */
module HandlerOutcomes {
  import opened Wrappers
  import opened Ledger
  import opened Seqs
  import opened Actor
  import opened Handlers
  import opened Interleaving
  import Serialisability

  lemma LatestIsTheEnd(sha: Sha256, req: Request, fork: Fork)
    requires Fits(req, AskLatest)
    ensures Finish(sha, req, AskLatest, fork) == (fork, Done(fork.clock.sequence))
  {
    var (fork', reply) := Answer(fork, NextCommand(sha, req, AskLatest));
    assert Finish(sha, req, AskLatest, fork) == Finish(sha, req, Resume(req, AskLatest, reply), fork');
  }

  /** `fork_setStorage` puts the value under its contract, key and durability, with the given hint. */
  lemma SetStorageAlone(sha: Sha256, req: Request, fork: Fork)
    requires req.SetStorage?
    ensures var entry := LedgerEntry(0, ContractData(req.contract, req.key, req.durability, req.value), 0);
      var key := ContractDataKey(req.contract, req.key, req.durability);
      Alone(sha, req, fork)
      == (fork.(view := fork.view[key := Stored(entry, req.liveUntil)]),
          Done(fork.clock.sequence))
  {
    var written := Answer(fork, NextCommand(sha, req, Start)).0;
    assert Alone(sha, req, fork) == Finish(sha, req, AskLatest, written);
    LatestIsTheEnd(sha, req, written);
  }

  /** `fork_setCode` puts the bytes under their own hash. */
  lemma SetCodeAlone(sha: Sha256, req: Request, fork: Fork)
    requires req.SetCode?
    ensures var entry := LedgerEntry(0, ContractCode(sha(req.wasm), req.wasm), 0);
      Alone(sha, req, fork)
      == (fork.(view := fork.view[ContractCodeKey(sha(req.wasm)) := Stored(entry, req.liveUntil)]),
          Done(fork.clock.sequence))
  {
    var written := Answer(fork, NextCommand(sha, req, Start)).0;
    assert Alone(sha, req, fork) == Finish(sha, req, AskLatest, written);
    LatestIsTheEnd(sha, req, written);
  }

  /** The ledger key under which a contract keeps its instance. */
  function InstanceAt(contract: ContractId): LedgerKey {
    ContractDataKey(contract, LedgerKeyContractInstance, Persistent)
  }

  /** Under the instance key there is nothing, or an instance. */
  predicate EtchAccepts(view: LedgerView, contract: ContractId) {
    InstanceAt(contract) in view ==>
      view[InstanceAt(contract)].entry.data.ContractData? && view[InstanceAt(contract)].entry.data.val.ContractInstance?
  }

  function StorageThere(view: LedgerView, contract: ContractId): Option<seq<(ScVal, ScVal)>>
    requires EtchAccepts(view, contract)
  {
    if InstanceAt(contract) in view then view[InstanceAt(contract)].entry.data.val.storage else None
  }

  lemma EtchReads(sha: Sha256, req: Request, fork: Fork)
    requires req.Etch?
    ensures var read := AfterInstanceRead(LookupIn(fork.view, InstanceKey(req.contract)));
      && Finish(sha, req, EtchRead, fork) == Finish(sha, req, read, fork)
      && read == if EtchAccepts(fork.view, req.contract) then EtchWrite(StorageThere(fork.view, req.contract))
                 else Failed
  {
    OneLookup(fork.view, InstanceKey(req.contract));
    assert Answer(fork, NextCommand(sha, req, EtchRead)).1
        == Entries([LookupIn(fork.view, InstanceKey(req.contract))], fork.clock.sequence);
  }

  /** `fork_etch` installs the code under its hash and, unless something else than an instance is there,
      makes the contract's instance run it on the storage it had. */
  lemma EtchAlone(sha: Sha256, req: Request, fork: Fork)
    requires req.Etch?
    ensures var code := Stored(LedgerEntry(0, ContractCode(sha(req.wasm), req.wasm), 0), req.liveUntil);
      var installed := fork.view[ContractCodeKey(sha(req.wasm)) := code];
      if EtchAccepts(fork.view, req.contract) then
        var val := ContractInstance(Wasm(sha(req.wasm)), StorageThere(fork.view, req.contract));
        var entry := LedgerEntry(0, ContractData(req.contract, LedgerKeyContractInstance, Persistent, val), 0);
        Alone(sha, req, fork)
        == (fork.(view := installed[InstanceAt(req.contract) := Stored(entry, req.liveUntil)]),
            Done(fork.clock.sequence))
      else Alone(sha, req, fork) == (fork.(view := installed), Failed)
  {
    var installed := Answer(fork, NextCommand(sha, req, Start)).0;
    assert Alone(sha, req, fork) == Finish(sha, req, EtchRead, installed);
    EtchReads(sha, req, installed);
    assert LookupIn(installed.view, InstanceAt(req.contract)) == LookupIn(fork.view, InstanceAt(req.contract));
    if EtchAccepts(fork.view, req.contract) {
      var pc := EtchWrite(StorageThere(fork.view, req.contract));
      var written := Answer(installed, NextCommand(sha, req, pc)).0;
      assert Finish(sha, req, pc, installed) == Finish(sha, req, AskLatest, written);
      LatestIsTheEnd(sha, req, written);
    }
  }

  /** `fork_closeLedgers` moves the clock, saturating, and touches no entry; a read does neither. */
  lemma CloseAndReadAlone(sha: Sha256, req: Request, fork: Fork)
    requires req.Close? || req.Read?
    ensures var (after, pc) := Alone(sha, req, fork);
      && after.view == fork.view && pc == Done(after.clock.sequence)
      && (req.Read? ==> after.clock == fork.clock)
      && (req.Close? ==>
            var sequence, timestamp := fork.clock.sequence + req.ledgers, fork.clock.timestamp + req.seconds;
            && after.clock.sequence == (if sequence <= 0xFFFF_FFFF then sequence else 0xFFFF_FFFF)
            && after.clock.timestamp
               == (if timestamp <= 0xFFFF_FFFF_FFFF_FFFF then timestamp else 0xFFFF_FFFF_FFFF_FFFF))
  {
    var (after, reply) := Answer(fork, NextCommand(sha, req, Start));
    assert Alone(sha, req, fork) == Finish(sha, req, Resume(req, Start, reply), after);
  }

  /** The keys for which `Serialisability` asks that they be disjoint are exactly those a handler can
      write, wherever it stands. */
  lemma KeysAreWritten(sha: Sha256, req: Request, key: LedgerKey)
    ensures key in Serialisability.Keys(sha, req)
       <==> exists pc :: Fits(req, pc) && !Finished(pc)
              && NextCommand(sha, req, pc).SetLedgerEntry? && NextCommand(sha, req, pc).key == key
  {
    if key in Serialisability.Keys(sha, req) {
      var pc :=
        if req.SetBalance? then BalanceWrite(LedgerEntry(0, OtherData(0), 0), 0)
        else if req.Etch? && key.ContractDataKey? then EtchWrite(None)
        else Start;
      assert Fits(req, pc) && !Finished(pc) && NextCommand(sha, req, pc).SetLedgerEntry?
             && NextCommand(sha, req, pc).key == key;
    }
  }
}
