/** `fork_setBalance` for contract tokens (`src/server/handlers.rs`): read the balance, mint or burn the
    difference; and the two halves in which an i128 travels. */
module Tokens {
  import opened Wrappers
  import opened Ledger
  import opened Source
  import opened Views
  import opened Actor
  import opened ActorViews

  const TWO_64: int := 0x1_0000_0000_0000_0000
  const I128_MAX: int := 0x7FFF_FFFF_FFFF_FFFF_FFFF_FFFF_FFFF_FFFF
  const I128_MIN: int := -0x8000_0000_0000_0000_0000_0000_0000_0000

  type Int128 = n: int | I128_MIN <= n <= I128_MAX

  // ---- the halves of an i128 ----

  /** `(n >> 64) as i64`: the arithmetic shift rounds down. */
  function HighHalf(n: Int128): (hi: I64) {
    n / TWO_64
  }

  /** `n & 0xFFFF_FFFF_FFFF_FFFF`, in two's complement. */
  function LowHalf(n: Int128): (lo: U64) {
    n % TWO_64
  }

  /** `((hi as i128) << 64) | (lo as i128)` */
  function FromHalves(hi: I64, lo: U64): (n: Int128) {
    hi * TWO_64 + lo
  }

  function ToScVal(n: Int128): ScVal {
    I128(HighHalf(n), LowHalf(n))
  }

  lemma SplitJoin(n: Int128)
    ensures FromHalves(HighHalf(n), LowHalf(n)) == n
  {
  }

  lemma JoinSplit(hi: I64, lo: U64)
    ensures HighHalf(FromHalves(hi, lo)) == hi && LowHalf(FromHalves(hi, lo)) == lo
  {
  }

  /** No two values share their halves, and no halves are unused. */
  lemma HalvesAreABijection(n: Int128, hi: I64, lo: U64)
    ensures ToScVal(n) == I128(hi, lo) <==> n == hi * 0x1_0000_0000_0000_0000 + lo
  {
    SplitJoin(n);
    JoinSplit(hi, lo);
  }

  // ---- the handler ----

  datatype Deal =
    | Dealt(latest: U32)
    | NegativeAmount
    | NotAToken          // balance() failed or returned no i128
    | Overflow           // target - current leaves the i128 range
    | AbsUnreachable     // checked_abs found i128::MIN
    | MutateFailed       // mint or burn failed
    | WorkerLost

  /** The all-zero public key that stands in for a transaction source. */
  function ZeroSource(): (zero: AccountId)
    ensures forall i :: 0 <= i < 32 ==> zero[i] == 0
  {
    seq(32, _ => 0)
  }

  function BalanceCall(token: ContractId, to: AccountId): HostFunction {
    InvokeContract(token, "balance", [Address(AccountAddress(to))])
  }

  function MutateCall(token: ContractId, to: AccountId, delta: Int128): HostFunction
    requires delta > I128_MIN
  {
    if delta > 0 then InvokeContract(token, "mint", [Address(AccountAddress(to)), ToScVal(delta)])
    else InvokeContract(token, "burn", [Address(AccountAddress(to)), ToScVal(-delta)])
  }

  /** The second half of the call, once the current balance is known. `seen` is the ledger number that
      came with it. */
  function CloseGap(
    env: Env, w: State, token: ContractId, to: AccountId, current: Int128, seen: U32, target: Int128,
    envelope: HostFunction -> seq<Byte>, now: U64)
    : (State, Deal)
  {
    var delta: int := target - current;
    if delta == 0 then (w, Dealt(seen))
    else if delta > I128_MAX || delta < I128_MIN then (w, Overflow)
    else if delta == I128_MIN then (w, AbsUnreachable)
    else
      var mutate := MutateCall(token, to, delta);
      var (w', reply) := Exec(env, w, SendTransaction(envelope(mutate), mutate, ZeroSource(), now));
      if !reply.Sent? then (w', WorkerLost)
      else if reply.receipt.result.Err? then (w', MutateFailed)
      else (Exec(env, w', GetLatestLedger).0, Dealt(w'.clock.sequence))
  }

  /** The worker after the call, and how it went. `envelope` is the synthetic transaction's encoding. */
  function DealToken(
    env: Env, w: State, token: ContractId, to: AccountId, target: Int128, envelope: HostFunction -> seq<Byte>, now: U64)
    : (State, Deal)
  {
    if target < 0 then (w, NegativeAmount)
    else
      var (w', reply) := Exec(env, w, SimulateTransaction(BalanceCall(token, to), ZeroSource(), 0));
      if !reply.Simulated? then (w', WorkerLost)
      else
        match reply.result
        case Ok(I128(hi, lo)) =>
          CloseGap(env, w', token, to, FromHalves(hi, lo), reply.latest, target, envelope, now)
        case _ => (w', NotAToken)
  }

  /** `handle_set_token_balance`. */
  method HandleSetTokenBalance(
    worker: Worker, token: ContractId, to: AccountId, target: Int128, envelope: HostFunction -> seq<Byte>, now: U64)
    returns (result: Deal)
    requires worker.Valid()
    modifies worker, worker.source
    ensures worker.Valid()
    ensures (worker.Value(), result) == DealToken(worker.env, old(worker.Value()), token, to, target, envelope, now)
  {
    if target < 0 {
      return NegativeAmount;
    }
    if !worker.alive {
      return WorkerLost;
    }
    var simulated := worker.Handle(SimulateTransaction(BalanceCall(token, to), ZeroSource(), 0));
    var current: Int128, seen: U32;
    match simulated {
      case Simulated(Ok(I128(hi, lo)), _, latest) => current, seen := FromHalves(hi, lo), latest;
      case Simulated(_, _, _) => return NotAToken;
      case _ => return WorkerLost;
    }
    var delta: int := target - current;
    if delta == 0 {
      return Dealt(seen);
    }
    if delta > I128_MAX || delta < I128_MIN {
      return Overflow;
    }
    if delta == I128_MIN {
      return AbsUnreachable;
    }
    var mutate := MutateCall(token, to, delta);
    var sent := worker.Handle(SendTransaction(envelope(mutate), mutate, ZeroSource(), now));
    if !sent.Sent? {
      return WorkerLost;
    }
    if sent.receipt.result.Err? {
      return MutateFailed;
    }
    var asked := worker.Handle(GetLatestLedger);
    result := Dealt(asked.sequence);
  }

  // ---- what a token owes its callers ----

  /** A token contract: where it is deployed, what balance each account has there, and the one account
      that a deal is about. */
  datatype Token =
    Token(contract: ContractId, holder: AccountId,
          deployed: LedgerView -> bool, balance: (LedgerView, AccountId) -> int)
  {
    function Held(view: LedgerView): int {
      balance(view, holder)
    }
  }

  /** Nobody but the holder has another balance. */
  ghost predicate OthersKeep(t: Token, before: LedgerView, after: LedgerView) {
    forall other: AccountId :: other != t.holder ==> t.balance(after, other) == t.balance(before, other)
  }

  /** A successful call of `fn` that leaves the token deployed, the holder's balance at `target` and every
      other balance as it was. */
  ghost predicate Moves(env: Env, t: Token, view: LedgerView, clock: Clock, fn: HostFunction, target: int) {
    var recording := env.host(view, clock, fn, ZeroSource()).recording;
    recording.Recorded? && recording.invokeResult.Ok? &&
    var after := ViewAfterChanges(view, recording.changes);
    t.deployed(after) && t.Held(after) == target && OthersKeep(t, view, after)
  }

  /** `balance(holder)` answers with the holder's balance, as the halves of an i128. */
  ghost predicate Reports(env: Env, t: Token, view: LedgerView, clock: Clock) {
    t.deployed(view) ==>
      0 <= t.Held(view) <= I128_MAX &&
      var call := InvokeContract(t.contract, "balance", [Address(AccountAddress(t.holder))]);
      var recording := env.host(view, clock, call, ZeroSource()).recording;
      && recording.Recorded? && recording.invokeResult.Ok? && recording.invokeResult.value.I128?
      && recording.invokeResult.value.hi * 0x1_0000_0000_0000_0000 + recording.invokeResult.value.lo == t.Held(view)
  }

  /** `mint(holder, amount)` adds a positive amount that fits. */
  ghost predicate Mints(env: Env, t: Token, view: LedgerView, clock: Clock, hi: I64, lo: U64) {
    var amount := hi * 0x1_0000_0000_0000_0000 + lo;
    t.deployed(view) && 0 < amount && t.Held(view) + amount <= I128_MAX ==>
      Moves(env, t, view, clock,
            InvokeContract(t.contract, "mint", [Address(AccountAddress(t.holder)), I128(hi, lo)]),
            t.Held(view) + amount)
  }

  /** `burn(holder, amount)` takes away a positive amount that is there. */
  ghost predicate Burns(env: Env, t: Token, view: LedgerView, clock: Clock, hi: I64, lo: U64) {
    var amount := hi * 0x1_0000_0000_0000_0000 + lo;
    t.deployed(view) && 0 < amount <= t.Held(view) ==>
      Moves(env, t, view, clock,
            InvokeContract(t.contract, "burn", [Address(AccountAddress(t.holder)), I128(hi, lo)]),
            t.Held(view) - amount)
  }

  /** Nothing about the token hangs on the transaction source's own sequence number. */
  ghost predicate IgnoresSource(t: Token, view: LedgerView) {
    t.deployed(view) ==>
      t.deployed(BumpView(view, ZeroSource())) &&
      forall account: AccountId :: t.balance(BumpView(view, ZeroSource()), account) == t.balance(view, account)
  }

  /** Wherever it is deployed, `balance` reports a non-negative i128, `mint` adds and `burn` subtracts. */
  ghost predicate IsToken(env: Env, t: Token) {
    && (forall view: LedgerView :: IgnoresSource(t, view))
    && (forall view: LedgerView, clock: Clock :: Reports(env, t, view, clock))
    && (forall view: LedgerView, clock: Clock, hi: I64, lo: U64 :: Mints(env, t, view, clock, hi, lo))
    && (forall view: LedgerView, clock: Clock, hi: I64, lo: U64 :: Burns(env, t, view, clock, hi, lo))
  }

  lemma SimulateReports(env: Env, w: State, fn: HostFunction)
    requires Reliable(env.cfg) && w.alive
    ensures var (w', reply) := Exec(env, w, SimulateTransaction(fn, ZeroSource(), 0));
      && w'.alive && ViewOf(env, w') == ViewOf(env, w) && w'.clock == w.clock
      && reply.Simulated? && reply.result == ResultOf(env.host(ViewOf(env, w), w.clock, fn, ZeroSource()).recording)
  {
    var outcome := env.host(ViewOf(env, w), w.clock, fn, ZeroSource());
    ReadCommandKeepsView(env, w, SimulateTransaction(fn, ZeroSource(), 0));
    ReadsKeepView(env.cfg, w.source, outcome.touched);
    FeesKeepView(env.cfg, AfterReads(env.cfg, w.source, outcome.touched), FEE_SETTINGS);
  }

  lemma MutationLands(env: Env, w: State, t: Token, fn: HostFunction, target: int, envelope: seq<Byte>, now: U64)
    requires Reliable(env.cfg) && w.alive && IsToken(env, t)
    requires Moves(env, t, ViewOf(env, w), w.clock, fn, target)
    ensures var (w', reply) := Exec(env, w, SendTransaction(envelope, fn, ZeroSource(), now));
      && w'.alive && w'.clock == w.clock && reply.Sent? && reply.receipt.result.Ok?
      && t.deployed(ViewOf(env, w')) && t.Held(ViewOf(env, w')) == target
      && OthersKeep(t, ViewOf(env, w), ViewOf(env, w'))
  {
    var changes := env.host(ViewOf(env, w), w.clock, fn, ZeroSource()).recording.changes;
    assert IgnoresSource(t, ViewAfterChanges(ViewOf(env, w), changes));
    SendOnView(env, w, SendTransaction(envelope, fn, ZeroSource(), now));
  }

  /** Minting or burning `delta`, where the token owes it, moves the balance by exactly that. */
  lemma MutationMoves(env: Env, t: Token, view: LedgerView, clock: Clock, delta: Int128)
    requires IsToken(env, t) && t.deployed(view) && delta != 0 && 0 <= t.Held(view) + delta <= I128_MAX
    ensures I128_MIN < delta
    ensures Moves(env, t, view, clock, MutateCall(t.contract, t.holder, delta), t.Held(view) + delta)
  {
    assert Reports(env, t, view, clock);
    if delta > 0 {
      SplitJoin(delta);
      assert Mints(env, t, view, clock, HighHalf(delta), LowHalf(delta));
    } else {
      SplitJoin(-delta);
      assert Burns(env, t, view, clock, HighHalf(-delta), LowHalf(-delta));
    }
  }

  /** The second half of the call, on whatever balance there is by then: the gap that was read is closed,
      not the gap that is. */
  lemma GapCloses(
    env: Env, w: State, t: Token, current: Int128, seen: U32, target: Int128,
    envelope: HostFunction -> seq<Byte>, now: U64)
    requires Reliable(env.cfg) && w.alive && IsToken(env, t) && t.deployed(ViewOf(env, w))
    requires target >= 0 && current >= 0 && 0 <= t.Held(ViewOf(env, w)) + (target - current) <= I128_MAX
    ensures var (w', result) := CloseGap(env, w, t.contract, t.holder, current, seen, target, envelope, now);
      && w'.alive && result == Dealt(if target == current then seen else w.clock.sequence)
      && w'.clock == w.clock && t.deployed(ViewOf(env, w'))
      && t.Held(ViewOf(env, w')) == t.Held(ViewOf(env, w)) + (target - current)
      && OthersKeep(t, ViewOf(env, w), ViewOf(env, w'))
  {
    if target != current {
      MutationMoves(env, t, ViewOf(env, w), w.clock, target - current);
      var mutate := MutateCall(t.contract, t.holder, target - current);
      MutationLands(env, w, t, mutate, t.Held(ViewOf(env, w)) + (target - current), envelope(mutate), now);
    }
  }

  /** The first half: the balance as it is, and nothing changed. */
  lemma BalanceIsRead(env: Env, w: State, t: Token)
    requires Reliable(env.cfg) && w.alive && IsToken(env, t) && t.deployed(ViewOf(env, w))
    ensures var (w', reply) := Exec(env, w, SimulateTransaction(BalanceCall(t.contract, t.holder), ZeroSource(), 0));
      && w'.alive && ViewOf(env, w') == ViewOf(env, w) && w'.clock == w.clock
      && 0 <= t.Held(ViewOf(env, w)) <= I128_MAX
      && reply.Simulated? && reply.result == Ok(ToScVal(t.Held(ViewOf(env, w)))) && reply.latest == w.clock.sequence
  {
    SimulateReports(env, w, BalanceCall(t.contract, t.holder));
    assert Reports(env, t, ViewOf(env, w), w.clock);
    var call := BalanceCall(t.contract, t.holder);
    var value := env.host(ViewOf(env, w), w.clock, call, ZeroSource()).recording.invokeResult.value;
    HalvesAreABijection(t.Held(ViewOf(env, w)), value.hi, value.lo);
  }

  /** Undisturbed, the deal ends with the holder's balance at its target and every other balance as it was,
      by whichever way it went: no delta overflows, `checked_abs` never fails, and no other error is
      possible. */
  lemma DealReachesTarget(
    env: Env, w: State, t: Token, target: Int128, envelope: HostFunction -> seq<Byte>, now: U64)
    requires Reliable(env.cfg) && w.alive && IsToken(env, t) && t.deployed(ViewOf(env, w)) && target >= 0
    ensures var (w', result) := DealToken(env, w, t.contract, t.holder, target, envelope, now);
      && w'.alive && result == Dealt(w.clock.sequence)
      && t.Held(ViewOf(env, w')) == target && OthersKeep(t, ViewOf(env, w), ViewOf(env, w'))
  {
    var current := t.Held(ViewOf(env, w));
    BalanceIsRead(env, w, t);
    SplitJoin(current);
    var (asked, reply) := Exec(env, w, SimulateTransaction(BalanceCall(t.contract, t.holder), ZeroSource(), 0));
    GapCloses(env, asked, t, current, reply.latest, target, envelope, now);
  }

  /** Interrupted between its reading of `current` and its mint or burn, the deal still reaches its target
      exactly when the balance is what it was at the reading; otherwise it misses by just the difference. */
  lemma InterruptedDealIff(
    env: Env, later: State, t: Token, current: Int128, seen: U32, target: Int128,
    envelope: HostFunction -> seq<Byte>, now: U64)
    requires Reliable(env.cfg) && later.alive && IsToken(env, t) && t.deployed(ViewOf(env, later))
    requires target >= 0 && current >= 0 && 0 <= t.Held(ViewOf(env, later)) + (target - current) <= I128_MAX
    ensures var (w', result) := CloseGap(env, later, t.contract, t.holder, current, seen, target, envelope, now);
      && result.Dealt?
      && t.Held(ViewOf(env, w')) - target == t.Held(ViewOf(env, later)) - current
      && (t.Held(ViewOf(env, w')) == target <==> t.Held(ViewOf(env, later)) == current)
  {
    GapCloses(env, later, t, current, seen, target, envelope, now);
  }

  /** Two deals that both read before either moves add up their gaps: from one balance below both targets,
      the second ends above its target by what the first minted. Neither reports an error. */
  lemma RacingDealsOvershoot(
    env: Env, w: State, t: Token, one: Int128, two: Int128, seen: U32, envelope: HostFunction -> seq<Byte>, now: U64)
    requires Reliable(env.cfg) && w.alive && IsToken(env, t) && t.deployed(ViewOf(env, w))
    requires 0 <= t.Held(ViewOf(env, w)) < one && t.Held(ViewOf(env, w)) < two
    requires one + two - t.Held(ViewOf(env, w)) <= I128_MAX
    ensures var current := t.Held(ViewOf(env, w));
      var (mid, first) := CloseGap(env, w, t.contract, t.holder, current, seen, one, envelope, now);
      var (end, second) := CloseGap(env, mid, t.contract, t.holder, current, seen, two, envelope, now);
      && first.Dealt? && second.Dealt? && t.Held(ViewOf(env, end)) == two + (one - current)
  {
    var current := t.Held(ViewOf(env, w));
    GapCloses(env, w, t, current, seen, one, envelope, now);
    var mid := CloseGap(env, w, t.contract, t.holder, current, seen, one, envelope, now).0;
    GapCloses(env, mid, t, current, seen, two, envelope, now);
  }

  // ---- what is sent, for any token or none ----

  /** The call that brings the balance from `current` to `target`, `hi` and `lo` being the halves of the
      amount. */
  function ClosingCall(token: ContractId, to: AccountId, current: Int128, target: Int128, hi: I64, lo: U64)
    : HostFunction
  {
    InvokeContract(token, if target > current then "mint" else "burn", [Address(AccountAddress(to)), I128(hi, lo)])
  }

  /** A deal for an account whose balance is reported and is not yet the target is three commands: ask
      `balance(to)`, send the mint or burn of the difference in an envelope around that very call, and ask
      for the latest ledger; all on behalf of the all-zero account. */
  lemma DealIsThreeCommands(
    env: Env, w: State, token: ContractId, to: AccountId, target: Int128, envelope: HostFunction -> seq<Byte>, now: U64,
    current: Int128, hi: I64, lo: U64, zero: AccountId)
    requires target >= 0 && (forall i :: 0 <= i < 32 ==> zero[i] == 0)
    requires var asked := Exec(env, w, SimulateTransaction(
               InvokeContract(token, "balance", [Address(AccountAddress(to))]), zero, 0)).1;
      && asked.Simulated? && asked.result.Ok? && asked.result.value.I128?
      && asked.result.value.hi * 0x1_0000_0000_0000_0000 + asked.result.value.lo == current
    requires target != current && target - current <= I128_MAX
    requires hi * 0x1_0000_0000_0000_0000 + lo == if target > current then target - current else current - target
    ensures var call := ClosingCall(token, to, current, target, hi, lo);
      var ask := SimulateTransaction(InvokeContract(token, "balance", [Address(AccountAddress(to))]), zero, 0);
      var send := SendTransaction(envelope(call), call, zero, now);
      var (w', result) := DealToken(env, w, token, to, target, envelope, now);
      var asked := Exec(env, w, ask).0;
      var (sent, reply) := Exec(env, asked, send);
      && w' == Exec(env, sent, GetLatestLedger).0
      && result == if !reply.Sent? then WorkerLost else if reply.receipt.result.Err? then MutateFailed
                   else Dealt(sent.clock.sequence)
  {
    assert zero == ZeroSource();
    HalvesAreABijection(if target > current then target - current else current - target, hi, lo);
  }

  /** Where nothing is sent: a negative amount is refused unasked; a balance that is no i128 is refused;
      a balance already at its target is left; a difference out of range is not computed. */
  lemma DealWithoutSend(
    env: Env, w: State, token: ContractId, to: AccountId, target: Int128, envelope: HostFunction -> seq<Byte>, now: U64,
    zero: AccountId)
    requires forall i :: 0 <= i < 32 ==> zero[i] == 0
    ensures var (w', result) := DealToken(env, w, token, to, target, envelope, now);
      var ask := SimulateTransaction(InvokeContract(token, "balance", [Address(AccountAddress(to))]), zero, 0);
      var (asked, reply) := Exec(env, w, ask);
      if target < 0 then w' == w && result == NegativeAmount
      else if !reply.Simulated? then w' == asked && result == WorkerLost
      else if reply.result.Err? || !reply.result.value.I128? then w' == asked && result == NotAToken
      else
        var current := reply.result.value.hi * 0x1_0000_0000_0000_0000 + reply.result.value.lo;
        && (current == target ==> w' == asked && result == Dealt(reply.latest))
        && (target - current > I128_MAX ==> w' == asked && result == Overflow)
  {
    assert zero == ZeroSource();
  }

  /** Exactly when a reported balance makes the difference overflow: it must be negative, and by enough. */
  lemma OverflowIff(target: Int128, current: Int128)
    requires target >= 0
    ensures !(I128_MIN < target - current <= I128_MAX) <==> current < target - I128_MAX
    ensures current >= 0 ==> I128_MIN < target - current <= I128_MAX
  {
  }

  // ---- a token that keeps its promises, so that the law speaks of something ----

  /** The entry that says the token is there. */
  function DeployedAt(contract: ContractId): LedgerKey {
    ContractDataKey(contract, LedgerKeyContractInstance, Persistent)
  }

  function LedgerOf(contract: ContractId, account: AccountId): LedgerKey {
    ContractDataKey(contract, Address(AccountAddress(account)), Persistent)
  }

  function HeldIn(contract: ContractId, view: LedgerView, account: AccountId): (held: Int128)
    ensures held >= 0
  {
    if LedgerOf(contract, account) !in view then 0
    else
      match view[LedgerOf(contract, account)].entry.data
      case ContractData(_, _, _, I128(hi, lo)) => if FromHalves(hi, lo) >= 0 then FromHalves(hi, lo) else 0
      case _ => 0
  }

  function Holding(contract: ContractId, account: AccountId, n: Int128): Change {
    var key := Address(AccountAddress(account));
    Change(LedgerOf(contract, account), false,
           Some(EncodeEntry(LedgerEntry(0, ContractData(contract, key, Persistent, ToScVal(n)), 0))), None)
  }

  /** A token with a balance for each account: it looks at the contract called, at the function, at the
      account and at the amount. */
  function RunToken(contract: ContractId, view: LedgerView, fn: HostFunction): Recording {
    if !fn.InvokeContract? || fn.contract != contract || DeployedAt(contract) !in view then
      RecordingFailed("no such contract")
    else if |fn.args| == 0 || !fn.args[0].Address? || !fn.args[0].address.AccountAddress? then
      RecordingFailed("no account")
    else
      var account := fn.args[0].address.account;
      var held := HeldIn(contract, view, account);
      if fn.name == "balance" && |fn.args| == 1 then Recorded(Ok(ToScVal(held)), [], 0)
      else if |fn.args| != 2 || !fn.args[1].I128? then RecordingFailed("no amount")
      else
        var amount := FromHalves(fn.args[1].hi, fn.args[1].lo);
        if fn.name == "mint" && 0 < amount && held + amount <= I128_MAX then
          Recorded(Ok(Void), [Holding(contract, account, held + amount)], 0)
        else if fn.name == "burn" && 0 < amount <= held then
          Recorded(Ok(Void), [Holding(contract, account, held - amount)], 0)
        else RecordingFailed("refused")
  }

  function TokenOf(contract: ContractId, holder: AccountId): Token {
    Token(contract, holder,
          view => DeployedAt(contract) in view,
          (view: LedgerView, account: AccountId) => HeldIn(contract, view, account))
  }

  lemma HoldingIsSeen(contract: ContractId, holder: AccountId, view: LedgerView, n: Int128)
    requires n >= 0
    ensures var t, after := TokenOf(contract, holder), ViewAfterChanges(view, [Holding(contract, holder, n)]);
      && t.Held(after) == n && OthersKeep(t, view, after)
      && (DeployedAt(contract) in view ==> DeployedAt(contract) in after)
  {
    var changes := [Holding(contract, holder, n)];
    LastWriteWins(view, changes, 0);
    SplitJoin(n);
    UnwrittenKeyKeeps(view, changes, DeployedAt(contract));
    forall other: AccountId | other != holder
      ensures HeldIn(contract, ViewAfterChanges(view, changes), other) == HeldIn(contract, view, other)
    {
      UnwrittenKeyKeeps(view, changes, LedgerOf(contract, other));
    }
  }

  ghost predicate Runs(env: Env, contract: ContractId) {
    forall view: LedgerView, clock: Clock, fn: HostFunction, source: AccountId ::
      env.host(view, clock, fn, source) == HostOutcome(RunToken(contract, view, fn), [])
  }

  lemma MintRuns(contract: ContractId, holder: AccountId, view: LedgerView, hi: I64, lo: U64)
    requires DeployedAt(contract) in view
    requires 0 < FromHalves(hi, lo) && HeldIn(contract, view, holder) + FromHalves(hi, lo) <= I128_MAX
    ensures RunToken(contract, view, InvokeContract(contract, "mint", [Address(AccountAddress(holder)), I128(hi, lo)]))
         == Recorded(Ok(Void), [Holding(contract, holder, HeldIn(contract, view, holder) + FromHalves(hi, lo))], 0)
  {
  }

  lemma BurnRuns(contract: ContractId, holder: AccountId, view: LedgerView, hi: I64, lo: U64)
    requires DeployedAt(contract) in view
    requires 0 < FromHalves(hi, lo) <= HeldIn(contract, view, holder)
    ensures RunToken(contract, view, InvokeContract(contract, "burn", [Address(AccountAddress(holder)), I128(hi, lo)]))
         == Recorded(Ok(Void), [Holding(contract, holder, HeldIn(contract, view, holder) - FromHalves(hi, lo))], 0)
  {
  }

  lemma TokenMints(
    env: Env, contract: ContractId, holder: AccountId, view: LedgerView, clock: Clock, hi: I64, lo: U64)
    requires Runs(env, contract)
    ensures Mints(env, TokenOf(contract, holder), view, clock, hi, lo)
  {
    var held, amount := HeldIn(contract, view, holder), FromHalves(hi, lo);
    if DeployedAt(contract) in view && 0 < amount && held + amount <= I128_MAX {
      MintRuns(contract, holder, view, hi, lo);
      HoldingIsSeen(contract, holder, view, held + amount);
    }
  }

  lemma TokenBurns(
    env: Env, contract: ContractId, holder: AccountId, view: LedgerView, clock: Clock, hi: I64, lo: U64)
    requires Runs(env, contract)
    ensures Burns(env, TokenOf(contract, holder), view, clock, hi, lo)
  {
    var held, amount := HeldIn(contract, view, holder), FromHalves(hi, lo);
    if DeployedAt(contract) in view && 0 < amount <= held {
      BurnRuns(contract, holder, view, hi, lo);
      HoldingIsSeen(contract, holder, view, held - amount);
    }
  }

  /** A host that runs such a token meets every premise of `DealReachesTarget`, for every account. */
  lemma TokensExist(env: Env, contract: ContractId, holder: AccountId)
    requires Runs(env, contract)
    ensures IsToken(env, TokenOf(contract, holder))
  {
    var t := TokenOf(contract, holder);
    forall view: LedgerView, clock: Clock ensures Reports(env, t, view, clock) {
      SplitJoin(t.Held(view));
    }
    forall view: LedgerView, clock: Clock, hi: I64, lo: U64
      ensures Mints(env, t, view, clock, hi, lo) && Burns(env, t, view, clock, hi, lo)
    {
      TokenMints(env, contract, holder, view, clock, hi, lo);
      TokenBurns(env, contract, holder, view, clock, hi, lo);
    }
  }
}
