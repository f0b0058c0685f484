/** `fork_setBalance` for classic assets (`src/server/handlers.rs`): what one undisturbed call does, what
    repeated calls amount to, and when two assets share a trustline. */
module Balances {
  import opened Wrappers
  import opened Ledger
  import opened Seqs
  import Views
  import opened Actor
  import opened Handlers
  import opened Interleaving

  function BalanceOf(entry: LedgerEntry): Option<I64> {
    match entry.data
    case Account(a) => Some(a.balance)
    case Trustline(t) => Some(t.balance)
    case _ => None
  }

  /** The entry with its balance and its last-modified ledger forgotten. */
  function Frame(entry: LedgerEntry): LedgerEntry {
    var data :=
      match entry.data
      case Account(a) => Account(a.(balance := 0))
      case Trustline(t) => Trustline(t.(balance := 0))
      case other => other;
    entry.(lastModified := 0, data := data)
  }

  /** The entry under the request's key has the shape the key promises, or there is none. */
  predicate WellShaped(req: Request, existing: Option<Stored>)
    requires req.SetBalance?
  {
    existing.Some? ==>
      if req.classic.Native? then existing.value.entry.data.Account? else existing.value.entry.data.Trustline?
  }

  /** One undisturbed call: the target balance, the current ledger, nothing else. */
  lemma SetBalanceFrame(sha: Sha256, req: Request, fork: Fork)
    requires req.SetBalance?
    ensures var (after, pc) := Alone(sha, req, fork);
      var key := if req.classic.Native? then AccountKey(req.account) else TrustlineKey(req.account, req.classic.asset);
      && after.clock == fork.clock
      && (forall k :: k != key ==> LookupIn(after.view, k) == LookupIn(fork.view, k))
      && (WellShaped(req, LookupIn(fork.view, key)) ==>
            && pc == Done(fork.clock.sequence) && key in after.view
            && BalanceOf(after.view[key].entry) == Some(req.amount)
            && after.view[key].entry.lastModified == fork.clock.sequence
            && after.view[key].liveUntil == None
            && (key in fork.view ==> Frame(after.view[key].entry) == Frame(fork.view[key].entry)))
      && (!WellShaped(req, LookupIn(fork.view, key)) ==> pc == Failed && after == fork)
  {
    var key := BalanceKey(req);
    BalanceOutcome(sha, req, fork);
  }

  /** What the key holds after an undisturbed call that found `existing` there. */
  function Resulting(req: Request, existing: Option<Stored>, latest: U32): Option<Stored>
    requires req.SetBalance?
  {
    match AfterBalanceRead(req, existing, latest)
    case BalanceWrite(entry, _) => Some(Stored(entry, None))
    case _ => existing
  }

  lemma BalanceOutcome(sha: Sha256, req: Request, fork: Fork)
    requires req.SetBalance?
    ensures var (after, pc) := Alone(sha, req, fork);
      var key := BalanceKey(req);
      var read := AfterBalanceRead(req, LookupIn(fork.view, key), fork.clock.sequence);
      && after.clock == fork.clock
      && (forall k :: k != key ==> LookupIn(after.view, k) == LookupIn(fork.view, k))
      && LookupIn(after.view, key) == Resulting(req, LookupIn(fork.view, key), fork.clock.sequence)
      && pc == (if read.Failed? then Failed else Done(fork.clock.sequence))
      && (read.Failed? ==> after == fork)
  {
    var key := BalanceKey(req);
    var read := AfterBalanceRead(req, LookupIn(fork.view, key), fork.clock.sequence);
    OneLookup(fork.view, key);
    assert Answer(fork, NextCommand(sha, req, Start))
        == (fork, Entries([LookupIn(fork.view, key)], fork.clock.sequence));
    assert Alone(sha, req, fork) == Finish(sha, req, read, fork);
    if read.BalanceWrite? {
      var c := NextCommand(sha, req, read);
      assert Resume(req, read, Answer(fork, c).1) == Done(fork.clock.sequence);
      assert Finish(sha, req, read, fork) == (Answer(fork, c).0, Done(fork.clock.sequence));
    }
  }

  /** An absent entry is created with the documented defaults, to the last field. */
  lemma SetBalanceCreates(sha: Sha256, req: Request, fork: Fork)
    requires req.SetBalance? && BalanceKey(req) !in fork.view
    ensures var (after, pc) := Alone(sha, req, fork);
      var key := if req.classic.Native? then AccountKey(req.account) else TrustlineKey(req.account, req.classic.asset);
      var latest := fork.clock.sequence;
      && pc == Done(latest) && key in after.view
      && after.view[key].liveUntil == None
      && after.view[key].entry.lastModified == latest && after.view[key].entry.ext == 0
      && match req.classic
         case Native =>
           var data := after.view[key].entry.data;
           && data.Account? && data.account.accountId == req.account && data.account.balance == req.amount
           && (data.account.seqNum - latest * 0x1_0000_0000) % 0x1_0000_0000_0000_0000 == 0
           && data.account.rest == AccountRest(0, 0, [1, 0, 0, 0], 0)
         case Credit(asset) =>
           after.view[key].entry.data == Trustline(TrustLineEntry(req.account, asset, req.amount, I64_MAX, 1, 0))
  {
    BalanceOutcome(sha, req, fork);
  }

  // ---- repeated calls ----

  function Closed(fork: Fork, ledgers: U32, seconds: U64): Fork {
    fork.(clock := Warp(fork.clock, ledgers, seconds))
  }

  lemma ShiftedIsInjective(a: U32, b: U32)
    ensures WrapI64(a * 0x1_0000_0000) == WrapI64(b * 0x1_0000_0000) <==> a == b
  {
    if WrapI64(a * 0x1_0000_0000) == WrapI64(b * 0x1_0000_0000) {
      assert ((a - b) * 0x1_0000_0000) % 0x1_0000_0000_0000_0000 == 0;
      assert -0x1_0000_0000_0000_0000 < (a - b) * 0x1_0000_0000 < 0x1_0000_0000_0000_0000;
    }
  }

  lemma ResultingTwice(first: Request, last: Request, existing: Option<Stored>, earlier: U32, later: U32)
    requires first.SetBalance? && last.SetBalance? && last == first.(amount := last.amount)
    ensures Resulting(last, Resulting(first, existing, earlier), later) == Resulting(last, existing, later)
       <==> !(first.classic.Native? && existing.None? && earlier != later)
  {
    ShiftedIsInjective(earlier, later);
  }

  /** Two calls with ledgers closed in between end as the last alone would, except in one case: the first
      call created the account, whose sequence number then remembers the earlier ledger. */
  lemma RepeatedCallsEqualLastIff(
    sha: Sha256, first: Request, last: Request, fork: Fork, ledgers: U32, seconds: U64)
    requires first.SetBalance? && last.SetBalance? && last == first.(amount := last.amount)
    ensures Alone(sha, last, Closed(Alone(sha, first, fork).0, ledgers, seconds)).0
         == Alone(sha, last, Closed(fork, ledgers, seconds)).0
       <==> !(first.classic.Native? && BalanceKey(first) !in fork.view
              && Closed(fork, ledgers, seconds).clock.sequence != fork.clock.sequence)
  {
    var key := BalanceKey(first);
    var mid := Closed(Alone(sha, first, fork).0, ledgers, seconds);
    var skipped := Closed(fork, ledgers, seconds);
    BalanceOutcome(sha, first, fork);
    BalanceOutcome(sha, last, mid);
    BalanceOutcome(sha, last, skipped);
    var both, once := Alone(sha, last, mid).0, Alone(sha, last, skipped).0;
    ResultingTwice(first, last, LookupIn(fork.view, key), fork.clock.sequence, skipped.clock.sequence);
    assert forall k :: k != key ==> LookupIn(both.view, k) == LookupIn(once.view, k);
    if LookupIn(both.view, key) == LookupIn(once.view, key) {
      Views.SameLookups(both.view, once.view);
    }
  }

  /** ... and that case occurs: a fresh account, one ledger closed, the same amount again. */
  lemma RepeatedCallsCanDiffer(sha: Sha256, account: AccountId, amount: I64, timestamp: U64)
    ensures var req, fork := SetBalance(account, Native, amount), Fork(map[], Clock(7, timestamp));
      Alone(sha, req, Closed(Alone(sha, req, fork).0, 1, 0)).0 != Alone(sha, req, Closed(fork, 1, 0)).0
  {
    var req, fork := SetBalance(account, Native, amount), Fork(map[], Clock(7, timestamp));
    RepeatedCallsEqualLastIff(sha, req, req, fork, 1, 0);
  }

  // ---- trustline keys ----

  function Padded(code: seq<Byte>, width: nat): seq<Byte>
    requires |code| <= width
  {
    code + seq(width - |code|, _ => 0)
  }

  datatype AssetError = EmptyCode | CodeTooLong(length: nat)

  /** The asset a code and an issuer denote: the code NUL-padded to 4 or to 12 bytes. */
  function ParseAsset(code: seq<Byte>, issuer: AccountId): Result<TrustLineAsset, AssetError> {
    if |code| == 0 then Err(EmptyCode)
    else if |code| <= 4 then Ok(CreditAlphanum4(Padded(code, 4), issuer))
    else if |code| <= 12 then Ok(CreditAlphanum12(Padded(code, 12), issuer))
    else Err(CodeTooLong(|code|))
  }

  /** A code of one to four bytes is a short asset and one of five to twelve a long one, filled up with NULs
      to exactly four or twelve bytes; no other code is accepted, and the error says why. */
  lemma AssetIsPadded(code: seq<Byte>, issuer: AccountId)
    ensures var r := ParseAsset(code, issuer);
      && (|code| == 0 ==> r == Err(EmptyCode))
      && (|code| > 12 ==> r == Err(CodeTooLong(|code|)))
      && (1 <= |code| <= 4 ==>
            && r.Ok? && r.value.CreditAlphanum4? && r.value.issuer == issuer
            && |r.value.code4| == 4 && code <= r.value.code4
            && forall i :: |code| <= i < 4 ==> r.value.code4[i] == 0)
      && (5 <= |code| <= 12 ==>
            && r.Ok? && r.value.CreditAlphanum12? && r.value.issuer == issuer
            && |r.value.code12| == 12 && code <= r.value.code12
            && forall i :: |code| <= i < 12 ==> r.value.code12[i] == 0)
  {
  }

  function WithoutTrailingNuls(code: seq<Byte>): seq<Byte> {
    if code != [] && Last(code) == 0 then WithoutTrailingNuls(Init(code)) else code
  }

  lemma {:induction false} PaddingAddsOnlyNuls(code: seq<Byte>, width: nat)
    requires |code| <= width
    ensures WithoutTrailingNuls(Padded(code, width)) == WithoutTrailingNuls(code)
    decreases width - |code|
  {
    if |code| == width {
      assert Padded(code, width) == code;
    } else {
      PaddingAddsOnlyNuls(code + [0], width);
      Pushed(code, 0);
      assert Padded(code + [0], width) == Padded(code, width);
    }
  }

  lemma {:induction false} PaddingRestores(code: seq<Byte>, width: nat)
    requires |code| <= width
    ensures |WithoutTrailingNuls(code)| <= |code|
    ensures Padded(WithoutTrailingNuls(code), width) == Padded(code, width)
  {
    if code != [] && Last(code) == 0 {
      PaddingRestores(Init(code), width);
      Split(code);
      assert Padded(Init(code), width) == Padded(code, width);
    }
  }

  predicate Short(code: seq<Byte>) { |code| <= 4 }

  /** Two accepted (code, issuer) pairs give one trustline asset exactly when issuer and width agree and
      the codes differ at most in trailing NULs. */
  lemma SameAssetIff(a: seq<Byte>, i: AccountId, b: seq<Byte>, j: AccountId)
    requires ParseAsset(a, i).Ok? && ParseAsset(b, j).Ok?
    ensures ParseAsset(a, i) == ParseAsset(b, j)
       <==> i == j && Short(a) == Short(b) && WithoutTrailingNuls(a) == WithoutTrailingNuls(b)
  {
    var width := if Short(a) then 4 else 12;
    if Short(a) == Short(b) {
      PaddingAddsOnlyNuls(a, width);
      PaddingAddsOnlyNuls(b, width);
      PaddingRestores(a, width);
      PaddingRestores(b, width);
    }
  }

  /** Distinct NUL-free pairs never share a trustline key. */
  lemma NulFreePairsAreDistinct(account: AccountId, a: seq<Byte>, i: AccountId, b: seq<Byte>, j: AccountId)
    requires ParseAsset(a, i).Ok? && ParseAsset(b, j).Ok? && 0 !in a && 0 !in b
    requires (a, i) != (b, j)
    ensures TrustlineKey(account, ParseAsset(a, i).value) != TrustlineKey(account, ParseAsset(b, j).value)
  {
    SameAssetIff(a, i, b, j);
    assert Last(a) in a && Last(b) in b;
  }

  /** `"AB"` and `"AB\0"` do share one. */
  lemma NulCodesCollide(issuer: AccountId)
    ensures ParseAsset([65, 66], issuer) == ParseAsset([65, 66, 0], issuer)
  {
    SameAssetIff([65, 66], issuer, [65, 66, 0], issuer);
    Pushed([65, 66], 0);
    assert [65, 66] + [0] == [65, 66, 0];
    assert WithoutTrailingNuls([65, 66, 0]) == WithoutTrailingNuls([65, 66]);
  }

  // ---- what is refused before any command is sent ----

  datatype AssetWire = NativeWire | CreditWire(code: seq<Byte>, issuer: AccountId)

  datatype ParamError = NegativeAmount | BadAsset(error: AssetError)

  function ParseSetBalance(account: AccountId, wire: AssetWire, amount: I64): (r: Result<Request, ParamError>)
    ensures r.Ok? <==> amount >= 0 && (wire.CreditWire? ==> 1 <= |wire.code| <= 12)
    ensures r.Ok? ==> r.value.SetBalance? && r.value.account == account && r.value.amount == amount
    ensures amount < 0 ==> r == Err(ParamError.NegativeAmount)
    ensures r.Ok? && wire.NativeWire? ==> r.value.classic == Native
    ensures r.Ok? && wire.CreditWire? ==>
      r.value.classic.Credit? && ParseAsset(wire.code, wire.issuer) == Ok(r.value.classic.asset)
    ensures r.Err? && amount >= 0 ==>
      wire.CreditWire? && r.error.BadAsset? && ParseAsset(wire.code, wire.issuer) == Err(r.error.error)
  {
    if amount < 0 then Err(NegativeAmount)
    else
      match wire
      case NativeWire => Ok(SetBalance(account, Native, amount))
      case CreditWire(code, issuer) =>
        match ParseAsset(code, issuer)
        case Ok(asset) => Ok(SetBalance(account, Credit(asset), amount))
        case Err(error) => Err(BadAsset(error))
  }
}
