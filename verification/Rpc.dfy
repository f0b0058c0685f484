/** `src/rpc.rs`: the retry loop with its backoff, the jitter generator behind it, and batched fetches. */
module Rpc {
  import opened Wrappers
  import opened Ledger
  import opened Seqs

  // ---- the jitter generator: a xorshift on 64 bits ----

  /** A `u64` as its bits, least significant first. */
  type Word = w: seq<bool> | |w| == 64 witness seq(64, _ => false)

  const ZERO: Word := seq(64, _ => false)

  function ValueOf(bits: seq<bool>): nat {
    if bits == [] then 0 else (if bits[0] then 1 else 0) + 2 * ValueOf(bits[1..])
  }

  /** `w ^ (w << k)` */
  function XorLeft(w: Word, k: nat): Word {
    seq(64, i requires 0 <= i < 64 => if i >= k then w[i] != w[i - k] else w[i])
  }

  /** `w ^ (w >> k)` */
  function XorRight(w: Word, k: nat): Word {
    seq(64, i requires 0 <= i < 64 => if i + k < 64 then w[i] != w[i + k] else w[i])
  }

  function NextRng(w: Word): Word {
    XorLeft(XorRight(XorLeft(w, 13), 7), 17)
  }

  function UnLeftBit(w: Word, k: nat, i: nat): bool
    requires k > 0 && i < 64
  {
    if i >= k then w[i] != UnLeftBit(w, k, i - k) else w[i]
  }

  function UnRightBit(w: Word, k: nat, i: nat): bool
    requires k > 0 && i < 64
    decreases 64 - i
  {
    if i + k < 64 then w[i] != UnRightBit(w, k, i + k) else w[i]
  }

  function UnLeft(w: Word, k: nat): Word
    requires k > 0
  {
    seq(64, i requires 0 <= i < 64 => UnLeftBit(w, k, i))
  }

  function UnRight(w: Word, k: nat): Word
    requires k > 0
  {
    seq(64, i requires 0 <= i < 64 => UnRightBit(w, k, i))
  }

  /** The step run backwards. */
  function PrevRng(w: Word): Word {
    UnLeft(UnRight(UnLeft(w, 17), 7), 13)
  }

  lemma {:induction false} LeftBitInverts(w: Word, k: nat, i: nat)
    requires k > 0 && i < 64
    ensures UnLeftBit(XorLeft(w, k), k, i) == w[i]
  {
    if i >= k { LeftBitInverts(w, k, i - k); }
  }

  lemma {:induction false} RightBitInverts(w: Word, k: nat, i: nat)
    requires k > 0 && i < 64
    ensures UnRightBit(XorRight(w, k), k, i) == w[i]
    decreases 64 - i
  {
    if i + k < 64 { RightBitInverts(w, k, i + k); }
  }

  lemma LeftInverts(w: Word, k: nat)
    requires k > 0
    ensures UnLeft(XorLeft(w, k), k) == w && XorLeft(UnLeft(w, k), k) == w
  {
    forall i | 0 <= i < 64 ensures UnLeft(XorLeft(w, k), k)[i] == w[i] { LeftBitInverts(w, k, i); }
    forall i | 0 <= i < 64 ensures XorLeft(UnLeft(w, k), k)[i] == w[i] {}
  }

  lemma RightInverts(w: Word, k: nat)
    requires k > 0
    ensures UnRight(XorRight(w, k), k) == w && XorRight(UnRight(w, k), k) == w
  {
    forall i | 0 <= i < 64 ensures UnRight(XorRight(w, k), k)[i] == w[i] { RightBitInverts(w, k, i); }
    forall i | 0 <= i < 64 ensures XorRight(UnRight(w, k), k)[i] == w[i] {}
  }

  /** One step is a bijection on the 64-bit words. */
  lemma RngIsBijection(w: Word)
    ensures PrevRng(NextRng(w)) == w && NextRng(PrevRng(w)) == w
  {
    LeftInverts(w, 13);
    RightInverts(XorLeft(w, 13), 7);
    LeftInverts(XorRight(XorLeft(w, 13), 7), 17);
    LeftInverts(w, 17);
    RightInverts(UnLeft(w, 17), 7);
    LeftInverts(UnRight(UnLeft(w, 17), 7), 13);
  }

  lemma RngKeepsNonZero(w: Word)
    ensures NextRng(w) == ZERO <==> w == ZERO
  {
    assert XorLeft(ZERO, 13) == ZERO && XorRight(ZERO, 7) == ZERO && XorLeft(ZERO, 17) == ZERO;
    RngIsBijection(w);
    RngIsBijection(ZERO);
  }

  /** The shifts are 13, 7 and 17: from the word 1 the generator goes to the word 0x40822041. */
  lemma RngFromOne(w: Word)
    requires forall i :: 0 <= i < 64 ==> (w[i] <==> i == 0)
    ensures forall i :: 0 <= i < 64 ==> (NextRng(w)[i] <==> i in {0, 6, 13, 17, 23, 30})
  {
    var x := XorLeft(w, 13);
    assert forall i :: 0 <= i < 64 ==> (x[i] <==> i in {0, 13});
    var y := XorRight(x, 7);
    assert forall i :: 0 <= i < 64 ==> (y[i] <==> i in {0, 6, 13});
  }

  /** `seed_rng`: whatever the clock said, the lowest bit is set. */
  function SeedRng(hashedNanos: Word): (seed: Word)
    ensures seed[0] && forall i :: 0 < i < 64 ==> seed[i] == hashedNanos[i]
  {
    hashedNanos[0 := true]
  }

  function RngAfter(seed: Word, draws: nat): Word {
    if draws == 0 then seed else NextRng(RngAfter(seed, draws - 1))
  }

  /** The generator never reaches its fixed point zero, in any run from any seed. */
  lemma {:induction false} RngNeverZero(hashedNanos: Word, draws: nat)
    ensures RngAfter(SeedRng(hashedNanos), draws) != ZERO
  {
    if draws == 0 {
      assert SeedRng(hashedNanos)[0];
    } else {
      RngNeverZero(hashedNanos, draws - 1);
      RngKeepsNonZero(RngAfter(SeedRng(hashedNanos), draws - 1));
    }
  }

  /** The thread-local cell. */
  class Rng {
    var x: Word

    constructor (hashedNanos: Word)
      ensures x == SeedRng(hashedNanos) && x != ZERO
    {
      x := SeedRng(hashedNanos);
      new;
      RngNeverZero(hashedNanos, 0);
    }

    method Next() returns (r: nat)
      requires x != ZERO
      modifies this
      ensures x == NextRng(old(x)) && x != ZERO && r == ValueOf(x)
    {
      RngKeepsNonZero(x);
      var y := x;
      y := XorLeft(y, 13);
      y := XorRight(y, 7);
      y := XorLeft(y, 17);
      x := y;
      r := ValueOf(y);
    }
  }

  // ---- backoff ----

  /** Durations in nanoseconds; the largest is `u64::MAX` seconds and 999 999 999 ns. */
  const MAX_DURATION: nat := 0xFFFF_FFFF_FFFF_FFFF * 1_000_000_000 + 999_999_999

  type Duration = n: nat | n <= MAX_DURATION

  function Saturate(n: nat): Duration {
    if n <= MAX_DURATION then n else MAX_DURATION
  }

  function Pow2(n: nat): (r: nat)
    ensures r > 0
  {
    if n == 0 then 1 else 2 * Pow2(n - 1)
  }

  /** A word's value gives its bit `i` the weight 2^i. */
  lemma {:induction false} HighestBitWeighs(bits: seq<bool>)
    ensures ValueOf(bits) < Pow2(|bits|)
    ensures bits != [] ==> ValueOf(bits) == ValueOf(Init(bits)) + if Last(bits) then Pow2(|bits| - 1) else 0
  {
    if |bits| <= 1 {
      assert bits != [] ==> ValueOf(bits[1..]) == 0;
    } else {
      HighestBitWeighs(bits[1..]);
      assert Init(bits)[1..] == Init(bits[1..]) && Last(bits) == Last(bits[1..]);
    }
  }

  /** `2u32.saturating_pow(attempt)` */
  function Factor(attempt: nat): U32 {
    if Pow2(attempt) < 0x1_0000_0000 then Pow2(attempt) else 0xFFFF_FFFF
  }

  function Exponential(base: Duration, attempt: nat): Duration {
    Saturate(base * Factor(attempt))
  }

  method JitterUnder(rng: Rng, max: Duration) returns (jitter: Duration)
    requires rng.x != ZERO
    modifies rng
    ensures rng.x != ZERO
    ensures if max == 0 then jitter == 0 else jitter < max
    ensures var nanos := max % 0x1_0000_0000_0000_0000;
      if nanos == 0 then jitter == 0 && rng.x == old(rng.x)
      else rng.x == NextRng(old(rng.x)) && jitter == ValueOf(rng.x) % nanos
  {
    var maxNanos := max % 0x1_0000_0000_0000_0000;
    if maxNanos == 0 {
      return 0;
    }
    var draw := rng.Next();
    jitter := draw % maxNanos;
  }

  /** At least the saturated exponential, and above it a jitter of less than the base. */
  predicate DelayInRange(base: Duration, attempt: nat, delay: Duration) {
    && Exponential(base, attempt) <= delay <= Saturate(Exponential(base, attempt) + base)
    && (base > 0 && Exponential(base, attempt) + base <= MAX_DURATION ==> delay < Exponential(base, attempt) + base)
  }

  method BackoffDelay(rng: Rng, base: Duration, attempt: nat) returns (delay: Duration)
    requires rng.x != ZERO
    modifies rng
    ensures rng.x != ZERO
    ensures DelayInRange(base, attempt, delay)
    ensures var nanos := base % 0x1_0000_0000_0000_0000;
      && rng.x == (if nanos == 0 then old(rng.x) else NextRng(old(rng.x)))
      && delay == Saturate(Exponential(base, attempt) + if nanos == 0 then 0 else ValueOf(rng.x) % nanos)
  {
    var exponential: nat := Exponential(base, attempt);
    var jitter: nat := JitterUnder(rng, base);
    delay := Saturate(exponential + jitter);
  }

  lemma {:induction false} Pow2Grows(a: nat, b: nat)
    requires a <= b
    ensures Pow2(a) <= Pow2(b)
  {
    if a < b { Pow2Grows(a, b - 1); }
  }

  lemma Pow2Of31()
    ensures Pow2(31) == 0x8000_0000
  {
    assert Pow2(8) == 256;
    assert Pow2(16) == 0x1_0000;
    assert Pow2(24) == 0x100_0000;
  }

  lemma MulMonotone(base: nat, a: nat, b: nat)
    requires a <= b
    ensures base * a <= base * b
  {
  }

  /** The exponential starts at the base, doubles 31 times unless it hits the largest duration, and then
      stays at 2^32 - 1 times the base. */
  lemma ExponentialDoubles(base: Duration, attempt: nat)
    ensures Exponential(base, 0) == base
    ensures attempt < 31 ==>
      Exponential(base, attempt + 1)
      == if 2 * Exponential(base, attempt) <= MAX_DURATION then 2 * Exponential(base, attempt) else MAX_DURATION
    ensures attempt >= 32 ==> Exponential(base, attempt) == Saturate(base * 0xFFFF_FFFF)
  {
    Pow2Of31();
    if attempt < 31 {
      Pow2Grows(attempt + 1, 31);
      Doubling(base, Pow2(attempt));
      assert Exponential(base, attempt) == Saturate(base * Pow2(attempt));
      assert Exponential(base, attempt + 1) == Saturate(base * Pow2(attempt + 1));
    } else if attempt >= 32 {
      Pow2Grows(32, attempt);
    }
  }

  /** Short of saturation the exponential doubles, so there is room for any jitter below it. */
  lemma RoomForJitter(base: Duration, attempt: nat)
    requires attempt < 31 && Exponential(base, attempt + 1) < MAX_DURATION
    ensures Exponential(base, attempt) + base <= Exponential(base, attempt + 1)
  {
    Pow2Of31();
    Pow2Grows(attempt, 31);
    Pow2Grows(attempt + 1, 31);
    Doubling(base, Pow2(attempt));
    assert Exponential(base, attempt + 1) == base * Pow2(attempt + 1);
    assert Exponential(base, attempt) == base * Pow2(attempt);
  }

  lemma Doubling(base: nat, p: nat)
    requires p > 0
    ensures base * (2 * p) == base * p + base * p && base <= base * p
  {
  }

  // ---- the retry loop ----

  datatype Attempt<T> = Success(value: T) | Retry(error: string) | Fatal(error: string)

  /** `FellThrough` is the message the loop would end with if it ever ended without returning. */
  datatype Outcome<T> = Returned(value: T) | Failed(error: string) | FellThrough

  /** `rpc_post`, against a server that answers attempt `i` with `server(i)`. The attempt count is
      computed in 32 bits. */
  method RpcPost<T>(rng: Rng, server: nat -> Attempt<T>, retries: U32, base: Duration)
    returns (outcome: Outcome<T>, attempts: nat, slept: nat, ghost delays: seq<Duration>)
    requires rng.x != ZERO
    modifies rng
    ensures rng.x != ZERO
    ensures outcome.FellThrough? <==> retries == 0xFFFF_FFFF
    ensures !outcome.FellThrough? ==>
      && 1 <= attempts <= retries + 1
      && (forall i :: 0 <= i < attempts - 1 ==> server(i).Retry?)
      && (server(attempts - 1).Retry? ==> attempts == retries + 1)
      && match server(attempts - 1)
         case Success(value) => outcome == Returned(value)
         case Retry(error) => outcome == Failed(error)
         case Fatal(error) => outcome == Failed(error)
    ensures |delays| == (if attempts == 0 then 0 else attempts - 1) && slept == Total(delays)
    ensures slept <= SleepBound(base, retries)
    ensures DelaysInRange(base, delays)
    ensures base > 0 ==> Increasing(base, delays)
    ensures outcome.FellThrough? ==> attempts == 0
  {
    var total := (retries + 1) % 0x1_0000_0000;
    attempts, slept, delays := 0, 0, [];
    var lastError: Option<string> := None;
    for attempt := 0 to total
      invariant rng.x != ZERO
      invariant attempts == attempt == |delays| && slept == Total(delays)
      invariant forall i :: 0 <= i < attempt ==> server(i).Retry?
      invariant attempt == total ==> total == 0
      invariant attempt == 0 <==> lastError.None?
      invariant DelaysInRange(base, delays)
    {
      attempts := attempts + 1;
      match server(attempt) {
        case Success(value) =>
          DelayLaws(base, delays, retries);
          return Returned(value), attempts, slept, delays;
        case Retry(error) =>
          if attempt + 1 < total {
            var delay := BackoffDelay(rng, base, attempt);
            slept := slept + delay;
            OneMoreDelay(base, delays, delay);
            delays := delays + [delay];
            lastError := Some(error);
          } else {
            DelayLaws(base, delays, retries);
            return Failed(error), attempts, slept, delays;
          }
        case Fatal(error) =>
          DelayLaws(base, delays, retries);
          return Failed(error), attempts, slept, delays;
      }
    }
    DelayLaws(base, delays, retries);
    outcome := match lastError case Some(error) => Failed(error) case None => FellThrough;
  }

  /** Every delay is in the range of its attempt. */
  predicate DelaysInRange(base: Duration, delays: seq<Duration>) {
    delays == [] || (DelaysInRange(base, Init(delays)) && DelayInRange(base, |delays| - 1, Last(delays)))
  }

  lemma {:induction false} DelayAt(base: Duration, delays: seq<Duration>, i: nat)
    requires DelaysInRange(base, delays) && i < |delays|
    ensures DelayInRange(base, i, delays[i])
  {
    if i < |delays| - 1 {
      DelayAt(base, Init(delays), i);
    }
  }

  lemma OneMoreDelay(base: Duration, delays: seq<Duration>, delay: Duration)
    requires DelaysInRange(base, delays) && DelayInRange(base, |delays|, delay)
    ensures DelaysInRange(base, delays + [delay]) && Total(delays + [delay]) == Total(delays) + delay
  {
    Pushed(delays, delay);
  }

  /** Each delay short of saturation exceeds the one before. Up to 32 retries, `i < 31` is every pair. */
  predicate Increasing(base: Duration, delays: seq<Duration>) {
    forall i :: 0 <= i < |delays| - 1 && i < 31 && Exponential(base, i + 1) < MAX_DURATION ==> delays[i] < delays[i + 1]
  }

  lemma {:induction false} DelaysIncrease(base: Duration, delays: seq<Duration>)
    requires base > 0 && DelaysInRange(base, delays)
    ensures Increasing(base, delays)
  {
    forall i | 0 <= i < |delays| - 1 && i < 31 && Exponential(base, i + 1) < MAX_DURATION
      ensures delays[i] < delays[i + 1]
    {
      RoomForJitter(base, i);
      DelayAt(base, delays, i);
      DelayAt(base, delays, i + 1);
    }
  }

  function Total(delays: seq<Duration>): nat {
    if delays == [] then 0 else Total(Init(delays)) + Last(delays)
  }

  /** The most that `retries` retries can sleep, a retry at a time. */
  function SleepBound(base: nat, retries: nat): nat {
    if retries == 0 then 0 else SleepBound(base, retries - 1) + base * Pow2(retries - 1) + base
  }

  /** ... summed: a geometric series and a jitter each. */
  lemma {:induction false} SleepBoundIsGeometric(base: nat, retries: nat)
    ensures SleepBound(base, retries) == base * (Pow2(retries) - 1 + retries)
  {
    if retries > 0 {
      SleepBoundIsGeometric(base, retries - 1);
      OneMoreTerm(base, Pow2(retries - 1), retries - 1);
    }
  }

  lemma OneMoreTerm(base: nat, p: nat, n: nat)
    ensures base * (p - 1 + n) + (base * p + base) == base * (2 * p - 1 + (n + 1))
  {
  }

  lemma {:induction false} SleepIsBounded(base: Duration, delays: seq<Duration>)
    requires DelaysInRange(base, delays)
    ensures Total(delays) <= SleepBound(base, |delays|)
  {
    if delays == [] {
    } else {
      var n := |delays| - 1;
      SleepIsBounded(base, Init(delays));
      MulMonotone(base, Factor(n), Pow2(n));
    }
  }

  lemma {:induction false} BoundGrows(base: nat, a: nat, b: nat)
    requires a <= b
    ensures SleepBound(base, a) <= SleepBound(base, b)
  {
    if a < b { BoundGrows(base, a, b - 1); }
  }

  /** However many of the allowed retries are used, the sleeping stays within the bound and grows. */
  lemma DelayLaws(base: Duration, delays: seq<Duration>, retries: nat)
    requires |delays| <= retries
    requires DelaysInRange(base, delays)
    ensures Total(delays) <= SleepBound(base, retries)
    ensures base > 0 ==> Increasing(base, delays)
  {
    SleepIsBounded(base, delays);
    BoundGrows(base, |delays|, retries);
    if base > 0 {
      DelaysIncrease(base, delays);
    }
  }

  // ---- the failing input ----

  /** With the largest `retries` the loop gives up without asking, though the first attempt would succeed. */
  method MaximumRetriesAskNothing<T>(rng: Rng, value: T, base: Duration) returns (outcome: Outcome<T>, attempts: nat)
    requires rng.x != ZERO
    modifies rng
    ensures outcome == FellThrough && attempts == 0
  {
    var slept;
    ghost var delays;
    outcome, attempts, slept, delays := RpcPost(rng, _ => Success(value), 0xFFFF_FFFF, base);
  }
}
