/** `RpcClient::fetch_entries` (`src/rpc.rs`): keys are asked for in batches, and the batching does not
    show in the answer. */
module Batches {
  import opened Wrappers
  import opened Ledger
  import opened Seqs

  /** A frozen server's answer to one request: the present keys, in order. */
  function Answer(ledger: LedgerView, keys: seq<LedgerKey>): seq<Stored> {
    if keys == [] then []
    else Answer(ledger, Init(keys)) + if Last(keys) in ledger then [ledger[Last(keys)]] else []
  }

  lemma {:induction false} AnswerAppend(ledger: LedgerView, a: seq<LedgerKey>, b: seq<LedgerKey>)
    ensures Answer(ledger, a + b) == Answer(ledger, a) + Answer(ledger, b)
  {
    if b == [] {
      assert a + b == a;
    } else {
      AnswerAppend(ledger, a, Init(b));
      assert a + b == a + Init(b) + [Last(b)];
      Pushed(a + Init(b), Last(b));
    }
  }

  function Flatten(requests: seq<seq<LedgerKey>>): seq<LedgerKey> {
    if requests == [] then [] else Flatten(Init(requests)) + Last(requests)
  }

  /** The number of batches, counted as they are cut. */
  function BatchCount(n: nat, size: nat): nat
    requires size > 0
  {
    if n == 0 then 0 else if n <= size then 1 else 1 + BatchCount(n - size, size)
  }

  /** ... is the quotient rounded up. */
  lemma {:induction false} BatchCountIsCeiling(n: nat, size: nat)
    requires size > 0
    ensures BatchCount(n, size) == (n + size - 1) / size
  {
    RoundedUp(n, size);
    if n > size {
      BatchCountIsCeiling(n - size, size);
    }
  }

  lemma RoundedUp(n: nat, size: nat)
    requires size > 0
    ensures n == 0 ==> (n + size - 1) / size == 0
    ensures 0 < n <= size ==> (n + size - 1) / size == 1
    ensures n > size ==> (n + size - 1) / size == 1 + (n - 1) / size
  {
    if 0 < n <= size {
      Quotient(n - 1, size, 0);
      Quotient(n + size - 1, size, 1);
    } else if n > size {
      Quotient(n + size - 1, size, 1 + (n - 1) / size);
    }
  }

  lemma Quotient(m: nat, size: nat, q: nat)
    requires size > 0 && q * size <= m < q * size + size
    ensures m / size == q
  {
    var r := m / size;
    assert m == r * size + m % size;
    MulOrder(r + 1, q, size);
    MulOrder(q + 1, r, size);
  }

  lemma MulOrder(a: nat, b: nat, size: nat)
    ensures a <= b ==> a * size <= b * size
  {
  }

  /** `fetch_entries`; request `i` fails with `fault(i)` when that is present. The batch size of zero makes
      `chunks` panic, so callers owe a positive one. `requests` records what was sent. */
  method FetchEntries(ledger: LedgerView, fault: nat -> Option<string>, keys: seq<LedgerKey>, size: nat)
    returns (r: Result<seq<Stored>, string>, ghost requests: seq<seq<LedgerKey>>)
    requires size > 0
    ensures Flatten(requests) <= keys && |requests| <= BatchCount(|keys|, size)
    ensures forall i :: 0 <= i < |requests| ==> 0 < |requests[i]| <= size
    ensures r.Ok? <==> forall i :: 0 <= i < BatchCount(|keys|, size) ==> fault(i).None?
    ensures r.Ok? ==>
      r.value == Answer(ledger, keys) && Flatten(requests) == keys && |requests| == BatchCount(|keys|, size)
    ensures r.Err? ==>
      requests != [] && fault(|requests| - 1) == Some(r.error)
      && forall i :: 0 <= i < |requests| - 1 ==> fault(i).None?
  {
    var results: seq<Stored> := [];
    var pos, sent := 0, 0;
    requests := [];
    while pos < |keys|
      invariant 0 <= pos <= |keys| && sent == |requests|
      invariant sent + BatchCount(|keys| - pos, size) == BatchCount(|keys|, size)
      invariant results == Answer(ledger, keys[..pos]) && Flatten(requests) == keys[..pos]
      invariant forall i :: 0 <= i < sent ==> 0 < |requests[i]| <= size && fault(i).None?
      decreases |keys| - pos
    {
      var end := if pos + size < |keys| then pos + size else |keys|;
      var chunk := keys[pos..end];
      Pushed(requests, chunk);
      requests := requests + [chunk];
      assert keys[..end] == keys[..pos] + chunk;
      match fault(sent) {
        case Some(error) => return Err(error), requests;
        case None =>
      }
      AnswerAppend(ledger, keys[..pos], chunk);
      results := results + Answer(ledger, chunk);
      pos, sent := end, sent + 1;
    }
    assert keys[..|keys|] == keys;
    r := Ok(results);
  }

  /** `fetch_entry`: one key asked for alone is a plain lookup. */
  lemma SingleKeyIsLookup(ledger: LedgerView, key: LedgerKey)
    ensures var answer := Answer(ledger, [key]);
      LookupIn(ledger, key) == if answer == [] then None else Some(Last(answer))
  {
    assert Init([key]) == [] && Last([key]) == key;
  }
}
