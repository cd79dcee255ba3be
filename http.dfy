/**
  `safe_get` from generate_ics_bulk.py: up to three GETs of one URL with
  exponential backoff. The network is a parameter: `net(k)` is what the
  k-th attempt (counted from 1) gets back. Sleeping is recorded, not done.
 */
module Http {
  import opened Wrappers

  /** The result of one GET: an HTTP reply, or a transport failure (`RequestException`). */
  datatype Outcome<D> = Reply(status: int, doc: D) | ConnectionError

  /** `raise_for_status()` raises for 4xx and 5xx replies only. */
  predicate Succeeds<D>(o: Outcome<D>)
  {
    o.Reply? && !(400 <= o.status < 600)
  }

  const MaxAttempts: nat := 3

  function Pow2(n: nat): nat
  {
    if n == 0 then 1 else 2 * Pow2(n - 1)
  }

  /** The first attempt in `from..MaxAttempts` that succeeds, or `MaxAttempts + 1` if none does. */
  function FirstSuccess<D>(net: nat -> Outcome<D>, from: nat): (k: nat)
    requires 1 <= from <= MaxAttempts + 1
    ensures from <= k <= MaxAttempts + 1
    ensures k <= MaxAttempts ==> Succeeds(net(k))
    ensures forall j :: from <= j < k ==> !Succeeds(net(j))
    decreases MaxAttempts + 1 - from
  {
    if from > MaxAttempts || Succeeds(net(from)) then from else FirstSuccess(net, from + 1)
  }

  /** The response `safe_get` hands back, if any. */
  function Fetch<D>(net: nat -> Outcome<D>): Option<D>
  {
    var k := FirstSuccess(net, 1);
    if k <= MaxAttempts then Some(net(k).doc) else None
  }

  /** The delays slept before `safe_get` returns: one per failed attempt, doubling from one second. */
  function Backoff<D>(net: nat -> Outcome<D>): seq<nat>
  {
    [1, 2, 4][..FirstSuccess(net, 1) - 1]
  }

  /** `safe_get` yields a response exactly when one of the three attempts succeeds. */
  lemma FetchSucceedsIff<D>(net: nat -> Outcome<D>)
    ensures Fetch(net).Some? <==> exists k :: 1 <= k <= MaxAttempts && Succeeds(net(k))
  {
    if k :| 1 <= k <= MaxAttempts && Succeeds(net(k)) {
      assert FirstSuccess(net, 1) <= k;
    }
  }

  /**
    The retry loop. It returns the first successful reply and sleeps
    2^(attempt-1) seconds after each failed attempt, the third included.
   */
  method SafeGet<D>(net: nat -> Outcome<D>) returns (r: Option<D>, sleeps: seq<nat>)
    ensures r == Fetch(net)
    ensures r.None? <==> |sleeps| == MaxAttempts
    ensures sleeps == Backoff(net)
  {
    var attempt := 1;
    sleeps := [];
    while attempt <= MaxAttempts
      invariant 1 <= attempt <= MaxAttempts + 1
      invariant |sleeps| == attempt - 1
      invariant forall i :: 0 <= i < |sleeps| ==> sleeps[i] == Pow2(i)
      invariant forall j :: 1 <= j < attempt ==> !Succeeds(net(j))
    {
      var reply := net(attempt);
      if Succeeds(reply) {
        r := Some(reply.doc);
        assert sleeps == [1, 2, 4][..|sleeps|];
        return;
      }
      sleeps := sleeps + [Pow2(attempt - 1)];
      attempt := attempt + 1;
    }
    r := None;
    assert sleeps == [1, 2, 4];
  }

  /** The retry scenarios a caller relies on. */
  method SafeGetScenarios(ok: string)
  {
    var failTwice: nat -> Outcome<string> := k => if k < 3 then Reply(503, "") else Reply(200, ok);
    var r, sleeps := SafeGet(failTwice);
    assert FirstSuccess(failTwice, 1) == 3;
    assert r == Some(ok) && sleeps == [1, 2];

    var down: nat -> Outcome<string> := k => ConnectionError;
    r, sleeps := SafeGet(down);
    assert FirstSuccess(down, 1) == 4;
    assert r == None && sleeps == [1, 2, 4];
  }
}
