/** Message identifiers (src/interface/IdentifierHandler.cpp): every ALP counts in steps of
    the number of ALPs and starts over before it would overflow. */
module Identifiers {
  import opened Base

  function Next(initial: nat, step: nat, last: nat): nat
  {
    if last > ULONG_MAX - step then initial else last + step
  }

  /** The last identifier after k requests. */
  function After(initial: nat, step: nat, k: nat): nat
  {
    if k == 0 then initial else Next(initial, step, After(initial, step, k - 1))
  }

  /** How many identifiers there are before they repeat. */
  function Period(initial: nat, step: nat): (p: nat)
    requires 0 < step && initial <= ULONG_MAX
    ensures p > 0
  {
    (ULONG_MAX - initial) / step + 1
  }

  class IdentifierHandler {
    const initialId: nat
    const additional: nat
    var lastId: nat
    ghost var requests: nat

    ghost predicate Valid()
      reads this
    {
      0 < additional <= ULONG_MAX && initialId < additional && lastId == After(initialId, additional, requests)
    }

    /** The handler of ALP number rank - numberOfClps. */
    constructor (rank: nat, numberOfClps: nat, numberOfAlps: nat)
      requires numberOfClps <= rank < numberOfClps + numberOfAlps && numberOfAlps <= ULONG_MAX
      ensures Valid() && initialId == rank - numberOfClps && additional == numberOfAlps && requests == 0
    {
      initialId, additional, lastId, requests := rank - numberOfClps, numberOfAlps, rank - numberOfClps, 0;
    }

    method GetNextId() returns (id: nat)
      requires Valid()
      modifies this
      ensures Valid() && requests == old(requests) + 1 && id == lastId
    {
      if lastId > ULONG_MAX - additional {
        lastId := initialId;
      } else {
        lastId := lastId + additional;
      }
      requests := requests + 1;
      id := lastId;
    }
  }

  lemma {:induction false} NextMultiple(p: nat, a: nat, b: nat)
    requires a < b
    ensures p * a + p <= p * b
  {
    if a + 1 < b {
      NextMultiple(p, a, b - 1);
      assert p * b == p * (b - 1) + p;
    } else {
      assert p * b == p * a + p;
    }
  }

  /** Identifier number k counts steps from the initial one, starting over every Period. */
  lemma {:induction false} ClosedForm(initial: nat, step: nat, k: nat)
    requires 0 < step <= ULONG_MAX && initial < step
    ensures After(initial, step, k) == initial + step * (k % Period(initial, step)) <= ULONG_MAX
    decreases k
  {
    var p := Period(initial, step);
    if k > 0 {
      ClosedForm(initial, step, k - 1);
      NextRemainder(k - 1, p);
      StepCounts(initial, step, (k - 1) % p);
    } else {
      RemainderIs(0, p, 0, 0);
    }
  }

  lemma {:induction false} StepCounts(initial: nat, step: nat, r: nat)
    requires 0 < step <= ULONG_MAX && initial < step && r < Period(initial, step)
    ensures Next(initial, step, initial + step * r)
            == initial + step * (if r == Period(initial, step) - 1 then 0 else r + 1) <= ULONG_MAX
  {
    var p := Period(initial, step);
    if r < p - 1 { NextMultiple(step, r, p - 1); }
  }

  lemma {:induction false} NextRemainder(k: nat, p: nat)
    requires p > 0
    ensures (k + 1) % p == if k % p == p - 1 then 0 else k % p + 1
  {
    var q, r := k / p, k % p;
    assert k == p * q + r;
    if r == p - 1 {
      RemainderIs(k + 1, p, q + 1, 0);
    } else {
      RemainderIs(k + 1, p, q, r + 1);
    }
  }

  lemma {:induction false} RemainderIs(k: nat, p: nat, q: nat, r: nat)
    requires r < p && k == p * q + r
    ensures k % p == r
  {
    var q', r' := k / p, k % p;
    assert p * q' + r' == p * q + r;
    if q' < q {
      NextMultiple(p, q', q);
    } else if q' > q {
      NextMultiple(p, q, q');
    }
  }

  /** Every identifier of an ALP stays congruent to the ALP's number, through every
      wrap-around and without overflow; so different ALPs never use the same one. */
  lemma {:induction false} AlpsNeverCollide(alps: nat, i: nat, j: nat, k: nat, l: nat)
    requires i < alps <= ULONG_MAX && j < alps
    ensures After(i, alps, k) <= ULONG_MAX && After(i, alps, k) % alps == i
    ensures i != j ==> After(i, alps, k) != After(j, alps, l)
  {
    ClosedForm(i, alps, k);
    ClosedForm(j, alps, l);
    RemainderIs(After(i, alps, k), alps, k % Period(i, alps), i);
    RemainderIs(After(j, alps, l), alps, l % Period(j, alps), j);
  }

  lemma {:induction false} SameFactor(p: nat, a: nat, b: nat)
    requires p > 0 && p * a == p * b
    ensures a == b
  {
    if a < b {
      NextMultiple(p, a, b);
    } else if b < a {
      NextMultiple(p, b, a);
    }
  }

  lemma {:induction false} WithinPeriod(k: nat, l: nat, p: nat)
    requires p > 0 && k < l < k + p
    ensures k % p != l % p
  {
    var q, d := k / p, l - k;
    assert k == p * q + k % p;
    if k % p + d < p {
      RemainderIs(l, p, q, k % p + d);
    } else {
      RemainderIs(l, p, q + 1, k % p + d - p);
    }
  }

  /** One ALP's identifiers repeat exactly after a full period: two of them are equal if and
      only if the numbers of requests differ by a multiple of it, so within a period all are
      different. */
  lemma {:induction false} RepeatsExactlyAfterPeriod(alps: nat, i: nat, k: nat, l: nat)
    requires i < alps <= ULONG_MAX
    ensures After(i, alps, k) == After(i, alps, l) <==> k % Period(i, alps) == l % Period(i, alps)
    ensures k < l < k + Period(i, alps) ==> After(i, alps, k) != After(i, alps, l)
  {
    var p := Period(i, alps);
    ClosedForm(i, alps, k);
    ClosedForm(i, alps, l);
    var a, b := k % p, l % p;
    if alps * a == alps * b { SameFactor(alps, a, b); }
    if k < l < k + p { WithinPeriod(k, l, p); }
  }
}
