/**
 * The batch throttle: after each record the runner has processed
 * `processedCount` records; it sleeps when that count is a multiple of 30
 * and records remain. Every record counts, whatever its outcome.
 */
module Throttle {

  /** Records between two pauses. */
  const ThrottleEvery: nat := 30

  /** The test made after the k-th record (1-based) of a batch of n. */
  predicate PauseAfter(k: nat, n: nat)
    ensures PauseAfter(k, n) ==> k < n
    ensures PauseAfter(k, n) && k > 0 ==> k >= ThrottleEvery
    ensures PauseAfter(k, n) ==> (k + 1) % ThrottleEvery != 0
  {
    k % ThrottleEvery == 0 && k < n
  }

  /** The pauses taken while processing the first k of n records, as the counts they follow. */
  function PausesUpTo(k: nat, n: nat): seq<nat>
    requires k <= n
  {
    if k == 0 then []
    else PausesUpTo(k - 1, n) + if PauseAfter(k, n) then [k] else []
  }

  /** The pauses of a whole batch of n records. */
  function PausePoints(n: nat): seq<nat>
  {
    PausesUpTo(n, n)
  }

  /** Pause positions shifted by the `base` records a session had handled before the batch. */
  function Offset(ps: seq<nat>, base: nat): seq<nat>
  {
    seq(|ps|, j requires 0 <= j < |ps| => base + ps[j])
  }

  /** The pauses of the first k of n records, counted from `base` records handled earlier. */
  function PausesFrom(k: nat, n: nat, base: nat): seq<nat>
    requires k <= n
  {
    if k == 0 then []
    else PausesFrom(k - 1, n, base) + if PauseAfter(k, n) then [base + k] else []
  }

  /** Counting from `base` shifts every pause position by `base` and changes nothing else. */
  lemma {:induction false} PausesFromShift(k: nat, n: nat, base: nat)
    requires k <= n
    ensures PausesFrom(k, n, base) == Offset(PausesUpTo(k, n), base)
  {
    if k > 0 {
      PausesFromShift(k - 1, n, base);
    }
  }

  /** A pause follows the p-th record exactly when p is one of the first k and passes the test. */
  lemma {:induction false} PausesUpToMembers(k: nat, n: nat)
    requires k <= n
    ensures forall p :: p in PausesUpTo(k, n) <==> 1 <= p <= k && PauseAfter(p, n)
  {
    if k > 0 {
      PausesUpToMembers(k - 1, n);
    }
  }

  /** Pauses come in processing order, never twice after the same record. */
  lemma {:induction false} PausesUpToIncreasing(k: nat, n: nat)
    requires k <= n
    ensures forall i, j :: 0 <= i < j < |PausesUpTo(k, n)| ==> PausesUpTo(k, n)[i] < PausesUpTo(k, n)[j]
  {
    if k > 0 {
      PausesUpToIncreasing(k - 1, n);
      PausesUpToMembers(k - 1, n);
      var prev := PausesUpTo(k - 1, n);
      assert forall i :: 0 <= i < |prev| ==> prev[i] in prev;
    }
  }

  /** While records remain, one pause per 30 records processed. */
  lemma {:induction false} PausesUpToCount(k: nat, n: nat)
    requires k < n
    ensures |PausesUpTo(k, n)| == k / ThrottleEvery
  {
    if k > 0 {
      PausesUpToCount(k - 1, n);
    }
  }

  /** n records give (n - 1) / 30 pauses: none for a batch of 30 or fewer. */
  lemma PauseCount(n: nat)
    ensures |PausePoints(n)| == if n == 0 then 0 else (n - 1) / ThrottleEvery
  {
    if n > 0 {
      PausesUpToCount(n - 1, n);
      assert !PauseAfter(n, n);
    }
  }

  /** The pauses of a batch are exactly the multiples of 30 below its size, in order. */
  lemma PausePointsMembers(n: nat)
    ensures forall p :: p in PausePoints(n) <==> 1 <= p < n && p % ThrottleEvery == 0
    ensures forall i, j :: 0 <= i < j < |PausePoints(n)| ==> PausePoints(n)[i] < PausePoints(n)[j]
  {
    PausesUpToMembers(n, n);
    PausesUpToIncreasing(n, n);
  }

  /** A batch of 30 records never pauses. */
  lemma NoPauseForThirty()
    ensures PausePoints(30) == []
  {
    PauseCount(30);
  }

  /** 31 records pause once, after the 30th. */
  lemma OnePauseForThirtyOne()
    ensures PausePoints(31) == [30]
  {
    PauseCount(31);
    PausePointsMembers(31);
    var ps := PausePoints(31);
    assert ps[0] in ps;
  }

  /** 61 records pause after the 30th and the 60th, not after the 61st. */
  lemma TwoPausesForSixtyOne()
    ensures PausePoints(61) == [30, 60]
  {
    PauseCount(61);
    PausePointsMembers(61);
    var ps := PausePoints(61);
    assert ps[0] in ps && ps[1] in ps;
    assert ps[0] < ps[1];
  }
}
