/**
 * Bounded deques and the one-second rolling window shared by the hold and
 * follow session managers.
 */
module Rolling {
  import opened Numeric

  /**
   * `d.append(x)` on a `deque(maxlen=maxlen)`: the new value goes to the back
   * and, once the deque is full, the oldest value falls off the front.
   */
  function PushBounded<T>(d: seq<T>, x: T, maxlen: nat): (r: seq<T>)
    requires maxlen > 0
    ensures |r| == Min(|d| + 1, maxlen)
    ensures forall i :: 0 <= i < |r| ==> r[i] == (d + [x])[|d| + 1 - |r| + i]
  {
    if |d| < maxlen then d + [x]
    else
      assert (d + [x])[|d| + 1 - maxlen..] == d[|d| + 1 - maxlen..] + [x];
      d[|d| + 1 - maxlen..] + [x]
  }

  /** A bounded append keeps the newest value and never exceeds the bound. */
  lemma PushBoundedNewest<T>(d: seq<T>, x: T, maxlen: nat)
    requires maxlen > 0
    ensures |PushBounded(d, x, maxlen)| <= maxlen
    ensures PushBounded(d, x, maxlen)[|PushBounded(d, x, maxlen)| - 1] == x
    ensures |d| < maxlen ==> PushBounded(d, x, maxlen) == d + [x]
  {
  }

  /** A bounded append is the newest values of the plain append. */
  lemma PushBoundedIsSuffix<T>(d: seq<T>, x: T, maxlen: nat)
    requires maxlen > 0
    ensures PushBounded(d, x, maxlen) == (d + [x])[|d| + 1 - |PushBounded(d, x, maxlen)|..]
  {
  }

  /** A bounded append of a non-negative value to non-negative values holds only non-negative values. */
  lemma PushBoundedNonNegative(d: seq<real>, x: real, maxlen: nat)
    requires maxlen > 0 && 0.0 <= x
    requires forall i :: 0 <= i < |d| ==> 0.0 <= d[i]
    ensures forall i :: 0 <= i < |PushBounded(d, x, maxlen)| ==> 0.0 <= PushBounded(d, x, maxlen)[i]
  {
    var r := PushBounded(d, x, maxlen);
    forall i | 0 <= i < |r|
      ensures 0.0 <= r[i]
    {
      var k := |d| + 1 - |r| + i;
      if k < |d| {
        assert r[i] == d[k];
      }
    }
  }

  /**
   * How many timestamps the trimming loop drops from the front: it goes on
   * while more than `kept` timestamps remain and the oldest is before `cutoff`.
   */
  function ExpiredCount(ts: seq<real>, kept: nat, cutoff: real): (n: nat)
    ensures n <= |ts|
  {
    if |ts| > 0 && |ts| > kept && ts[0] < cutoff then 1 + ExpiredCount(ts[1..], kept, cutoff)
    else 0
  }

  /** Only timestamps older than the cutoff are dropped. */
  lemma {:induction false} ExpiredAreOld(ts: seq<real>, kept: nat, cutoff: real)
    ensures forall i :: 0 <= i < ExpiredCount(ts, kept, cutoff) ==> ts[i] < cutoff
  {
    if |ts| > 0 && |ts| > kept && ts[0] < cutoff {
      ExpiredAreOld(ts[1..], kept, cutoff);
      forall i | 0 <= i < ExpiredCount(ts, kept, cutoff)
        ensures ts[i] < cutoff
      {
        if i > 0 {
          assert ts[i] == ts[1..][i - 1];
        }
      }
    }
  }

  /** Trimming never leaves fewer than `kept` timestamps, unless there were fewer to begin with. */
  lemma {:induction false} ExpiredKeepsEnough(ts: seq<real>, kept: nat, cutoff: real)
    ensures |ts| - ExpiredCount(ts, kept, cutoff) >= Min(|ts|, kept)
  {
    if |ts| > 0 && |ts| > kept && ts[0] < cutoff {
      ExpiredKeepsEnough(ts[1..], kept, cutoff);
    }
  }

  /** When trimming stops above `kept`, the oldest remaining timestamp is within the window. */
  lemma {:induction false} ExpiredStopsAtFresh(ts: seq<real>, kept: nat, cutoff: real)
    requires |ts| - ExpiredCount(ts, kept, cutoff) > kept
    ensures cutoff <= ts[ExpiredCount(ts, kept, cutoff)]
  {
    if |ts| > 0 && |ts| > kept && ts[0] < cutoff {
      ExpiredStopsAtFresh(ts[1..], kept, cutoff);
      assert ts[1..][ExpiredCount(ts[1..], kept, cutoff)] == ts[ExpiredCount(ts, kept, cutoff)];
    }
  }

  /** With no more timestamps than `kept`, nothing is dropped. */
  lemma ExpiredNoneWhenShort(ts: seq<real>, kept: nat, cutoff: real)
    requires |ts| <= kept
    ensures ExpiredCount(ts, kept, cutoff) == 0
  {
  }

  /** How many positions go along with `dropped` timestamps: one each while positions outnumber `kept`. */
  function DroppedPositions(positions: nat, dropped: nat, kept: nat): nat {
    Min(dropped, Max(0, positions - kept))
  }

  /**
   * The trimming loop: while there are more timestamps than `kept` (the number
   * of jitter values) and the oldest is before `cutoff`, drop it, and drop the
   * oldest position too while positions outnumber `kept`.
   */
  method TrimExpired<T>(timestamps: seq<real>, positions: seq<T>, kept: nat, cutoff: real)
    returns (ts: seq<real>, ps: seq<T>)
    ensures ts == timestamps[ExpiredCount(timestamps, kept, cutoff)..]
    ensures ps == positions[DroppedPositions(|positions|, ExpiredCount(timestamps, kept, cutoff), kept)..]
  {
    ts, ps := timestamps, positions;
    ghost var i := 0;
    while |ts| > 0 && |ts| > kept
      invariant 0 <= i <= |timestamps| && ts == timestamps[i..]
      invariant ExpiredCount(timestamps, kept, cutoff) == i + ExpiredCount(ts, kept, cutoff)
      invariant ps == positions[DroppedPositions(|positions|, i, kept)..]
      decreases |ts|
    {
      if ts[0] < cutoff {
        ts := ts[1..];
        if |ps| > kept {
          ps := ps[1..];
        }
        i := i + 1;
      } else {
        break;
      }
    }
  }

  /** Trimming drops as many positions as timestamps when the two are in step. */
  lemma {:induction false} TrimKeepsPairs(ts: seq<real>, n: nat, kept: nat, cutoff: real)
    requires n == |ts|
    ensures n - DroppedPositions(n, ExpiredCount(ts, kept, cutoff), kept) == |ts| - ExpiredCount(ts, kept, cutoff)
  {
    ExpiredKeepsEnough(ts, kept, cutoff);
    if |ts| <= kept {
      ExpiredNoneWhenShort(ts, kept, cutoff);
    }
  }
}
