/** The in-flight sweep over measured requests. */
module PerformanceSweep {

  datatype Interval = Interval(scheduled: int, completed: int)

  predicate InScheduleOrder(xs: seq<Interval>) {
    forall i, j :: 0 <= i < j < |xs| ==> xs[i].scheduled <= xs[j].scheduled
  }

  /** How many of the requests end after `at`. */
  function Unfinished(xs: seq<Interval>, at: int): nat
    decreases |xs|
  {
    if xs == [] then 0 else Unfinished(xs[..|xs| - 1], at) + (if xs[|xs| - 1].completed > at then 1 else 0)
  }

  /** How many of the requests run at the instant `at`. */
  function Covering(xs: seq<Interval>, at: int): nat
    decreases |xs|
  {
    if xs == [] then 0
    else
      var last := xs[|xs| - 1];
      Covering(xs[..|xs| - 1], at) + (if last.scheduled <= at < last.completed then 1 else 0)
  }

  /** Each request, counting itself, finds at most `max` unfinished at its own start. */
  ghost predicate WithinLimit(xs: seq<Interval>, max: nat) {
    forall i :: 0 <= i < |xs| ==> Unfinished(xs[..i], xs[i].scheduled) + 1 <= max
  }

  /** At every instant at most `max` requests run. */
  ghost predicate NeverMoreThan(xs: seq<Interval>, max: nat) {
    forall at :: Covering(xs, at) <= max
  }

  function EndingAfter(ends: seq<int>, at: int): seq<int>
    decreases |ends|
  {
    if ends == [] then []
    else
      EndingAfter(ends[..|ends| - 1], at) + (if ends[|ends| - 1] > at then [ends[|ends| - 1]] else [])
  }

  /** The sweep's list after a number of requests: the ends it has not dropped. */
  function Active(xs: seq<Interval>): seq<int>
    decreases |xs|
  {
    if xs == [] then []
    else
      var last := xs[|xs| - 1];
      EndingAfter(Active(xs[..|xs| - 1]), last.scheduled) + [last.completed]
  }

  /** How long the list is once request `i` has joined it. */
  function ActiveCount(xs: seq<Interval>, i: nat): nat
    requires i < |xs|
  {
    |Active(xs[..i + 1])|
  }

  method Sweep(xs: seq<Interval>, max: nat) returns (accepted: bool)
    ensures accepted <==> forall i :: 0 <= i < |xs| ==> ActiveCount(xs, i) <= max
    ensures InScheduleOrder(xs) ==> (accepted <==> WithinLimit(xs, max))
  {
    var active: seq<int> := [];
    var n := 0;
    while n < |xs|
      invariant 0 <= n <= |xs|
      invariant active == Active(xs[..n])
      invariant forall i :: 0 <= i < n ==> ActiveCount(xs, i) <= max
    {
      assert xs[..n + 1][..n] == xs[..n];
      active := EndingAfter(active, xs[n].scheduled);
      active := active + [xs[n].completed];
      assert |active| == ActiveCount(xs, n);
      if |active| > max {
        if InScheduleOrder(xs) {
          SweepCountsUnfinished(xs, n);
        }
        return false;
      }
      n := n + 1;
    }
    if InScheduleOrder(xs) {
      forall i | 0 <= i < |xs| ensures Unfinished(xs[..i], xs[i].scheduled) + 1 <= max {
        SweepCountsUnfinished(xs, i);
      }
    }
    return true;
  }

  // ---------- what the sweep's list means ----------

  lemma {:induction false} LaterFilterSubsumesEarlier(ends: seq<int>, early: int, late: int)
    requires early <= late
    ensures EndingAfter(EndingAfter(ends, early), late) == EndingAfter(ends, late)
    decreases |ends|
  {
    if ends != [] {
      LaterFilterSubsumesEarlier(ends[..|ends| - 1], early, late);
      var kept := EndingAfter(ends[..|ends| - 1], early);
      var last := ends[|ends| - 1];
      if last > early {
        assert EndingAfter(ends, early) == kept + [last];
        assert (kept + [last])[..|kept|] == kept;
      } else {
        assert EndingAfter(ends, early) == kept;
      }
    }
  }

  /** Nothing that is still running at `at` has been dropped, as long as no start lies after `at`. */
  lemma {:induction false} ActiveKeepsUnfinished(xs: seq<Interval>, at: int)
    requires InScheduleOrder(xs) && (xs != [] ==> xs[|xs| - 1].scheduled <= at)
    ensures |EndingAfter(Active(xs), at)| == Unfinished(xs, at)
    decreases |xs|
  {
    if xs != [] {
      var prefix, last := xs[..|xs| - 1], xs[|xs| - 1];
      ActiveKeepsUnfinished(prefix, at);
      LaterFilterSubsumesEarlier(Active(prefix), last.scheduled, at);
      var kept := EndingAfter(Active(prefix), last.scheduled);
      assert (kept + [last.completed])[..|kept|] == kept;
    }
  }

  lemma SweepCountsUnfinished(xs: seq<Interval>, i: nat)
    requires InScheduleOrder(xs) && i < |xs|
    ensures ActiveCount(xs, i) == Unfinished(xs[..i], xs[i].scheduled) + 1
  {
    assert xs[..i + 1][..i] == xs[..i];
    ActiveKeepsUnfinished(xs[..i], xs[i].scheduled);
  }

  // ---------- what the limit means ----------

  lemma {:induction false} CoveringIsUnfinished(xs: seq<Interval>, at: int, earlier: int)
    requires earlier <= at
    ensures Covering(xs, at) <= Unfinished(xs, earlier)
    decreases |xs|
  {
    if xs != [] {
      CoveringIsUnfinished(xs[..|xs| - 1], at, earlier);
    }
  }

  /** The accepted limit holds at every instant, not only at the starts. */
  lemma {:induction false} LimitHoldsAtEveryInstant(xs: seq<Interval>, max: nat, at: int)
    requires WithinLimit(xs, max)
    ensures Covering(xs, at) <= max
    decreases |xs|
  {
    if xs != [] {
      var prefix, last := xs[..|xs| - 1], xs[|xs| - 1];
      forall i | 0 <= i < |prefix| ensures Unfinished(prefix[..i], prefix[i].scheduled) + 1 <= max {
        assert prefix[..i] == xs[..i];
      }
      LimitHoldsAtEveryInstant(prefix, max, at);
      if last.scheduled <= at {
        CoveringIsUnfinished(prefix, at, last.scheduled);
      }
    }
  }

  lemma {:induction false} CoveringGrows(xs: seq<Interval>, n: nat, at: int)
    requires n <= |xs|
    ensures Covering(xs[..n], at) <= Covering(xs, at)
    decreases |xs|
  {
    if n == |xs| {
      assert xs[..n] == xs;
    } else {
      assert xs[..|xs| - 1][..n] == xs[..n];
      CoveringGrows(xs[..|xs| - 1], n, at);
    }
  }

  lemma {:induction false} UnfinishedIsCovering(xs: seq<Interval>, at: int)
    requires forall i :: 0 <= i < |xs| ==> xs[i].scheduled <= at
    ensures Unfinished(xs, at) == Covering(xs, at)
    decreases |xs|
  {
    if xs != [] {
      UnfinishedIsCovering(xs[..|xs| - 1], at);
    }
  }

  /** Each request that ends when it starts finds fewer than `max` others running. */
  ghost predicate InstantRequestsFit(xs: seq<Interval>, max: nat) {
    forall i :: 0 <= i < |xs| && xs[i].scheduled == xs[i].completed ==> Covering(xs[..i], xs[i].scheduled) < max
  }

  /** The sweep accepts exactly the lists in which no instant has more than `max` requests running and
      which have room for every request without duration. */
  lemma LimitIsExact(xs: seq<Interval>, max: nat)
    requires InScheduleOrder(xs) && forall i :: 0 <= i < |xs| ==> xs[i].scheduled <= xs[i].completed
    ensures WithinLimit(xs, max) <==> NeverMoreThan(xs, max) && InstantRequestsFit(xs, max)
  {
    forall i | 0 <= i < |xs| ensures Unfinished(xs[..i], xs[i].scheduled) == Covering(xs[..i], xs[i].scheduled) {
      UnfinishedIsCovering(xs[..i], xs[i].scheduled);
    }
    if WithinLimit(xs, max) {
      forall at ensures Covering(xs, at) <= max {
        LimitHoldsAtEveryInstant(xs, max, at);
      }
    }
    if NeverMoreThan(xs, max) && InstantRequestsFit(xs, max) {
      forall i | 0 <= i < |xs| ensures Unfinished(xs[..i], xs[i].scheduled) + 1 <= max {
        assert xs[..i + 1][..i] == xs[..i];
        CoveringGrows(xs, i + 1, xs[i].scheduled);
      }
    }
  }

  /** When every request takes time the sweep accepts exactly the lists in which no instant has more
      than `max` requests running. */
  lemma LimitIsExactForPositiveLatencies(xs: seq<Interval>, max: nat)
    requires InScheduleOrder(xs) && forall i :: 0 <= i < |xs| ==> xs[i].scheduled < xs[i].completed
    ensures WithinLimit(xs, max) <==> NeverMoreThan(xs, max)
  {
    LimitIsExact(xs, max);
  }

  function Slot(start: int, spacing: nat, k: nat): int {
    start + k * spacing
  }

  lemma {:induction false} SlotsIncrease(start: int, spacing: nat, i: nat, j: nat)
    requires i <= j
    ensures Slot(start, spacing, i) <= Slot(start, spacing, j)
    decreases j - i
  {
    if i < j {
      SlotsIncrease(start, spacing, i + 1, j);
      assert (i + 1) * spacing == i * spacing + spacing;
    }
  }

  /** A block of `n` requests, one in each slot: the first `max` all end just after the slot that follows them, and
      the others take no time. */
  function StackedBlock(n: nat, max: nat, start: int, spacing: nat): seq<Interval> {
    if n == 0 then []
    else
      var slot := Slot(start, spacing, n - 1);
      StackedBlock(n - 1, max, start, spacing)
      + [Interval(slot, if n <= max then Slot(start, spacing, max) + 1 else slot)]
  }

  lemma {:induction false} StackedBlockShape(n: nat, max: nat, start: int, spacing: nat)
    ensures |StackedBlock(n, max, start, spacing)| == n
    ensures forall k :: 0 <= k < n ==>
      Slot(start, spacing, k) == StackedBlock(n, max, start, spacing)[k].scheduled
      <= StackedBlock(n, max, start, spacing)[k].completed
    decreases n
  {
    if n > 0 {
      StackedBlockShape(n - 1, max, start, spacing);
      if n <= max {
        SlotsIncrease(start, spacing, n - 1, max);
      }
    }
  }

  lemma {:induction false} StackedBlockGrows(n: nat, max: nat, start: int, spacing: nat)
    requires n >= max
    ensures |StackedBlock(n, max, start, spacing)| == n
    ensures StackedBlock(n, max, start, spacing)[..max] == StackedBlock(max, max, start, spacing)
    decreases n
  {
    StackedBlockShape(n, max, start, spacing);
    if n > max {
      StackedBlockGrows(n - 1, max, start, spacing);
    }
  }

  lemma {:induction false} StackedBlockCovers(n: nat, max: nat, start: int, spacing: nat, at: int)
    ensures Covering(StackedBlock(n, max, start, spacing), at) <= if n < max then n else max
    decreases n
  {
    if n > 0 {
      StackedBlockCovers(n - 1, max, start, spacing, at);
    }
  }

  lemma {:induction false} StackedBlockIsUnfinished(n: nat, max: nat, start: int, spacing: nat)
    requires n <= max
    ensures Unfinished(StackedBlock(n, max, start, spacing), Slot(start, spacing, max)) == n
    decreases n
  {
    if n > 0 {
      StackedBlockIsUnfinished(n - 1, max, start, spacing);
    }
  }

  /** For every limit, boundary, spacing and number of requests above the limit there is a full block, one request in
      every slot, that never has more than `max` requests running and is refused all the same: when the first request
      that takes no time starts, `max` are still running. */
  lemma ZeroLatencyIsCounted(n: nat, max: nat, start: int, spacing: nat)
    requires n > max
    ensures var xs := StackedBlock(n, max, start, spacing);
            && |xs| == n
            && (forall k :: 0 <= k < n ==> Slot(start, spacing, k) == xs[k].scheduled <= xs[k].completed)
            && NeverMoreThan(xs, max) && !WithinLimit(xs, max)
  {
    var xs := StackedBlock(n, max, start, spacing);
    StackedBlockShape(n, max, start, spacing);
    forall at ensures Covering(xs, at) <= max {
      StackedBlockCovers(n, max, start, spacing, at);
    }
    StackedBlockGrows(n, max, start, spacing);
    StackedBlockIsUnfinished(max, max, start, spacing);
    assert Unfinished(xs[..max], xs[max].scheduled) + 1 > max;
  }

  // ---------- blocks that do not overlap ----------

  lemma {:induction false} UnfinishedSplits(a: seq<Interval>, b: seq<Interval>, at: int)
    ensures Unfinished(a + b, at) == Unfinished(a, at) + Unfinished(b, at)
    decreases |b|
  {
    if b == [] {
      assert a + b == a;
    } else {
      assert (a + b)[..|a + b| - 1] == a + b[..|b| - 1];
      UnfinishedSplits(a, b[..|b| - 1], at);
    }
  }

  lemma {:induction false} NothingUnfinished(xs: seq<Interval>, at: int)
    requires forall i :: 0 <= i < |xs| ==> xs[i].completed <= at
    ensures Unfinished(xs, at) == 0
    decreases |xs|
  {
    if xs != [] {
      NothingUnfinished(xs[..|xs| - 1], at);
    }
  }

  /** Every request of `a` is over when any request of `b` starts. */
  ghost predicate Precedes(a: seq<Interval>, b: seq<Interval>) {
    forall i, j :: 0 <= i < |a| && 0 <= j < |b| ==> a[i].completed <= b[j].scheduled
  }

  lemma LimitSplits(a: seq<Interval>, b: seq<Interval>, max: nat)
    requires Precedes(a, b)
    ensures WithinLimit(a + b, max) <==> WithinLimit(a, max) && WithinLimit(b, max)
  {
    forall i | 0 <= i < |a|
      ensures Unfinished((a + b)[..i], (a + b)[i].scheduled) == Unfinished(a[..i], a[i].scheduled)
    {
      assert (a + b)[..i] == a[..i];
    }
    forall i | 0 <= i < |b|
      ensures Unfinished((a + b)[..|a| + i], (a + b)[|a| + i].scheduled) == Unfinished(b[..i], b[i].scheduled)
    {
      assert (a + b)[..|a| + i] == a + b[..i];
      UnfinishedSplits(a, b[..i], b[i].scheduled);
      NothingUnfinished(a, b[i].scheduled);
    }
    if WithinLimit(a + b, max) {
      forall i | 0 <= i < |a| ensures Unfinished(a[..i], a[i].scheduled) + 1 <= max {
        assert (a + b)[i] == a[i];
      }
      forall i | 0 <= i < |b| ensures Unfinished(b[..i], b[i].scheduled) + 1 <= max {
        assert (a + b)[|a| + i] == b[i];
      }
    }
    if WithinLimit(a, max) && WithinLimit(b, max) {
      forall k | 0 <= k < |a + b| ensures Unfinished((a + b)[..k], (a + b)[k].scheduled) + 1 <= max {
        if k >= |a| {
          assert (a + b)[..k] == (a + b)[..|a| + (k - |a|)];
        }
      }
    }
  }

  function Concat(blocks: seq<seq<Interval>>): seq<Interval>
    decreases |blocks|
  {
    if blocks == [] then [] else Concat(blocks[..|blocks| - 1]) + blocks[|blocks| - 1]
  }

  ghost predicate Chained(blocks: seq<seq<Interval>>) {
    forall i, j :: 0 <= i < j < |blocks| ==> Precedes(blocks[i], blocks[j])
  }

  lemma {:induction false} ConcatPrecedes(blocks: seq<seq<Interval>>, b: seq<Interval>)
    requires forall i :: 0 <= i < |blocks| ==> Precedes(blocks[i], b)
    ensures Precedes(Concat(blocks), b)
    decreases |blocks|
  {
    if blocks != [] {
      ConcatPrecedes(blocks[..|blocks| - 1], b);
    }
  }

  ghost predicate EachWithin(blocks: seq<seq<Interval>>, max: nat) {
    forall i :: 0 <= i < |blocks| ==> WithinLimit(blocks[i], max)
  }

  lemma EachWithinSplits(blocks: seq<seq<Interval>>, last: seq<Interval>, max: nat)
    ensures EachWithin(blocks + [last], max) <==> EachWithin(blocks, max) && WithinLimit(last, max)
  {
    var all := blocks + [last];
    assert all[|blocks|] == last;
    assert forall i :: 0 <= i < |blocks| ==> all[i] == blocks[i];
  }

  lemma ChainedSplits(blocks: seq<seq<Interval>>, last: seq<Interval>)
    requires Chained(blocks + [last])
    ensures Chained(blocks) && forall i :: 0 <= i < |blocks| ==> Precedes(blocks[i], last)
  {
    var all := blocks + [last];
    assert forall i :: 0 <= i < |blocks| ==> all[i] == blocks[i];
    forall i | 0 <= i < |blocks| ensures Precedes(blocks[i], last) {
      assert Precedes(all[i], all[|blocks|]);
    }
  }

  /** Sweeping chained blocks together accepts exactly when sweeping each one alone does. */
  lemma {:induction false} BlocksSweepAlone(blocks: seq<seq<Interval>>, max: nat)
    requires Chained(blocks)
    ensures WithinLimit(Concat(blocks), max) <==> EachWithin(blocks, max)
    decreases |blocks|
  {
    if blocks != [] {
      var prefix, last := blocks[..|blocks| - 1], blocks[|blocks| - 1];
      assert blocks == prefix + [last];
      ChainedSplits(prefix, last);
      BlocksSweepAlone(prefix, max);
      ConcatPrecedes(prefix, last);
      LimitSplits(Concat(prefix), last, max);
      EachWithinSplits(prefix, last, max);
    }
  }
}
