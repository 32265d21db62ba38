/**
 * Repeated aggregation: the cluster snapshot of one monitoring epoch is a
 * cleared SummaryStats into which every node's snapshot is aggregated in
 * turn. `Fold` states that loop on values, and the lemmas below say what it
 * computes for every kind of field, and which fields depend on the order of
 * the snapshots.
 */
module SummaryFold {
  import opened StatsArith
  import opened MonitoringUtils

  predicate AllValid(snaps: seq<Stats>)
  {
    forall i :: 0 <= i < |snaps| ==> ValidOperand(snaps[i])
  }

  /** `init` after aggregate(snaps[0]), ..., aggregate(snaps[|snaps| - 1]). */
  function Fold(init: Stats, snaps: seq<Stats>): Stats
    requires AllValid(snaps)
    decreases |snaps|
  {
    if |snaps| == 0 then init
    else Aggregated(Fold(init, snaps[..|snaps| - 1]), snaps[|snaps| - 1])
  }

  /** The sum of one additive field over all snapshots. */
  function SumOf(snaps: seq<Stats>, f: Additive): real
    decreases |snaps|
  {
    if |snaps| == 0 then 0.0
    else SumOf(snaps[..|snaps| - 1], f) + AdditiveValue(snaps[|snaps| - 1], f)
  }

  /** The number of key accesses all snapshots stand for. */
  function AccessSum(snaps: seq<Stats>): real
    decreases |snaps|
  {
    if |snaps| == 0 then 0.0
    else AccessSum(snaps[..|snaps| - 1]) + AccessTotal(snaps[|snaps| - 1].keyAccess)
  }

  /** One more snapshot is one more aggregate step. */
  lemma FoldSnoc(init: Stats, snaps: seq<Stats>, last: Stats)
    requires AllValid(snaps) && ValidOperand(last)
    ensures AllValid(snaps + [last])
    ensures Fold(init, snaps + [last]) == Aggregated(Fold(init, snaps), last)
  {
    assert (snaps + [last])[..|snaps|] == snaps;
  }

  lemma FoldTwo(init: Stats, a: Stats, b: Stats)
    requires ValidOperand(a) && ValidOperand(b)
    ensures AllValid([a, b])
    ensures Fold(init, [a, b]) == Aggregated(Aggregated(init, a), b)
  {
    assert [] + [a] == [a];
    FoldSnoc(init, [], a);
    assert [a] + [b] == [a, b];
    FoldSnoc(init, [a], b);
  }

  /** Every additive field ends as its initial value plus its sum over the snapshots. */
  lemma {:induction false} FoldAdditive(init: Stats, snaps: seq<Stats>, f: Additive)
    requires AllValid(snaps)
    ensures AdditiveValue(Fold(init, snaps), f) == AdditiveValue(init, f) + SumOf(snaps, f)
    decreases |snaps|
  {
    if |snaps| > 0 {
      var prefix := snaps[..|snaps| - 1];
      assert AllValid(prefix);
      FoldAdditive(init, prefix, f);
      AggregatedAdditive(Fold(init, prefix), snaps[|snaps| - 1], f);
    }
  }

  /**
   * The key-access mean stays a weighted mean over every aggregation: the
   * final count and mean stand for the accesses of the initial record and
   * of every snapshot.
   */
  lemma {:induction false} FoldKeyAccessMean(init: Stats, snaps: seq<Stats>)
    requires AllValid(snaps)
    ensures AccessTotal(Fold(init, snaps).keyAccess) == AccessTotal(init.keyAccess) + AccessSum(snaps)
    decreases |snaps|
  {
    if |snaps| > 0 {
      var prefix := snaps[..|snaps| - 1];
      var last := snaps[|snaps| - 1];
      assert AllValid(prefix);
      FoldKeyAccessMean(init, prefix);
      CombinedAccessTotal(Fold(init, prefix).keyAccess, last.keyAccess);
    }
  }

  /**
   * Every peak field ends at least as large as its initial value and every
   * snapshot's, and equal to one of them.
   */
  lemma {:induction false} FoldPeak(init: Stats, snaps: seq<Stats>, p: Peak)
    requires AllValid(snaps)
    ensures var v := PeakValue(Fold(init, snaps), p);
      v >= PeakValue(init, p) &&
      (forall i :: 0 <= i < |snaps| ==> v >= PeakValue(snaps[i], p)) &&
      (v == PeakValue(init, p) || exists i :: 0 <= i < |snaps| && v == PeakValue(snaps[i], p))
    decreases |snaps|
  {
    if |snaps| > 0 {
      var prefix := snaps[..|snaps| - 1];
      assert AllValid(prefix);
      FoldPeak(init, prefix, p);
      AggregatedPeak(Fold(init, prefix), snaps[|snaps| - 1], p);
      var v := PeakValue(Fold(init, snaps), p);
      if v != PeakValue(init, p) && v != PeakValue(snaps[|snaps| - 1], p) {
        var i :| 0 <= i < |prefix| && v == PeakValue(prefix[i], p);
        assert snaps[i] == prefix[i];
      }
      forall i | 0 <= i < |snaps| ensures v >= PeakValue(snaps[i], p) {
        if i < |prefix| {
          assert snaps[i] == prefix[i];
        }
      }
    }
  }

  /**
   * Both minimum occupancies end at most as large as their initial value and
   * every snapshot's, and equal to one of them.
   */
  lemma {:induction false} FoldTrough(init: Stats, snaps: seq<Stats>, t: Trough)
    requires AllValid(snaps)
    ensures var v := TroughValue(Fold(init, snaps), t);
      v <= TroughValue(init, t) &&
      (forall i :: 0 <= i < |snaps| ==> v <= TroughValue(snaps[i], t)) &&
      (v == TroughValue(init, t) || exists i :: 0 <= i < |snaps| && v == TroughValue(snaps[i], t))
    decreases |snaps|
  {
    if |snaps| > 0 {
      var prefix := snaps[..|snaps| - 1];
      assert AllValid(prefix);
      FoldTrough(init, prefix, t);
      AggregatedTrough(Fold(init, prefix), snaps[|snaps| - 1], t);
      var v := TroughValue(Fold(init, snaps), t);
      if v != TroughValue(init, t) && v != TroughValue(snaps[|snaps| - 1], t) {
        var i :| 0 <= i < |prefix| && v == TroughValue(prefix[i], t);
        assert snaps[i] == prefix[i];
      }
      forall i | 0 <= i < |snaps| ensures v <= TroughValue(snaps[i], t) {
        if i < |prefix| {
          assert snaps[i] == prefix[i];
        }
      }
    }
  }

  /**
   * `i` is the first snapshot that reported the memory minimum `m`, and `m`
   * is below the initial minimum.
   */
  predicate FirstReporter(init: Stats, snaps: seq<Stats>, i: int, m: real)
  {
    0 <= i < |snaps| && snaps[i].memoryOccupancy.min == m && m < init.memoryOccupancy.min &&
    forall j :: 0 <= j < i ==> snaps[j].memoryOccupancy.min > m
  }

  /**
   * The owner recorded in `r` belongs to the snapshot that first reported
   * r's memory minimum; when no snapshot went below the initial minimum it
   * is still the initial owner.
   */
  predicate OwnedMinimum(init: Stats, snaps: seq<Stats>, r: Stats)
  {
    var m := r.memoryOccupancy.min;
    (m == init.memoryOccupancy.min && MinOwner(r) == MinOwner(init) &&
     forall j :: 0 <= j < |snaps| ==> snaps[j].memoryOccupancy.min >= m) ||
    (exists i :: 0 <= i < |snaps| && FirstReporter(init, snaps, i, m) && MinOwner(r) == MinOwner(snaps[i]))
  }

  /** The owner of the memory minimum is that of its first reporter after every fold. */
  lemma {:induction false} FoldMinOwner(init: Stats, snaps: seq<Stats>)
    requires AllValid(snaps)
    ensures OwnedMinimum(init, snaps, Fold(init, snaps))
    decreases |snaps|
  {
    if |snaps| > 0 {
      var prefix := snaps[..|snaps| - 1];
      var last := snaps[|snaps| - 1];
      assert AllValid(prefix);
      assert snaps == prefix + [last];
      FoldMinOwner(init, prefix);
      FoldTrough(init, prefix, MinMemoryOccupancy);
      FoldSnoc(init, prefix, last);
      var before := Fold(init, prefix);
      AggregatedMinOwner(before, last);
      AggregatedTrough(before, last, MinMemoryOccupancy);
      OwnerStep(init, prefix, last, before, Fold(init, snaps));
    }
  }

  /**
   * One aggregate step, which takes the smaller minimum and moves the owner
   * only on a strictly smaller one, keeps the owner with the first reporter
   * of the minimum.
   */
  lemma OwnerStep(init: Stats, prefix: seq<Stats>, last: Stats, before: Stats, r: Stats)
    requires OwnedMinimum(init, prefix, before)
    requires forall j :: 0 <= j < |prefix| ==> prefix[j].memoryOccupancy.min >= before.memoryOccupancy.min
    requires r.memoryOccupancy.min <= before.memoryOccupancy.min && r.memoryOccupancy.min <= last.memoryOccupancy.min
    requires r.memoryOccupancy.min == before.memoryOccupancy.min || r.memoryOccupancy.min == last.memoryOccupancy.min
    requires last.memoryOccupancy.min < before.memoryOccupancy.min ==> MinOwner(r) == MinOwner(last)
    requires last.memoryOccupancy.min >= before.memoryOccupancy.min ==> MinOwner(r) == MinOwner(before)
    ensures OwnedMinimum(init, prefix + [last], r)
  {
    var snaps := prefix + [last];
    var mb := before.memoryOccupancy.min;
    var m := r.memoryOccupancy.min;
    if last.memoryOccupancy.min < mb {
      assert m == last.memoryOccupancy.min;
      forall j | 0 <= j < |prefix| ensures snaps[j].memoryOccupancy.min > m {
        assert snaps[j] == prefix[j];
      }
      assert FirstReporter(init, snaps, |prefix|, m);
    } else {
      assert m == mb;
      if mb == init.memoryOccupancy.min && MinOwner(before) == MinOwner(init) &&
         forall j :: 0 <= j < |prefix| ==> prefix[j].memoryOccupancy.min >= mb
      {
        forall j | 0 <= j < |snaps| ensures snaps[j].memoryOccupancy.min >= m {
          if j < |prefix| {
            assert snaps[j] == prefix[j];
          }
        }
      } else {
        var i :| 0 <= i < |prefix| && FirstReporter(init, prefix, i, mb) && MinOwner(before) == MinOwner(prefix[i]);
        forall j | 0 <= j < i ensures snaps[j].memoryOccupancy.min > m {
          assert snaps[j] == prefix[j];
        }
        assert snaps[i] == prefix[i];
        assert FirstReporter(init, snaps, i, m);
      }
    }
  }

  /**
   * A cleared record folded over the snapshots holds their sums, stands for
   * all their key accesses, and names as owner of the memory minimum the
   * first snapshot that reported that minimum below 1, or the default
   * address pair when none went below 1.
   */
  lemma ClearedFold(memoryNodeCapacity: real, ebsNodeCapacity: real, snaps: seq<Stats>)
    requires AllValid(snaps)
    ensures var c := Cleared(memoryNodeCapacity, ebsNodeCapacity);
      var r := Fold(c, snaps);
      (forall f :: AdditiveValue(r, f) == SumOf(snaps, f)) &&
      AccessTotal(r.keyAccess) == AccessSum(snaps) &&
      (r.memoryOccupancy.min < 1.0 ==>
        exists i :: FirstReporter(c, snaps, i, r.memoryOccupancy.min) && MinOwner(r) == MinOwner(snaps[i])) &&
      (r.memoryOccupancy.min >= 1.0 ==> MinOwner(r) == (DefaultAddress, DefaultAddress))
  {
    var c := Cleared(memoryNodeCapacity, ebsNodeCapacity);
    ClearedSentinels(memoryNodeCapacity, ebsNodeCapacity);
    forall f ensures AdditiveValue(Fold(c, snaps), f) == SumOf(snaps, f) {
      FoldAdditive(c, snaps, f);
    }
    FoldKeyAccessMean(c, snaps);
    FoldMinOwner(c, snaps);
  }

  /**
   * After a non-empty fold both node capacities are the last snapshot's,
   * and the node counts are sized from the folded totals with that capacity.
   */
  lemma FoldCapacity(init: Stats, snaps: seq<Stats>)
    requires AllValid(snaps) && |snaps| > 0
    ensures var r := Fold(init, snaps);
      var last := snaps[|snaps| - 1];
      r.memory.nodeCapacity == last.memory.nodeCapacity && r.ebs.nodeCapacity == last.ebs.nodeCapacity &&
      SizedFor(r.memory.requiredNodes, r.memory.consumption, MaxMemoryNodeConsumption, last.memory.nodeCapacity) &&
      SizedFor(r.ebs.requiredNodes, r.ebs.consumption, MaxMemoryNodeConsumption, last.ebs.nodeCapacity)
  {
    var prefix := snaps[..|snaps| - 1];
    assert AllValid(prefix);
    AggregatedCapacity(Fold(init, prefix), snaps[|snaps| - 1]);
  }

  /**
   * Aggregating two snapshots in either order gives the same additive
   * totals, peaks and minima, while the node capacities are those of
   * whichever snapshot came last.
   */
  lemma AggregationOrder(init: Stats, a: Stats, b: Stats)
    requires ValidOperand(a) && ValidOperand(b)
    ensures var ab := Fold(init, [a, b]);
      var ba := Fold(init, [b, a]);
      (forall f :: AdditiveValue(ab, f) == AdditiveValue(ba, f)) &&
      (forall p :: PeakValue(ab, p) == PeakValue(ba, p)) &&
      (forall t :: TroughValue(ab, t) == TroughValue(ba, t)) &&
      ab.memory.nodeCapacity == b.memory.nodeCapacity && ba.memory.nodeCapacity == a.memory.nodeCapacity &&
      ab.ebs.nodeCapacity == b.ebs.nodeCapacity && ba.ebs.nodeCapacity == a.ebs.nodeCapacity
  {
    FoldTwo(init, a, b);
    FoldTwo(init, b, a);
    var ab := Fold(init, [a, b]);
    var ba := Fold(init, [b, a]);
    forall f ensures AdditiveValue(ab, f) == AdditiveValue(ba, f) {
      AggregatedAdditive(init, a, f);
      AggregatedAdditive(init, b, f);
      AggregatedAdditive(Aggregated(init, a), b, f);
      AggregatedAdditive(Aggregated(init, b), a, f);
    }
    forall p ensures PeakValue(ab, p) == PeakValue(ba, p) {
      AggregatedPeak(init, a, p);
      AggregatedPeak(init, b, p);
      AggregatedPeak(Aggregated(init, a), b, p);
      AggregatedPeak(Aggregated(init, b), a, p);
    }
    forall t ensures TroughValue(ab, t) == TroughValue(ba, t) {
      AggregatedTrough(init, a, t);
      AggregatedTrough(init, b, t);
      AggregatedTrough(Aggregated(init, a), b, t);
      AggregatedTrough(Aggregated(init, b), a, t);
    }
    AggregatedCapacity(Aggregated(init, a), b);
    AggregatedCapacity(Aggregated(init, b), a);
  }

  /**
   * The order matters for the node counts: a snapshot on nodes of capacity
   * 10 and one on nodes of capacity 5, with 6 units of memory consumed in
   * all, ask for 1 node when the first comes last and 2 when the second does.
   */
  lemma OrderChangesRequiredNodes(init: Stats, a: Stats, b: Stats)
    requires ValidOperand(a) && ValidOperand(b)
    requires init.memory.consumption + a.memory.consumption + b.memory.consumption == 6
    requires a.memory.nodeCapacity == 10.0 && b.memory.nodeCapacity == 5.0
    ensures Fold(init, [b, a]).memory.requiredNodes == 1
    ensures Fold(init, [a, b]).memory.requiredNodes == 2
  {
    TwoStepMemorySizing(init, a, b);
    TwoStepMemorySizing(init, b, a);
    SizedForSix(Fold(init, [b, a]).memory.requiredNodes, Fold(init, [a, b]).memory.requiredNodes);
  }

  /** Two steps size the memory tier from the three totals and the last capacity. */
  lemma TwoStepMemorySizing(init: Stats, a: Stats, b: Stats)
    requires ValidOperand(a) && ValidOperand(b)
    ensures AllValid([a, b])
    ensures SizedFor(Fold(init, [a, b]).memory.requiredNodes,
                     init.memory.consumption + a.memory.consumption + b.memory.consumption,
                     MaxMemoryNodeConsumption, b.memory.nodeCapacity)
  {
    FoldTwo(init, a, b);
    AggregatedAdditive(init, a, TotalMemoryConsumption);
    AggregatedAdditive(Aggregated(init, a), b, TotalMemoryConsumption);
    AggregatedCapacity(Aggregated(init, a), b);
  }

  /** Six units at threshold 0.6 need one node of capacity 10 and two of capacity 5. */
  lemma SizedForSix(n10: nat, n5: nat)
    requires SizedFor(n10, 6, MaxMemoryNodeConsumption, 10.0)
    requires SizedFor(n5, 6, MaxMemoryNodeConsumption, 5.0)
    ensures n10 == 1 && n5 == 2
  {
  }

  /**
   * Two snapshots with key-access count 10 and mean 5, and count 0 and
   * mean 0, aggregated after clear() give count 10 and mean 5, in either
   * order.
   */
  lemma ZeroCountSnapshotKeepsMean(memoryNodeCapacity: real, ebsNodeCapacity: real, a: Stats, b: Stats)
    requires ValidOperand(a) && ValidOperand(b)
    requires a.keyAccess.cnt == 10 && a.keyAccess.mean == 5.0
    requires b.keyAccess.cnt == 0 && b.keyAccess.mean == 0.0
    ensures var ab := Fold(Cleared(memoryNodeCapacity, ebsNodeCapacity), [a, b]).keyAccess;
      ab.cnt == 10 && ab.mean == 5.0
    ensures var ba := Fold(Cleared(memoryNodeCapacity, ebsNodeCapacity), [b, a]).keyAccess;
      ba.cnt == 10 && ba.mean == 5.0
  {
    var c := Cleared(memoryNodeCapacity, ebsNodeCapacity);
    TwoStepKeyAccess(c, a, b);
    TwoStepKeyAccess(c, b, a);
    MeanOfTotal(Fold(c, [a, b]).keyAccess, 10, 50.0);
    MeanOfTotal(Fold(c, [b, a]).keyAccess, 10, 50.0);
  }

  /** Two steps add up the key-access counts and the accesses they stand for. */
  lemma TwoStepKeyAccess(init: Stats, a: Stats, b: Stats)
    requires ValidOperand(a) && ValidOperand(b)
    ensures AllValid([a, b])
    ensures var r := Fold(init, [a, b]).keyAccess;
      r.cnt == init.keyAccess.cnt + a.keyAccess.cnt + b.keyAccess.cnt &&
      AccessTotal(r) == AccessTotal(init.keyAccess) + AccessTotal(a.keyAccess) + AccessTotal(b.keyAccess)
  {
    FoldTwo(init, a, b);
    CombinedAccessTotal(init.keyAccess, a.keyAccess);
    CombinedAccessTotal(Aggregated(init, a).keyAccess, b.keyAccess);
  }

  /** A positive count and the accesses it stands for fix the mean. */
  lemma MeanOfTotal(k: KeyAccess, cnt: nat, total: real)
    requires cnt > 0 && k.cnt == cnt && AccessTotal(k) == total
    ensures k.mean == total / cnt as real
  {
  }
}
