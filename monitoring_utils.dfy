/**
 * The cluster-statistics accumulator of the monitoring loop: the
 * SummaryStats record, its clear() and aggregate() operations, and what one
 * aggregation step does to each field.
 *
 * The record exists twice: as the value `Stats` (aggregate takes its operand
 * by value, and the pure `Aggregated` states one step), and as the class
 * `SummaryStats`, whose methods overwrite its fields in place in the order
 * the source does and are proved to agree with `Cleared` and `Aggregated`.
 * The source's 33 flat fields are grouped into small records: the key-access
 * statistics, the consumption figures of each tier, the occupancy figures of
 * each tier, the address pair of the least-occupied memory node, and the
 * latency and throughput figures.
 */
module MonitoringUtils {
  import opened StatsArith

  /** Highest fraction of a memory node's capacity the tier plans to fill. */
  const MaxMemoryNodeConsumption: real := 0.6
  /** Highest fraction of an EBS node's capacity the tier plans to fill. */
  const MaxEbsNodeConsumption: real := 0.75

  /**
   * A node's network identity. Only equality and the default-constructed
   * value matter to the accumulator.
   */
  datatype Address = Address(name: string)

  const DefaultAddress: Address := Address("")

  /**
   * key_access_cnt, key_access_mean and the square of key_access_std.
   * Aggregation combines two standard deviations as the square root of the
   * sum of their squares, so the square is the quantity that adds up.
   */
  datatype KeyAccess = KeyAccess(cnt: nat, mean: real, stdSquared: real)

  /**
   * One tier's total_*_count, total_*_access, total_*_consumption,
   * max_/avg_*_consumption_percentage, *_node_capacity and required_*_node.
   */
  datatype TierConsumption = TierConsumption(
    count: nat,
    access: nat,
    consumption: nat,
    maxPercentage: real,
    avgPercentage: real,
    nodeCapacity: real,
    requiredNodes: nat)

  /** One tier's max_, min_, avg_, sum_ and cnt_*_occupancy. */
  datatype Occupancy = Occupancy(max: real, min: real, avg: real, sum: real, cnt: nat)

  /** sum_latency, cnt_latency, avg_latency and total_throughput. */
  datatype Traffic = Traffic(sumLatency: real, cntLatency: nat, avgLatency: real, totalThroughput: real)

  /** Every field of SummaryStats. */
  datatype Stats = Stats(
    keyAccess: KeyAccess,
    memory: TierConsumption,
    ebs: TierConsumption,
    memoryOccupancy: Occupancy,
    ebsOccupancy: Occupancy,
    minOccupancyMemoryPublicIp: Address,
    minOccupancyMemoryPrivateIp: Address,
    traffic: Traffic)

  /**
   * An operand aggregate can take: node capacities are sizes, so they are
   * never negative. A negative capacity would make the node count the
   * ceiling of a negative quotient converted to unsigned, which is 0 for a
   * quotient above -1 and undefined from -1 down.
   */
  predicate ValidOperand(ss: Stats)
  {
    ss.memory.nodeCapacity >= 0.0 && ss.ebs.nodeCapacity >= 0.0
  }

  /** The public/private address pair of the least-occupied memory node. */
  function MinOwner(s: Stats): (Address, Address)
  {
    (s.minOccupancyMemoryPublicIp, s.minOccupancyMemoryPrivateIp)
  }

  /** The fields that aggregate adds up. */
  datatype Additive =
    | KeyAccessCnt | KeyAccessStdSquared
    | TotalMemoryCount | TotalMemoryAccess | TotalMemoryConsumption
    | TotalEbsCount | TotalEbsAccess | TotalEbsConsumption
    | SumMemoryOccupancy | CntMemoryOccupancy | SumEbsOccupancy | CntEbsOccupancy
    | SumLatency | CntLatency | TotalThroughput

  function AdditiveValue(s: Stats, f: Additive): real
  {
    match f
    case KeyAccessCnt => s.keyAccess.cnt as real
    case KeyAccessStdSquared => s.keyAccess.stdSquared
    case TotalMemoryCount => s.memory.count as real
    case TotalMemoryAccess => s.memory.access as real
    case TotalMemoryConsumption => s.memory.consumption as real
    case TotalEbsCount => s.ebs.count as real
    case TotalEbsAccess => s.ebs.access as real
    case TotalEbsConsumption => s.ebs.consumption as real
    case SumMemoryOccupancy => s.memoryOccupancy.sum
    case CntMemoryOccupancy => s.memoryOccupancy.cnt as real
    case SumEbsOccupancy => s.ebsOccupancy.sum
    case CntEbsOccupancy => s.ebsOccupancy.cnt as real
    case SumLatency => s.traffic.sumLatency
    case CntLatency => s.traffic.cntLatency as real
    case TotalThroughput => s.traffic.totalThroughput
  }

  /** The fields that aggregate combines with fmax. */
  datatype Peak = MaxMemoryConsumption | MaxEbsConsumption | MaxMemoryOccupancy | MaxEbsOccupancy

  function PeakValue(s: Stats, p: Peak): real
  {
    match p
    case MaxMemoryConsumption => s.memory.maxPercentage
    case MaxEbsConsumption => s.ebs.maxPercentage
    case MaxMemoryOccupancy => s.memoryOccupancy.max
    case MaxEbsOccupancy => s.ebsOccupancy.max
  }

  /** The fields that aggregate combines with fmin. */
  datatype Trough = MinMemoryOccupancy | MinEbsOccupancy

  function TroughValue(s: Stats, t: Trough): real
  {
    match t
    case MinMemoryOccupancy => s.memoryOccupancy.min
    case MinEbsOccupancy => s.ebsOccupancy.min
  }

  /** A tier's consumption figures after clear(): all 0, the capacity untouched. */
  function ClearedConsumption(nodeCapacity: real): TierConsumption
  {
    TierConsumption(0, 0, 0, 0.0, 0.0, nodeCapacity, 0)
  }

  /** A tier's occupancy after clear(): the minimum 1, everything else 0. */
  const ClearedOccupancy: Occupancy := Occupancy(0.0, 1.0, 0.0, 0.0, 0)

  /**
   * The state clear() leaves. clear() does not touch the two node
   * capacities, so they are whatever the record held before.
   */
  function Cleared(memoryNodeCapacity: real, ebsNodeCapacity: real): Stats
  {
    Stats(
      KeyAccess(0, 0.0, 0.0),
      ClearedConsumption(memoryNodeCapacity),
      ClearedConsumption(ebsNodeCapacity),
      ClearedOccupancy,
      ClearedOccupancy,
      DefaultAddress,
      DefaultAddress,
      Traffic(0.0, 0, 0.0, 0.0))
  }

  /** The number of key accesses that a count and a mean stand for. */
  function AccessTotal(k: KeyAccess): real
  {
    k.cnt as real * k.mean
  }

  function CombineKeyAccess(a: KeyAccess, b: KeyAccess): KeyAccess
  {
    KeyAccess(a.cnt + b.cnt, WeightedMean(a.cnt, a.mean, b.cnt, b.mean), a.stdSquared + b.stdSquared)
  }

  /**
   * One tier's consumption step: totals add up, the peak percentage is the
   * larger one, the average is recomputed from the new totals, the capacity
   * is the operand's, and the node count is sized from the new total with
   * the given threshold.
   */
  function CombineConsumption(a: TierConsumption, b: TierConsumption, threshold: real): TierConsumption
    requires threshold > 0.0 && b.nodeCapacity >= 0.0
  {
    var count := a.count + b.count;
    var consumption := a.consumption + b.consumption;
    TierConsumption(
      count,
      a.access + b.access,
      consumption,
      Max(a.maxPercentage, b.maxPercentage),
      Quotient(consumption, count) as real,
      b.nodeCapacity,
      RequiredNodes(consumption, threshold, b.nodeCapacity))
  }

  function CombineOccupancy(a: Occupancy, b: Occupancy): Occupancy
  {
    var sum := a.sum + b.sum;
    var cnt := a.cnt + b.cnt;
    Occupancy(Max(a.max, b.max), Min(a.min, b.min), Average(sum, cnt), sum, cnt)
  }

  function CombineTraffic(a: Traffic, b: Traffic): Traffic
  {
    var sum := a.sumLatency + b.sumLatency;
    var cnt := a.cntLatency + b.cntLatency;
    Traffic(sum, cnt, Average(sum, cnt), a.totalThroughput + b.totalThroughput)
  }

  /**
   * One aggregate(ss) step on the value `acc`. Both tiers' node counts are
   * sized with the memory tier's threshold, and the owner of the memory
   * minimum moves only on a strictly smaller operand minimum.
   */
  function Aggregated(acc: Stats, ss: Stats): Stats
    requires ValidOperand(ss)
  {
    var newMin := ss.memoryOccupancy.min < acc.memoryOccupancy.min;
    Stats(
      CombineKeyAccess(acc.keyAccess, ss.keyAccess),
      CombineConsumption(acc.memory, ss.memory, MaxMemoryNodeConsumption),
      CombineConsumption(acc.ebs, ss.ebs, MaxMemoryNodeConsumption),
      CombineOccupancy(acc.memoryOccupancy, ss.memoryOccupancy),
      CombineOccupancy(acc.ebsOccupancy, ss.ebsOccupancy),
      if newMin then ss.minOccupancyMemoryPublicIp else acc.minOccupancyMemoryPublicIp,
      if newMin then ss.minOccupancyMemoryPrivateIp else acc.minOccupancyMemoryPrivateIp,
      CombineTraffic(acc.traffic, ss.traffic))
  }

  /**
   * clear() puts every count, sum, total, average, maximum and node count at
   * 0, both minimum occupancies at 1 and the owner of the memory minimum at
   * the default address pair, and keeps both node capacities.
   */
  lemma ClearedSentinels(memoryNodeCapacity: real, ebsNodeCapacity: real)
    ensures var s := Cleared(memoryNodeCapacity, ebsNodeCapacity);
      (forall f :: AdditiveValue(s, f) == 0.0) &&
      (forall p :: PeakValue(s, p) == 0.0) &&
      (forall t :: TroughValue(s, t) == 1.0) &&
      s.keyAccess.mean == 0.0 &&
      s.memory.avgPercentage == 0.0 && s.ebs.avgPercentage == 0.0 &&
      s.memoryOccupancy.avg == 0.0 && s.ebsOccupancy.avg == 0.0 && s.traffic.avgLatency == 0.0 &&
      s.memory.requiredNodes == 0 && s.ebs.requiredNodes == 0 &&
      MinOwner(s) == (DefaultAddress, DefaultAddress) &&
      s.memory.nodeCapacity == memoryNodeCapacity && s.ebs.nodeCapacity == ebsNodeCapacity
  {
    var s := Cleared(memoryNodeCapacity, ebsNodeCapacity);
    forall f ensures AdditiveValue(s, f) == 0.0 {
      match f
      case _ =>
    }
  }

  /**
   * The key-access count adds up, the mean is the weighted mean of the two
   * populations (0 when both are empty), and the squared deviations add up.
   */
  lemma AggregatedKeyAccess(acc: Stats, ss: Stats)
    requires ValidOperand(ss)
    ensures var r := Aggregated(acc, ss).keyAccess;
      r.cnt == acc.keyAccess.cnt + ss.keyAccess.cnt &&
      (r.cnt == 0 ==> r.mean == 0.0) &&
      (r.cnt > 0 ==>
        r.mean * r.cnt as real == acc.keyAccess.cnt as real * acc.keyAccess.mean + ss.keyAccess.cnt as real * ss.keyAccess.mean) &&
      r.stdSquared == acc.keyAccess.stdSquared + ss.keyAccess.stdSquared
  {
  }

  /**
   * An operand that saw no key accesses leaves a non-empty accumulator's
   * mean as it was; with both empty the mean is reset to 0.
   */
  lemma AggregatedZeroCountOperand(acc: Stats, ss: Stats)
    requires ValidOperand(ss) && ss.keyAccess.cnt == 0
    ensures acc.keyAccess.cnt > 0 ==> Aggregated(acc, ss).keyAccess.mean == acc.keyAccess.mean
    ensures acc.keyAccess.cnt == 0 ==> Aggregated(acc, ss).keyAccess.mean == 0.0
  {
    if acc.keyAccess.cnt > 0 {
      var r := Aggregated(acc, ss).keyAccess;
      var c := acc.keyAccess.cnt as real;
      assert r == CombineKeyAccess(acc.keyAccess, ss.keyAccess);
      assert r.mean == (c * acc.keyAccess.mean + 0.0) / c;
      assert (c * acc.keyAccess.mean) / c == acc.keyAccess.mean;
    }
  }

  /**
   * Combining two key-access records keeps every access: the combined
   * count and mean stand for the accesses of both.
   */
  lemma CombinedAccessTotal(a: KeyAccess, b: KeyAccess)
    ensures AccessTotal(CombineKeyAccess(a, b)) == AccessTotal(a) + AccessTotal(b)
  {
  }

  /** Every additive field becomes the accumulator's value plus the operand's. */
  lemma AggregatedAdditive(acc: Stats, ss: Stats, f: Additive)
    requires ValidOperand(ss)
    ensures AdditiveValue(Aggregated(acc, ss), f) == AdditiveValue(acc, f) + AdditiveValue(ss, f)
  {
  }

  /** Every peak field becomes the larger of the two values (fmax). */
  lemma AggregatedPeak(acc: Stats, ss: Stats, p: Peak)
    requires ValidOperand(ss)
    ensures var v := PeakValue(Aggregated(acc, ss), p);
      v >= PeakValue(acc, p) && v >= PeakValue(ss, p) && (v == PeakValue(acc, p) || v == PeakValue(ss, p))
  {
  }

  /** Both minimum occupancies become the smaller of the two values (fmin). */
  lemma AggregatedTrough(acc: Stats, ss: Stats, t: Trough)
    requires ValidOperand(ss)
    ensures var v := TroughValue(Aggregated(acc, ss), t);
      v <= TroughValue(acc, t) && v <= TroughValue(ss, t) && (v == TroughValue(acc, t) || v == TroughValue(ss, t))
  {
  }

  /**
   * Every derived average is 0 when its count is 0. Otherwise the average
   * consumption percentage is the whole-number quotient of the new total
   * consumption by the new total count, and the occupancy and latency
   * averages times their counts give back their sums.
   */
  lemma AggregatedAverages(acc: Stats, ss: Stats)
    requires ValidOperand(ss)
    ensures var r := Aggregated(acc, ss);
      (r.memory.count == 0 ==> r.memory.avgPercentage == 0.0) &&
      (r.memory.count > 0 ==> IntegralQuotient(r.memory.avgPercentage, r.memory.consumption, r.memory.count)) &&
      (r.ebs.count == 0 ==> r.ebs.avgPercentage == 0.0) &&
      (r.ebs.count > 0 ==> IntegralQuotient(r.ebs.avgPercentage, r.ebs.consumption, r.ebs.count)) &&
      (r.memoryOccupancy.cnt == 0 ==> r.memoryOccupancy.avg == 0.0) &&
      (r.memoryOccupancy.cnt > 0 ==> r.memoryOccupancy.avg * r.memoryOccupancy.cnt as real == r.memoryOccupancy.sum) &&
      (r.ebsOccupancy.cnt == 0 ==> r.ebsOccupancy.avg == 0.0) &&
      (r.ebsOccupancy.cnt > 0 ==> r.ebsOccupancy.avg * r.ebsOccupancy.cnt as real == r.ebsOccupancy.sum) &&
      (r.traffic.cntLatency == 0 ==> r.traffic.avgLatency == 0.0) &&
      (r.traffic.cntLatency > 0 ==> r.traffic.avgLatency * r.traffic.cntLatency as real == r.traffic.sumLatency)
  {
  }

  /** `v` is a whole number q with q * cnt <= total < (q + 1) * cnt. */
  predicate IntegralQuotient(v: real, total: nat, cnt: nat)
  {
    v == v.Floor as real && v.Floor * cnt <= total < (v.Floor + 1) * cnt
  }

  /**
   * Both node capacities are the operand's, whatever the accumulator held,
   * and each tier's node count is the least number of nodes of that
   * capacity that hold the tier's new total consumption when filled to
   * MaxMemoryNodeConsumption -- the memory threshold for the EBS tier too --
   * or 0 for a zero capacity.
   */
  lemma AggregatedCapacity(acc: Stats, ss: Stats)
    requires ValidOperand(ss)
    ensures var r := Aggregated(acc, ss);
      r.memory.nodeCapacity == ss.memory.nodeCapacity && r.ebs.nodeCapacity == ss.ebs.nodeCapacity &&
      SizedFor(r.memory.requiredNodes, r.memory.consumption, MaxMemoryNodeConsumption, ss.memory.nodeCapacity) &&
      SizedFor(r.ebs.requiredNodes, r.ebs.consumption, MaxMemoryNodeConsumption, ss.ebs.nodeCapacity)
  {
  }

  /**
   * Against the same operand, an accumulator with a larger total
   * consumption never asks for fewer nodes, in either tier.
   */
  lemma AggregatedRequiredNodesMonotonic(acc1: Stats, acc2: Stats, ss: Stats)
    requires ValidOperand(ss)
    requires acc1.memory.consumption <= acc2.memory.consumption
    requires acc1.ebs.consumption <= acc2.ebs.consumption
    ensures Aggregated(acc1, ss).memory.requiredNodes <= Aggregated(acc2, ss).memory.requiredNodes
    ensures Aggregated(acc1, ss).ebs.requiredNodes <= Aggregated(acc2, ss).ebs.requiredNodes
  {
    RequiredNodesMonotonic(acc1.memory.consumption + ss.memory.consumption, acc2.memory.consumption + ss.memory.consumption,
                           MaxMemoryNodeConsumption, ss.memory.nodeCapacity);
    RequiredNodesMonotonic(acc1.ebs.consumption + ss.ebs.consumption, acc2.ebs.consumption + ss.ebs.consumption,
                           MaxMemoryNodeConsumption, ss.ebs.nodeCapacity);
  }

  /**
   * The EBS node count is sized with the memory threshold: an EBS total of 7
   * on nodes of capacity 10 asks for 2 nodes, where the EBS threshold would
   * ask for 1.
   */
  lemma EbsSizedWithMemoryThreshold(acc: Stats, ss: Stats)
    requires ValidOperand(ss)
    requires acc.ebs.consumption == 0 && ss.ebs.consumption == 7 && ss.ebs.nodeCapacity == 10.0
    ensures Aggregated(acc, ss).ebs.requiredNodes == 2
    ensures RequiredNodes(7, MaxEbsNodeConsumption, 10.0) == 1
  {
    var n := Aggregated(acc, ss).ebs.requiredNodes;
    assert (n as real - 1.0) * 6.0 < 7.0 <= n as real * 6.0;
    var m := RequiredNodes(7, MaxEbsNodeConsumption, 10.0);
    assert (m as real - 1.0) * 7.5 < 7.0 <= m as real * 7.5;
  }

  /**
   * The owner of the memory minimum is replaced by the operand's exactly
   * when the operand's minimum is strictly smaller; on a tie or a larger
   * value both addresses stay.
   */
  lemma AggregatedMinOwner(acc: Stats, ss: Stats)
    requires ValidOperand(ss)
    ensures ss.memoryOccupancy.min < acc.memoryOccupancy.min ==> MinOwner(Aggregated(acc, ss)) == MinOwner(ss)
    ensures ss.memoryOccupancy.min >= acc.memoryOccupancy.min ==> MinOwner(Aggregated(acc, ss)) == MinOwner(acc)
  {
  }

  /**
   * The first aggregate after clear() yields the operand's additive totals,
   * its key-access mean when it saw accesses, its peaks when they are not
   * negative, its minimum occupancies when they are at most 1, and its
   * owner of the memory minimum when that minimum is below 1.
   */
  lemma ClearedThenAggregated(memoryNodeCapacity: real, ebsNodeCapacity: real, ss: Stats)
    requires ValidOperand(ss)
    ensures var r := Aggregated(Cleared(memoryNodeCapacity, ebsNodeCapacity), ss);
      (forall f :: AdditiveValue(r, f) == AdditiveValue(ss, f)) &&
      (forall p :: PeakValue(ss, p) >= 0.0 ==> PeakValue(r, p) == PeakValue(ss, p)) &&
      (forall t :: TroughValue(ss, t) <= 1.0 ==> TroughValue(r, t) == TroughValue(ss, t)) &&
      (ss.keyAccess.cnt > 0 ==> r.keyAccess.mean == ss.keyAccess.mean) &&
      (ss.memoryOccupancy.min < 1.0 ==> MinOwner(r) == MinOwner(ss)) &&
      (ss.memoryOccupancy.min >= 1.0 ==> MinOwner(r) == (DefaultAddress, DefaultAddress))
  {
    var c := Cleared(memoryNodeCapacity, ebsNodeCapacity);
    var r := Aggregated(c, ss);
    ClearedSentinels(memoryNodeCapacity, ebsNodeCapacity);
    forall f ensures AdditiveValue(r, f) == AdditiveValue(ss, f) {
      AggregatedAdditive(c, ss, f);
    }
    forall p | PeakValue(ss, p) >= 0.0 ensures PeakValue(r, p) == PeakValue(ss, p) {
      AggregatedPeak(c, ss, p);
    }
    forall t | TroughValue(ss, t) <= 1.0 ensures TroughValue(r, t) == TroughValue(ss, t) {
      AggregatedTrough(c, ss, t);
    }
    if ss.keyAccess.cnt > 0 {
      var n := ss.keyAccess.cnt as real;
      assert r.keyAccess == CombineKeyAccess(c.keyAccess, ss.keyAccess);
      assert r.keyAccess.mean == (0.0 + n * ss.keyAccess.mean) / n;
      assert (n * ss.keyAccess.mean) / n == ss.keyAccess.mean;
    }
  }

  /** The accumulator itself, whose operations overwrite its fields in place. */
  class SummaryStats {
    var keyAccess: KeyAccess
    var memory: TierConsumption
    var ebs: TierConsumption
    var memoryOccupancy: Occupancy
    var ebsOccupancy: Occupancy
    var minOccupancyMemoryPublicIp: Address
    var minOccupancyMemoryPrivateIp: Address
    var traffic: Traffic

    /** The current contents of the record, as a value. */
    function Snapshot(): Stats
      reads this
    {
      Stats(keyAccess, memory, ebs, memoryOccupancy, ebsOccupancy,
            minOccupancyMemoryPublicIp, minOccupancyMemoryPrivateIp, traffic)
    }

    /**
     * A new record is cleared. The node capacities are never initialised,
     * so nothing is known about them.
     */
    constructor ()
      ensures Snapshot() == Cleared(memory.nodeCapacity, ebs.nodeCapacity)
    {
      new;
      Clear();
    }

    /** Resets every field except the two node capacities to its sentinel. */
    method Clear()
      modifies this
      ensures Snapshot() == Cleared(old(memory.nodeCapacity), old(ebs.nodeCapacity))
    {
      keyAccess := KeyAccess(cnt := 0, mean := 0.0, stdSquared := 0.0);
      memory := memory.(count := 0, access := 0, consumption := 0);
      ebs := ebs.(count := 0, access := 0, consumption := 0);
      memory := memory.(maxPercentage := 0.0, avgPercentage := 0.0);
      ebs := ebs.(maxPercentage := 0.0, avgPercentage := 0.0);
      memory := memory.(requiredNodes := 0);
      ebs := ebs.(requiredNodes := 0);
      memoryOccupancy := Occupancy(max := 0.0, min := 1.0, avg := 0.0, sum := 0.0, cnt := 0);
      ebsOccupancy := Occupancy(max := 0.0, min := 1.0, avg := 0.0, sum := 0.0, cnt := 0);
      minOccupancyMemoryPublicIp := DefaultAddress;
      minOccupancyMemoryPrivateIp := DefaultAddress;
      traffic := Traffic(sumLatency := 0.0, cntLatency := 0, avgLatency := 0.0, totalThroughput := 0.0);
    }

    /**
     * Folds one node's snapshot into the record, one group of fields after
     * the other in the order the source updates them. Within a group, later
     * statements read the fields earlier ones have already updated, and the
     * owner of the memory minimum is compared and replaced before the
     * minimum itself changes.
     */
    method Aggregate(ss: Stats)
      requires ValidOperand(ss)
      modifies this
      ensures Snapshot() == Aggregated(old(Snapshot()), ss)
    {
      AggregateKeyAccess(ss);
      AggregateConsumption(ss);
      AggregateMemoryOccupancy(ss);
      AggregateEbsOccupancy(ss);
      AggregateTraffic(ss);
    }

    /** Key-access count, weighted mean and squared standard deviation. */
    method AggregateKeyAccess(ss: Stats)
      modifies this`keyAccess
      ensures keyAccess == CombineKeyAccess(old(keyAccess), ss.keyAccess)
    {
      var total := keyAccess.cnt as real * keyAccess.mean + ss.keyAccess.cnt as real * ss.keyAccess.mean;
      keyAccess := keyAccess.(cnt := keyAccess.cnt + ss.keyAccess.cnt);
      if keyAccess.cnt != 0 {
        keyAccess := keyAccess.(mean := total / keyAccess.cnt as real);
      } else {
        keyAccess := keyAccess.(mean := 0.0);
      }
      assert keyAccess.mean == WeightedMean(old(keyAccess.cnt), old(keyAccess.mean), ss.keyAccess.cnt, ss.keyAccess.mean);
      keyAccess := keyAccess.(stdSquared := keyAccess.stdSquared + ss.keyAccess.stdSquared);
    }

    /**
     * Both tiers' totals, consumption percentages, node capacities and
     * required node counts; the EBS count is sized with the memory threshold.
     */
    method AggregateConsumption(ss: Stats)
      requires ValidOperand(ss)
      modifies this`memory, this`ebs
      ensures memory == CombineConsumption(old(memory), ss.memory, MaxMemoryNodeConsumption)
      ensures ebs == CombineConsumption(old(ebs), ss.ebs, MaxMemoryNodeConsumption)
    {
      AggregateTotals(ss);
      SizeTiers(ss);
    }

    /**
     * Both tiers' counts, accesses and consumption add up, the peak
     * percentage is the larger one and the average percentage is the whole
     * quotient of the new totals.
     */
    method AggregateTotals(ss: Stats)
      modifies this`memory, this`ebs
      ensures memory == old(memory).(
        count := old(memory.count) + ss.memory.count,
        access := old(memory.access) + ss.memory.access,
        consumption := old(memory.consumption) + ss.memory.consumption,
        maxPercentage := Max(old(memory.maxPercentage), ss.memory.maxPercentage),
        avgPercentage := Quotient(old(memory.consumption) + ss.memory.consumption, old(memory.count) + ss.memory.count) as real)
      ensures ebs == old(ebs).(
        count := old(ebs.count) + ss.ebs.count,
        access := old(ebs.access) + ss.ebs.access,
        consumption := old(ebs.consumption) + ss.ebs.consumption,
        maxPercentage := Max(old(ebs.maxPercentage), ss.ebs.maxPercentage),
        avgPercentage := Quotient(old(ebs.consumption) + ss.ebs.consumption, old(ebs.count) + ss.ebs.count) as real)
    {
      memory := memory.(count := memory.count + ss.memory.count, access := memory.access + ss.memory.access);
      ebs := ebs.(count := ebs.count + ss.ebs.count, access := ebs.access + ss.ebs.access);
      memory := memory.(consumption := memory.consumption + ss.memory.consumption);
      ebs := ebs.(consumption := ebs.consumption + ss.ebs.consumption);

      memory := memory.(maxPercentage := Max(memory.maxPercentage, ss.memory.maxPercentage));
      ebs := ebs.(maxPercentage := Max(ebs.maxPercentage, ss.ebs.maxPercentage));

      if memory.count != 0 {
        memory := memory.(avgPercentage := (memory.consumption / memory.count) as real);
      } else {
        memory := memory.(avgPercentage := 0.0);
      }
      if ebs.count != 0 {
        ebs := ebs.(avgPercentage := (ebs.consumption / ebs.count) as real);
      } else {
        ebs := ebs.(avgPercentage := 0.0);
      }
    }

    /**
     * Both capacities are taken from the operand, and each tier's node count
     * is sized from its total consumption with the memory threshold.
     */
    method SizeTiers(ss: Stats)
      requires ValidOperand(ss)
      modifies this`memory, this`ebs
      ensures memory == old(memory).(
        nodeCapacity := ss.memory.nodeCapacity,
        requiredNodes := RequiredNodes(old(memory.consumption), MaxMemoryNodeConsumption, ss.memory.nodeCapacity))
      ensures ebs == old(ebs).(
        nodeCapacity := ss.ebs.nodeCapacity,
        requiredNodes := RequiredNodes(old(ebs.consumption), MaxMemoryNodeConsumption, ss.ebs.nodeCapacity))
    {
      memory := memory.(nodeCapacity := ss.memory.nodeCapacity);
      ebs := ebs.(nodeCapacity := ss.ebs.nodeCapacity);

      if memory.nodeCapacity != 0.0 {
        assert memory.consumption as real / (MaxMemoryNodeConsumption * memory.nodeCapacity) >= 0.0 by {
          DivNonNegative(memory.consumption as real, MaxMemoryNodeConsumption * memory.nodeCapacity);
        }
        memory := memory.(requiredNodes :=
          Ceil(memory.consumption as real / (MaxMemoryNodeConsumption * memory.nodeCapacity)));
      } else {
        memory := memory.(requiredNodes := 0);
      }
      if ebs.nodeCapacity != 0.0 {
        assert ebs.consumption as real / (MaxMemoryNodeConsumption * ebs.nodeCapacity) >= 0.0 by {
          DivNonNegative(ebs.consumption as real, MaxMemoryNodeConsumption * ebs.nodeCapacity);
        }
        ebs := ebs.(requiredNodes :=
          Ceil(ebs.consumption as real / (MaxMemoryNodeConsumption * ebs.nodeCapacity)));
      } else {
        ebs := ebs.(requiredNodes := 0);
      }
    }

    /**
     * Memory-tier occupancy. The owner of the minimum is compared and
     * replaced before the minimum itself changes, and only on a strictly
     * smaller operand minimum.
     */
    method AggregateMemoryOccupancy(ss: Stats)
      modifies this`memoryOccupancy, this`minOccupancyMemoryPublicIp, this`minOccupancyMemoryPrivateIp
      ensures memoryOccupancy == CombineOccupancy(old(memoryOccupancy), ss.memoryOccupancy)
      ensures ss.memoryOccupancy.min < old(memoryOccupancy.min) ==>
        minOccupancyMemoryPublicIp == ss.minOccupancyMemoryPublicIp &&
        minOccupancyMemoryPrivateIp == ss.minOccupancyMemoryPrivateIp
      ensures ss.memoryOccupancy.min >= old(memoryOccupancy.min) ==>
        minOccupancyMemoryPublicIp == old(minOccupancyMemoryPublicIp) &&
        minOccupancyMemoryPrivateIp == old(minOccupancyMemoryPrivateIp)
    {
      if ss.memoryOccupancy.min < memoryOccupancy.min {
        minOccupancyMemoryPublicIp := ss.minOccupancyMemoryPublicIp;
        minOccupancyMemoryPrivateIp := ss.minOccupancyMemoryPrivateIp;
      }

      memoryOccupancy := memoryOccupancy.(max := Max(memoryOccupancy.max, ss.memoryOccupancy.max));
      memoryOccupancy := memoryOccupancy.(min := Min(memoryOccupancy.min, ss.memoryOccupancy.min));
      memoryOccupancy := memoryOccupancy.(sum := memoryOccupancy.sum + ss.memoryOccupancy.sum);
      memoryOccupancy := memoryOccupancy.(cnt := memoryOccupancy.cnt + ss.memoryOccupancy.cnt);
      if memoryOccupancy.cnt != 0 {
        memoryOccupancy := memoryOccupancy.(avg := memoryOccupancy.sum / memoryOccupancy.cnt as real);
      } else {
        memoryOccupancy := memoryOccupancy.(avg := 0.0);
      }
    }

    /** EBS-tier occupancy; this tier keeps no owner for its minimum. */
    method AggregateEbsOccupancy(ss: Stats)
      modifies this`ebsOccupancy
      ensures ebsOccupancy == CombineOccupancy(old(ebsOccupancy), ss.ebsOccupancy)
    {
      ebsOccupancy := ebsOccupancy.(max := Max(ebsOccupancy.max, ss.ebsOccupancy.max));
      ebsOccupancy := ebsOccupancy.(min := Min(ebsOccupancy.min, ss.ebsOccupancy.min));
      ebsOccupancy := ebsOccupancy.(sum := ebsOccupancy.sum + ss.ebsOccupancy.sum);
      ebsOccupancy := ebsOccupancy.(cnt := ebsOccupancy.cnt + ss.ebsOccupancy.cnt);
      if ebsOccupancy.cnt != 0 {
        ebsOccupancy := ebsOccupancy.(avg := ebsOccupancy.sum / ebsOccupancy.cnt as real);
      } else {
        ebsOccupancy := ebsOccupancy.(avg := 0.0);
      }
    }

    /** Latency sum, count and average; total throughput. */
    method AggregateTraffic(ss: Stats)
      modifies this`traffic
      ensures traffic == CombineTraffic(old(traffic), ss.traffic)
    {
      traffic := traffic.(sumLatency := traffic.sumLatency + ss.traffic.sumLatency);
      traffic := traffic.(cntLatency := traffic.cntLatency + ss.traffic.cntLatency);
      if traffic.cntLatency != 0 {
        traffic := traffic.(avgLatency := traffic.sumLatency / traffic.cntLatency as real);
      } else {
        traffic := traffic.(avgLatency := 0.0);
      }

      traffic := traffic.(totalThroughput := traffic.totalThroughput + ss.traffic.totalThroughput);
    }
  }
}
