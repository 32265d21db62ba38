# SummaryStats: the cluster-statistics accumulator of the KVS monitor

The monitoring thread of the key-value store builds one cluster-wide
`SummaryStats` per epoch: it calls `clear()` and then `aggregate(ss)` once for
every node's snapshot. `clear()` resets every field except the two node
capacities to a sentinel, and
`aggregate(ss)` folds one snapshot in field by field: a weighted mean of the
key-access counts, additive totals, fmax/fmin for peaks and minima, guarded
averages, node capacities taken from the operand with the required node
counts sized from them, and the address pair of the least-occupied memory
node, which moves only on a strictly smaller minimum.

The model has three modules:

- `StatsArith` (`stats_arith.dfy`): the arithmetic one aggregation step uses.
  These are fmax, fmin, the weighted mean, the guarded average, the unsigned
  integer quotient, ceil, and the required node count.
- `MonitoringUtils` (`monitoring_utils.dfy`): the record as a value (`Stats`),
  the state `clear()` leaves (`Cleared`) and one `aggregate` step on values
  (`Aggregated`). It also holds the class `SummaryStats`, whose `Clear` and
  `Aggregate` overwrite its fields in place in the source's order. These are
  proved equal to `Cleared` and `Aggregated`. The lemmas there state each
  aggregation rule.
- `SummaryFold` (`summary_fold.dfy`): repeated aggregation over a sequence of
  snapshots (`Fold`). Its lemmas cover the fold invariants and the order
  dependence of the capacity fields.

Fields are grouped into small records. `keyAccess` holds `key_access_cnt`,
`key_access_mean` and the square of `key_access_std`. `memory` and `ebs` hold
`total_*_count`, `total_*_access`, `total_*_consumption`,
`max_/avg_*_consumption_percentage`, `*_node_capacity` and `required_*_node`.
`memoryOccupancy` and `ebsOccupancy` hold `max_/min_/avg_/sum_/cnt_*_occupancy`.
`minOccupancyMemoryPublicIp` and `minOccupancyMemoryPrivateIp` are kept as they
are. `traffic` holds `sum_latency`, `cnt_latency`, `avg_latency` and
`total_throughput`. Doubles are exact reals and unsigned counters are naturals.

Two behaviours of the source are kept as written. First, `required_ebs_node`
is sized with the memory threshold `kMaxMemoryNodeConsumption` (0.6), not with
`kMaxEbsNodeConsumption` (0.75). Second, the node capacities are overwritten
by each operand, so a fold's capacity fields and node counts depend on which
snapshot came last.

## Model

| member | source | states |
|---|---|---|
| `StatsArith.Max` | kvs/include/monitor/monitoring_utils.hpp:99-100 | fmax: the result is at least both operands and is one of them |
| `StatsArith.Min` | kvs/include/monitor/monitoring_utils.hpp:136 | fmin: the result is at most both operands and is one of them |
| `StatsArith.WeightedMean` | kvs/include/monitor/monitoring_utils.hpp:83-89 | the combined mean times the combined count equals cnt·mean + ss.cnt·ss.mean; 0 when both counts are 0 |
| `StatsArith.Average` | kvs/include/monitor/monitoring_utils.hpp:140-144 | a guarded average: 0 for a zero count, else average times count is the sum |
| `StatsArith.Quotient` | kvs/include/monitor/monitoring_utils.hpp:102-111 | unsigned division guarded by a zero check: the largest q with q·cnt ≤ total, or 0 |
| `StatsArith.Ceil` | kvs/include/monitor/monitoring_utils.hpp:117-118 | ceil: the least integer not below its argument |
| `StatsArith.RequiredNodes` | kvs/include/monitor/monitoring_utils.hpp:116-121 | 0 for a zero capacity; else the least n whose n nodes, each filled to the threshold, hold the consumption |
| `StatsArith.RequiredNodesMonotonic` | kvs/include/monitor/monitoring_utils.hpp:116-128 | for a fixed capacity the node count never decreases as consumption grows |
| `MonitoringUtils.Cleared` | kvs/include/monitor/monitoring_utils.hpp:49-81 | the state clear() leaves, with the old capacities; specified by `ClearedSentinels` |
| `MonitoringUtils.CombineKeyAccess` | kvs/include/monitor/monitoring_utils.hpp:83-90 | the key-access step; specified by `AggregatedKeyAccess`, `AggregatedZeroCountOperand` and `CombinedAccessTotal` |
| `MonitoringUtils.CombineConsumption` | kvs/include/monitor/monitoring_utils.hpp:92-128 | one tier's consumption step; specified by `AggregatedAdditive`, `AggregatedPeak`, `AggregatedAverages` and `AggregatedCapacity` |
| `MonitoringUtils.CombineOccupancy` | kvs/include/monitor/monitoring_utils.hpp:135-155 | one tier's occupancy step; specified by `AggregatedAdditive`, `AggregatedPeak`, `AggregatedTrough` and `AggregatedAverages` |
| `MonitoringUtils.CombineTraffic` | kvs/include/monitor/monitoring_utils.hpp:157-165 | the latency and throughput step; specified by `AggregatedAdditive` and `AggregatedAverages` |
| `MonitoringUtils.Aggregated` | kvs/include/monitor/monitoring_utils.hpp:82-166 | one aggregate(ss) on values; specified rule by rule by the `Aggregated*` lemmas and `EbsSizedWithMemoryThreshold` |
| `MonitoringUtils.ClearedSentinels` | kvs/include/monitor/monitoring_utils.hpp:49-81 | after clear() all counts, sums, totals, averages, maxima and node counts are 0, both minima are 1, the owner pair is the default Address, the capacities are untouched |
| `MonitoringUtils.SummaryStats.constructor` | kvs/include/monitor/monitoring_utils.hpp:167 | a new record is cleared; its capacities are arbitrary |
| `MonitoringUtils.SummaryStats.Clear` | kvs/include/monitor/monitoring_utils.hpp:49-81 | the record becomes `Cleared` of its own old capacities |
| `MonitoringUtils.SummaryStats.Aggregate` | kvs/include/monitor/monitoring_utils.hpp:82-166 | the in-place update leaves the record equal to `Aggregated(old record, ss)` |
| `MonitoringUtils.SummaryStats.AggregateKeyAccess` | kvs/include/monitor/monitoring_utils.hpp:83-90 | the key-access group becomes the count sum, the weighted mean read after the count update, and the sum of squared deviations |
| `MonitoringUtils.SummaryStats.AggregateConsumption` | kvs/include/monitor/monitoring_utils.hpp:92-128 | both tiers' consumption groups become the combined totals, peaks, quotients, operand capacities and node counts sized with 0.6 |
| `MonitoringUtils.SummaryStats.AggregateTotals` | kvs/include/monitor/monitoring_utils.hpp:92-111 | both tiers' counts, accesses and consumption add, peaks take fmax, average percentages are the whole quotient of the new totals |
| `MonitoringUtils.SummaryStats.SizeTiers` | kvs/include/monitor/monitoring_utils.hpp:113-128 | both capacities become the operand's and both node counts are `RequiredNodes` of the new totals with the 0.6 threshold |
| `MonitoringUtils.SummaryStats.AggregateMemoryOccupancy` | kvs/include/monitor/monitoring_utils.hpp:130-144 | memory occupancy is combined; the owner pair is replaced iff the operand's minimum is strictly smaller than the old minimum |
| `MonitoringUtils.SummaryStats.AggregateEbsOccupancy` | kvs/include/monitor/monitoring_utils.hpp:146-155 | EBS occupancy is combined, with no owner pair |
| `MonitoringUtils.SummaryStats.AggregateTraffic` | kvs/include/monitor/monitoring_utils.hpp:157-165 | latency sum and count add, the average is recomputed, throughput adds |
| `MonitoringUtils.AggregatedKeyAccess` | kvs/include/monitor/monitoring_utils.hpp:83-90 | count adds; mean·count is cnt·mean + ss.cnt·ss.mean, or the mean is 0 for a zero count; squared deviations add |
| `MonitoringUtils.AggregatedZeroCountOperand` | kvs/include/monitor/monitoring_utils.hpp:83-89 | an operand with no accesses leaves a non-empty accumulator's mean unchanged and resets an empty one's to 0 |
| `MonitoringUtils.CombinedAccessTotal` | kvs/include/monitor/monitoring_utils.hpp:83-86 | the combined count and mean stand for the accesses of both sides |
| `MonitoringUtils.AggregatedAdditive` | kvs/include/monitor/monitoring_utils.hpp:84-165 | each of the 15 additive fields becomes old value plus operand value |
| `MonitoringUtils.AggregatedPeak` | kvs/include/monitor/monitoring_utils.hpp:99-100 | each peak consumption percentage and peak occupancy becomes the larger of the two |
| `MonitoringUtils.AggregatedTrough` | kvs/include/monitor/monitoring_utils.hpp:135-147 | each minimum occupancy becomes the smaller of the two |
| `MonitoringUtils.AggregatedAverages` | kvs/include/monitor/monitoring_utils.hpp:102-163 | each average is 0 for a zero count; consumption percentages are whole-number quotients of total by count; occupancy and latency averages times count give the sum |
| `MonitoringUtils.AggregatedCapacity` | kvs/include/monitor/monitoring_utils.hpp:113-128 | capacities equal the operand's whatever the accumulator held; both node counts are sized from the new totals with the 0.6 threshold |
| `MonitoringUtils.AggregatedRequiredNodesMonotonic` | kvs/include/monitor/monitoring_utils.hpp:116-128 | with the same operand, a larger accumulated consumption never gives fewer nodes in either tier |
| `MonitoringUtils.EbsSizedWithMemoryThreshold` | kvs/include/monitor/monitoring_utils.hpp:123-125 | EBS total 7 on capacity 10 gives 2 nodes, where the EBS threshold 0.75 would give 1 |
| `MonitoringUtils.AggregatedMinOwner` | kvs/include/monitor/monitoring_utils.hpp:130-133 | the owner pair becomes the operand's when its minimum is strictly smaller, and stays on ties or larger values |
| `MonitoringUtils.ClearedThenAggregated` | kvs/include/monitor/monitoring_utils.hpp:82-166 | the first aggregate after clear() yields the operand's totals, its mean, its peaks when ≥ 0, its minima when ≤ 1, and its owner pair when its minimum is below 1 |
| `SummaryFold.Fold` | kvs/include/monitor/monitoring_utils.hpp:82-166 | repeated aggregate calls over a sequence of snapshots; specified by the `Fold*` lemmas, `ClearedFold` and `AggregationOrder` |
| `SummaryFold.FoldAdditive` | kvs/include/monitor/monitoring_utils.hpp:84-165 | after any number of aggregates each additive field is its initial value plus its sum over the snapshots |
| `SummaryFold.FoldKeyAccessMean` | kvs/include/monitor/monitoring_utils.hpp:83-89 | the final count and mean stand for the accesses of the initial record and of all snapshots |
| `SummaryFold.FoldPeak` | kvs/include/monitor/monitoring_utils.hpp:99-100 | each folded peak is at least the initial and every snapshot's, and equals one of them |
| `SummaryFold.FoldTrough` | kvs/include/monitor/monitoring_utils.hpp:135-147 | each folded minimum is at most the initial and every snapshot's, and equals one of them |
| `SummaryFold.FoldMinOwner` | kvs/include/monitor/monitoring_utils.hpp:130-136 | the owner pair belongs to the first snapshot reporting the current minimum, or is still the initial pair when no snapshot went below the initial minimum |
| `SummaryFold.OwnerStep` | kvs/include/monitor/monitoring_utils.hpp:130-136 | a step that takes the smaller minimum and moves the owner only on a strictly smaller one keeps the owner with the first reporter of the minimum |
| `SummaryFold.ClearedFold` | kvs/include/monitor/monitoring_utils.hpp:49-166 | clear() then a fold gives the snapshots' sums and accesses, and the owner pair of the first snapshot to report the minimum below 1, else the default pair |
| `SummaryFold.FoldCapacity` | kvs/include/monitor/monitoring_utils.hpp:113-128 | after a non-empty fold the capacities are the last snapshot's and the node counts are sized with them |
| `SummaryFold.AggregationOrder` | kvs/include/monitor/monitoring_utils.hpp:92-128 | two snapshots in either order give equal totals, peaks and minima, but the capacities of whichever came last |
| `SummaryFold.OrderChangesRequiredNodes` | kvs/include/monitor/monitoring_utils.hpp:113-121 | swapping two snapshots of capacities 10 and 5 with 6 units consumed changes the memory node count between 1 and 2 |
| `SummaryFold.ZeroCountSnapshotKeepsMean` | kvs/include/monitor/monitoring_utils.hpp:83-89 | snapshots (cnt 10, mean 5) and (cnt 0, mean 0) aggregated after clear() give cnt 10, mean 5 in either order |

## Left out

- `MonitoringUtils.SummaryStats.AggregateKeyAccess`: keeps the square of `key_access_std`, not the field itself, because there is no real square root; aggregation adds the squares, which is what sqrt(std² + ss.std²) preserves.
- Floating-point behaviour: doubles are exact reals. So there is no rounding, NaN or infinity in fmax, fmin, ceil or the divisions.
- Counter overflow: `unsigned` and `unsigned long long` counters are unbounded naturals, with no wrap-around.
- `MonitoringUtils.SummaryStats.Aggregate`: requires the operand's node capacities to be non-negative, because a capacity is a size. The source itself accepts a negative capacity: `required_*_node` is then the ceiling of a negative quotient converted to unsigned, which is 0 when the quotient lies in (-1, 0] and undefined only from -1 down. The model does not capture that defined 0.
- The node capacities are never initialised by the constructor. The model leaves them arbitrary rather than modelling reads of indeterminate values.
- The `thread_stats` struct (lines 203–231) is a data holder with no behaviour in the file.
- The functions that are only declared (lines 233–291) have no bodies in the file. These are the metadata request builders, `get_key_responses`, the stats collectors and summary computation, the replication-factor updates, `add_node` and `remove_node`.
- `Address`, the hash rings and the request types come from `hash_ring.hpp` and `requests.hpp`, which are not part of this model. `Address` is a value with equality and a default (empty) value.
- Logging and the configuration constants that `aggregate` does not read are left out. Only `kMaxMemoryNodeConsumption` and `kMaxEbsNodeConsumption` are modelled.
- The class keeps the 33 fields as eight grouped fields. `Aggregate` keeps the source's update order inside each group and across groups. `Clear` resets each group together rather than in the source's interleaved order; `clear()` reads no field, so the order does not change its result.
