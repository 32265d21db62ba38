/**
 * The arithmetic that SummaryStats::aggregate applies field by field:
 * fmax/fmin, the weighted mean of key-access counts, guarded averages,
 * the integer quotient behind the average consumption percentage, and the
 * ceiling that turns total consumption into a required node count.
 * Doubles are exact reals here; unsigned counters are unbounded naturals.
 */
module StatsArith {

  /** fmax over exact reals: the larger of the two operands. */
  function Max(a: real, b: real): (m: real)
    ensures m >= a && m >= b
    ensures m == a || m == b
  {
    if a >= b then a else b
  }

  /** fmin over exact reals: the smaller of the two operands. */
  function Min(a: real, b: real): (m: real)
    ensures m <= a && m <= b
    ensures m == a || m == b
  {
    if a <= b then a else b
  }

  /**
   * Mean of the union of two populations, given each one's size and mean:
   * the combined mean times the combined size is the sum of the two
   * weighted means. Two empty populations give 0.
   */
  function WeightedMean(cnt: nat, mean: real, otherCnt: nat, otherMean: real): (r: real)
    ensures cnt + otherCnt == 0 ==> r == 0.0
    ensures cnt + otherCnt > 0 ==>
      r * (cnt + otherCnt) as real == cnt as real * mean + otherCnt as real * otherMean
  {
    var total := cnt as real * mean + otherCnt as real * otherMean;
    var n := cnt + otherCnt;
    if n != 0 then total / n as real else 0.0
  }

  /** A running sum divided by its count, or 0 when nothing was counted. */
  function Average(sum: real, cnt: nat): (r: real)
    ensures cnt == 0 ==> r == 0.0
    ensures cnt > 0 ==> r * cnt as real == sum
  {
    if cnt != 0 then sum / cnt as real else 0.0
  }

  /**
   * Unsigned integer division guarded against a zero divisor: the largest
   * q with q * cnt <= total, or 0 when cnt is 0.
   */
  function Quotient(total: nat, cnt: nat): (q: nat)
    ensures cnt == 0 ==> q == 0
    ensures cnt > 0 ==> q * cnt <= total < (q + 1) * cnt
  {
    if cnt != 0 then total / cnt else 0
  }

  /** The C library's ceil over exact reals: the least integer not below x. */
  function Ceil(x: real): (c: int)
    ensures c as real - 1.0 < x <= c as real
  {
    -((-x).Floor)
  }

  /**
   * `n` nodes of the given capacity, each filled up to `threshold`, hold
   * `consumption` and n - 1 do not; 0 nodes for a zero capacity.
   */
  predicate SizedFor(n: nat, consumption: nat, threshold: real, capacity: real)
  {
    (capacity == 0.0 ==> n == 0) &&
    (capacity > 0.0 ==>
      (n as real - 1.0) * (threshold * capacity) < consumption as real <= n as real * (threshold * capacity))
  }

  /**
   * The number of nodes of the given capacity that can hold `consumption`
   * when each is filled only up to `threshold` of its capacity:
   * ceil(consumption / (threshold * capacity)), or 0 for a zero capacity.
   * It is the least n whose n nodes hold the consumption.
   */
  function RequiredNodes(consumption: nat, threshold: real, capacity: real): (n: nat)
    requires threshold > 0.0 && capacity >= 0.0
    ensures SizedFor(n, consumption, threshold, capacity)
  {
    if capacity != 0.0 then
      var unit := threshold * capacity;
      MulPositive(threshold, capacity);
      var c := Ceil(consumption as real / unit);
      CeilScaled(consumption as real, unit, c);
      c
    else
      0
  }

  /** The ceiling of x / u, scaled back by u, brackets x. */
  lemma CeilScaled(x: real, u: real, c: int)
    requires x >= 0.0 && u > 0.0
    requires c as real - 1.0 < x / u <= c as real
    ensures c >= 0
    ensures (c as real - 1.0) * u < x <= c as real * u
  {
    DivNonNegative(x, u);
    MulDivCancel(x, u);
    MulMonotone(x / u, c as real, u);
    MulStrictMonotone(c as real - 1.0, x / u, u);
  }

  lemma MulPositive(a: real, b: real)
    requires a > 0.0 && b > 0.0
    ensures a * b > 0.0
  {
  }

  lemma DivNonNegative(x: real, u: real)
    requires x >= 0.0 && u > 0.0
    ensures x / u >= 0.0
  {
  }

  lemma MulDivCancel(x: real, u: real)
    requires u > 0.0
    ensures (x / u) * u == x
  {
  }

  lemma MulMonotone(a: real, b: real, u: real)
    requires a <= b && u > 0.0
    ensures a * u <= b * u
  {
  }

  lemma MulStrictMonotone(a: real, b: real, u: real)
    requires a < b && u > 0.0
    ensures a * u < b * u
  {
  }

  lemma MulCancel(a: real, b: real, u: real)
    requires a * u < b * u && u > 0.0
    ensures a < b
  {
  }

  /** If a·u < x <= y <= b·u for a positive u, then a < b. */
  lemma BracketsOrdered(a: real, b: real, x: real, y: real, u: real)
    requires u > 0.0 && a * u < x && x <= y && y <= b * u
    ensures a < b
  {
    MulCancel(a, b, u);
  }

  /**
   * For a fixed capacity, the required node count never decreases when the
   * total consumption grows.
   */
  lemma RequiredNodesMonotonic(c1: nat, c2: nat, threshold: real, capacity: real)
    requires threshold > 0.0 && capacity >= 0.0
    requires c1 <= c2
    ensures RequiredNodes(c1, threshold, capacity) <= RequiredNodes(c2, threshold, capacity)
  {
    SizedForMonotonic(RequiredNodes(c1, threshold, capacity), RequiredNodes(c2, threshold, capacity),
                      c1, c2, threshold, capacity);
  }

  /** Any node counts that size two consumptions are ordered like them. */
  lemma SizedForMonotonic(n1: nat, n2: nat, c1: nat, c2: nat, threshold: real, capacity: real)
    requires threshold > 0.0 && capacity >= 0.0 && c1 <= c2
    requires SizedFor(n1, c1, threshold, capacity) && SizedFor(n2, c2, threshold, capacity)
    ensures n1 <= n2
  {
    if capacity > 0.0 {
      MulPositive(threshold, capacity);
      BracketsOrdered(n1 as real - 1.0, n2 as real, c1 as real, c2 as real, threshold * capacity);
    }
  }
}
