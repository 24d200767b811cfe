/**
 * Value semantics of the two accumulating instrument kinds the probes use:
 * a Summary (running count and sum) and a Histogram (running count, sum and
 * one cumulative count per bucket bound). Counters and gauges are plain
 * numbers and live directly in the registry (module Registry).
 */
module Instruments {

  /** The upper bound of one histogram bucket; the last bucket of every histogram is +Inf. */
  datatype Bound = Finite(limit: real) | PosInf

  /** An observation `v` falls into the bucket with bound `b` ("le" semantics). */
  predicate Within(v: real, b: Bound) {
    b.PosInf? || v <= b.limit
  }

  /** Bound `a` lies strictly below bound `b`. */
  predicate Below(a: Bound, b: Bound) {
    a.Finite? && (b.PosInf? || a.limit < b.limit)
  }

  /** The bucket bounds both duration histograms declare: 1, 2, 5, 7, 10, 15, 20, 50, 100, +Inf. */
  const DurationBuckets: seq<Bound> :=
    [Finite(1.0), Finite(2.0), Finite(5.0), Finite(7.0), Finite(10.0),
     Finite(15.0), Finite(20.0), Finite(50.0), Finite(100.0), PosInf]

  /** A summary: how many observations were made and what they add up to. */
  datatype Summary = Summary(count: nat, sum: real) {
    function Observe(v: real): (s: Summary) {
      Summary(count + 1, sum + v)
    }
  }

  const EmptySummary: Summary := Summary(0, 0.0)

  /**
   * A histogram: bucket `i` counts the observations that are at most
   * `bounds[i]`, so the buckets are cumulative and the +Inf bucket is `count`.
   */
  datatype Histogram = Histogram(bounds: seq<Bound>, buckets: seq<nat>, count: nat, sum: real) {

    predicate WellFormed() {
      && |buckets| == |bounds|
      && |bounds| > 0
      && bounds[|bounds| - 1] == PosInf
      && (forall i, j :: 0 <= i < j < |bounds| ==> Below(bounds[i], bounds[j]))
      && (forall i, j :: 0 <= i < j < |buckets| ==> buckets[i] <= buckets[j])
      && buckets[|buckets| - 1] == count
    }

    function Observe(v: real): (h: Histogram) {
      Histogram(bounds,
                seq(|buckets|, i requires 0 <= i < |buckets| =>
                  buckets[i] + if i < |bounds| && Within(v, bounds[i]) then 1 else 0),
                count + 1, sum + v)
    }
  }

  function EmptyHistogram(bounds: seq<Bound>): (h: Histogram)
    ensures h.bounds == bounds && h.count == 0 && h.sum == 0.0
    ensures |h.buckets| == |bounds| && forall i :: 0 <= i < |h.buckets| ==> h.buckets[i] == 0
  {
    Histogram(bounds, seq(|bounds|, _ => 0), 0, 0.0)
  }

  /** The declared duration buckets are strictly increasing and end in +Inf. */
  lemma EmptyDurationHistogramWellFormed()
    ensures EmptyHistogram(DurationBuckets).WellFormed()
  {
    var b := DurationBuckets;
    forall i, j | 0 <= i < j < |b| ensures Below(b[i], b[j]) {
      assert i < 9;
    }
  }

  /** A bucket that an observation falls into, every higher bucket falls into too. */
  lemma WithinUpward(v: real, a: Bound, b: Bound)
    requires Below(a, b) && Within(v, a)
    ensures Within(v, b)
  {
  }

  /** Observing a value keeps a histogram well-formed. */
  lemma ObserveKeepsWellFormed(h: Histogram, v: real)
    requires h.WellFormed()
    ensures h.Observe(v).WellFormed()
    ensures h.Observe(v).bounds == h.bounds && h.Observe(v).count == h.count + 1
  {
    var h' := h.Observe(v);
    forall i, j | 0 <= i < j < |h'.buckets| ensures h'.buckets[i] <= h'.buckets[j] {
      if Within(v, h.bounds[i]) {
        WithinUpward(v, h.bounds[i], h.bounds[j]);
      }
    }
  }

  /** Reference definitions: how many of `vs` fall into bucket `b`, and what `vs` add up to. */
  function CountWithin(vs: seq<real>, b: Bound): (n: nat) {
    if vs == [] then 0 else (if Within(vs[0], b) then 1 else 0) + CountWithin(vs[1..], b)
  }

  function Total(vs: seq<real>): (t: real) {
    if vs == [] then 0.0 else vs[0] + Total(vs[1..])
  }

  /** Observing every value of `vs`, in order. */
  function ObserveAll(h: Histogram, vs: seq<real>): (h': Histogram)
    decreases |vs|
  {
    if vs == [] then h else ObserveAll(h.Observe(vs[0]), vs[1..])
  }

  /**
   * After a run of observations, the count grew by how many there were, the
   * sum by their total, and each bucket by how many of them it takes.
   */
  lemma {:induction false} ObserveAllCounts(h: Histogram, vs: seq<real>)
    requires |h.buckets| == |h.bounds|
    ensures ObserveAll(h, vs).bounds == h.bounds
    ensures ObserveAll(h, vs).count == h.count + |vs|
    ensures ObserveAll(h, vs).sum == h.sum + Total(vs)
    ensures |ObserveAll(h, vs).buckets| == |h.buckets|
    ensures forall i :: 0 <= i < |h.buckets| ==>
              ObserveAll(h, vs).buckets[i] == h.buckets[i] + CountWithin(vs, h.bounds[i])
    decreases |vs|
  {
    if vs != [] {
      var h1 := h.Observe(vs[0]);
      ObserveAllCounts(h1, vs[1..]);
    }
  }

  /** Starting from an empty histogram, each bucket holds exactly the observations it takes. */
  lemma EmptyObserveAll(bounds: seq<Bound>, vs: seq<real>)
    ensures ObserveAll(EmptyHistogram(bounds), vs).count == |vs|
    ensures ObserveAll(EmptyHistogram(bounds), vs).sum == Total(vs)
    ensures |ObserveAll(EmptyHistogram(bounds), vs).buckets| == |bounds|
    ensures forall i :: 0 <= i < |bounds| ==>
              ObserveAll(EmptyHistogram(bounds), vs).buckets[i] == CountWithin(vs, bounds[i])
  {
    ObserveAllCounts(EmptyHistogram(bounds), vs);
  }
}
