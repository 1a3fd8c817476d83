/** Benchmark statistics (benchmark/stats.go, benchmark/qspec.go), over exact reals. */
module Statistics {
  import opened Requests


  // ---- the batch definitions -------------------------------------------------------------

  ghost function Sum(s: seq<real>): real {
    if s == [] then 0.0 else Sum(s[..|s| - 1]) + s[|s| - 1]
  }

  /** The sum of the squared deviations from c. */
  ghost function Deviation(s: seq<real>, c: real): real {
    if s == [] then 0.0 else Deviation(s[..|s| - 1], c) + (s[|s| - 1] - c) * (s[|s| - 1] - c)
  }

  ghost function Mean(s: seq<real>): real {
    if s == [] then 0.0 else Sum(s) / |s| as real
  }

  ghost function SampleVariance(s: seq<real>): real
    requires |s| >= 2
  {
    Deviation(s, Mean(s)) / (|s| - 1) as real
  }

  ghost function Squares(s: seq<real>): real {
    if s == [] then 0.0 else Squares(s[..|s| - 1]) + s[|s| - 1] * s[|s| - 1]
  }

  /** The deviation from c of n samples with the given sum and sum of squares. */
  ghost function Expanded(squares: real, sum: real, n: real, c: real): real {
    squares - 2.0 * (c * sum) + n * (c * c)
  }

  lemma {:induction false} Expand(s: seq<real>, c: real)
    ensures Deviation(s, c) == Expanded(Squares(s), Sum(s), |s| as real, c)
  {
    if s != [] {
      var n, x := |s| - 1, s[|s| - 1];
      Expand(s[..n], c);
      assert (x - c) * (x - c) == x * x - 2.0 * (c * x) + c * c;
      assert c * Sum(s) == c * Sum(s[..n]) + c * x;
      assert |s| as real * (c * c) == n as real * (c * c) + c * c;
    }
  }

  /** Welford's identity, for n samples with mean m, and a new sample x that moves the mean by d to c. */
  lemma Identity(q: real, n: real, m: real, d: real, x: real, c: real)
    requires x == m + (n + 1.0) * d && c == m + d
    ensures n * m + x == c * (n + 1.0)
    ensures Expanded(q + x * x, n * m + x, n + 1.0, c) == Expanded(q, n * m, n, m) + (x - m) * (x - c)
  {
  }

  /** Dividing by a positive number. */
  lemma Quotient(a: real, b: real, c: real)
    requires c > 0.0
    ensures a * c == b <==> a == b / c
  {
  }

  lemma {:induction false} Extended(s: seq<real>, x: real)
    ensures Sum(s + [x]) == Sum(s) + x && Squares(s + [x]) == Squares(s) + x * x
  {
    assert (s + [x])[..|s|] == s;
  }

  lemma {:induction false} OneMore(s: seq<real>, n: real, m: real, d: real, x: real, c: real)
    requires n == |s| as real && Sum(s) == n * m && x == m + (n + 1.0) * d && c == m + d
    ensures Sum(s + [x]) == c * (n + 1.0)
    ensures Deviation(s + [x], c) == Deviation(s, m) + (x - m) * (x - c)
  {
    Extended(s, x);
    Expand(s, m);
    Expand(s + [x], c);
    Identity(Squares(s), n, m, d, x, c);
    assert |s + [x]| as real == n + 1.0;
  }

  lemma {:induction false} SumOfMean(s: seq<real>)
    ensures Sum(s) == |s| as real * Mean(s)
  {
    if s != [] {
      Quotient(Mean(s), Sum(s), |s| as real);
    }
  }

  lemma {:induction false} MeanIs(s: seq<real>, c: real)
    requires s != [] && Sum(s) == c * |s| as real
    ensures c == Mean(s)
  {
    Quotient(c, Sum(s), |s| as real);
  }

  lemma Shift(n: real, m: real, x: real, c: real)
    requires n >= 0.0 && c == m + (x - m) / (n + 1.0)
    ensures x == m + (n + 1.0) * (c - m)
  {
    Quotient(c - m, x - m, n + 1.0);
  }

  lemma {:induction false} NewMean(s: seq<real>, x: real, c: real)
    requires Sum(s + [x]) == c * (|s| as real + 1.0)
    ensures c == Mean(s + [x])
  {
    assert |s + [x]| as real == |s| as real + 1.0;
    MeanIs(s + [x], c);
  }

  lemma {:induction false} WelfordStep(s: seq<real>, x: real, m: real, c: real)
    requires m == Mean(s) && x == m + (|s| as real + 1.0) * (c - m)
    ensures c == Mean(s + [x])
    ensures Deviation(s + [x], c) == Deviation(s, m) + (x - m) * (x - c)
  {
    SumOfMean(s);
    OneMore(s, |s| as real, m, c - m, x, c);
    NewMean(s, x, c);
  }

  /** Welford's algorithm: the new mean c and deviation after one more sample x. */
  lemma {:induction false} Welford(s: seq<real>, x: real, m: real, c: real, count: nat)
    requires m == Mean(s) && count == |s| + 1 && c == m + (x - m) / count as real
    ensures c == Mean(s + [x])
    ensures Deviation(s + [x], c) == Deviation(s, m) + (x - m) * (x - c)
  {
    assert count as real == |s| as real + 1.0;
    Shift(|s| as real, m, x, c);
    WelfordStep(s, x, m, c);
  }

  // ---- clock and memory ------------------------------------------------------------------

  const WRAP: nat := 0x1_0000_0000_0000_0000
  const NANOSECONDS: real := 1000000000.0

  /** The counters of runtime.MemStats that are reported, as 64-bit values. */
  datatype Memory = Memory(mallocs: nat, totalAlloc: nat)

  /** How much a 64-bit counter has advanced, if it wrapped around at most once. */
  function Advance(from: nat, to: nat): (n: nat)
    requires from < WRAP && to < WRAP
    ensures n < WRAP && (from + n) % WRAP == to
  {
    if to >= from then to - from else to + WRAP - from
  }

  /** Throughput is missing where the source divides by a time of zero. */
  datatype Result = Result(
    totalOps: nat, totalTime: int, throughput: Option<real>, latencyAvg: real, latencyVar: real,
    allocsPerOp: nat, memPerOp: nat)

  /** q is the whole number of times that ops fits into total. */
  ghost predicate PerOp(q: nat, total: nat, ops: nat) {
    q * ops <= total < (q + 1) * ops
  }

  method Divide(total: nat, ops: nat) returns (q: nat)
    requires ops > 0
    ensures PerOp(q, total, ops)
  {
    q := total / ops;
  }

  /** t is the number of operations per second, unless no time has passed. */
  ghost predicate PerSecond(t: Option<real>, ops: nat, time: int) {
    && (t.Some? <==> time != 0)
    && (t.Some? ==> t.value * (time as real / NANOSECONDS) == ops as real)
  }

  method Throughput(ops: nat, time: int) returns (t: Option<real>)
    ensures PerSecond(t, ops, time)
  {
    if time == 0 {
      return None;
    }
    var seconds := time as real / NANOSECONDS;
    assert seconds != 0.0;
    var q := ops as real / seconds;
    Undo(ops as real, seconds, q);
    return Some(q);
  }

  lemma Undo(a: real, b: real, q: real)
    requires b != 0.0 && q == a / b
    ensures q * b == a
  {
  }

  class Stats {
    var startTime: int
    var endTime: int
    var startMem: Memory
    var endMem: Memory
    var count: nat
    var mean: real
    var m2: real
    ghost var samples: seq<real>

    ghost predicate Valid()
      reads this
    {
      && count == |samples| && mean == Mean(samples) && m2 == Deviation(samples, mean)
      && startMem.mallocs < WRAP && startMem.totalAlloc < WRAP && endMem.mallocs < WRAP && endMem.totalAlloc < WRAP
    }

    constructor ()
      ensures Valid() && samples == []
    {
      startTime, endTime, startMem, endMem := 0, 0, Memory(0, 0), Memory(0, 0);
      count, mean, m2, samples := 0, 0.0, 0.0, [];
    }

    method Start(now: int, mem: Memory)
      requires Valid() && mem.mallocs < WRAP && mem.totalAlloc < WRAP
      modifies this`startTime, this`startMem
      ensures Valid() && startTime == now && startMem == mem
    {
      startMem, startTime := mem, now;
    }

    method End(now: int, mem: Memory)
      requires Valid() && mem.mallocs < WRAP && mem.totalAlloc < WRAP
      modifies this`endTime, this`endMem
      ensures Valid() && endTime == now && endMem == mem
    {
      endTime, endMem := now, mem;
    }

    /** Streaming and batch computation agree after every sample. */
    method AddLatency(l: real)
      requires Valid()
      modifies this`count, this`mean, this`m2, this`samples
      ensures Valid() && samples == old(samples) + [l]
    {
      count := count + 1;
      var delta := l - mean;
      mean := mean + delta / count as real;
      var delta2 := l - mean;
      m2 := m2 + delta * delta2;
      Welford(samples, l, old(mean), mean, count);
      samples := samples + [l];
    }

    method Clear()
      modifies this
      ensures Valid() && samples == [] && startTime == endTime == 0 && startMem == endMem == Memory(0, 0)
    {
      startTime, endTime, startMem, endMem := 0, 0, Memory(0, 0), Memory(0, 0);
      count, mean, m2, samples := 0, 0.0, 0.0, [];
    }

    /** The result; without samples the source divides by zero. */
    method GetResult() returns (r: Result)
      requires Valid() && samples != []
      ensures r.totalOps == |samples| && r.latencyAvg == Mean(samples) && r.latencyVar == ReportedVariance(samples)
      ensures r.totalTime == endTime - startTime && PerSecond(r.throughput, |samples|, endTime - startTime)
      ensures PerOp(r.allocsPerOp, Advance(startMem.mallocs, endMem.mallocs), |samples|)
      ensures PerOp(r.memPerOp, Advance(startMem.totalAlloc, endMem.totalAlloc), |samples|)
    {
      var variance := 0.0;
      if count > 2 {
        variance := m2 / (count - 1) as real;
      }
      var throughput := Throughput(count, endTime - startTime);
      var mallocs := Divide(Advance(startMem.mallocs, endMem.mallocs), count);
      var total := Divide(Advance(startMem.totalAlloc, endMem.totalAlloc), count);
      r := Result(count, endTime - startTime, throughput, mean, variance, mallocs, total);
    }
  }

  ghost function ReportedVariance(s: seq<real>): real {
    if |s| > 2 then SampleVariance(s) else 0.0
  }

  /** The reported variance is the sample variance, except for two different samples, for which it is zero. */
  lemma {:induction false} VarianceReportedIff(s: seq<real>)
    requires |s| >= 2
    ensures ReportedVariance(s) == SampleVariance(s) <==> |s| > 2 || s[0] == s[1]
  {
    if |s| == 2 {
      var a, b, m := s[0], s[1], Mean(s);
      assert s == [a] + [b] && [a] == [] + [a];
      Extended([a], b);
      Extended([], a);
      assert Sum(s) == a + b && m == (a + b) / 2.0;
      assert s[..1] == [a] && [a][..0] == [];
      var g, h := a - m, b - m;
      assert Deviation([a], m) == g * g;
      var v := Deviation(s, m);
      assert v == g * g + h * h;
      TwoSamples(a, b, m, g, h, v);
      assert v / 1.0 == v && SampleVariance(s) == v;
    }
  }

  lemma TwoSamples(a: real, b: real, m: real, g: real, h: real, v: real)
    requires m == (a + b) / 2.0 && g == a - m && h == b - m && v == g * g + h * h
    ensures v == 0.0 <==> a == b
  {
    if a == b {
      ZeroSquares(g, h, v);
    } else {
      SquaresPositive(g, h, v);
    }
  }

  lemma ZeroSquares(g: real, h: real, v: real)
    requires g == 0.0 && h == 0.0 && v == g * g + h * h
    ensures v == 0.0
  {
  }

  lemma SquaresPositive(g: real, h: real, v: real)
    requires g != 0.0 && h != 0.0 && v == g * g + h * h
    ensures v > 0.0
  {
    var x, y := g * g, h * h;
    SquarePositive(g, x);
    SquarePositive(h, y);
    assert v == x + y;
  }

  lemma SquarePositive(g: real, x: real)
    requires g != 0.0 && x == g * g
    ensures x > 0.0
  {
    if g > 0.0 {
      PositiveProduct(g, g, x);
    } else {
      PositiveProduct(-g, -g, x);
    }
  }

  lemma PositiveProduct(a: real, b: real, x: real)
    requires a > 0.0 && b > 0.0 && x == a * b
    ensures x > 0.0
  {
  }

  // ---- combining replicas ----------------------------------------------------------------

  /** What a replica reports: its number of operations and their average latency. */
  datatype Report = Report(totalOps: nat, latencyAvg: real)

  /** The report is that of the given samples. */
  ghost predicate Reports(r: Report, s: seq<real>) {
    r.totalOps == |s| && r.latencyAvg == Mean(s)
  }

  lemma {:induction false} WeightOfReport(r: Report, s: seq<real>)
    requires Reports(r, s)
    ensures r.latencyAvg * r.totalOps as real == Sum(s)
  {
    SumOfMean(s);
  }

  /** All samples of the replicas, replica by replica in the given order. */
  ghost function Pool(samples: map<nat, seq<real>>, order: seq<nat>): seq<real>
    requires forall k :: k in order ==> k in samples
  {
    if order == [] then []
    else Pool(samples, order[..|order| - 1]) + samples[order[|order| - 1]]
  }

  lemma {:induction false} SumAppend(a: seq<real>, b: seq<real>)
    ensures Sum(a + b) == Sum(a) + Sum(b)
  {
    if b == [] {
      assert a + b == a;
    } else {
      var n := |b| - 1;
      assert (a + b)[..|a| + n] == a + b[..n];
      SumAppend(a, b[..n]);
    }
  }

  /** The order lists each replica once. */
  ghost predicate Enumerates(order: seq<nat>, keys: set<nat>) {
    && (forall k :: k in order <==> k in keys)
    && (forall i, j :: 0 <= i < j < |order| ==> order[i] != order[j])
  }

  ghost function Without(order: seq<nat>, i: nat): seq<nat>
    requires i < |order|
  {
    order[..i] + order[i + 1..]
  }

  lemma {:induction false} PoolLast(samples: map<nat, seq<real>>, order: seq<nat>, k: nat)
    requires k in samples && forall x :: x in order ==> x in samples
    ensures |Pool(samples, order + [k])| == |Pool(samples, order)| + |samples[k]|
    ensures Sum(Pool(samples, order + [k])) == Sum(Pool(samples, order)) + Sum(samples[k])
  {
    assert (order + [k])[..|order|] == order;
    SumAppend(Pool(samples, order), samples[k]);
  }

  lemma WithoutLast(init: seq<nat>, last: nat, i: nat)
    requires i < |init|
    ensures Without(init + [last], i) == Without(init, i) + [last]
  {
    var order := init + [last];
    assert order[..i] == init[..i] && order[i + 1..] == init[i + 1..] + [last];
  }

  /** Size and sum of the pool do not depend on where a replica stands. */
  lemma {:induction false} PoolRemove(samples: map<nat, seq<real>>, order: seq<nat>, i: nat)
    requires i < |order| && forall k :: k in order ==> k in samples
    ensures |Pool(samples, order)| == |Pool(samples, Without(order, i))| + |samples[order[i]]|
    ensures Sum(Pool(samples, order)) == Sum(Pool(samples, Without(order, i))) + Sum(samples[order[i]])
    decreases |order|
  {
    var n := |order| - 1;
    var init, last := order[..n], order[n];
    assert order == init + [last];
    PoolLast(samples, init, last);
    if i == n {
      assert Without(order, i) == init;
    } else {
      PoolRemove(samples, init, i);
      WithoutLast(init, last, i);
      PoolLast(samples, Without(init, i), last);
    }
  }

  lemma {:induction false} PoolOrder(samples: map<nat, seq<real>>, keys: set<nat>, a: seq<nat>, b: seq<nat>)
    requires Enumerates(a, keys) && Enumerates(b, keys) && keys <= samples.Keys
    ensures |Pool(samples, a)| == |Pool(samples, b)| && Sum(Pool(samples, a)) == Sum(Pool(samples, b))
    decreases |a|
  {
    if a == [] {
      var x := if b == [] then 0 else b[0];
      assert b != [] ==> x in b;
    } else {
      var n := |a| - 1;
      var k := a[n];
      assert k in a && k in keys && k in b;
      var i :| 0 <= i < |b| && b[i] == k;
      PoolRemove(samples, a, n);
      PoolRemove(samples, b, i);
      EnumeratesRest(a, n, keys);
      EnumeratesRest(b, i, keys);
      PoolOrder(samples, keys - {k}, Without(a, n), Without(b, i));
    }
  }

  lemma EnumeratesRest(order: seq<nat>, i: nat, keys: set<nat>)
    requires Enumerates(order, keys) && i < |order|
    ensures Enumerates(Without(order, i), keys - {order[i]})
  {
    var q := Without(order, i);
    assert forall j :: 0 <= j < |q| ==> q[j] == order[if j < i then j else j + 1];
    forall k | k in keys && k != order[i]
      ensures k in q
    {
      var j :| 0 <= j < |order| && order[j] == k;
      assert q[if j < i then j else j - 1] == k;
    }
  }

  lemma EnumeratesMore(order: seq<nat>, keys: set<nat>, k: nat)
    requires Enumerates(order, keys) && k !in keys
    ensures Enumerates(order + [k], keys + {k})
  {
  }

  /** The accumulators of the loop over the replies: the operations and the weighted latencies of the replicas seen. */
  ghost predicate Accumulated(samples: map<nat, seq<real>>, seen: seq<nat>, ops: nat, weighted: real) {
    && (forall k :: k in seen ==> k in samples)
    && ops == |Pool(samples, seen)| && weighted == Sum(Pool(samples, seen))
  }

  /** One iteration of the first loop over the replies. */
  method AddReply(r: Report, ops: nat, weighted: real,
                  ghost samples: map<nat, seq<real>>, ghost seen: seq<nat>, ghost k: nat)
    returns (ops': nat, weighted': real)
    requires Accumulated(samples, seen, ops, weighted) && k in samples && Reports(r, samples[k])
    ensures Accumulated(samples, seen + [k], ops', weighted') && ops' == ops + r.totalOps
  {
    PoolLast(samples, seen, k);
    WeightOfReport(r, samples[k]);
    ops', weighted' := ops + r.totalOps, weighted + r.latencyAvg * r.totalOps as real;
  }

  /** The first loop of StopServerBenchmarkQF, which may take the replies in any order. */
  method AddReplies(replies: map<nat, Report>, ghost samples: map<nat, seq<real>>)
    returns (ops: nat, weighted: real)
    requires replies.Keys == samples.Keys && forall k :: k in replies ==> Reports(replies[k], samples[k])
    ensures forall order: seq<nat> :: Enumerates(order, samples.Keys) ==> Accumulated(samples, order, ops, weighted)
    ensures ops > 0 <==> exists k :: k in replies && replies[k].totalOps > 0
  {
    ops, weighted := 0, 0.0;
    ghost var seen: seq<nat> := [];
    var rest := replies;
    while rest != map[]
      invariant rest.Keys <= replies.Keys && forall k :: k in rest ==> rest[k] == replies[k]
      invariant Enumerates(seen, replies.Keys - rest.Keys)
      invariant Accumulated(samples, seen, ops, weighted)
      invariant ops > 0 <==> exists k :: k in replies && k !in rest && replies[k].totalOps > 0
      decreases |rest|
    {
      var k :| k in rest;
      ops, weighted := AddReply(rest[k], ops, weighted, samples, seen, k);
      EnumeratesMore(seen, replies.Keys - rest.Keys, k);
      seen := seen + [k];
      ghost var before := rest;
      rest := rest - {k};
      assert rest.Keys == before.Keys - {k};
      assert replies.Keys - rest.Keys == replies.Keys - before.Keys + {k};
    }
    forall order: seq<nat> | Enumerates(order, samples.Keys)
      ensures Accumulated(samples, order, ops, weighted)
    {
      PoolOrder(samples, samples.Keys, seen, order);
    }
  }

  /**
   * The latency average of StopServerBenchmarkQF: whatever the order of the loop over the replies, the
   * result is the mean of all samples of all replicas, pooled in any order.
   */
  method CombinedAverage(replies: map<nat, Report>, ghost samples: map<nat, seq<real>>) returns (avg: real)
    requires replies.Keys == samples.Keys && forall k :: k in replies ==> Reports(replies[k], samples[k])
    requires exists k :: k in replies && replies[k].totalOps > 0
    ensures forall order: seq<nat> :: Enumerates(order, samples.Keys) ==> avg == Mean(Pool(samples, order))
  {
    var ops: nat, weighted: real := AddReplies(replies, samples);
    avg := weighted / ops as real;
    forall order: seq<nat> | Enumerates(order, samples.Keys)
      ensures avg == Mean(Pool(samples, order))
    {
      assert Accumulated(samples, order, ops, weighted);
    }
  }
}
