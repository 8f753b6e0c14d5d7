/**
 * The `downsample` helper of Simulator.build_analytics (backend/app/simulator.py): the points
 * of a history series at or after `from_ts` are grouped into buckets of a fixed length counted
 * from `from_ts`; each non-empty bucket becomes one point, in increasing bucket order, carrying
 * the time of the first point that reached the bucket and the mean of its values.
 * Times are whole seconds.
 */
module Analytics {
  import opened Wrappers

  /** A TimeseriesPoint: time in seconds and value. */
  datatype Point = Point(t: int, v: real)

  /** Python's `//` on numbers: the quotient rounded toward minus infinity, for a divisor of
      either sign. */
  function FloorDiv(a: int, b: int): (q: int)
    requires b != 0
    ensures b > 0 ==> b * q <= a < b * q + b
    ensures b < 0 ==> b * q >= a > b * q + b
  {
    if b > 0 then a / b else (-a) / (-b)
  }

  /** `int((p.t - from_ts).total_seconds() // bucket_size.total_seconds())`. */
  function BucketIndex(t: int, fromTs: int, bucket: int): int
    requires bucket != 0
  {
    FloorDiv(t - fromTs, bucket)
  }

  /** A point earlier than from_ts is skipped. */
  predicate Kept(p: Point, fromTs: int) {
    p.t >= fromTs
  }

  /** Some point of the series is not skipped. */
  predicate AnyKept(points: seq<Point>, fromTs: int) {
    exists i :: 0 <= i < |points| && Kept(points[i], fromTs)
  }

  /** Some point of the series is kept and falls in bucket k. */
  predicate InBucket(points: seq<Point>, fromTs: int, bucket: int, k: int)
    requires bucket != 0
  {
    exists j :: 0 <= j < |points| && Kept(points[j], fromTs) && BucketIndex(points[j].t, fromTs, bucket) == k
  }

  /** `buckets` after the loop over the series: per bucket, the values of its points in
      arrival order. Every bucket present holds at least one value. */
  function Buckets(points: seq<Point>, fromTs: int, bucket: int): map<int, seq<real>>
    requires bucket != 0
  {
    if points == [] then map[]
    else
      var rest := Buckets(points[..|points| - 1], fromTs, bucket);
      var p := points[|points| - 1];
      if !Kept(p, fromTs) then rest
      else
        var k := BucketIndex(p.t, fromTs, bucket);
        rest[k := (if k in rest then rest[k] else []) + [p.v]]
  }

  /** `bucket_times` after the loop: per bucket, the time of the first point that reached it. */
  function FirstTimes(points: seq<Point>, fromTs: int, bucket: int): map<int, int>
    requires bucket != 0
  {
    if points == [] then map[]
    else
      var rest := FirstTimes(points[..|points| - 1], fromTs, bucket);
      var p := points[|points| - 1];
      if !Kept(p, fromTs) then rest
      else
        var k := BucketIndex(p.t, fromTs, bucket);
        if k in rest then rest else rest[k := p.t]
  }

  /** Every bucket holds a value, and a bucket has a first time exactly when it exists. */
  lemma {:induction false} BucketsNonEmpty(points: seq<Point>, fromTs: int, bucket: int)
    requires bucket != 0
    ensures forall k :: k in Buckets(points, fromTs, bucket) ==> |Buckets(points, fromTs, bucket)[k]| > 0
    ensures FirstTimes(points, fromTs, bucket).Keys == Buckets(points, fromTs, bucket).Keys
  {
    if points != [] {
      BucketsNonEmpty(points[..|points| - 1], fromTs, bucket);
    }
  }

  /** Python's sum over a list, added from the left. */
  function Sum(vals: seq<real>): real {
    if vals == [] then 0.0 else Sum(vals[..|vals| - 1]) + vals[|vals| - 1]
  }

  /** `sum(vals) / len(vals)`. */
  function Mean(vals: seq<real>): real
    requires |vals| > 0
  {
    Sum(vals) / (|vals| as real)
  }

  /** The keys of a set in increasing order. */
  ghost function Sorted(s: set<int>): seq<int>
    decreases s
  {
    if s == {} then []
    else
      MinExists(s);
      var m :| m in s && forall k :: k in s ==> m <= k;
      [m] + Sorted(s - {m})
  }

  /** Sorted lists exactly the members of the set, in strictly increasing order. */
  lemma {:induction false} SortedSpec(s: set<int>)
    ensures forall i :: 0 <= i < |Sorted(s)| ==> Sorted(s)[i] in s
    ensures forall k :: k in s ==> k in Sorted(s)
    ensures forall i, j :: 0 <= i < j < |Sorted(s)| ==> Sorted(s)[i] < Sorted(s)[j]
    decreases s
  {
    if s != {} {
      MinExists(s);
      var m :| m in s && forall k :: k in s ==> m <= k;
      SortedSpec(s - {m});
      var rest := Sorted(s - {m});
      assert Sorted(s) == [m] + rest;
      assert forall i :: 0 <= i < |rest| ==> m < rest[i];
    }
  }

  /** A non-empty set has a member. */
  lemma HasMember(s: set<int>)
    requires s != {}
    ensures exists x :: x in s
  {
    if forall x :: x !in s {
      assert false;
    }
  }

  /** A finite non-empty set of integers has a least element. */
  lemma {:induction false} MinExists(s: set<int>)
    requires s != {}
    ensures exists m :: m in s && forall k :: k in s ==> m <= k
    decreases s
  {
    HasMember(s);
    var x :| x in s;
    if s != {x} {
      MinExists(s - {x});
      var m :| m in s - {x} && forall k :: k in s - {x} ==> m <= k;
      var least := if x < m then x else m;
      forall k | k in s
        ensures least <= k
      {
        if k != x {
          assert k in s - {x};
        }
      }
    }
  }

  /** One output point per key, in the order of the keys. */
  function Emit(keys: seq<int>, buckets: map<int, seq<real>>, times: map<int, int>): (out: seq<Point>)
    requires forall i :: 0 <= i < |keys| ==> keys[i] in buckets && keys[i] in times && |buckets[keys[i]]| > 0
    ensures |out| == |keys|
  {
    if keys == [] then []
    else
      var last := keys[|keys| - 1];
      Emit(keys[..|keys| - 1], buckets, times) + [Point(times[last], Mean(buckets[last]))]
  }

  /** Emit gives the point of the i-th key at position i. */
  lemma {:induction false} EmitSpec(keys: seq<int>, buckets: map<int, seq<real>>, times: map<int, int>)
    requires forall i :: 0 <= i < |keys| ==> keys[i] in buckets && keys[i] in times && |buckets[keys[i]]| > 0
    ensures forall i :: 0 <= i < |keys| ==>
              Emit(keys, buckets, times)[i] == Point(times[keys[i]], Mean(buckets[keys[i]]))
  {
    if keys != [] {
      EmitSpec(keys[..|keys| - 1], buckets, times);
    }
  }

  /** What downsample returns for a non-zero bucket length: the buckets in increasing order,
      each with its first time and its mean. */
  ghost function Downsampled(points: seq<Point>, fromTs: int, bucket: int): seq<Point>
    requires bucket != 0
  {
    var buckets := Buckets(points, fromTs, bucket);
    SortedSpec(buckets.Keys);
    BucketsNonEmpty(points, fromTs, bucket);
    Emit(Sorted(buckets.Keys), buckets, FirstTimes(points, fromTs, bucket))
  }

  /** downsample as a whole: an empty series gives no points before the bucket length is
      looked at; a zero bucket length raises ZeroDivisionError (None) as soon as a point is
      kept. */
  ghost function Expected(points: seq<Point>, fromTs: int, bucket: int): Option<seq<Point>> {
    if points == [] then Some([])
    else if bucket == 0 then (if AnyKept(points, fromTs) then None else Some([]))
    else Some(Downsampled(points, fromTs, bucket))
  }

  /** The least element of a non-empty set, found by taking its elements one at a time. */
  method MinOf(s: set<int>) returns (m: int)
    requires s != {}
    ensures m in s && forall k :: k in s ==> m <= k
  {
    HasMember(s);
    m :| m in s;
    var rest := s - {m};
    while rest != {}
      invariant rest <= s && m in s
      invariant forall k :: k in s && k !in rest ==> m <= k
      decreases rest
    {
      HasMember(rest);
      var k :| k in rest;
      if k < m {
        m := k;
      }
      rest := rest - {k};
    }
  }

  /** Taking the least key first and sorting the rest is sorting. */
  lemma SortedStep(s: set<int>, m: int)
    requires m in s && forall k :: k in s ==> m <= k
    ensures Sorted(s) == [m] + Sorted(s - {m})
  {
    SortedSpec(s);
    var r := Sorted(s);
    assert r[0] in s;
    assert r[0] == m by {
      forall i | 0 <= i < |r| ensures r[0] <= r[i] {
        if i > 0 {
          assert r[0] < r[i];
        }
      }
      assert m in r;
    }
  }

  /** One step of the selection: moving the least remaining key to the output keeps the
      output followed by the sorted remainder equal to the sorted set. */
  lemma SortKeysStep(r: seq<int>, rest: set<int>, s: set<int>, m: int)
    requires r + Sorted(rest) == Sorted(s)
    requires m in rest && forall k :: k in rest ==> m <= k
    ensures (r + [m]) + Sorted(rest - {m}) == Sorted(s)
  {
    SortedStep(rest, m);
    assert r + ([m] + Sorted(rest - {m})) == (r + [m]) + Sorted(rest - {m});
  }

  /** `sorted(buckets.keys())`: the least remaining key is taken until none is left. */
  method SortKeys(s: set<int>) returns (r: seq<int>)
    ensures r == Sorted(s)
  {
    r := [];
    var rest := s;
    while rest != {}
      invariant r + Sorted(rest) == Sorted(s)
      decreases rest
    {
      var m := MinOf(rest);
      SortKeysStep(r, rest, s, m);
      r := r + [m];
      rest := rest - {m};
    }
    assert Sorted(rest) == [];
  }

  /** The loop of downsample over the series: skipped points are passed over, a kept point
      adds its value to its bucket and, when the bucket is new, records its time. A zero
      bucket length raises ZeroDivisionError at the first kept point (None). */
  method CollectBuckets(points: seq<Point>, fromTs: int, bucket: int)
    returns (r: Option<(map<int, seq<real>>, map<int, int>)>)
    ensures bucket == 0 ==> r == if AnyKept(points, fromTs) then None else Some((map[], map[]))
    ensures bucket != 0 ==> r == Some((Buckets(points, fromTs, bucket), FirstTimes(points, fromTs, bucket)))
  {
    var buckets: map<int, seq<real>> := map[];
    var times: map<int, int> := map[];
    var i := 0;
    while i < |points|
      invariant 0 <= i <= |points|
      invariant bucket == 0 ==> !AnyKept(points[..i], fromTs) && buckets == map[] && times == map[]
      invariant bucket != 0 ==> buckets == Buckets(points[..i], fromTs, bucket)
      invariant bucket != 0 ==> times == FirstTimes(points[..i], fromTs, bucket)
    {
      var p := points[i];
      assert points[..i + 1][..i] == points[..i];
      if p.t >= fromTs {
        if bucket == 0 {
          assert Kept(points[i], fromTs);
          return None;
        }
        var k := FloorDiv(p.t - fromTs, bucket);
        buckets := buckets[k := (if k in buckets then buckets[k] else []) + [p.v]];
        if k !in times {
          times := times[k := p.t];
        }
      } else if bucket == 0 {
        assert forall j :: 0 <= j < i ==> points[..i + 1][j] == points[..i][j];
      }
      i := i + 1;
    }
    assert points[..i] == points;
    r := Some((buckets, times));
  }

  /** The loop that builds the output: one point per key, in the order given. */
  method EmitBuckets(keys: seq<int>, buckets: map<int, seq<real>>, times: map<int, int>) returns (out: seq<Point>)
    requires forall i :: 0 <= i < |keys| ==> keys[i] in buckets && keys[i] in times && |buckets[keys[i]]| > 0
    ensures out == Emit(keys, buckets, times)
  {
    out := [];
    var j := 0;
    while j < |keys|
      invariant 0 <= j <= |keys|
      invariant out == Emit(keys[..j], buckets, times)
    {
      assert keys[..j + 1][..j] == keys[..j];
      var vals := buckets[keys[j]];
      out := out + [Point(times[keys[j]], Sum(vals) / (|vals| as real))];
      j := j + 1;
    }
    assert keys[..j] == keys;
  }

  /** downsample: one pass fills the bucket dictionaries, then the buckets are emitted in
      increasing order. */
  method Downsample(points: seq<Point>, fromTs: int, bucket: int) returns (out: Option<seq<Point>>)
    ensures out == Expected(points, fromTs, bucket)
  {
    if points == [] {
      return Some([]);
    }
    var collected := CollectBuckets(points, fromTs, bucket);
    if collected.None? {
      return None;
    }
    var (buckets, times) := collected.value;
    var keys := SortKeys(buckets.Keys);
    SortedSpec(buckets.Keys);
    if bucket != 0 {
      BucketsNonEmpty(points, fromTs, bucket);
    }
    var result := EmitBuckets(keys, buckets, times);
    out := Some(result);
  }

  // ---------------------------------------------------------------------------------------
  // Properties of the downsampled series

  /** A bucket exists exactly when some kept point falls in it, and its first time is the time
      of the earliest kept point that falls in it. Points earlier than from_ts reach no
      bucket. */
  lemma {:induction false} BucketsFromKeptPoints(points: seq<Point>, fromTs: int, bucket: int, k: int)
    requires bucket != 0
    ensures k in Buckets(points, fromTs, bucket) <==> InBucket(points, fromTs, bucket, k)
    ensures k in FirstTimes(points, fromTs, bucket) ==>
              exists j :: 0 <= j < |points| && Kept(points[j], fromTs) &&
                          BucketIndex(points[j].t, fromTs, bucket) == k &&
                          FirstTimes(points, fromTs, bucket)[k] == points[j].t &&
                          !InBucket(points[..j], fromTs, bucket, k)
  {
    if points != [] {
      var n := |points| - 1;
      var init := points[..n];
      BucketsFromKeptPoints(init, fromTs, bucket, k);
      BucketsNonEmpty(points, fromTs, bucket);
      BucketsNonEmpty(init, fromTs, bucket);
      assert forall j :: 0 <= j < n ==> init[j] == points[j];
      assert forall j :: 0 <= j <= n ==> points[..j] == init[..j];
      if InBucket(points, fromTs, bucket, k) && !InBucket(init, fromTs, bucket, k) {
        var j :| 0 <= j < |points| && Kept(points[j], fromTs) && BucketIndex(points[j].t, fromTs, bucket) == k;
        assert j == n;
      }
      if k in FirstTimes(points, fromTs, bucket) && k !in FirstTimes(init, fromTs, bucket) {
        assert !InBucket(points[..n], fromTs, bucket, k);
      }
    }
  }

  /** With a positive bucket length, bucket k covers [from_ts + k * length,
      from_ts + (k + 1) * length), so each emitted time lies in its bucket's interval and no
      bucket index is negative. */
  lemma FirstTimeInBucket(points: seq<Point>, fromTs: int, bucket: int, k: int)
    requires bucket > 0 && k in FirstTimes(points, fromTs, bucket)
    ensures k >= 0
    ensures fromTs + bucket * k <= FirstTimes(points, fromTs, bucket)[k] < fromTs + bucket * k + bucket
  {
    BucketsFromKeptPoints(points, fromTs, bucket, k);
    var j :| 0 <= j < |points| && Kept(points[j], fromTs) && BucketIndex(points[j].t, fromTs, bucket) == k &&
             FirstTimes(points, fromTs, bucket)[k] == points[j].t;
    QuotientOfNonNegative(points[j].t - fromTs, bucket);
  }

  /** A non-negative number lies in no bucket of negative index. */
  lemma QuotientOfNonNegative(a: int, b: int)
    requires a >= 0 && b > 0
    ensures FloorDiv(a, b) >= 0
  {
  }

  /** The emitted series: one point per non-empty bucket in strictly increasing bucket order,
      each with the first time and the mean value of its bucket. */
  lemma DownsampledShape(points: seq<Point>, fromTs: int, bucket: int)
    requires bucket != 0
    ensures var buckets := Buckets(points, fromTs, bucket);
            var keys := Sorted(buckets.Keys);
            var times := FirstTimes(points, fromTs, bucket);
            var out := Downsampled(points, fromTs, bucket);
            |out| == |keys| &&
            (forall i, j :: 0 <= i < j < |keys| ==> keys[i] < keys[j]) &&
            (forall k :: k in buckets <==> k in keys) &&
            times.Keys == buckets.Keys && (forall k :: k in buckets ==> |buckets[k]| > 0) &&
            (forall i :: 0 <= i < |out| ==> out[i] == Point(times[keys[i]], Mean(buckets[keys[i]])))
  {
    var buckets := Buckets(points, fromTs, bucket);
    SortedSpec(buckets.Keys);
    BucketsNonEmpty(points, fromTs, bucket);
    EmitSpec(Sorted(buckets.Keys), buckets, FirstTimes(points, fromTs, bucket));
  }

  /** Every value lies within [lo, hi]. */
  predicate Within(vals: seq<real>, lo: real, hi: real) {
    forall i :: 0 <= i < |vals| ==> lo <= vals[i] <= hi
  }

  /** The values of a series. */
  function Values(points: seq<Point>): (vs: seq<real>)
    ensures |vs| == |points| && forall i :: 0 <= i < |points| ==> vs[i] == points[i].v
  {
    seq(|points|, i requires 0 <= i < |points| => points[i].v)
  }

  /** A sum of n values within [lo, hi] lies within [n * lo, n * hi]. */
  lemma {:induction false} SumWithin(vals: seq<real>, lo: real, hi: real)
    requires Within(vals, lo, hi)
    ensures (|vals| as real) * lo <= Sum(vals) <= (|vals| as real) * hi
  {
    if vals != [] {
      var init := vals[..|vals| - 1];
      assert forall i :: 0 <= i < |init| ==> init[i] == vals[i];
      SumWithin(init, lo, hi);
      var m := |init| as real;
      assert |vals| as real == m + 1.0;
      assert (m + 1.0) * lo == m * lo + lo && (m + 1.0) * hi == m * hi + hi;
      assert lo <= vals[|vals| - 1] <= hi;
    }
  }

  /** The mean of values within [lo, hi] lies within [lo, hi]. */
  lemma MeanWithin(vals: seq<real>, lo: real, hi: real)
    requires |vals| > 0 && Within(vals, lo, hi)
    ensures lo <= Mean(vals) <= hi
  {
    SumWithin(vals, lo, hi);
    var n := |vals| as real;
    assert Mean(vals) * n == Sum(vals);
  }

  /** Every value a bucket collects is the value of some point of the series, so bounds the
      points meet hold in every bucket. */
  lemma {:induction false} BucketValuesFromPoints(points: seq<Point>, fromTs: int, bucket: int, lo: real, hi: real)
    requires bucket != 0
    requires forall i :: 0 <= i < |points| ==> lo <= points[i].v <= hi
    ensures forall k :: k in Buckets(points, fromTs, bucket) ==> Within(Buckets(points, fromTs, bucket)[k], lo, hi)
  {
    if points != [] {
      var init := points[..|points| - 1];
      assert forall i :: 0 <= i < |init| ==> init[i] == points[i];
      BucketValuesFromPoints(init, fromTs, bucket, lo, hi);
      var rest := Buckets(init, fromTs, bucket);
      var p := points[|points| - 1];
      assert lo <= p.v <= hi;
      if Kept(p, fromTs) {
        var k := BucketIndex(p.t, fromTs, bucket);
        var before := if k in rest then rest[k] else [];
        if k in rest {
          assert Within(rest[k], lo, hi);
        }
        var after := before + [p.v];
        forall i | 0 <= i < |after|
          ensures lo <= after[i] <= hi
        {
          if i < |before| {
            assert after[i] == before[i];
          }
        }
        var m := rest[k := after];
        forall k' | k' in m
          ensures Within(m[k'], lo, hi)
        {
          if k' != k {
            assert m[k'] == rest[k'];
          }
        }
      }
    }
  }

  /** Downsampling keeps a series within any bounds its points meet: the state-of-charge
      series, always within [0, 100], stays within [0, 100] after averaging. */
  lemma DownsampleWithin(points: seq<Point>, fromTs: int, bucket: int, lo: real, hi: real)
    requires Within(Values(points), lo, hi)
    ensures Expected(points, fromTs, bucket).Some? ==> Within(Values(Expected(points, fromTs, bucket).value), lo, hi)
  {
    if points != [] && bucket != 0 {
      var buckets := Buckets(points, fromTs, bucket);
      var times := FirstTimes(points, fromTs, bucket);
      var keys := Sorted(buckets.Keys);
      SortedSpec(buckets.Keys);
      BucketsNonEmpty(points, fromTs, bucket);
      EmitSpec(keys, buckets, times);
      BucketValuesFromPoints(points, fromTs, bucket, lo, hi);
      var out := Emit(keys, buckets, times);
      assert Expected(points, fromTs, bucket) == Some(out);
      forall i | 0 <= i < |out|
        ensures lo <= out[i].v <= hi
      {
        MeanWithin(buckets[keys[i]], lo, hi);
      }
    }
  }
}
