/**
 * The feature-neighbourhood search of the statistics plugin.
 *
 * Features 1 .. n-1 (feature 0 is a placeholder and is never processed) each carry three grid
 * bins and a critical distance.  Every pair i < j is tested once per side: j joins the list
 * of i when all three per-axis bin differences are below the critical distance of i, and i
 * joins the list of j when they are below the critical distance of j.  A per-feature counter
 * is incremented with every push.
 *
 * The bins are unsigned 64-bit values and the difference is taken as `bin(j) - bin(i)` before
 * the absolute value, so a later feature whose bin is smaller wraps around to a huge
 * difference.  `Wrapped` models that arithmetic; `Absolute` is the difference the search
 * evidently intends.  Both are proved for the same search.
 */
module FindNeighborhoodsFilter {
  import opened DataContainers

  /** 2^64: the modulus of `size_t` arithmetic. */
  const SizeModulus: int := 0x1_0000_0000_0000_0000

  datatype BinDifference = Wrapped | Absolute

  /** `b2 - b1` as computed on `size_t` operands. */
  function SizeSub(b2: nat, b1: nat): (d: nat)
    ensures d < SizeModulus
    ensures b1 <= b2 < SizeModulus ==> d == b2 - b1
    ensures b2 < b1 < SizeModulus ==> d == SizeModulus - (b1 - b2)
  {
    (b2 - b1) % SizeModulus
  }

  function Delta(mode: BinDifference, b2: nat, b1: nat): nat
  {
    match mode
    case Wrapped => SizeSub(b2, b1)
    case Absolute => if b2 >= b1 then b2 - b1 else b1 - b2
  }

  /** One triple of bins per feature. */
  predicate Shaped(bins: seq<nat>, crit: seq<real>)
  {
    |bins| == 3 * |crit|
  }

  /** The pair test of the inner loop, for lower index `lo`, higher index `hi` and threshold `c`. */
  predicate Within(mode: BinDifference, bins: seq<nat>, lo: nat, hi: nat, c: real)
    requires 3 * lo + 2 < |bins| && 3 * hi + 2 < |bins|
  {
    (Delta(mode, bins[3 * hi], bins[3 * lo]) as real) < c &&
    (Delta(mode, bins[3 * hi + 1], bins[3 * lo + 1]) as real) < c &&
    (Delta(mode, bins[3 * hi + 2], bins[3 * lo + 2]) as real) < c
  }

  /** Whether feature `k` lists feature `x`: the pair is tested in index order against the threshold of `k`. */
  predicate Accepts(mode: BinDifference, bins: seq<nat>, crit: seq<real>, k: nat, x: nat)
    requires Shaped(bins, crit) && k < |crit| && x < |crit|
  {
    if k < x then Within(mode, bins, k, x, crit[k]) else Within(mode, bins, x, k, crit[k])
  }

  /** The list of feature `k` once features below `hi` have been paired with it, in push order. */
  function Neighbors(mode: BinDifference, bins: seq<nat>, crit: seq<real>, k: nat, hi: nat): seq<int>
    requires Shaped(bins, crit) && k < |crit| && hi <= |crit|
    decreases hi
  {
    if hi <= 1 then []
    else Neighbors(mode, bins, crit, k, hi - 1) +
         (if hi - 1 != k && Accepts(mode, bins, crit, k, hi - 1) then [hi - 1] else [])
  }

  predicate StrictlyIncreasing(s: seq<int>)
  {
    forall a, b :: 0 <= a < b < |s| ==> s[a] < s[b]
  }

  /** A list entry is exactly an accepted feature in [1, hi) other than `k` itself. */
  lemma {:induction false} NeighborsMembership(mode: BinDifference, bins: seq<nat>, crit: seq<real>, k: nat, hi: nat, x: int)
    requires Shaped(bins, crit) && k < |crit| && hi <= |crit|
    ensures x in Neighbors(mode, bins, crit, k, hi) <==>
              1 <= x < hi && x != k && Accepts(mode, bins, crit, k, x)
    decreases hi
  {
    if hi > 1 {
      NeighborsMembership(mode, bins, crit, k, hi - 1, x);
    }
  }

  /** Lists come out strictly increasing, hence free of duplicates. */
  lemma {:induction false} NeighborsIncreasing(mode: BinDifference, bins: seq<nat>, crit: seq<real>, k: nat, hi: nat)
    requires Shaped(bins, crit) && k < |crit| && hi <= |crit|
    ensures StrictlyIncreasing(Neighbors(mode, bins, crit, k, hi))
    decreases hi
  {
    if hi > 1 {
      var prefix := Neighbors(mode, bins, crit, k, hi - 1);
      NeighborsIncreasing(mode, bins, crit, k, hi - 1);
      forall a | 0 <= a < |prefix|
        ensures prefix[a] < hi - 1
      {
        NeighborsMembership(mode, bins, crit, k, hi - 1, prefix[a]);
      }
    }
  }

  /** With equal thresholds the relation is symmetric, whichever difference is used. */
  lemma EqualThresholdsSymmetric(mode: BinDifference, bins: seq<nat>, crit: seq<real>, k: nat, x: nat)
    requires Shaped(bins, crit) && 1 <= k < |crit| && 1 <= x < |crit| && crit[k] == crit[x]
    ensures x in Neighbors(mode, bins, crit, k, |crit|) <==> k in Neighbors(mode, bins, crit, x, |crit|)
  {
    NeighborsMembership(mode, bins, crit, k, |crit|, x);
    NeighborsMembership(mode, bins, crit, x, |crit|, k);
  }

  /** Each side uses its own threshold, so one feature can list another that does not list it back. */
  lemma AsymmetricExample()
    ensures 1 in Neighbors(Wrapped, [0, 0, 0, 0, 0, 0, 1, 0, 0], [0.0, 1.0, 2.0], 2, 3)
    ensures 2 !in Neighbors(Wrapped, [0, 0, 0, 0, 0, 0, 1, 0, 0], [0.0, 1.0, 2.0], 1, 3)
  {
    NeighborsMembership(Wrapped, [0, 0, 0, 0, 0, 0, 1, 0, 0], [0.0, 1.0, 2.0], 2, 3, 1);
    NeighborsMembership(Wrapped, [0, 0, 0, 0, 0, 0, 1, 0, 0], [0.0, 1.0, 2.0], 1, 3, 2);
  }

  /**
   * As written: when the higher-index feature has the smaller bin on some axis, the unsigned
   * difference wraps, and neither feature lists the other unless its threshold exceeds
   * 2^64 minus the gap.
   */
  lemma WrappedDifferenceBlocks(bins: seq<nat>, crit: seq<real>, k: nat, x: nat, axis: nat)
    requires Shaped(bins, crit) && k < x < |crit| && axis < 3
    requires bins[3 * x + axis] < bins[3 * k + axis] < SizeModulus
    ensures Accepts(Wrapped, bins, crit, k, x) ==>
              crit[k] > (SizeModulus - (bins[3 * k + axis] - bins[3 * x + axis])) as real
    ensures Accepts(Wrapped, bins, crit, x, k) ==>
              crit[x] > (SizeModulus - (bins[3 * k + axis] - bins[3 * x + axis])) as real
  {
  }

  /** Two adjacent features, 1 at bin (1,0,0) and 2 at bin (0,0,0), threshold 2 each. */
  const AdjacentBins: seq<nat> := [0, 0, 0, 1, 0, 0, 0, 0, 0]
  const AdjacentCrit: seq<real> := [0.0, 2.0, 2.0]

  /** As written, the adjacent pair is not linked in either direction. */
  lemma WrappedMissesAdjacentPair()
    ensures Neighbors(Wrapped, AdjacentBins, AdjacentCrit, 1, 3) == []
    ensures Neighbors(Wrapped, AdjacentBins, AdjacentCrit, 2, 3) == []
  {
    assert !Accepts(Wrapped, AdjacentBins, AdjacentCrit, 1, 2);
    assert !Accepts(Wrapped, AdjacentBins, AdjacentCrit, 2, 1);
  }

  /** With the absolute difference, the adjacent pair is linked both ways. */
  lemma AbsoluteLinksAdjacentPair()
    ensures Neighbors(Absolute, AdjacentBins, AdjacentCrit, 1, 3) == [2]
    ensures Neighbors(Absolute, AdjacentBins, AdjacentCrit, 2, 3) == [1]
  {
    assert Accepts(Absolute, AdjacentBins, AdjacentCrit, 1, 2);
    assert Accepts(Absolute, AdjacentBins, AdjacentCrit, 2, 1);
  }

  function Dist(a: nat, b: nat): nat
  {
    if a >= b then a - b else b - a
  }

  /** Per-axis (Chebyshev) closeness of features `k` and `x`, independent of their index order. */
  predicate Close(bins: seq<nat>, k: nat, x: nat, c: real)
    requires 3 * k + 2 < |bins| && 3 * x + 2 < |bins|
  {
    (Dist(bins[3 * k], bins[3 * x]) as real) < c &&
    (Dist(bins[3 * k + 1], bins[3 * x + 1]) as real) < c &&
    (Dist(bins[3 * k + 2], bins[3 * x + 2]) as real) < c
  }

  /** The intended relation: `x` is listed by `k` exactly when it is within the threshold of `k` on every axis. */
  lemma AbsoluteMeansClose(bins: seq<nat>, crit: seq<real>, k: nat, x: int)
    requires Shaped(bins, crit) && k < |crit|
    ensures x in Neighbors(Absolute, bins, crit, k, |crit|) <==>
              1 <= x < |crit| && x != k && Close(bins, k, x, crit[k])
  {
    NeighborsMembership(Absolute, bins, crit, k, |crit|, x);
  }

  /** The diameters of features 1 .. hi-1 summed; feature 0 is skipped. */
  function DiameterSum(diam: seq<real>, hi: nat): real
    requires hi <= |diam|
  {
    if hi <= 1 then 0.0 else DiameterSum(diam, hi - 1) + diam[hi - 1]
  }

  /** The average diameter: the sum over features 1 .. n-1 divided by n, feature 0 included in the count. */
  function AverageDiameter(diam: seq<real>): real
  {
    if |diam| == 0 then 0.0 else DiameterSum(diam, |diam|) / (|diam| as real)
  }

  /**
   * The critical distances: `diam[i] * mult / average` for every feature i >= 1, and 0 for
   * feature 0.  The average must be non-zero once there is a feature to process.
   */
  method CriticalDistances(diam: seq<real>, mult: real) returns (crit: seq<real>)
    requires |diam| < 2 || DiameterSum(diam, |diam|) != 0.0
    ensures |crit| == |diam|
    ensures |diam| > 0 ==> crit[0] == 0.0
    ensures forall i :: 1 <= i < |diam| ==> crit[i] == diam[i] * mult / AverageDiameter(diam)
  {
    var n := |diam|;
    var distances := new real[n](_ => 0.0);
    var aveDiam := ScaleAndSum(diam, mult, distances);
    if n > 0 {
      aveDiam := aveDiam / (n as real);
    }
    var i := 1;
    while i < n
      invariant n > 0 ==> 1 <= i <= n
      invariant n > 0 ==> distances[0] == 0.0
      invariant forall m :: 1 <= m < i && m < n ==> distances[m] == diam[m] * mult / aveDiam
      invariant forall m :: i <= m < n ==> distances[m] == diam[m] * mult
    {
      distances[i] := distances[i] / aveDiam;
      i := i + 1;
    }
    crit := distances[..];
  }

  /** The first pass: every slot from 1 on holds `diam[i] * mult`, and the diameters are summed. */
  method ScaleAndSum(diam: seq<real>, mult: real, distances: array<real>) returns (total: real)
    requires distances.Length == |diam|
    requires |diam| > 0 ==> distances[0] == 0.0
    modifies distances
    ensures |diam| > 0 ==> total == DiameterSum(diam, |diam|) && distances[0] == 0.0
    ensures forall m :: 1 <= m < |diam| ==> distances[m] == diam[m] * mult
  {
    var n := |diam|;
    total := 0.0;
    var i := 1;
    while i < n
      invariant 1 <= i || n == 0
      invariant i <= n || n == 0
      invariant n > 0 ==> total == DiameterSum(diam, i)
      invariant n > 0 ==> distances[0] == 0.0
      invariant forall m :: 1 <= m < i && m < n ==> distances[m] == diam[m] * mult
    {
      total := total + diam[i];
      distances[i] := diam[i] * mult;
      i := i + 1;
    }
  }

  /** With equal positive diameters every threshold is `mult * n / (n - 1)`: feature 0 dilutes the average. */
  lemma UniformDiameters(diam: seq<real>, d: real, mult: real, i: nat)
    requires |diam| >= 2 && d > 0.0 && forall m :: 0 <= m < |diam| ==> diam[m] == d
    requires 1 <= i < |diam|
    ensures DiameterSum(diam, |diam|) != 0.0
    ensures Thresholds(diam, mult)[i] == mult * (|diam| as real) / (|diam| as real - 1.0)
  {
    UniformThreshold(diam, d, mult, i);
    assert Thresholds(diam, mult)[i] == Threshold(diam, mult, i);
  }

  lemma UniformThreshold(diam: seq<real>, d: real, mult: real, i: nat)
    requires |diam| >= 2 && d > 0.0 && forall m :: 0 <= m < |diam| ==> diam[m] == d
    requires 1 <= i < |diam|
    ensures DiameterSum(diam, |diam|) != 0.0
    ensures Threshold(diam, mult, i) == mult * (|diam| as real) / (|diam| as real - 1.0)
  {
    var sum := DiameterSum(diam, |diam|);
    var avg := AverageDiameter(diam);
    UniformSum(diam, d, |diam|);
    assert avg == sum / (|diam| as real);
    UniformRatio(avg, sum, |diam| as real, d, mult);
    assert Threshold(diam, mult, i) == d * mult / avg;
  }

  lemma UniformRatio(avg: real, sum: real, n: real, d: real, mult: real)
    requires n > 1.0 && d > 0.0 && sum == (n - 1.0) * d && avg == sum / n
    ensures sum != 0.0 && avg != 0.0 && d * mult / avg == mult * n / (n - 1.0)
  {
    var m := n - 1.0;
    assert m * d > 0.0;
    DivideBack(sum, n);
    PositiveFactor(avg, n, m * d);
    var t := d * mult / avg;
    assert t * avg == d * mult;
    assert t * m * d == mult * n * d by {
      assert t * avg * n == d * mult * n;
    }
    assert t * m == mult * n;
  }

  lemma DivideBack(s: real, n: real)
    requires n > 0.0
    ensures (s / n) * n == s
  {
  }

  lemma PositiveFactor(a: real, n: real, p: real)
    requires n > 0.0 && a * n == p && p > 0.0
    ensures a > 0.0
  {
  }

  lemma {:induction false} UniformSum(diam: seq<real>, d: real, hi: nat)
    requires 1 <= hi <= |diam| && forall m :: 0 <= m < |diam| ==> diam[m] == d
    ensures DiameterSum(diam, hi) == (hi as real - 1.0) * d
  {
    if hi > 1 {
      UniformSum(diam, d, hi - 1);
    }
  }

  /** One more feature paired with `k`: the list of `k` grows by `hi` exactly when `k` accepts it. */
  lemma NeighborsStep(mode: BinDifference, bins: seq<nat>, crit: seq<real>, k: nat, hi: nat)
    requires Shaped(bins, crit) && k < |crit| && 1 <= hi < |crit|
    ensures Neighbors(mode, bins, crit, k, hi + 1) ==
              Neighbors(mode, bins, crit, k, hi) + (if hi != k && Accepts(mode, bins, crit, k, hi) then [hi] else [])
  {
  }

  /** The lists of features 1 .. n-1 as they stand when the outer loop reaches feature `i`. */
  ghost predicate ListsBefore(mode: BinDifference, bins: seq<nat>, crit: seq<real>, lists: seq<seq<int>>, i: nat)
    requires Shaped(bins, crit) && |lists| == |crit| && i <= |crit|
  {
    (forall k :: 1 <= k < i ==> lists[k] == Neighbors(mode, bins, crit, k, |crit|)) &&
    (forall k :: i <= k < |crit| ==> lists[k] == Neighbors(mode, bins, crit, k, i))
  }

  /** Every counter of features 1 .. n-1 equals the length of its list. */
  predicate CountsMatch(counts: array<int>, lists: seq<seq<int>>)
    requires counts.Length == |lists|
    reads counts
  {
    forall k :: 1 <= k < counts.Length ==> counts[k] == |lists[k]|
  }

  /** The body of the inner loop: each side of the pair (i, j) is tested against its own threshold. */
  method TestPair(mode: BinDifference, bins: seq<nat>, crit: seq<real>, counts: array<int>,
                  lists0: seq<seq<int>>, i: nat, j: nat) returns (lists: seq<seq<int>>)
    requires Shaped(bins, crit) && counts.Length == |crit| == |lists0| && i < j < |crit|
    requires CountsMatch(counts, lists0)
    modifies counts
    ensures |lists| == |lists0| && CountsMatch(counts, lists)
    ensures lists[i] == lists0[i] + (if Within(mode, bins, i, j, crit[i]) then [j] else [])
    ensures lists[j] == lists0[j] + (if Within(mode, bins, i, j, crit[j]) then [i] else [])
    ensures forall k :: 0 <= k < |lists| && k != i && k != j ==> lists[k] == lists0[k]
    ensures counts[i] == old(counts[i]) + (if Within(mode, bins, i, j, crit[i]) then 1 else 0)
    ensures counts[j] == old(counts[j]) + (if Within(mode, bins, i, j, crit[j]) then 1 else 0)
    ensures forall k :: 0 <= k < counts.Length && k != i && k != j ==> counts[k] == old(counts[k])
  {
    lists := lists0;
    if Within(mode, bins, i, j, crit[i]) {
      counts[i] := counts[i] + 1;
      lists := lists[i := lists[i] + [j]];
    }
    if Within(mode, bins, i, j, crit[j]) {
      counts[j] := counts[j] + 1;
      lists := lists[j := lists[j] + [i]];
    }
  }

  /** The lists while the inner loop of feature `i` stands at `j`. */
  ghost predicate Paired(mode: BinDifference, bins: seq<nat>, crit: seq<real>, lists: seq<seq<int>>, i: nat, j: nat)
    requires Shaped(bins, crit) && |lists| == |crit| && i < j <= |crit|
  {
    (forall k :: 1 <= k < i ==> lists[k] == Neighbors(mode, bins, crit, k, |crit|)) &&
    lists[i] == Neighbors(mode, bins, crit, i, j) &&
    (forall k :: i < k < j ==> lists[k] == Neighbors(mode, bins, crit, k, i + 1)) &&
    (forall k :: j <= k < |crit| ==> lists[k] == Neighbors(mode, bins, crit, k, i))
  }

  lemma PairedStart(mode: BinDifference, bins: seq<nat>, crit: seq<real>, lists: seq<seq<int>>, i: nat)
    requires Shaped(bins, crit) && |lists| == |crit| && 1 <= i < |crit|
    requires ListsBefore(mode, bins, crit, lists, i)
    ensures Paired(mode, bins, crit, lists, i, i + 1)
  {
    NeighborsStep(mode, bins, crit, i, i);
  }

  lemma PairedStep(mode: BinDifference, bins: seq<nat>, crit: seq<real>,
                   before: seq<seq<int>>, after: seq<seq<int>>, i: nat, j: nat)
    requires Shaped(bins, crit) && |before| == |after| == |crit| && 1 <= i < j < |crit|
    requires Paired(mode, bins, crit, before, i, j)
    requires after[i] == before[i] + (if Within(mode, bins, i, j, crit[i]) then [j] else [])
    requires after[j] == before[j] + (if Within(mode, bins, i, j, crit[j]) then [i] else [])
    requires forall k :: 0 <= k < |after| && k != i && k != j ==> after[k] == before[k]
    ensures Paired(mode, bins, crit, after, i, j + 1)
  {
    NeighborsStep(mode, bins, crit, i, j);
    NeighborsStep(mode, bins, crit, j, i);
  }

  lemma PairedDone(mode: BinDifference, bins: seq<nat>, crit: seq<real>, lists: seq<seq<int>>, i: nat)
    requires Shaped(bins, crit) && |lists| == |crit| && 1 <= i < |crit|
    requires Paired(mode, bins, crit, lists, i, |crit|)
    ensures ListsBefore(mode, bins, crit, lists, i + 1)
  {
  }

  /** The inner loop: feature `i` is paired with every later feature `j`, each side with its own threshold. */
  method PairWithLater(mode: BinDifference, bins: seq<nat>, crit: seq<real>, counts: array<int>,
                       lists0: seq<seq<int>>, i: nat) returns (lists: seq<seq<int>>)
    requires Shaped(bins, crit) && counts.Length == |crit| == |lists0| && 1 <= i < |crit|
    requires ListsBefore(mode, bins, crit, lists0, i) && CountsMatch(counts, lists0)
    modifies counts
    ensures |lists| == |crit| && lists[0] == lists0[0] && counts[0] == old(counts[0])
    ensures ListsBefore(mode, bins, crit, lists, i + 1) && CountsMatch(counts, lists)
  {
    var n := counts.Length;
    lists := lists0;
    var j := i + 1;
    PairedStart(mode, bins, crit, lists, i);
    while j < n
      invariant i + 1 <= j <= n
      invariant |lists| == n && lists[0] == lists0[0] && counts[0] == old(counts[0])
      invariant Paired(mode, bins, crit, lists, i, j)
      invariant CountsMatch(counts, lists)
    {
      ghost var before := lists;
      lists := TestPair(mode, bins, crit, counts, lists, i, j);
      PairedStep(mode, bins, crit, before, lists, i, j);
      j := j + 1;
    }
    PairedDone(mode, bins, crit, lists, i);
  }

  /**
   * The pair search: resets the counters of features 1 .. n-1, then tests every pair once per
   * side, pushing to the lists and incrementing the counters.  Slot 0 is left alone.
   */
  method SearchPairs(mode: BinDifference, bins: seq<nat>, crit: seq<real>, counts: array<int>)
      returns (lists: seq<seq<int>>)
    requires Shaped(bins, crit) && counts.Length == |crit|
    modifies counts
    ensures |lists| == counts.Length
    ensures counts.Length > 0 ==> counts[0] == old(counts[0]) && lists[0] == []
    ensures forall k :: 1 <= k < counts.Length ==>
              lists[k] == Neighbors(mode, bins, crit, k, |crit|) && counts[k] == |lists[k]|
  {
    var n := counts.Length;
    var i := 1;
    while i < n
      invariant n > 0 ==> 1 <= i <= n
      invariant n > 0 ==> counts[0] == old(counts[0])
      invariant forall k :: 1 <= k < i && k < n ==> counts[k] == 0
    {
      counts[i] := 0;
      i := i + 1;
    }
    lists := seq(n, _ => []);
    if n == 0 {
      return;
    }
    i := 1;
    while i < n
      invariant 1 <= i <= n
      invariant |lists| == n && lists[0] == [] && counts[0] == old(counts[0])
      invariant ListsBefore(mode, bins, crit, lists, i) && CountsMatch(counts, lists)
    {
      lists := PairWithLater(mode, bins, crit, counts, lists, i);
      i := i + 1;
    }
  }

  /** The outcome of the validation of the filter: the error code and the registry with the created arrays. */
  function NeighborhoodsCheck(reg: Registry, diameters: DataArrayPath, phases: DataArrayPath,
                              centroids: DataArrayPath, neighborhoodsName: string, listName: string): (r: Checked)
    ensures r.error <= 0
    ensures forall q :: q != DataArrayPath(diameters.container, diameters.matrix, listName) &&
                        q != DataArrayPath(diameters.container, diameters.matrix, neighborhoodsName) ==>
                          GetArray(r.reg, q) == GetArray(reg, q)
  {
    var listPath := DataArrayPath(diameters.container, diameters.matrix, listName);
    var countsPath := DataArrayPath(diameters.container, diameters.matrix, neighborhoodsName);
    var e1 := Step(0, PrereqImageGeometry(reg, diameters.container));
    var c1 := CreateArray(reg, listPath, NeighborListInt32, 1);
    var e2 := Step(e1, c1.error);
    var e3 := Step(e2, PrereqArray(c1.reg, diameters, Float, 1));
    var e4 := Step(e3, PrereqArray(c1.reg, phases, Int32, 1));
    var c2 := CreateArray(c1.reg, countsPath, Int32, 1);
    var e5 := Step(e4, c2.error);
    var e6 := Step(e5, PrereqArray(c2.reg, centroids, Float, 3));
    var paths := (if e3 >= 0 then [diameters] else []) + (if e4 >= 0 then [phases] else []) +
                 (if e6 >= 0 then [centroids] else []);
    Checked(Step(e6, ValidateNumberOfTuples(c2.reg, paths)), c2.reg)
  }

  /**
   * Running the check again on the registry it left changes nothing more, and after a passing
   * check the repeat is refused because the two output names are now taken.
   */
  lemma NeighborhoodsCheckAgain(reg: Registry, diameters: DataArrayPath, phases: DataArrayPath,
                                centroids: DataArrayPath, neighborhoodsName: string, listName: string)
    ensures var r1 := NeighborhoodsCheck(reg, diameters, phases, centroids, neighborhoodsName, listName);
            var r2 := NeighborhoodsCheck(r1.reg, diameters, phases, centroids, neighborhoodsName, listName);
            r2.reg == r1.reg && (r1.error >= 0 ==> r2.error == DuplicateName)
  {
    var listPath := DataArrayPath(diameters.container, diameters.matrix, listName);
    var countsPath := DataArrayPath(diameters.container, diameters.matrix, neighborhoodsName);
    var c1 := CreateArray(reg, listPath, NeighborListInt32, 1);
    var c2 := CreateArray(c1.reg, countsPath, Int32, 1);
    CreateArraySettles(reg, listPath, NeighborListInt32, 1);
    CreateArrayKeepsSettled(c1.reg, countsPath, Int32, 1, listPath);
    CreateArraySettles(c1.reg, countsPath, Int32, 1);
    CreateArrayOnSettled(c2.reg, listPath, NeighborListInt32, 1);
    CreateArrayOnSettled(c2.reg, countsPath, Int32, 1);
    if NeighborhoodsCheck(reg, diameters, phases, centroids, neighborhoodsName, listName).error >= 0 {
      CheckPassedShapes(reg, diameters, phases, centroids, neighborhoodsName, listName);
      CheckPassedSteps(reg, diameters, phases, centroids, neighborhoodsName, listName);
    }
  }

  /** A failing step overwrites the error; a passing step leaves it. */
  function Step(error: int, stepError: int): (e: int)
    ensures e >= 0 <==> error >= 0 && stepError >= 0
    ensures stepError < 0 ==> e == stepError
  {
    if stepError < 0 then stepError else error
  }

  /**
   * A passing validation guarantees the inputs the search reads: an image-geometry container,
   * the diameters, phases and centroids, unchanged, with 1, 1 and 3 components and one common
   * tuple count, and the two created arrays, zeroed, with the tuple count of the diameters'
   * attribute matrix (which, in a well-shaped registry, is the diameters' own tuple count).
   */
  lemma CheckPassedShapes(reg: Registry, diameters: DataArrayPath, phases: DataArrayPath,
                          centroids: DataArrayPath, neighborhoodsName: string, listName: string)
    requires NeighborhoodsCheck(reg, diameters, phases, centroids, neighborhoodsName, listName).error >= 0
    ensures var r := NeighborhoodsCheck(reg, diameters, phases, centroids, neighborhoodsName, listName).reg;
            var listPath := DataArrayPath(diameters.container, diameters.matrix, listName);
            var countsPath := DataArrayPath(diameters.container, diameters.matrix, neighborhoodsName);
            diameters.container in reg && reg[diameters.container].geometry == ImageGeometry &&
            GetArray(reg, listPath).None? && GetArray(reg, countsPath).None? && listPath != countsPath &&
            GetArray(r, diameters) == GetArray(reg, diameters) &&
            GetArray(r, phases) == GetArray(reg, phases) &&
            GetArray(r, centroids) == GetArray(reg, centroids) &&
            PrereqArray(reg, diameters, Float, 1) == 0 &&
            PrereqArray(reg, phases, Int32, 1) == 0 &&
            PrereqArray(reg, centroids, Float, 3) == 0 &&
            GetArray(reg, phases).value.tuples == GetArray(reg, diameters).value.tuples &&
            GetArray(reg, centroids).value.tuples == GetArray(reg, diameters).value.tuples &&
            GetMatrix(reg, diameters.container, diameters.matrix).Some? &&
            var tuples := NumTuples(GetMatrix(reg, diameters.container, diameters.matrix).value.tupleDims);
            GetMatrix(r, diameters.container, diameters.matrix).Some? &&
            GetArray(r, listPath) == Some(Zeroed(NeighborListInt32, tuples, 1)) &&
            GetArray(r, countsPath) == Some(Zeroed(Int32, tuples, 1)) &&
            (WellShaped(reg) ==> tuples == GetArray(reg, diameters).value.tuples)
  {
    var listPath := DataArrayPath(diameters.container, diameters.matrix, listName);
    var countsPath := DataArrayPath(diameters.container, diameters.matrix, neighborhoodsName);
    CheckPassedSteps(reg, diameters, phases, centroids, neighborhoodsName, listName);
    var c1 := CreateArray(reg, listPath, NeighborListInt32, 1);
    var c2 := CreateArray(c1.reg, countsPath, Int32, 1);
    assert GetArray(reg, diameters) == GetArray(c1.reg, diameters) == GetArray(c2.reg, diameters);
    assert GetArray(reg, phases) == GetArray(c1.reg, phases) == GetArray(c2.reg, phases);
    assert GetArray(reg, centroids) == GetArray(c1.reg, centroids) == GetArray(c2.reg, centroids);
    ValidateThree(c2.reg, diameters, phases, centroids);
    if WellShaped(reg) {
      assert ValidMatrix(reg[diameters.container].matrices[diameters.matrix]);
    }
  }

  /**
   * On a well-shaped registry a passing validation leaves a well-shaped registry whose diameters
   * are unchanged and hold one value per tuple, which is what the search reads.
   */
  lemma CheckPassedSearchable(reg: Registry, diameters: DataArrayPath, phases: DataArrayPath,
                              centroids: DataArrayPath, neighborhoodsName: string, listName: string)
    requires WellShaped(reg)
    requires NeighborhoodsCheck(reg, diameters, phases, centroids, neighborhoodsName, listName).error >= 0
    ensures var r := NeighborhoodsCheck(reg, diameters, phases, centroids, neighborhoodsName, listName).reg;
            WellShaped(r) && GetArray(reg, diameters).Some? && GetArray(r, diameters) == GetArray(reg, diameters) &&
            GetMatrix(r, diameters.container, diameters.matrix).Some? &&
            GetArray(reg, diameters).value.contents.Values? &&
            |GetArray(reg, diameters).value.contents.values| == GetArray(reg, diameters).value.tuples
  {
    var listPath := DataArrayPath(diameters.container, diameters.matrix, listName);
    var countsPath := DataArrayPath(diameters.container, diameters.matrix, neighborhoodsName);
    CheckPassedShapes(reg, diameters, phases, centroids, neighborhoodsName, listName);
    CreateArrayShaped(reg, listPath, NeighborListInt32, 1);
    CreateArrayShaped(CreateArray(reg, listPath, NeighborListInt32, 1).reg, countsPath, Int32, 1);
    GetArrayShaped(reg, diameters);
  }

  /** Every step of a passing validation passed. */
  lemma CheckPassedSteps(reg: Registry, diameters: DataArrayPath, phases: DataArrayPath,
                         centroids: DataArrayPath, neighborhoodsName: string, listName: string)
    requires NeighborhoodsCheck(reg, diameters, phases, centroids, neighborhoodsName, listName).error >= 0
    ensures var c1 := CreateArray(reg, DataArrayPath(diameters.container, diameters.matrix, listName), NeighborListInt32, 1);
            var c2 := CreateArray(c1.reg, DataArrayPath(diameters.container, diameters.matrix, neighborhoodsName), Int32, 1);
            PrereqImageGeometry(reg, diameters.container) == 0 && c1.error == 0 && c2.error == 0 &&
            PrereqArray(c1.reg, diameters, Float, 1) == 0 && PrereqArray(c1.reg, phases, Int32, 1) == 0 &&
            PrereqArray(c2.reg, centroids, Float, 3) == 0 &&
            ValidateNumberOfTuples(c2.reg, [diameters, phases, centroids]) == 0
  {
    assert [diameters] + [phases] + [centroids] == [diameters, phases, centroids];
  }

  /**
   * Conversely, an image-geometry container with the three inputs of the right types and
   * components, one common tuple count, and two distinct unused names for the outputs passes.
   */
  lemma CheckPasses(reg: Registry, diameters: DataArrayPath, phases: DataArrayPath,
                    centroids: DataArrayPath, neighborhoodsName: string, listName: string)
    requires diameters.container in reg && reg[diameters.container].geometry == ImageGeometry
    requires PrereqArray(reg, diameters, Float, 1) == 0 && PrereqArray(reg, phases, Int32, 1) == 0 &&
             PrereqArray(reg, centroids, Float, 3) == 0
    requires GetArray(reg, phases).value.tuples == GetArray(reg, diameters).value.tuples &&
             GetArray(reg, centroids).value.tuples == GetArray(reg, diameters).value.tuples
    requires listName != "" && neighborhoodsName != "" && listName != neighborhoodsName
    requires GetArray(reg, DataArrayPath(diameters.container, diameters.matrix, listName)).None?
    requires GetArray(reg, DataArrayPath(diameters.container, diameters.matrix, neighborhoodsName)).None?
    ensures NeighborhoodsCheck(reg, diameters, phases, centroids, neighborhoodsName, listName).error == 0
  {
    var listPath := DataArrayPath(diameters.container, diameters.matrix, listName);
    var countsPath := DataArrayPath(diameters.container, diameters.matrix, neighborhoodsName);
    var c1 := CreateArray(reg, listPath, NeighborListInt32, 1);
    assert c1.error == 0;
    assert GetArray(c1.reg, diameters) == GetArray(reg, diameters);
    assert GetArray(c1.reg, phases) == GetArray(reg, phases);
    assert GetArray(c1.reg, centroids) == GetArray(reg, centroids);
    var c2 := CreateArray(c1.reg, countsPath, Int32, 1);
    assert c2.error == 0;
    assert GetArray(c2.reg, diameters) == GetArray(reg, diameters);
    assert GetArray(c2.reg, phases) == GetArray(reg, phases);
    assert GetArray(c2.reg, centroids) == GetArray(reg, centroids);
    var e1 := Step(0, PrereqImageGeometry(reg, diameters.container));
    var e2 := Step(e1, c1.error);
    var e3 := Step(e2, PrereqArray(c1.reg, diameters, Float, 1));
    var e4 := Step(e3, PrereqArray(c1.reg, phases, Int32, 1));
    var e5 := Step(e4, c2.error);
    var e6 := Step(e5, PrereqArray(c2.reg, centroids, Float, 3));
    assert e6 == 0;
    assert [diameters] + [phases] + [centroids] == [diameters, phases, centroids];
    ValidateThree(c2.reg, diameters, phases, centroids);
  }

  /** The critical distances of the diameters: 0 for feature 0, `diam[i] * mult / average` otherwise. */
  function Thresholds(diam: seq<real>, mult: real): seq<real>
  {
    seq(|diam|, i requires 0 <= i < |diam| => Threshold(diam, mult, i))
  }

  function Threshold(diam: seq<real>, mult: real, i: nat): real
    requires i < |diam|
  {
    var avg := AverageDiameter(diam);
    if i == 0 || avg == 0.0 then 0.0 else diam[i] * mult / avg
  }

  /** The counters after the search: the length of each list, and 0 (as created) for feature 0. */
  function NeighborhoodCounts(mode: BinDifference, bins: seq<nat>, crit: seq<real>): seq<real>
    requires Shaped(bins, crit)
  {
    seq(|crit|, k requires 0 <= k < |crit| => if k == 0 then 0.0 else |Neighbors(mode, bins, crit, k, |crit|)| as real)
  }

  /** The stored lists after the search; feature 0 keeps the empty list it was created with. */
  function NeighborhoodLists(mode: BinDifference, bins: seq<nat>, crit: seq<real>): seq<seq<int>>
    requires Shaped(bins, crit)
  {
    seq(|crit|, k requires 0 <= k < |crit| => if k == 0 then [] else Neighbors(mode, bins, crit, k, |crit|))
  }

  lemma ThresholdsComputed(diam: seq<real>, mult: real, crit: seq<real>)
    requires |diam| < 2 || DiameterSum(diam, |diam|) != 0.0
    requires |crit| == |diam| && (|diam| > 0 ==> crit[0] == 0.0)
    requires forall i :: 1 <= i < |diam| ==> crit[i] == diam[i] * mult / AverageDiameter(diam)
    ensures crit == Thresholds(diam, mult)
  {
    forall i | 0 <= i < |diam|
      ensures crit[i] == Thresholds(diam, mult)[i]
    {
      if i > 0 {
        var n := |diam| as real;
        var avg := AverageDiameter(diam);
        assert n > 0.0 && DiameterSum(diam, |diam|) != 0.0;
        assert avg == DiameterSum(diam, |diam|) / n;
        assert avg != 0.0;
      }
    }
  }

  lemma SearchResults(mode: BinDifference, bins: seq<nat>, crit: seq<real>, found: seq<int>, lists: seq<seq<int>>,
                      countValues: seq<real>, stored: seq<seq<int>>)
    requires Shaped(bins, crit) && |found| == |lists| == |countValues| == |stored| == |crit|
    requires |crit| > 0 ==> found[0] == 0 && stored[0] == []
    requires forall k :: 1 <= k < |crit| ==>
               lists[k] == Neighbors(mode, bins, crit, k, |crit|) && found[k] == |lists[k]|
    requires forall k :: 0 <= k < |crit| ==> countValues[k] == found[k] as real
    requires forall k :: 1 <= k < |crit| ==> stored[k] == lists[k]
    ensures countValues == NeighborhoodCounts(mode, bins, crit)
    ensures stored == NeighborhoodLists(mode, bins, crit)
  {
  }

  /**
   * Critical distances from the diameters, then the pair search on the bins: the counters (as
   * stored, one per feature) and the lists of features 1 .. n-1.
   */
  method FindNeighborhoodLists(diam: seq<real>, mult: real, bins: seq<nat>)
      returns (countValues: seq<real>, stored: seq<seq<int>>)
    requires |bins| == 3 * |diam|
    requires |diam| < 2 || DiameterSum(diam, |diam|) != 0.0
    ensures countValues == NeighborhoodCounts(Wrapped, bins, Thresholds(diam, mult))
    ensures stored == NeighborhoodLists(Wrapped, bins, Thresholds(diam, mult))
  {
    var n := |diam|;
    var crit := CriticalDistances(diam, mult);
    ThresholdsComputed(diam, mult, crit);
    var counts := new int[n](_ => 0);
    var lists := SearchPairs(Wrapped, bins, crit, counts);
    var found := counts[..];
    countValues := seq(n, k requires 0 <= k < n => found[k] as real);
    stored := seq(n, k requires 0 <= k < n => if k == 0 then [] else lists[k]);
    SearchResults(Wrapped, bins, crit, found, lists, countValues, stored);
  }

  /**
   * The registry after the search, from the validated registry: the counters and lists stored in
   * the two created arrays.  Inputs the search cannot run on leave the registry as it is.
   */
  function Searched(reg: Registry, diameters: DataArrayPath, countsPath: DataArrayPath, listPath: DataArrayPath,
                    mult: real, bins: seq<nat>): Registry
  {
    match GetArray(reg, diameters)
    case None => reg
    case Some(a) =>
      if a.contents.Values? && |a.contents.values| == a.tuples && |bins| == 3 * a.tuples &&
         GetMatrix(reg, countsPath.container, countsPath.matrix).Some? &&
         GetMatrix(reg, listPath.container, listPath.matrix).Some?
      then
        var crit := Thresholds(a.contents.values, mult);
        StoreResults(reg, countsPath, listPath, a.tuples, NeighborhoodCounts(Wrapped, bins, crit),
                     NeighborhoodLists(Wrapped, bins, crit))
      else reg
  }

  /** The counters go to the created `int32` array, the lists to the created neighbour list. */
  function StoreResults(reg: Registry, countsPath: DataArrayPath, listPath: DataArrayPath, n: nat,
                        counts: seq<real>, lists: seq<seq<int>>): Registry
    requires GetMatrix(reg, countsPath.container, countsPath.matrix).Some?
    requires GetMatrix(reg, listPath.container, listPath.matrix).Some?
  {
    var withCounts := PutArray(reg, countsPath, DataArray(Int32, n, 1, Values(counts)));
    PutArray(withCounts, listPath, DataArray(NeighborListInt32, n, 1, Lists(lists)))
  }

  /** The filter with its parameters and its error condition. */
  class FindNeighborhoods {
    var neighborhoodListArrayName: string
    var multiplesOfAverage: real
    var equivalentDiametersArrayPath: DataArrayPath
    var featurePhasesArrayPath: DataArrayPath
    var centroidsArrayPath: DataArrayPath
    var neighborhoodsArrayName: string
    var errorCondition: int

    /** The default parameters: multiplier 1 and the default feature-data paths. */
    constructor ()
      ensures multiplesOfAverage == 1.0
      ensures neighborhoodListArrayName == "NeighborhoodList" && neighborhoodsArrayName == "Neighborhoods"
      ensures equivalentDiametersArrayPath == DataArrayPath("ImageDataContainer", "CellFeatureData", "EquivalentDiameters")
      ensures featurePhasesArrayPath == DataArrayPath("ImageDataContainer", "CellFeatureData", "Phases")
      ensures centroidsArrayPath == DataArrayPath("ImageDataContainer", "CellFeatureData", "Centroids")
      ensures errorCondition == 0
    {
      neighborhoodListArrayName := "NeighborhoodList";
      multiplesOfAverage := 1.0;
      equivalentDiametersArrayPath := DataArrayPath("ImageDataContainer", "CellFeatureData", "EquivalentDiameters");
      featurePhasesArrayPath := DataArrayPath("ImageDataContainer", "CellFeatureData", "Phases");
      centroidsArrayPath := DataArrayPath("ImageDataContainer", "CellFeatureData", "Centroids");
      neighborhoodsArrayName := "Neighborhoods";
      errorCondition := 0;
    }

    function ListPath(): DataArrayPath
      reads this
    {
      DataArrayPath(equivalentDiametersArrayPath.container, equivalentDiametersArrayPath.matrix, neighborhoodListArrayName)
    }

    function CountsPath(): DataArrayPath
      reads this
    {
      DataArrayPath(equivalentDiametersArrayPath.container, equivalentDiametersArrayPath.matrix, neighborhoodsArrayName)
    }

    function Check(reg: Registry): Checked
      reads this
    {
      NeighborhoodsCheck(reg, equivalentDiametersArrayPath, featurePhasesArrayPath, centroidsArrayPath,
                         neighborhoodsArrayName, neighborhoodListArrayName)
    }

    /** Validates the inputs and reserves the two outputs, leaving the error of the last failing step. */
    method DataCheck(dca: DataContainerArray)
      modifies this, dca
      ensures errorCondition == old(Check(dca.containers)).error
      ensures dca.containers == old(Check(dca.containers)).reg
      ensures old(dca.Valid()) ==> dca.Valid()
      ensures equivalentDiametersArrayPath == old(equivalentDiametersArrayPath) &&
              featurePhasesArrayPath == old(featurePhasesArrayPath) &&
              centroidsArrayPath == old(centroidsArrayPath) &&
              neighborhoodsArrayName == old(neighborhoodsArrayName) &&
              neighborhoodListArrayName == old(neighborhoodListArrayName) &&
              multiplesOfAverage == old(multiplesOfAverage)
    {
      var r := Check(dca.containers);
      if dca.Valid() {
        var c1 := CreateArray(dca.containers, ListPath(), NeighborListInt32, 1);
        CreateArrayShaped(dca.containers, ListPath(), NeighborListInt32, 1);
        CreateArrayShaped(c1.reg, CountsPath(), Int32, 1);
      }
      errorCondition := r.error;
      dca.containers := r.reg;
    }

    /**
     * The search proper, on a validated registry: critical distances from the diameters, the
     * pair search on the given bins, and the counters and lists stored in the created arrays.
     */
    method Search(dca: DataContainerArray, bins: seq<nat>)
      requires GetArray(dca.containers, equivalentDiametersArrayPath).Some?
      requires var a := GetArray(dca.containers, equivalentDiametersArrayPath).value;
               a.contents.Values? && |a.contents.values| == a.tuples && |bins| == 3 * a.tuples &&
               (a.tuples < 2 || DiameterSum(a.contents.values, a.tuples) != 0.0)
      requires GetMatrix(dca.containers, equivalentDiametersArrayPath.container, equivalentDiametersArrayPath.matrix).Some?
      modifies dca
      ensures dca.containers == Searched(old(dca.containers), equivalentDiametersArrayPath, CountsPath(), ListPath(),
                                         multiplesOfAverage, bins)
    {
      var diamArray := GetArray(dca.containers, equivalentDiametersArrayPath).value;
      var n := diamArray.tuples;
      var countValues, stored := FindNeighborhoodLists(diamArray.contents.values, multiplesOfAverage, bins);
      dca.containers := StoreResults(dca.containers, CountsPath(), ListPath(), n, countValues, stored);
    }

    /**
     * Validates, and if the error stays non-negative computes the critical distances from the
     * diameters, runs the pair search on the given bins and stores the counters and, for
     * features 1 .. n-1, the lists.
     */
    method Execute(dca: DataContainerArray, bins: seq<nat>)
      requires dca.Valid()
      requires GetArray(dca.containers, equivalentDiametersArrayPath).Some? ==>
                 |bins| == 3 * GetArray(dca.containers, equivalentDiametersArrayPath).value.tuples
      requires GetArray(dca.containers, equivalentDiametersArrayPath).Some? &&
               GetArray(dca.containers, equivalentDiametersArrayPath).value.contents.Values? ==>
                 var d := GetArray(dca.containers, equivalentDiametersArrayPath).value.contents.values;
                 |d| < 2 || DiameterSum(d, |d|) != 0.0
      modifies this, dca
      ensures errorCondition == old(Check(dca.containers)).error
      ensures errorCondition < 0 ==> dca.containers == old(Check(dca.containers)).reg
      ensures equivalentDiametersArrayPath == old(equivalentDiametersArrayPath) &&
              featurePhasesArrayPath == old(featurePhasesArrayPath) &&
              centroidsArrayPath == old(centroidsArrayPath) &&
              neighborhoodsArrayName == old(neighborhoodsArrayName) &&
              neighborhoodListArrayName == old(neighborhoodListArrayName) &&
              multiplesOfAverage == old(multiplesOfAverage)
      ensures errorCondition >= 0 ==>
                dca.containers == Searched(old(Check(dca.containers)).reg, old(equivalentDiametersArrayPath),
                                           old(CountsPath()), old(ListPath()), old(multiplesOfAverage), bins)
    {
      errorCondition := 0;
      ghost var reg0 := dca.containers;
      DataCheck(dca);
      if errorCondition < 0 {
        return;
      }
      CheckPassedSearchable(reg0, equivalentDiametersArrayPath, featurePhasesArrayPath, centroidsArrayPath,
                            neighborhoodsArrayName, neighborhoodListArrayName);
      Search(dca, bins);
    }
  }
}
