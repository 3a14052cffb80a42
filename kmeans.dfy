/** The k-means engine of the column-selecting clustering component
    (`src/components/KMeansClustering.js`): centroid initialisation, assignment
    of every point to its nearest centroid, the mean update, the exact
    convergence test, inertia, and the bounded loop that ties them together.

    A point is the list of its selected columns' values, in selection order, so
    every point of a data set has the same dimension `d` (the number of selected
    columns). Coordinates are real numbers. */
module KMeans {
  import opened Util
  import Fixpoint

  type Point = seq<real>

  /** A centroid as `updateCentroids` produces it: the mean of its members, or
      `Undefined` when the cluster had no member and every coordinate became
      `0 / 0`, that is NaN. */
  datatype Centroid = Mean(coords: Point) | Undefined

  /** A point tagged with the index of its cluster: the `{ ...point, cluster }` of the assignment step. */
  datatype Labelled = Labelled(point: Point, cluster: nat)

  /** What `kmeans` returns: the last assignment, the centroids computed from it, and the inertia history. */
  datatype Clustering = Clustering(clusters: seq<Labelled>, centroids: seq<Centroid>, inertias: seq<real>)

  /** The loop runs while `iterations < 100`. */
  const MaxIterations: nat := 100

  predicate HasDim(data: seq<Point>, d: nat)
  {
    forall i | 0 <= i < |data| :: |data[i]| == d
  }

  predicate CentroidsHaveDim(cs: seq<Centroid>, d: nat)
  {
    forall i | 0 <= i < |cs| :: cs[i].Mean? ==> |cs[i].coords| == d
  }

  predicate LabelledHaveDim(cl: seq<Labelled>, d: nat)
  {
    forall i | 0 <= i < |cl| :: |cl[i].point| == d
  }

  predicate HasDefined(cs: seq<Centroid>)
  {
    exists i | 0 <= i < |cs| :: cs[i].Mean?
  }

  /* ---------------------------------------------------------------- distance */

  /** The squared Euclidean distance, summed column by column from the first as
      the `reduce` over the selected columns does (`Math.pow(a - b, 2)` is `(a - b) * (a - b)`). */
  function SqDist(p: Point, q: Point): (r: real)
    requires |p| == |q|
    ensures r >= 0.0
  {
    if |p| == 0 then 0.0
    else
      var n := |p| - 1;
      SqDist(p[..n], q[..n]) + (p[n] - q[n]) * (p[n] - q[n])
  }

  /** The distance is symmetric and vanishes from a point to itself. */
  lemma {:induction false} SqDistSymmetric(p: Point, q: Point)
    requires |p| == |q|
    ensures SqDist(p, q) == SqDist(q, p)
    ensures SqDist(p, p) == 0.0
  {
    if |p| > 0 {
      var n := |p| - 1;
      SqDistSymmetric(p[..n], q[..n]);
    }
  }

  /* ---------------------------------------------------------- initialisation */

  /** The centroids `initializeCentroids` draws when its random indices are `picks`. */
  function Seeds(data: seq<Point>, picks: seq<nat>): (cs: seq<Centroid>)
    requires forall i | 0 <= i < |picks| :: picks[i] < |data|
    ensures |cs| == |picks|
    ensures forall i | 0 <= i < |picks| :: cs[i].Mean? && cs[i].coords == data[picks[i]]
  {
    seq(|picks|, i requires 0 <= i < |picks| => Mean(data[picks[i]]))
  }

  /** `initializeCentroids`: pushes `k` data points, the i-th being
      `data[picks[i]]`; `picks` stands for the `Math.floor(Math.random() * data.length)` draws,
      so the same point may be drawn twice. */
  method InitializeCentroids(data: seq<Point>, k: nat, picks: seq<nat>) returns (centroids: seq<Centroid>)
    requires |picks| == k && forall i | 0 <= i < k :: picks[i] < |data|
    ensures |centroids| == k
    ensures forall i | 0 <= i < k :: centroids[i].Mean? && centroids[i].coords == data[picks[i]]
    ensures centroids == Seeds(data, picks)
  {
    centroids := [];
    for i := 0 to k
      invariant centroids == Seeds(data, picks[..i])
    {
      centroids := centroids + [Mean(data[picks[i]])];
    }
    assert picks[..k] == picks;
  }

  /* -------------------------------------------------------------- assignment */

  /** The centroid the assignment scan has chosen after looking at the first `n`
      centroids, or None while it has seen no defined one (`minDist` is still
      Infinity). A NaN distance never passes `dist < minDist`, and neither does a
      tie, so the earliest of equally near centroids is kept. */
  function BestUpTo(p: Point, cs: seq<Centroid>, n: nat): (b: Option<nat>)
    requires n <= |cs| && CentroidsHaveDim(cs, |p|)
    ensures b.Some? ==> b.value < n && cs[b.value].Mean?
  {
    if n == 0 then None
    else
      var b := BestUpTo(p, cs, n - 1);
      if cs[n - 1].Mean? && (b.None? || SqDist(p, cs[n - 1].coords) < SqDist(p, cs[b.value].coords))
      then Some(n - 1)
      else b
  }

  /** `j` is the first of the first `n` centroids at minimal distance from `p`. */
  predicate IsFirstNearestAmong(p: Point, cs: seq<Centroid>, n: nat, j: nat)
    requires n <= |cs| && CentroidsHaveDim(cs, |p|)
  {
    && j < n && cs[j].Mean?
    && forall i | 0 <= i < n && cs[i].Mean? ::
         && SqDist(p, cs[j].coords) <= SqDist(p, cs[i].coords)
         && (i < j ==> SqDist(p, cs[j].coords) < SqDist(p, cs[i].coords))
  }

  predicate IsFirstNearest(p: Point, cs: seq<Centroid>, j: nat)
    requires CentroidsHaveDim(cs, |p|)
  {
    IsFirstNearestAmong(p, cs, |cs|, j)
  }

  lemma {:induction false} BestUpToCorrect(p: Point, cs: seq<Centroid>, n: nat)
    requires n <= |cs| && CentroidsHaveDim(cs, |p|)
    ensures BestUpTo(p, cs, n).None? <==> forall i | 0 <= i < n :: cs[i].Undefined?
    ensures BestUpTo(p, cs, n).Some? ==> IsFirstNearestAmong(p, cs, n, BestUpTo(p, cs, n).value)
  {
    if n > 0 {
      BestUpToCorrect(p, cs, n - 1);
    }
  }

  /** The cluster index `assignClusters` gives `p`: the chosen centroid, or the
      initial `cluster = 0` when no centroid is defined. */
  function Nearest(p: Point, cs: seq<Centroid>): (j: nat)
    requires CentroidsHaveDim(cs, |p|)
    ensures HasDefined(cs) ==> j < |cs| && cs[j].Mean?
    ensures !HasDefined(cs) ==> j == 0
  {
    BestUpToCorrect(p, cs, |cs|);
    match BestUpTo(p, cs, |cs|)
    case None => 0
    case Some(j) => j
  }

  /** The assignment picks a nearest defined centroid, and on a tie the one with
      the lowest index; no other index has both properties. */
  lemma NearestIsFirstMinimum(p: Point, cs: seq<Centroid>)
    requires CentroidsHaveDim(cs, |p|) && HasDefined(cs)
    ensures forall j :: IsFirstNearest(p, cs, j) <==> j == Nearest(p, cs)
  {
    BestUpToCorrect(p, cs, |cs|);
  }

  /** The assignment `assignClusters(data, centroids)` is meant to compute. */
  function Assigned(data: seq<Point>, cs: seq<Centroid>, d: nat): (cl: seq<Labelled>)
    requires HasDim(data, d) && CentroidsHaveDim(cs, d)
    ensures |cl| == |data| && LabelledHaveDim(cl, d)
    ensures HasDefined(cs) ==> AssignedToDefined(cl, cs)
  {
    seq(|data|, i requires 0 <= i < |data| => Labelled(data[i], Nearest(data[i], cs)))
  }

  /** `assignClusters`: for every point, in order, scans the centroids keeping
      `minDist` and `cluster`, and tags the point with the cluster it ends with. */
  method AssignClusters(data: seq<Point>, centroids: seq<Centroid>, d: nat) returns (clusters: seq<Labelled>)
    requires HasDim(data, d) && CentroidsHaveDim(centroids, d)
    ensures |clusters| == |data|
    ensures forall i | 0 <= i < |data| ::
              clusters[i].point == data[i] && clusters[i].cluster == Nearest(data[i], centroids)
    ensures clusters == Assigned(data, centroids, d)
  {
    clusters := [];
    for i := 0 to |data|
      invariant |clusters| == i
      invariant forall m | 0 <= m < i ::
                  clusters[m].point == data[m] && clusters[m].cluster == Nearest(data[m], centroids)
    {
      var point := data[i];
      var minDist: Option<real> := None;  // None is the initial Infinity
      var cluster := 0;
      for c := 0 to |centroids|
        invariant minDist.None? ==> BestUpTo(point, centroids, c).None? && cluster == 0
        invariant minDist.Some? ==>
                    && BestUpTo(point, centroids, c) == Some(cluster)
                    && cluster < |centroids| && centroids[cluster].Mean?
                    && minDist.value == SqDist(point, centroids[cluster].coords)
      {
        match centroids[c]
        case Undefined =>
          // the distance to an all-NaN centroid is NaN, and `NaN < minDist` is false
        case Mean(q) =>
          var dist := SqDist(point, q);
          if minDist.None? || dist < minDist.value {
            minDist := Some(dist);
            cluster := c;
          }
      }
      clusters := clusters + [Labelled(point, cluster)];
    }
  }

  /* ------------------------------------------------------------------ update */

  /** How many points of `cl` are tagged with cluster `c`. */
  function MemberCount(cl: seq<Labelled>, c: nat): (n: nat)
    ensures n <= |cl|
  {
    if cl == [] then 0
    else MemberCount(cl[..|cl| - 1], c) + (if cl[|cl| - 1].cluster == c then 1 else 0)
  }

  /** The sum of column `j` over the points of `cl` tagged with cluster `c`. */
  function MemberSum(cl: seq<Labelled>, c: nat, j: nat): real
    requires forall i | 0 <= i < |cl| :: j < |cl[i].point|
  {
    if cl == [] then 0.0
    else
      var n := |cl| - 1;
      MemberSum(cl[..n], c, j) + (if cl[n].cluster == c then cl[n].point[j] else 0.0)
  }

  /** The centroids `updateCentroids(cl, k)` is meant to compute: for every cluster
      index below `k`, the coordinate-wise mean of its members, or Undefined for
      a cluster without members. */
  function Update(cl: seq<Labelled>, k: nat, d: nat): (cs: seq<Centroid>)
    requires LabelledHaveDim(cl, d)
    ensures |cs| == k && CentroidsHaveDim(cs, d)
  {
    seq(k, c requires 0 <= c < k =>
      if MemberCount(cl, c) == 0 then Undefined
      else Mean(seq(d, j requires 0 <= j < d => MemberSum(cl, c, j) / (MemberCount(cl, c) as real))))
  }

  /** `updateCentroids`: accumulates, in place, a per-cluster sum of every
      selected column and a member count, then divides each sum by its count. */
  method UpdateCentroids(clusters: seq<Labelled>, k: nat, d: nat) returns (newCentroids: seq<Centroid>)
    requires LabelledHaveDim(clusters, d)
    requires forall i | 0 <= i < |clusters| :: clusters[i].cluster < k
    ensures newCentroids == Update(clusters, k, d)
  {
    var sums, counts := Accumulate(clusters, k, d);
    newCentroids := [];
    for c := 0 to k
      invariant |newCentroids| == c
      invariant forall c' | 0 <= c' < c :: newCentroids[c'] == Update(clusters, k, d)[c']
    {
      if counts[c] == 0 {
        // every `c[col] / c.count` is 0 / 0
        newCentroids := newCentroids + [Undefined];
      } else {
        var coords: seq<real> := [];
        for j := 0 to d
          invariant |coords| == j
          invariant forall j' | 0 <= j' < j :: coords[j'] == sums[c, j'] / (counts[c] as real)
        {
          coords := coords + [sums[c, j] / (counts[c] as real)];
        }
        newCentroids := newCentroids + [Mean(coords)];
      }
    }
  }

  /** The accumulation pass of `updateCentroids`: one row of column sums and
      one count per cluster, each point added to the row of its cluster. */
  method Accumulate(clusters: seq<Labelled>, k: nat, d: nat) returns (sums: array2<real>, counts: array<nat>)
    requires LabelledHaveDim(clusters, d)
    requires forall i | 0 <= i < |clusters| :: clusters[i].cluster < k
    ensures fresh(sums) && fresh(counts)
    ensures sums.Length0 == k && sums.Length1 == d && counts.Length == k
    ensures forall c, j | 0 <= c < k && 0 <= j < d :: sums[c, j] == MemberSum(clusters, c, j)
    ensures forall c | 0 <= c < k :: counts[c] == MemberCount(clusters, c)
  {
    sums := new real[k, d]((_, _) => 0.0);
    counts := new nat[k](_ => 0);
    for i := 0 to |clusters|
      invariant forall c, j | 0 <= c < k && 0 <= j < d :: sums[c, j] == MemberSum(clusters[..i], c, j)
      invariant forall c | 0 <= c < k :: counts[c] == MemberCount(clusters[..i], c)
    {
      var member := clusters[i];
      assert clusters[..i + 1][..i] == clusters[..i];
      for j := 0 to d
        modifies sums
        invariant forall c, j' | 0 <= c < k && 0 <= j' < d ::
                    sums[c, j'] == if c == member.cluster && j' < j
                                   then MemberSum(clusters[..i + 1], c, j')
                                   else MemberSum(clusters[..i], c, j')
      {
        sums[member.cluster, j] := sums[member.cluster, j] + member.point[j];
      }
      counts[member.cluster] := counts[member.cluster] + 1;
    }
    assert clusters[..|clusters|] == clusters;
  }

  /* ------------------------------------------------------------- convergence */

  /** `converged`: every centroid agrees with its counterpart on every selected
      column. An Undefined centroid (all NaN) agrees with nothing, itself included,
      so converged centroids are defined and equal to their counterparts. */
  predicate Converged(centroids: seq<Centroid>, newCentroids: seq<Centroid>, d: nat)
    requires |centroids| <= |newCentroids|
    requires CentroidsHaveDim(centroids, d) && CentroidsHaveDim(newCentroids, d)
    ensures Converged(centroids, newCentroids, d) ==>
              forall i | 0 <= i < |centroids| :: centroids[i].Mean? && centroids[i] == newCentroids[i]
  {
    forall i | 0 <= i < |centroids| ::
      && centroids[i].Mean? && newCentroids[i].Mean?
      && forall col | 0 <= col < d :: centroids[i].coords[col] == newCentroids[i].coords[col]
  }

  /* ----------------------------------------------------------------- inertia */

  /** Every point's cluster names a defined centroid of the point's dimension. */
  predicate AssignedToDefined(cl: seq<Labelled>, cs: seq<Centroid>)
  {
    forall i | 0 <= i < |cl| ::
      cl[i].cluster < |cs| && cs[cl[i].cluster].Mean? && |cs[cl[i].cluster].coords| == |cl[i].point|
  }

  /** `calculateInertia`: the total squared distance of the points to the
      centroids of their clusters, accumulated point by point. */
  function Inertia(cl: seq<Labelled>, cs: seq<Centroid>): (r: real)
    requires AssignedToDefined(cl, cs)
    ensures r >= 0.0
  {
    if cl == [] then 0.0
    else
      var n := |cl| - 1;
      Inertia(cl[..n], cs) + SqDist(cl[n].point, cs[cl[n].cluster].coords)
  }

  /* ------------------------------------------------------------------ lemmas */

  /** A cluster has a positive member count exactly when some point is tagged with it. */
  lemma {:induction false} MemberCountPositive(cl: seq<Labelled>, c: nat)
    ensures MemberCount(cl, c) > 0 <==> exists i | 0 <= i < |cl| :: cl[i].cluster == c
  {
    if cl != [] {
      var n := |cl| - 1;
      MemberCountPositive(cl[..n], c);
      if exists i | 0 <= i < |cl| :: cl[i].cluster == c {
        var i :| 0 <= i < |cl| && cl[i].cluster == c;
        if i < n {
          assert cl[..n][i] == cl[i];
        }
      }
      if exists i | 0 <= i < n :: cl[..n][i].cluster == c {
        var i :| 0 <= i < n && cl[..n][i].cluster == c;
        assert cl[i] == cl[..n][i];
      }
    }
  }

  /** The update leaves a centroid Undefined (NaN) exactly when no point was assigned to its cluster. */
  lemma UpdateDefinedIffMembers(cl: seq<Labelled>, k: nat, d: nat, c: nat)
    requires LabelledHaveDim(cl, d) && c < k
    ensures Update(cl, k, d)[c].Mean? <==> exists i | 0 <= i < |cl| :: cl[i].cluster == c
  {
    MemberCountPositive(cl, c);
  }

  /** `n * x` as `n` repeated additions of `x`, which keeps the member-sum bounds linear. */
  function Scale(n: nat, x: real): (r: real)
    ensures r == (n as real) * x
  {
    if n == 0 then 0.0 else Scale(n - 1, x) + x
  }

  lemma {:induction false} MemberSumBounds(cl: seq<Labelled>, c: nat, j: nat, lo: real, hi: real)
    requires forall i | 0 <= i < |cl| :: j < |cl[i].point|
    requires forall i | 0 <= i < |cl| && cl[i].cluster == c :: lo <= cl[i].point[j] <= hi
    ensures Scale(MemberCount(cl, c), lo) <= MemberSum(cl, c, j) <= Scale(MemberCount(cl, c), hi)
  {
    if cl != [] {
      var n := |cl| - 1;
      var prefix := cl[..n];
      assert forall i | 0 <= i < n :: prefix[i] == cl[i];
      MemberSumBounds(prefix, c, j, lo, hi);
    }
  }

  /** A cluster without members sums to zero in every column. */
  lemma {:induction false} MemberSumWithoutMembers(cl: seq<Labelled>, c: nat, j: nat)
    requires forall i | 0 <= i < |cl| :: j < |cl[i].point|
    requires MemberCount(cl, c) == 0
    ensures MemberSum(cl, c, j) == 0.0
  {
    if cl != [] {
      var n := |cl| - 1;
      var prefix := cl[..n];
      assert forall i | 0 <= i < n :: prefix[i] == cl[i];
      MemberSumWithoutMembers(prefix, c, j);
    }
  }

  /** Every coordinate of a recomputed centroid lies between the smallest and the
      largest value its members have in that column: the mean stays inside the
      members' bounding box. */
  lemma MeanWithinMemberBounds(cl: seq<Labelled>, k: nat, d: nat, c: nat, j: nat, lo: real, hi: real)
    requires LabelledHaveDim(cl, d) && c < k && j < d
    requires Update(cl, k, d)[c].Mean?
    requires forall i | 0 <= i < |cl| && cl[i].cluster == c :: lo <= cl[i].point[j] <= hi
    ensures lo <= Update(cl, k, d)[c].coords[j] <= hi
  {
    MemberSumBounds(cl, c, j, lo, hi);
    UpdateCoord(cl, k, d, c, j);
    MeanBounds(MemberCount(cl, c), MemberSum(cl, c, j), lo, hi);
  }

  /** A new centroid is defined exactly when its member count is positive, and
      then each coordinate is the cluster's column sum over that count. */
  lemma UpdateCoord(cl: seq<Labelled>, k: nat, d: nat, c: nat, j: nat)
    requires LabelledHaveDim(cl, d) && c < k && j < d
    ensures Update(cl, k, d)[c].Mean? <==> MemberCount(cl, c) > 0
    ensures MemberCount(cl, c) > 0 ==>
              Update(cl, k, d)[c].coords[j] == MemberSum(cl, c, j) / (MemberCount(cl, c) as real)
  {
  }

  /** The mean of `count` values within `[lo, hi]`, given through their sum, is within `[lo, hi]`. */
  lemma MeanBounds(count: nat, s: real, lo: real, hi: real)
    requires count > 0 && Scale(count, lo) <= s <= Scale(count, hi)
    ensures lo <= s / (count as real) <= hi
  {
    var n := count as real;
    assert Scale(count, lo) == n * lo && Scale(count, hi) == n * hi;
    QuotientBounds(s, n, lo, hi);
  }

  /** `count` copies of the mean of a sum add back up to the sum. */
  lemma ScaleMean(count: nat, s: real)
    requires count > 0
    ensures Scale(count, s / (count as real)) == s
  {
    var n := count as real;
    assert (s / n) * n == s;
  }

  lemma QuotientBounds(s: real, n: real, lo: real, hi: real)
    requires n > 0.0 && n * lo <= s <= n * hi
    ensures lo <= s / n <= hi
  {
    var q := s / n;
    assert q * n == s;
    assert n * (q - lo) >= 0.0 && n * (hi - q) >= 0.0;
  }

  /** The exact convergence test holds exactly when the two centroid lists are
      equal and no centroid is Undefined; in particular `converged(c, c)` holds
      iff no cluster of `c` is empty. */
  lemma ConvergedIffSame(cs: seq<Centroid>, ns: seq<Centroid>, d: nat)
    requires |cs| == |ns| && CentroidsHaveDim(cs, d) && CentroidsHaveDim(ns, d)
    ensures Converged(cs, ns, d) <==> cs == ns && forall i | 0 <= i < |cs| :: cs[i].Mean?
  {
    if Converged(cs, ns, d) {
      forall i | 0 <= i < |cs|
        ensures cs[i] == ns[i]
      {
        assert cs[i].coords == ns[i].coords;
      }
    }
  }

  /** No assignment of the same points to defined centroids has a lower total
      cost than the nearest-centroid assignment: the inertia `kmeans` records is
      the least possible for the centroids it was computed against. */
  lemma {:induction false} InertiaIsMinimal(data: seq<Point>, cs: seq<Centroid>, d: nat, other: seq<Labelled>)
    requires HasDim(data, d) && CentroidsHaveDim(cs, d) && HasDefined(cs)
    requires |other| == |data| && forall i | 0 <= i < |data| :: other[i].point == data[i]
    requires AssignedToDefined(other, cs)
    ensures Inertia(Assigned(data, cs, d), cs) <= Inertia(other, cs)
  {
    if data != [] {
      var n := |data| - 1;
      AssignedPrefix(data, cs, d, n);
      assert forall i | 0 <= i < n :: other[..n][i] == other[i];
      InertiaIsMinimal(data[..n], cs, d, other[..n]);
      NearestCostsLeast(data[n], cs, other[n].cluster);
    }
  }

  lemma AssignedPrefix(data: seq<Point>, cs: seq<Centroid>, d: nat, n: nat)
    requires HasDim(data, d) && CentroidsHaveDim(cs, d) && n <= |data|
    ensures Assigned(data, cs, d)[..n] == Assigned(data[..n], cs, d)
  {
  }

  /** The nearest centroid costs no more than any other defined one. */
  lemma NearestCostsLeast(p: Point, cs: seq<Centroid>, q: nat)
    requires CentroidsHaveDim(cs, |p|) && q < |cs| && cs[q].Mean?
    ensures SqDist(p, cs[Nearest(p, cs)].coords) <= SqDist(p, cs[q].coords)
  {
    NearestIsFirstMinimum(p, cs);
    assert IsFirstNearest(p, cs, Nearest(p, cs));
  }

  /* -------------------------------------------- the means minimise the inertia */

  /** Column `j` of centroid `c`, or 0 where there is no such defined column. */
  function Coord(cs: seq<Centroid>, c: nat, j: nat): real
  {
    if c < |cs| && cs[c].Mean? && j < |cs[c].coords| then cs[c].coords[j] else 0.0
  }

  predicate HasColumn(cl: seq<Labelled>, j: nat)
  {
    forall i | 0 <= i < |cl| :: j < |cl[i].point|
  }

  /** The share of column `j` in the inertia of `cl` against `cs`. */
  function ColumnCost(cl: seq<Labelled>, cs: seq<Centroid>, j: nat): (r: real)
    requires HasColumn(cl, j)
    ensures r >= 0.0
  {
    if cl == [] then 0.0
    else
      var n := |cl| - 1;
      var e := cl[n].point[j] - Coord(cs, cl[n].cluster, j);
      ColumnCost(cl[..n], cs, j) + e * e
  }

  /** Summed over the points, `(p - a) * (a - b)` in column `j`, where `a` is the
      point's centroid in `m` and `b` its centroid in `cs`. */
  function Cross(cl: seq<Labelled>, m: seq<Centroid>, cs: seq<Centroid>, j: nat): real
    requires HasColumn(cl, j)
  {
    if cl == [] then 0.0
    else
      var n := |cl| - 1;
      var a := Coord(m, cl[n].cluster, j);
      Cross(cl[..n], m, cs, j) + (cl[n].point[j] - a) * (a - Coord(cs, cl[n].cluster, j))
  }

  /** Summed over the points, `(a - b)²` in column `j`. */
  function Gap(cl: seq<Labelled>, m: seq<Centroid>, cs: seq<Centroid>, j: nat): (r: real)
    ensures r >= 0.0
  {
    if cl == [] then 0.0
    else
      var n := |cl| - 1;
      var g := Coord(m, cl[n].cluster, j) - Coord(cs, cl[n].cluster, j);
      Gap(cl[..n], m, cs, j) + g * g
  }

  /** `(p - b)² = (p - a)² + 2 (p - a)(a - b) + (a - b)²`, summed over the points. */
  lemma {:induction false} ColumnCostSplit(cl: seq<Labelled>, m: seq<Centroid>, cs: seq<Centroid>, j: nat)
    requires HasColumn(cl, j)
    ensures ColumnCost(cl, cs, j) == ColumnCost(cl, m, j) + 2.0 * Cross(cl, m, cs, j) + Gap(cl, m, cs, j)
  {
    if cl != [] {
      var n := |cl| - 1;
      ColumnCostSplit(cl[..n], m, cs, j);
      var p, a, b := cl[n].point[j], Coord(m, cl[n].cluster, j), Coord(cs, cl[n].cluster, j);
      assert (p - b) * (p - b) == (p - a) * (p - a) + 2.0 * ((p - a) * (a - b)) + (a - b) * (a - b);
    }
  }

  /** Cluster `c`'s share of the cross term: its members' column sum less
      `count * a_c`, times `a_c - b_c`. */
  function ClusterTerm(cl: seq<Labelled>, m: seq<Centroid>, cs: seq<Centroid>, j: nat, c: nat): real
    requires HasColumn(cl, j)
  {
    var a := Coord(m, c, j);
    (MemberSum(cl, c, j) - Scale(MemberCount(cl, c), a)) * (a - Coord(cs, c, j))
  }

  /** The cross term regrouped by cluster, over the clusters below `K`. */
  function ClusterTerms(cl: seq<Labelled>, m: seq<Centroid>, cs: seq<Centroid>, j: nat, K: nat): real
    requires HasColumn(cl, j)
  {
    if K == 0 then 0.0 else ClusterTerms(cl, m, cs, j, K - 1) + ClusterTerm(cl, m, cs, j, K - 1)
  }

  /** Appending a point changes only its own cluster's term, by its own cross product. */
  lemma ClusterTermStep(cl: seq<Labelled>, m: seq<Centroid>, cs: seq<Centroid>, j: nat, c: nat)
    requires HasColumn(cl, j) && cl != []
    ensures var n := |cl| - 1;
            var a := Coord(m, c, j);
            ClusterTerm(cl, m, cs, j, c)
              == ClusterTerm(cl[..n], m, cs, j, c) + (if cl[n].cluster == c then (cl[n].point[j] - a) * (a - Coord(cs, c, j)) else 0.0)
  {
    var n := |cl| - 1;
    var a, b := Coord(m, c, j), Coord(cs, c, j);
    var s, count := MemberSum(cl[..n], c, j), MemberCount(cl[..n], c);
    if cl[n].cluster == c {
      var p := cl[n].point[j];
      assert MemberSum(cl, c, j) == s + p;
      assert Scale(MemberCount(cl, c), a) == Scale(count, a) + a;
      assert (s + p - (Scale(count, a) + a)) * (a - b) == (s - Scale(count, a)) * (a - b) + (p - a) * (a - b);
    }
  }

  lemma {:induction false} ClusterTermsStep(cl: seq<Labelled>, m: seq<Centroid>, cs: seq<Centroid>, j: nat, K: nat)
    requires HasColumn(cl, j) && cl != []
    ensures var n := |cl| - 1;
            var c := cl[n].cluster;
            var a := Coord(m, c, j);
            ClusterTerms(cl, m, cs, j, K)
              == ClusterTerms(cl[..n], m, cs, j, K) + (if c < K then (cl[n].point[j] - a) * (a - Coord(cs, c, j)) else 0.0)
  {
    if K > 0 {
      ClusterTermsStep(cl, m, cs, j, K - 1);
      ClusterTermStep(cl, m, cs, j, K - 1);
    }
  }

  lemma {:induction false} CrossByClusters(cl: seq<Labelled>, m: seq<Centroid>, cs: seq<Centroid>, j: nat, K: nat)
    requires HasColumn(cl, j) && forall i | 0 <= i < |cl| :: cl[i].cluster < K
    ensures Cross(cl, m, cs, j) == ClusterTerms(cl, m, cs, j, K)
  {
    if cl == [] {
      ClusterTermsEmpty(m, cs, j, K);
    } else {
      var n := |cl| - 1;
      CrossByClusters(cl[..n], m, cs, j, K);
      ClusterTermsStep(cl, m, cs, j, K);
    }
  }

  lemma {:induction false} ClusterTermsEmpty(m: seq<Centroid>, cs: seq<Centroid>, j: nat, K: nat)
    ensures ClusterTerms([], m, cs, j, K) == 0.0
  {
    if K > 0 {
      ClusterTermsEmpty(m, cs, j, K - 1);
    }
  }

  /** Against the means of the clusters every cluster term vanishes: the members
      of a cluster sum to `count` times their mean. */
  lemma {:induction false} ClusterTermsVanish(cl: seq<Labelled>, k: nat, d: nat, cs: seq<Centroid>, j: nat, K: nat)
    requires LabelledHaveDim(cl, d) && j < d && K <= k
    ensures ClusterTerms(cl, Update(cl, k, d), cs, j, K) == 0.0
  {
    if K > 0 {
      ClusterTermsVanish(cl, k, d, cs, j, K - 1);
      ClusterTermVanishes(cl, k, d, cs, j, K - 1);
    }
  }

  lemma ClusterTermVanishes(cl: seq<Labelled>, k: nat, d: nat, cs: seq<Centroid>, j: nat, c: nat)
    requires LabelledHaveDim(cl, d) && j < d && c < k
    ensures ClusterTerm(cl, Update(cl, k, d), cs, j, c) == 0.0
  {
    var count := MemberCount(cl, c);
    var s := MemberSum(cl, c, j);
    var a := Coord(Update(cl, k, d), c, j);
    UpdateCoord(cl, k, d, c, j);
    if count == 0 {
      MemberSumWithoutMembers(cl, c, j);
      assert s - Scale(count, a) == 0.0;
    } else {
      assert a == s / (count as real);
      ScaleMean(count, s);
      assert s - Scale(count, a) == 0.0;
    }
  }

  /** In every column, the means cost no more than any other centroids. */
  lemma ColumnCostAtMeans(cl: seq<Labelled>, k: nat, d: nat, cs: seq<Centroid>, j: nat)
    requires LabelledHaveDim(cl, d) && j < d && forall i | 0 <= i < |cl| :: cl[i].cluster < k
    ensures ColumnCost(cl, Update(cl, k, d), j) <= ColumnCost(cl, cs, j)
  {
    var m := Update(cl, k, d);
    ColumnCostSplit(cl, m, cs, j);
    CrossByClusters(cl, m, cs, j, k);
    ClusterTermsVanish(cl, k, d, cs, j, k);
  }

  /** The inertia counted over the first `e` columns only. */
  function PrefixCost(cl: seq<Labelled>, cs: seq<Centroid>, e: nat): (r: real)
    requires AssignedToDefined(cl, cs) && forall i | 0 <= i < |cl| :: e <= |cl[i].point|
  {
    if cl == [] then 0.0
    else
      var n := |cl| - 1;
      PrefixCost(cl[..n], cs, e) + SqDist(cl[n].point[..e], cs[cl[n].cluster].coords[..e])
  }

  lemma {:induction false} PrefixCostNone(cl: seq<Labelled>, cs: seq<Centroid>)
    requires AssignedToDefined(cl, cs)
    ensures PrefixCost(cl, cs, 0) == 0.0
  {
    if cl != [] {
      PrefixCostNone(cl[..|cl| - 1], cs);
    }
  }

  lemma {:induction false} PrefixCostAll(cl: seq<Labelled>, cs: seq<Centroid>, d: nat)
    requires AssignedToDefined(cl, cs) && LabelledHaveDim(cl, d)
    ensures PrefixCost(cl, cs, d) == Inertia(cl, cs)
  {
    if cl != [] {
      var n := |cl| - 1;
      PrefixCostAll(cl[..n], cs, d);
      assert cl[n].point[..d] == cl[n].point;
      assert cs[cl[n].cluster].coords[..d] == cs[cl[n].cluster].coords;
    }
  }

  lemma {:induction false} PrefixCostStep(cl: seq<Labelled>, cs: seq<Centroid>, e: nat)
    requires AssignedToDefined(cl, cs) && forall i | 0 <= i < |cl| :: e < |cl[i].point|
    ensures PrefixCost(cl, cs, e + 1) == PrefixCost(cl, cs, e) + ColumnCost(cl, cs, e)
  {
    if cl != [] {
      var n := |cl| - 1;
      PrefixCostStep(cl[..n], cs, e);
      var p, q := cl[n].point, cs[cl[n].cluster].coords;
      assert p[..e + 1][..e] == p[..e] && q[..e + 1][..e] == q[..e];
      assert Coord(cs, cl[n].cluster, e) == q[e];
    }
  }

  lemma {:induction false} PrefixCostAtMeans(cl: seq<Labelled>, k: nat, d: nat, cs: seq<Centroid>, e: nat)
    requires LabelledHaveDim(cl, d) && e <= d && forall i | 0 <= i < |cl| :: cl[i].cluster < k
    requires AssignedToDefined(cl, cs) && AssignedToDefined(cl, Update(cl, k, d))
    ensures PrefixCost(cl, Update(cl, k, d), e) <= PrefixCost(cl, cs, e)
  {
    var m := Update(cl, k, d);
    if e == 0 {
      PrefixCostNone(cl, m);
      PrefixCostNone(cl, cs);
    } else {
      PrefixCostAtMeans(cl, k, d, cs, e - 1);
      PrefixCostStep(cl, m, e - 1);
      PrefixCostStep(cl, cs, e - 1);
      ColumnCostAtMeans(cl, k, d, cs, e - 1);
    }
  }

  /** For a fixed assignment, the centroids `updateCentroids` computes (the
      means) give the least inertia: no other centroids the points could be
      measured against cost less. */
  lemma MeansMinimiseInertia(cl: seq<Labelled>, k: nat, d: nat, cs: seq<Centroid>)
    requires LabelledHaveDim(cl, d) && forall i | 0 <= i < |cl| :: cl[i].cluster < k
    requires AssignedToDefined(cl, cs)
    ensures AssignedToDefined(cl, Update(cl, k, d))
    ensures Inertia(cl, Update(cl, k, d)) <= Inertia(cl, cs)
  {
    var m := Update(cl, k, d);
    forall i | 0 <= i < |cl|
      ensures m[cl[i].cluster].Mean?
    {
      UpdateDefinedIffMembers(cl, k, d, cl[i].cluster);
    }
    PrefixCostAtMeans(cl, k, d, cs, d);
    PrefixCostAll(cl, m, d);
    PrefixCostAll(cl, cs, d);
  }

  /* -------------------------------------------------------------------- loop */

  /** Centroids a round of `kmeans` can start from: one per cluster, of the
      data's dimension, at least one of them defined, over a non-empty data set. */
  predicate Seeded(data: seq<Point>, k: nat, d: nat, cs: seq<Centroid>)
  {
    |data| > 0 && HasDim(data, d) && |cs| == k && CentroidsHaveDim(cs, d) && HasDefined(cs)
  }

  /** The means of the assignment against `cs`: the `newCentroids` of a round. */
  function Next(data: seq<Point>, k: nat, d: nat, cs: seq<Centroid>): seq<Centroid>
    requires HasDim(data, d) && CentroidsHaveDim(cs, d)
  {
    Update(Assigned(data, cs, d), k, d)
  }

  /** The successor in the loop of `kmeans`: the means of the assignment
      against the centroids. (Centroids no round can start from are left as
      they are; the loop never reaches them.) */
  function Advance(data: seq<Point>, k: nat, d: nat): seq<Centroid> -> seq<Centroid>
  {
    cs => if Seeded(data, k, d, cs) then Next(data, k, d, cs) else cs
  }

  /** The exit test of the loop, `converged(centroids, newCentroids)`. */
  function Settled(data: seq<Point>, k: nat, d: nat): (seq<Centroid>, seq<Centroid>) -> bool
  {
    (cs, ns) => if Seeded(data, k, d, cs) && Seeded(data, k, d, ns) then Converged(cs, ns, d) else true
  }

  /** What every iteration records: the inertia of the assignment against the
      new centroids. */
  function Cost(data: seq<Point>, k: nat, d: nat): seq<Centroid> -> real
  {
    cs => if Seeded(data, k, d, cs) then Inertia(Assigned(data, cs, d), cs) else 0.0
  }

  function IsSeeded(data: seq<Point>, k: nat, d: nat): seq<Centroid> -> bool
  {
    cs => Seeded(data, k, d, cs)
  }

  /** The loop of `kmeans` from centroids `cs`, with at most `fuel` iterations
      left: while the means of the assignment against the centroids differ from
      them, the means become the centroids, and the inertia of the assignment
      against them is recorded. It stops at the centroids the last assignment
      was made against. */
  function Loop(data: seq<Point>, k: nat, d: nat, cs: seq<Centroid>, fuel: nat): Fixpoint.Trace<seq<Centroid>>
  {
    Fixpoint.Iter(Advance(data, k, d), Settled(data, k, d), Cost(data, k, d), cs, fuel)
  }

  /** What `kmeans(data, k)` computes from the seeds `picks`: the loop from the
      seeds, with at most 100 iterations. */
  ghost function FromSeeds(data: seq<Point>, k: nat, d: nat, picks: seq<nat>): (t: Fixpoint.Trace<seq<Centroid>>)
    requires |data| > 0 && HasDim(data, d) && k > 0
    requires |picks| == k && forall i | 0 <= i < k :: picks[i] < |data|
    ensures Seeded(data, k, d, t.last) && |t.costs| <= MaxIterations
  {
    var seeds := Seeds(data, picks);
    assert seeds[0].Mean?;
    LoopSeeded(data, k, d, seeds, MaxIterations);
    Loop(data, k, d, seeds, MaxIterations)
  }

  /** The means of an assignment against centroids a round can start from are
      again centroids a round can start from. */
  lemma NextSeeded(data: seq<Point>, k: nat, d: nat, cs: seq<Centroid>)
    requires Seeded(data, k, d, cs)
    ensures Seeded(data, k, d, Next(data, k, d, cs))
  {
    RoundFrom(data, k, d, cs);
  }

  /** On centroids a round can start from, the loop's successor, exit test and
      recorded cost are those of a round of `kmeans`. */
  lemma Instances(data: seq<Point>, k: nat, d: nat, cs: seq<Centroid>)
    requires Seeded(data, k, d, cs)
    ensures Seeded(data, k, d, Next(data, k, d, cs))
    ensures Advance(data, k, d)(cs) == Next(data, k, d, cs)
    ensures Settled(data, k, d)(cs, Next(data, k, d, cs)) == Converged(cs, Next(data, k, d, cs), d)
    ensures Cost(data, k, d)(cs) == Inertia(Assigned(data, cs, d), cs)
  {
    NextSeeded(data, k, d, cs);
  }

  /** The loop from centroids a round can start from stops at such centroids. */
  lemma LoopSeeded(data: seq<Point>, k: nat, d: nat, cs: seq<Centroid>, fuel: nat)
    requires Seeded(data, k, d, cs)
    ensures Seeded(data, k, d, Loop(data, k, d, cs, fuel).last)
  {
    var next, inv := Advance(data, k, d), IsSeeded(data, k, d);
    forall x | inv(x)
      ensures inv(next(x))
    {
      Instances(data, k, d, x);
    }
    Fixpoint.Keeps(next, Settled(data, k, d), Cost(data, k, d), inv, cs, fuel);
  }

  /** The loop records nothing and moves nothing once it converged or the fuel ran out. */
  lemma LoopDone(data: seq<Point>, k: nat, d: nat, cs: seq<Centroid>, fuel: nat)
    requires Seeded(data, k, d, cs)
    requires fuel == 0 || Converged(cs, Next(data, k, d, cs), d)
    ensures Loop(data, k, d, cs, fuel).last == cs
    ensures Loop(data, k, d, cs, fuel).costs == []
  {
    Instances(data, k, d, cs);
    Fixpoint.Done(Advance(data, k, d), Settled(data, k, d), Cost(data, k, d), cs, fuel);
  }

  /** The loop with `fuel` left, after a prefix `h` of inertias, is one
      iteration recorded onto `h` followed by the loop from the means. */
  lemma LoopAppend(data: seq<Point>, k: nat, d: nat, cs: seq<Centroid>, fuel: nat, h: seq<real>)
    requires Seeded(data, k, d, cs) && fuel > 0 && !Converged(cs, Next(data, k, d, cs), d)
    ensures var ns := Next(data, k, d, cs);
            && Loop(data, k, d, ns, fuel - 1).last == Loop(data, k, d, cs, fuel).last
            && (h + [Inertia(Assigned(data, ns, d), ns)]) + Loop(data, k, d, ns, fuel - 1).costs
               == h + Loop(data, k, d, cs, fuel).costs
  {
    var ns := Next(data, k, d, cs);
    Instances(data, k, d, cs);
    Instances(data, k, d, ns);
    Fixpoint.Unroll(Advance(data, k, d), Settled(data, k, d), Cost(data, k, d), cs, fuel);
    var x, rest := Inertia(Assigned(data, ns, d), ns), Loop(data, k, d, ns, fuel - 1).costs;
    assert (h + [x]) + rest == h + ([x] + rest);
  }

  /** Between centroids a round can start from, the loop's steps keep them
      so, the recorded inertia is never negative, and a round never raises it
      (Lloyd's descent). */
  lemma SeededSteps(data: seq<Point>, k: nat, d: nat)
    ensures var next, cost, inv := Advance(data, k, d), Cost(data, k, d), IsSeeded(data, k, d);
            forall x | inv(x) :: inv(next(x)) && 0.0 <= cost(x) && cost(next(x)) <= cost(x)
  {
    var next, cost, inv := Advance(data, k, d), Cost(data, k, d), IsSeeded(data, k, d);
    forall x | inv(x)
      ensures inv(next(x)) && 0.0 <= cost(x) && cost(next(x)) <= cost(x)
    {
      Instances(data, k, d, x);
      Instances(data, k, d, Next(data, k, d, x));
      RoundFrom(data, k, d, x);
      RoundDescends(data, k, d, x, Assigned(data, x, d), Next(data, k, d, x));
    }
  }

  /** The loop iterates not at all exactly when the fuel is zero or the
      centroids already converged, and it stops with fuel left only on
      convergence. */
  lemma LoopStops(data: seq<Point>, k: nat, d: nat, cs: seq<Centroid>, fuel: nat)
    requires Seeded(data, k, d, cs)
    ensures var t := Loop(data, k, d, cs, fuel);
            && (|t.costs| == 0 <==> fuel == 0 || Converged(cs, Next(data, k, d, cs), d))
            && Seeded(data, k, d, t.last)
            && (|t.costs| < fuel ==> Converged(t.last, Next(data, k, d, t.last), d))
  {
    Fixpoint.Stops(Advance(data, k, d), Settled(data, k, d), Cost(data, k, d), cs, fuel);
    LoopSeeded(data, k, d, cs, fuel);
    Instances(data, k, d, cs);
    Instances(data, k, d, Loop(data, k, d, cs, fuel).last);
  }

  /** The last inertia the loop records is that of the assignment against the
      centroids it stops at. */
  lemma LoopLast(data: seq<Point>, k: nat, d: nat, cs: seq<Centroid>, fuel: nat)
    requires Seeded(data, k, d, cs)
    ensures var t := Loop(data, k, d, cs, fuel);
            && Seeded(data, k, d, t.last)
            && (|t.costs| > 0 ==> t.costs[|t.costs| - 1] == Inertia(Assigned(data, t.last, d), t.last))
  {
    Fixpoint.Stops(Advance(data, k, d), Settled(data, k, d), Cost(data, k, d), cs, fuel);
    LoopSeeded(data, k, d, cs, fuel);
    Instances(data, k, d, Loop(data, k, d, cs, fuel).last);
  }

  /** Lloyd's descent along the whole loop: no recorded inertia is negative,
      none exceeds the one before, and the first is at most the inertia of the
      assignment against the centroids the loop started from. */
  lemma LoopDescends(data: seq<Point>, k: nat, d: nat, cs: seq<Centroid>, fuel: nat)
    requires Seeded(data, k, d, cs)
    ensures var t := Loop(data, k, d, cs, fuel);
            && Fixpoint.Descending(t.costs)
            && (t.costs != [] ==> t.costs[0] <= Inertia(Assigned(data, cs, d), cs))
  {
    SeededSteps(data, k, d);
    Fixpoint.Descends(Advance(data, k, d), Settled(data, k, d), Cost(data, k, d), IsSeeded(data, k, d), cs, fuel);
    Instances(data, k, d, cs);
  }

  /** What `kmeans(data, k)` returns from the seeds `picks`: the assignment
      against the centroids its loop stops at, the means of that assignment,
      and the inertia recorded by every iteration. */
  ghost function Expected(data: seq<Point>, k: nat, d: nat, picks: seq<nat>): Clustering
    requires |data| > 0 && HasDim(data, d) && k > 0
    requires |picks| == k && forall i | 0 <= i < k :: picks[i] < |data|
  {
    var t := FromSeeds(data, k, d, picks);
    Clustering(Assigned(data, t.last, d), Next(data, k, d, t.last), t.costs)
  }

  /** What a clustering reported by `kmeans(data, k)` from the seeds `picks`
      satisfies:
      - every point, in order, tagged with a cluster below `k`;
      - the returned centroids are the means of the returned clusters (Undefined
        for an empty one);
      - at most 100 recorded inertias, none negative and none above the one
        before it;
      - no inertia at all exactly when the seeds already converged;
      - when the loop stopped before the cap, every centroid is defined, the
        clusters are the nearest-centroid assignment against them, and the last
        recorded inertia is that assignment's. */
  ghost predicate Reported(data: seq<Point>, k: nat, d: nat, picks: seq<nat>, c: Clustering)
    requires |data| > 0 && HasDim(data, d)
    requires |picks| == k && forall i | 0 <= i < k :: picks[i] < |data|
  {
    && |c.clusters| == |data| && |c.centroids| == k
    && (forall i | 0 <= i < |data| :: c.clusters[i].point == data[i] && c.clusters[i].cluster < k)
    && LabelledHaveDim(c.clusters, d)
    && c.centroids == Update(c.clusters, k, d)
    && |c.inertias| <= MaxIterations
    && Fixpoint.Descending(c.inertias)
    && (|c.inertias| == 0 <==> Converged(Seeds(data, picks), Update(Assigned(data, Seeds(data, picks), d), k, d), d))
    && (|c.inertias| < MaxIterations ==>
          && (forall j | 0 <= j < k :: c.centroids[j].Mean?)
          && c.clusters == Assigned(data, c.centroids, d)
          && (|c.inertias| > 0 ==> c.inertias[|c.inertias| - 1] == Inertia(c.clusters, c.centroids)))
  }

  /** The clustering the loop from the seeds yields has every property above. */
  lemma ExpectedReported(data: seq<Point>, k: nat, d: nat, picks: seq<nat>)
    requires |data| > 0 && HasDim(data, d) && k > 0
    requires |picks| == k && forall i | 0 <= i < k :: picks[i] < |data|
    ensures Reported(data, k, d, picks, Expected(data, k, d, picks))
  {
    ExpectedShape(data, k, d, picks);
    ExpectedHistory(data, k, d, picks);
    ExpectedSettled(data, k, d, picks);
  }

  /** Every point, in order, tagged with a cluster below `k`, and the
      centroids the means of the clusters. */
  lemma ExpectedShape(data: seq<Point>, k: nat, d: nat, picks: seq<nat>)
    requires |data| > 0 && HasDim(data, d) && k > 0
    requires |picks| == k && forall i | 0 <= i < k :: picks[i] < |data|
    ensures var c := Expected(data, k, d, picks);
            && |c.clusters| == |data| && |c.centroids| == k
            && (forall i | 0 <= i < |data| :: c.clusters[i].point == data[i] && c.clusters[i].cluster < k)
            && LabelledHaveDim(c.clusters, d)
            && c.centroids == Update(c.clusters, k, d)
  {
    var t := FromSeeds(data, k, d, picks);
    RoundFrom(data, k, d, t.last);
    var cl := Assigned(data, t.last, d);
    assert forall i | 0 <= i < |data| :: cl[i].point == data[i] && cl[i].cluster < k;
  }

  /** At most 100 inertias, descending, and none exactly when the seeds converged. */
  lemma ExpectedHistory(data: seq<Point>, k: nat, d: nat, picks: seq<nat>)
    requires |data| > 0 && HasDim(data, d) && k > 0
    requires |picks| == k && forall i | 0 <= i < k :: picks[i] < |data|
    ensures var c, seeds := Expected(data, k, d, picks), Seeds(data, picks);
            && |c.inertias| <= MaxIterations
            && Fixpoint.Descending(c.inertias)
            && (|c.inertias| == 0 <==> Converged(seeds, Update(Assigned(data, seeds, d), k, d), d))
  {
    var seeds := Seeds(data, picks);
    assert seeds[0].Mean?;
    LoopStops(data, k, d, seeds, MaxIterations);
    LoopDescends(data, k, d, seeds, MaxIterations);
  }

  /** Stopping before the cap means convergence: every centroid defined, the
      clusters their assignment, and the last inertia that assignment's. */
  lemma ExpectedSettled(data: seq<Point>, k: nat, d: nat, picks: seq<nat>)
    requires |data| > 0 && HasDim(data, d) && k > 0
    requires |picks| == k && forall i | 0 <= i < k :: picks[i] < |data|
    ensures var c := Expected(data, k, d, picks);
            |c.inertias| < MaxIterations ==>
              && (forall j | 0 <= j < k :: c.centroids[j].Mean?)
              && c.clusters == Assigned(data, c.centroids, d)
              && (|c.inertias| > 0 ==> c.inertias[|c.inertias| - 1] == Inertia(c.clusters, c.centroids))
  {
    var seeds := Seeds(data, picks);
    assert seeds[0].Mean?;
    var t := FromSeeds(data, k, d, picks);
    if |t.costs| < MaxIterations {
      LoopStops(data, k, d, seeds, MaxIterations);
      LoopLast(data, k, d, seeds, MaxIterations);
      ConvergedIffSame(t.last, Next(data, k, d, t.last), d);
    }
  }

  /** `kmeans(data, k)`: draws the seeds, assigns, updates, and repeats while the
      centroids moved and fewer than 100 iterations ran, recording the inertia
      of every iteration. The caller runs it only on a non-empty data set with
      at least one selected column. Nothing checks `k`: with `k <= 0` no seed
      is drawn, every point gets cluster 0, and `updateCentroids` throws on
      `newCentroids[0]`, which `Array.from({ length: k })` left undefined;
      that is the Failure result. */
  method Run(data: seq<Point>, k: int, d: nat, picks: seq<nat>) returns (result: Result<Clustering>)
    requires |data| > 0 && d > 0 && HasDim(data, d)
    requires k > 0 ==> |picks| == k && forall i | 0 <= i < k :: picks[i] < |data|
    ensures result.Failure? <==> k <= 0
    ensures result.Success? ==> result.value == Expected(data, k, d, picks)
    ensures result.Success? ==> Reported(data, k, d, picks, result.value)
  {
    if k <= 0 {
      return Failure("TypeError: newCentroids[point.cluster] is undefined");
    }
    var centroids, clusters, newCentroids := Start(data, k, d, picks);
    var inertias, last;
    clusters, newCentroids, inertias, last := Iterate(data, k, d, centroids, clusters, newCentroids);
    var c := Clustering(clusters, newCentroids, inertias);
    Finish(data, k, d, picks, last, c);
    ExpectedReported(data, k, d, picks);
    return Success(c);
  }

  /** What `kmeans` returns, read off the state its loop stops in. */
  lemma Finish(data: seq<Point>, k: nat, d: nat, picks: seq<nat>, last: seq<Centroid>, c: Clustering)
    requires |data| > 0 && HasDim(data, d) && k > 0
    requires |picks| == k && forall i | 0 <= i < k :: picks[i] < |data|
    requires Round(data, k, d, last, c.clusters, c.centroids)
    requires FromSeeds(data, k, d, picks).last == last && FromSeeds(data, k, d, picks).costs == c.inertias
    ensures c == Expected(data, k, d, picks)
  {
  }

  /** The first round of `kmeans`: seeds, their assignment and its means. */
  method Start(data: seq<Point>, k: nat, d: nat, picks: seq<nat>)
    returns (centroids: seq<Centroid>, clusters: seq<Labelled>, newCentroids: seq<Centroid>)
    requires |data| > 0 && HasDim(data, d) && k > 0
    requires |picks| == k && forall i | 0 <= i < k :: picks[i] < |data|
    ensures centroids == Seeds(data, picks)
    ensures Round(data, k, d, centroids, clusters, newCentroids)
  {
    centroids := InitializeCentroids(data, k, picks);
    assert centroids[0].Mean?;
    clusters := AssignClusters(data, centroids, d);
    RoundFrom(data, k, d, centroids);
    newCentroids := UpdateCentroids(clusters, k, d);
  }

  /** The `while` loop of `kmeans`: starting from one round, repeats rounds
      while the centroids moved and fewer than 100 iterations ran, recording
      the inertia of each new assignment against the centroids it was made
      for. `centroids` is the last list the points were assigned against. */
  method Iterate(data: seq<Point>, k: nat, d: nat, centroids0: seq<Centroid>,
                 clusters0: seq<Labelled>, newCentroids0: seq<Centroid>)
    returns (clusters: seq<Labelled>, newCentroids: seq<Centroid>, inertias: seq<real>, centroids: seq<Centroid>)
    requires Round(data, k, d, centroids0, clusters0, newCentroids0)
    ensures Round(data, k, d, centroids, clusters, newCentroids)
    ensures Loop(data, k, d, centroids0, MaxIterations).last == centroids
    ensures Loop(data, k, d, centroids0, MaxIterations).costs == inertias
  {
    centroids, clusters, newCentroids := centroids0, clusters0, newCentroids0;
    inertias := [];
    var iterations := 0;
    ghost var left := MaxIterations;
    ghost var total := Loop(data, k, d, centroids0, MaxIterations);
    assert [] + total.costs == total.costs;
    while !Converged(centroids, newCentroids, d) && iterations < MaxIterations
      invariant Round(data, k, d, centroids, clusters, newCentroids)
      invariant iterations == |inertias| <= MaxIterations && left == MaxIterations - iterations
      invariant total.last == Loop(data, k, d, centroids, left).last
      invariant total.costs == inertias + Loop(data, k, d, centroids, left).costs
    {
      centroids, clusters, newCentroids, inertias := Step(data, k, d, centroids, clusters, newCentroids, inertias, left);
      iterations := iterations + 1;
      left := left - 1;
    }
    LoopDone(data, k, d, centroids, left);
  }

  /** The body of the loop of `kmeans` with `fuel` iterations left: one more
      round, its inertia recorded, and the rest of the loop from the new round
      ends where the rest from the old one did. */
  method Step(data: seq<Point>, k: nat, d: nat, centroids0: seq<Centroid>, clusters0: seq<Labelled>,
              newCentroids0: seq<Centroid>, inertias0: seq<real>, ghost fuel: nat)
    returns (centroids: seq<Centroid>, clusters: seq<Labelled>, newCentroids: seq<Centroid>, inertias: seq<real>)
    requires Round(data, k, d, centroids0, clusters0, newCentroids0)
    requires fuel > 0 && !Converged(centroids0, newCentroids0, d)
    ensures Round(data, k, d, centroids, clusters, newCentroids)
    ensures |inertias| == |inertias0| + 1
    ensures Loop(data, k, d, centroids, fuel - 1).last == Loop(data, k, d, centroids0, fuel).last
    ensures inertias + Loop(data, k, d, centroids, fuel - 1).costs
            == inertias0 + Loop(data, k, d, centroids0, fuel).costs
  {
    var inertia;
    centroids, clusters, newCentroids, inertia := NextRound(data, k, d, centroids0, clusters0, newCentroids0);
    inertias := inertias0 + [inertia];
    LoopAppend(data, k, d, centroids0, fuel, inertias0);
  }

  /** One pass of the loop body of `kmeans`: the new centroids become the
      current ones, the points are reassigned and the means recomputed. The
      inertia of the new assignment is at most that of the previous one. */
  method NextRound(data: seq<Point>, k: nat, d: nat, centroids0: seq<Centroid>,
                   clusters0: seq<Labelled>, newCentroids0: seq<Centroid>)
    returns (centroids: seq<Centroid>, clusters: seq<Labelled>, newCentroids: seq<Centroid>, inertia: real)
    requires Round(data, k, d, centroids0, clusters0, newCentroids0)
    ensures centroids == newCentroids0
    ensures Round(data, k, d, centroids, clusters, newCentroids)
    ensures inertia == Inertia(clusters, centroids)
    ensures 0.0 <= inertia <= Inertia(clusters0, centroids0)
  {
    RoundDescends(data, k, d, centroids0, clusters0, newCentroids0);
    centroids := newCentroids0;
    clusters := AssignClusters(data, centroids, d);
    RoundFrom(data, k, d, centroids);
    newCentroids := UpdateCentroids(clusters, k, d);
    inertia := Inertia(clusters, centroids);
  }

  /** The relation between the variables of `kmeans` at the head of its loop:
      the clusters are the nearest-centroid assignment against `centroids`, and
      `newCentroids` are their means; both lists hold a defined centroid. */
  ghost predicate Round(data: seq<Point>, k: nat, d: nat, centroids: seq<Centroid>,
                        clusters: seq<Labelled>, newCentroids: seq<Centroid>)
  {
    && HasDim(data, d) && |data| > 0
    && |centroids| == k && CentroidsHaveDim(centroids, d) && HasDefined(centroids)
    && clusters == Assigned(data, centroids, d)
    && (forall i | 0 <= i < |clusters| :: clusters[i].cluster < k)
    && newCentroids == Update(clusters, k, d) && HasDefined(newCentroids)
  }

  /** Lloyd's descent: the next round's inertia is at most this round's. The
      means lower the cost of the current assignment, and reassigning every
      point to its nearest mean lowers it again. */
  lemma RoundDescends(data: seq<Point>, k: nat, d: nat, cs: seq<Centroid>, cl: seq<Labelled>, ns: seq<Centroid>)
    requires Round(data, k, d, cs, cl, ns)
    ensures Inertia(Assigned(data, ns, d), ns) <= Inertia(cl, cs)
  {
    MeansMinimiseInertia(cl, k, d, cs);
    InertiaIsMinimal(data, ns, d, cl);
  }

  /** One round of `kmeans` from centroids of which one is defined satisfies `Round`. */
  lemma RoundFrom(data: seq<Point>, k: nat, d: nat, cs: seq<Centroid>)
    requires |data| > 0 && HasDim(data, d) && |cs| == k && CentroidsHaveDim(cs, d) && HasDefined(cs)
    ensures Round(data, k, d, cs, Assigned(data, cs, d), Update(Assigned(data, cs, d), k, d))
  {
    var cl := Assigned(data, cs, d);
    UpdateDefinedIffMembers(cl, k, d, cl[0].cluster);
  }
}
