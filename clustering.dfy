/** The two-dimensional k-means demo (`src/components/Clustering.js`): one
    hundred random points in the drawing area, then the same initialise /
    assign / update / converge loop as the column-selecting component, on
    `{x, y}` points and with the Euclidean distance `Math.hypot`.

    Every step is proved against the general model in `KMeans` by reading a
    point `{x, y}` as the two-column vector `[x, y]`. */
module Clustering {
  import opened Util
  import KMeans

  datatype Point = Point(x: real, y: real)

  /** A centroid: a data point or a mean `{x, y}`, or `Undefined` when its
      cluster was empty and both coordinates became `0 / 0` (NaN). */
  datatype Centroid = Centre(x: real, y: real) | Undefined

  datatype Labelled = Labelled(point: Point, cluster: nat)

  /** What `kmeans` hands to `drawClusters` (the last assignment and the
      centroids it was made against), with the number of iterations it ran. */
  datatype Outcome = Outcome(clusters: seq<Labelled>, centroids: seq<Centroid>, iterations: nat)

  const Width: real := 800.0
  const Height: real := 600.0
  const Margin: real := 20.0
  const DataSize: nat := 100
  const MaxIterations: nat := 100

  /* ------------------------------------------------ reading as column vectors */

  function Vec(p: Point): KMeans.Point
  {
    [p.x, p.y]
  }

  function Vecs(data: seq<Point>): (r: seq<KMeans.Point>)
    ensures |r| == |data| && KMeans.HasDim(r, 2)
    ensures forall i | 0 <= i < |data| :: r[i] == Vec(data[i])
  {
    seq(|data|, i requires 0 <= i < |data| => Vec(data[i]))
  }

  function CentroidVec(c: Centroid): KMeans.Centroid
  {
    match c
    case Centre(x, y) => KMeans.Mean([x, y])
    case Undefined => KMeans.Undefined
  }

  function CentroidVecs(cs: seq<Centroid>): (r: seq<KMeans.Centroid>)
    ensures |r| == |cs| && KMeans.CentroidsHaveDim(r, 2)
    ensures forall i | 0 <= i < |cs| :: r[i] == CentroidVec(cs[i])
  {
    seq(|cs|, i requires 0 <= i < |cs| => CentroidVec(cs[i]))
  }

  function LabelledVecs(cl: seq<Labelled>): (r: seq<KMeans.Labelled>)
    ensures |r| == |cl| && KMeans.LabelledHaveDim(r, 2)
    ensures forall i | 0 <= i < |cl| :: r[i] == KMeans.Labelled(Vec(cl[i].point), cl[i].cluster)
  {
    seq(|cl|, i requires 0 <= i < |cl| => KMeans.Labelled(Vec(cl[i].point), cl[i].cluster))
  }

  /* ----------------------------------------------------------------- data */

  /** `generateData`: one hundred points, the i-th at
      `(draws[i].0 * 760, draws[i].1 * 560)`, where the draws stand for the
      `Math.random()` values, each in `[0, 1)`. Every point lies inside the
      drawing area less its margins. */
  method GenerateData(draws: seq<(real, real)>) returns (data: seq<Point>)
    requires |draws| == DataSize
    requires forall i | 0 <= i < |draws| :: 0.0 <= draws[i].0 < 1.0 && 0.0 <= draws[i].1 < 1.0
    ensures |data| == DataSize
    ensures forall i | 0 <= i < DataSize ::
              data[i] == Point(draws[i].0 * (Width - Margin - Margin), draws[i].1 * (Height - Margin - Margin))
    ensures forall i | 0 <= i < DataSize :: 0.0 <= data[i].x < 760.0 && 0.0 <= data[i].y < 560.0
  {
    data := [];
    for i := 0 to DataSize
      invariant |data| == i
      invariant forall m | 0 <= m < i ::
                  data[m] == Point(draws[m].0 * (Width - Margin - Margin), draws[m].1 * (Height - Margin - Margin))
      invariant forall m | 0 <= m < i :: 0.0 <= data[m].x < 760.0 && 0.0 <= data[m].y < 560.0
    {
      data := data + [Point(draws[i].0 * (Width - Margin - Margin), draws[i].1 * (Height - Margin - Margin))];
    }
  }

  /* ------------------------------------------------------- the k-means steps */

  /** `initializeCentroids`: `k` data points, the i-th being `data[picks[i]]`. */
  method InitializeCentroids(data: seq<Point>, k: nat, picks: seq<nat>) returns (centroids: seq<Centroid>)
    requires |picks| == k && forall i | 0 <= i < k :: picks[i] < |data|
    ensures |centroids| == k
    ensures forall i | 0 <= i < k :: centroids[i] == Centre(data[picks[i]].x, data[picks[i]].y)
    ensures CentroidVecs(centroids) == KMeans.Seeds(Vecs(data), picks)
  {
    centroids := [];
    for i := 0 to k
      invariant |centroids| == i
      invariant forall m | 0 <= m < i :: centroids[m] == Centre(data[picks[m]].x, data[picks[m]].y)
    {
      centroids := centroids + [Centre(data[picks[i]].x, data[picks[i]].y)];
    }
  }

  /** The square of `Math.hypot(p.x - cx, p.y - cy)`. The square root is
      increasing, so comparing these squares orders centroids exactly as
      comparing the `hypot` values does. */
  function Dist2(p: Point, cx: real, cy: real): (r: real)
    ensures r >= 0.0
    ensures p.x == cx && p.y == cy ==> r == 0.0
  {
    var dx, dy := p.x - cx, p.y - cy;
    dx * dx + dy * dy
  }

  /** On the plane, the general squared distance is the square of `hypot`. */
  lemma SqDistPlane(p: Point, cx: real, cy: real)
    ensures KMeans.SqDist(Vec(p), [cx, cy]) == Dist2(p, cx, cy)
  {
    var v, w := Vec(p), [cx, cy];
    assert v[..1] == [p.x] && w[..1] == [cx];
    assert [p.x][..0] == [] && [cx][..0] == [];
    assert KMeans.SqDist([p.x], [cx]) == (p.x - cx) * (p.x - cx);
    assert KMeans.SqDist(v, w) == KMeans.SqDist(v[..1], w[..1]) + (p.y - cy) * (p.y - cy);
  }

  /** `assignClusters`: each point, in order, tagged with the first centroid at
      the smallest distance, which is exactly the general nearest-centroid
      assignment on the vectors. */
  method AssignClusters(data: seq<Point>, centroids: seq<Centroid>) returns (clusters: seq<Labelled>)
    ensures |clusters| == |data|
    ensures forall i | 0 <= i < |data| :: clusters[i].point == data[i]
    ensures LabelledVecs(clusters) == KMeans.Assigned(Vecs(data), CentroidVecs(centroids), 2)
  {
    ghost var cs := CentroidVecs(centroids);
    clusters := [];
    for i := 0 to |data|
      invariant |clusters| == i
      invariant forall m | 0 <= m < i ::
                  clusters[m].point == data[m] && clusters[m].cluster == KMeans.Nearest(Vec(data[m]), cs)
    {
      var point := data[i];
      ghost var p := Vec(point);
      var minDist: Option<real> := None;  // None is the initial Infinity
      var cluster := 0;
      for c := 0 to |centroids|
        invariant minDist.None? ==> KMeans.BestUpTo(p, cs, c).None? && cluster == 0
        invariant minDist.Some? ==>
                    && KMeans.BestUpTo(p, cs, c) == Some(cluster)
                    && cluster < |centroids| && centroids[cluster].Centre?
                    && minDist.value == KMeans.SqDist(p, cs[cluster].coords)
      {
        match centroids[c]
        case Undefined =>
          // `hypot` of NaN is NaN, and `NaN < minDist` is false
        case Centre(cx, cy) =>
          var dist := Dist2(point, cx, cy);
          SqDistPlane(point, cx, cy);
          if minDist.None? || dist < minDist.value {
            minDist := Some(dist);
            cluster := c;
          }
      }
      clusters := clusters + [Labelled(point, cluster)];
    }
  }

  /** `updateCentroids`: accumulates `x`, `y` and `count` per cluster in place,
      then divides; the result is the general mean update on the vectors. */
  method UpdateCentroids(clusters: seq<Labelled>, k: nat) returns (newCentroids: seq<Centroid>)
    requires forall i | 0 <= i < |clusters| :: clusters[i].cluster < k
    ensures |newCentroids| == k
    ensures CentroidVecs(newCentroids) == KMeans.Update(LabelledVecs(clusters), k, 2)
  {
    var xs, ys, counts := Accumulate(clusters, k);
    newCentroids := Divide(xs[..], ys[..], counts[..], LabelledVecs(clusters), k);
  }

  /** The first pass of `updateCentroids`: per-cluster sums of `x` and `y`
      and member counts, built in place. */
  method Accumulate(clusters: seq<Labelled>, k: nat) returns (xs: array<real>, ys: array<real>, counts: array<nat>)
    requires forall i | 0 <= i < |clusters| :: clusters[i].cluster < k
    ensures fresh(xs) && fresh(ys) && fresh(counts)
    ensures xs.Length == k && ys.Length == k && counts.Length == k
    ensures forall c | 0 <= c < k ::
              && xs[c] == KMeans.MemberSum(LabelledVecs(clusters), c, 0)
              && ys[c] == KMeans.MemberSum(LabelledVecs(clusters), c, 1)
              && counts[c] == KMeans.MemberCount(LabelledVecs(clusters), c)
  {
    ghost var cl := LabelledVecs(clusters);
    xs := new real[k](_ => 0.0);
    ys := new real[k](_ => 0.0);
    counts := new nat[k](_ => 0);
    for i := 0 to |clusters|
      invariant forall c | 0 <= c < k ::
                  && xs[c] == KMeans.MemberSum(cl[..i], c, 0)
                  && ys[c] == KMeans.MemberSum(cl[..i], c, 1)
                  && counts[c] == KMeans.MemberCount(cl[..i], c)
    {
      var point := clusters[i];
      AccumulateStep(cl, i);
      xs[point.cluster] := xs[point.cluster] + point.point.x;
      ys[point.cluster] := ys[point.cluster] + point.point.y;
      counts[point.cluster] := counts[point.cluster] + 1;
    }
    assert cl[..|clusters|] == cl;
  }

  /** Taking one more labelled point adds it to its own cluster's sums and count only. */
  lemma AccumulateStep(cl: seq<KMeans.Labelled>, i: nat)
    requires KMeans.LabelledHaveDim(cl, 2) && i < |cl|
    ensures forall c: nat ::
              && KMeans.MemberSum(cl[..i + 1], c, 0)
                 == KMeans.MemberSum(cl[..i], c, 0) + (if cl[i].cluster == c then cl[i].point[0] else 0.0)
              && KMeans.MemberSum(cl[..i + 1], c, 1)
                 == KMeans.MemberSum(cl[..i], c, 1) + (if cl[i].cluster == c then cl[i].point[1] else 0.0)
              && KMeans.MemberCount(cl[..i + 1], c)
                 == KMeans.MemberCount(cl[..i], c) + (if cl[i].cluster == c then 1 else 0)
  {
    assert cl[..i + 1][..i] == cl[..i];
  }

  /** The second pass of `updateCentroids`: each cluster's sums divided by
      its count; an empty cluster divides `0 / 0`. */
  method Divide(xs: seq<real>, ys: seq<real>, counts: seq<nat>, ghost cl: seq<KMeans.Labelled>, k: nat)
    returns (newCentroids: seq<Centroid>)
    requires KMeans.LabelledHaveDim(cl, 2)
    requires |xs| == k && |ys| == k && |counts| == k
    requires forall c | 0 <= c < k ::
               && xs[c] == KMeans.MemberSum(cl, c, 0)
               && ys[c] == KMeans.MemberSum(cl, c, 1)
               && counts[c] == KMeans.MemberCount(cl, c)
    ensures |newCentroids| == k
    ensures CentroidVecs(newCentroids) == KMeans.Update(cl, k, 2)
  {
    newCentroids := [];
    for c := 0 to k
      invariant |newCentroids| == c
      invariant forall c' | 0 <= c' < c :: CentroidVec(newCentroids[c']) == KMeans.Update(cl, k, 2)[c']
    {
      var centroid;
      if counts[c] == 0 {
        centroid := Undefined;
      } else {
        centroid := Centre(xs[c] / (counts[c] as real), ys[c] / (counts[c] as real));
      }
      PlanarMeanIsUpdate(cl, k, c);
      assert centroid == PlanarMean(xs[c], ys[c], counts[c]);
      newCentroids := newCentroids + [centroid];
    }
  }

  /** The planar centroid of a cluster from its sums and count: `0 / 0` (NaN)
      when empty, otherwise the point whose coordinates times the count give
      back the sums. */
  function PlanarMean(x: real, y: real, count: nat): (m: Centroid)
    ensures m.Undefined? <==> count == 0
    ensures m.Centre? ==> m.x * (count as real) == x && m.y * (count as real) == y
  {
    if count == 0 then Undefined else Centre(x / (count as real), y / (count as real))
  }

  /** The planar centroid from a cluster's sums and count is the general mean update. */
  lemma PlanarMeanIsUpdate(cl: seq<KMeans.Labelled>, k: nat, c: nat)
    requires KMeans.LabelledHaveDim(cl, 2) && c < k
    ensures CentroidVec(PlanarMean(KMeans.MemberSum(cl, c, 0), KMeans.MemberSum(cl, c, 1), KMeans.MemberCount(cl, c)))
              == KMeans.Update(cl, k, 2)[c]
  {
    KMeans.UpdateCoord(cl, k, 2, c, 0);
    KMeans.UpdateCoord(cl, k, 2, c, 1);
    if KMeans.MemberCount(cl, c) > 0 {
      var coords := KMeans.Update(cl, k, 2)[c].coords;
      assert coords == [coords[0], coords[1]];
    }
  }

  /** `converged`: every centroid has exactly the same `x` and `y` as its
      counterpart; an Undefined (NaN) centroid equals nothing. */
  predicate Converged(centroids: seq<Centroid>, newCentroids: seq<Centroid>)
    requires |centroids| <= |newCentroids|
    ensures Converged(centroids, newCentroids) ==>
              forall i | 0 <= i < |centroids| :: centroids[i].Centre? && centroids[i] == newCentroids[i]
  {
    forall i | 0 <= i < |centroids| ::
      && centroids[i].Centre? && newCentroids[i].Centre?
      && centroids[i].x == newCentroids[i].x && centroids[i].y == newCentroids[i].y
  }

  /** The planar test agrees with the general one over the two columns. */
  lemma ConvergedAgrees(cs: seq<Centroid>, ns: seq<Centroid>)
    requires |cs| <= |ns|
    ensures Converged(cs, ns) <==> KMeans.Converged(CentroidVecs(cs), CentroidVecs(ns), 2)
  {
    if KMeans.Converged(CentroidVecs(cs), CentroidVecs(ns), 2) {
      forall i | 0 <= i < |cs|
        ensures cs[i].Centre? && ns[i].Centre? && cs[i].x == ns[i].x && cs[i].y == ns[i].y
      {
        assert CentroidVecs(cs)[i].coords[0] == CentroidVecs(ns)[i].coords[0];
        assert CentroidVecs(cs)[i].coords[1] == CentroidVecs(ns)[i].coords[1];
      }
    }
  }

  /** `converged` holds exactly for two equal lists without an Undefined
      centroid; in particular `converged(c, c)` iff no cluster of `c` is empty. */
  lemma ConvergedIffSame(cs: seq<Centroid>, ns: seq<Centroid>)
    requires |cs| == |ns|
    ensures Converged(cs, ns) <==> cs == ns && forall i | 0 <= i < |cs| :: cs[i].Centre?
  {
    if Converged(cs, ns) {
      assert forall i | 0 <= i < |cs| :: cs[i] == ns[i];
    }
  }

  /* ----------------------------------------------------------------- loop */

  /** What `kmeans(data, k, svg)` draws, read on `[x, y]`: the centroids the
      general loop from the seeds `picks` stops at, the assignment against
      them, and the number of iterations that loop ran. */
  ghost predicate FromLoop(data: seq<Point>, k: nat, picks: seq<nat>, o: Outcome)
    requires |data| > 0 && k > 0
    requires |picks| == k && forall i | 0 <= i < k :: picks[i] < |data|
  {
    var t := KMeans.FromSeeds(Vecs(data), k, 2, picks);
    && CentroidVecs(o.centroids) == t.last
    && LabelledVecs(o.clusters) == KMeans.Assigned(Vecs(data), t.last, 2)
    && o.iterations == |t.costs|
  }

  /** What a drawn outcome satisfies: every point, in order, tagged with a
      cluster below `k` and assigned to its first nearest drawn centroid; at
      most 100 iterations, none exactly when the seeds already converged; and
      below the cap every drawn centroid defined and the mean of its cluster. */
  ghost predicate Drawn(data: seq<Point>, k: nat, picks: seq<nat>, o: Outcome)
    requires |picks| == k && forall i | 0 <= i < k :: picks[i] < |data|
  {
    && |o.clusters| == |data| && |o.centroids| == k
    && (forall i | 0 <= i < |data| :: o.clusters[i].point == data[i] && o.clusters[i].cluster < k)
    && LabelledVecs(o.clusters) == KMeans.Assigned(Vecs(data), CentroidVecs(o.centroids), 2)
    && o.iterations <= MaxIterations
    && (o.iterations == 0 <==>
          var seeds := KMeans.Seeds(Vecs(data), picks);
          KMeans.Converged(seeds, KMeans.Update(KMeans.Assigned(Vecs(data), seeds, 2), k, 2), 2))
    && (o.iterations < MaxIterations ==>
          && (forall c | 0 <= c < k :: o.centroids[c].Centre?)
          && CentroidVecs(o.centroids) == KMeans.Update(LabelledVecs(o.clusters), k, 2))
  }

  /** The outcome of the general loop from the seeds has every property above. */
  lemma FromLoopDrawn(data: seq<Point>, k: nat, picks: seq<nat>, o: Outcome)
    requires |data| > 0 && k > 0
    requires |picks| == k && forall i | 0 <= i < k :: picks[i] < |data|
    requires FromLoop(data, k, picks, o)
    ensures Drawn(data, k, picks, o)
  {
    var v, seeds := Vecs(data), KMeans.Seeds(Vecs(data), picks);
    assert seeds[0].Mean?;
    var t := KMeans.FromSeeds(v, k, 2, picks);
    KMeans.RoundFrom(v, k, 2, t.last);
    KMeans.LoopStops(v, k, 2, seeds, MaxIterations);
    forall i | 0 <= i < |data|
      ensures o.clusters[i].point == data[i]
    {
      assert Vec(o.clusters[i].point) == LabelledVecs(o.clusters)[i].point == v[i] == Vec(data[i]);
      VecInjective(o.clusters[i].point, data[i]);
    }
    if o.iterations < MaxIterations {
      KMeans.ConvergedIffSame(t.last, KMeans.Next(v, k, 2, t.last), 2);
      forall c | 0 <= c < k
        ensures o.centroids[c].Centre?
      {
        assert CentroidVecs(o.centroids)[c].Mean?;
      }
    }
  }

  /** Reading a point as `[x, y]` loses nothing. */
  lemma VecInjective(p: Point, q: Point)
    requires Vec(p) == Vec(q)
    ensures p == q
  {
    assert Vec(p)[0] == Vec(q)[0] && Vec(p)[1] == Vec(q)[1];
  }

  /** `kmeans(data, k, svg)`: the loop of the general model on `[x, y]`,
      ending with the clusters and the centroids they were assigned against,
      which are what gets drawn: exactly the centroids the general loop from
      the same seeds stops at, after as many iterations. When the loop
      stopped by convergence these centroids are also the means of the
      clusters; at the 100-iteration cap they need not be. Nothing checks
      `k`: with `k <= 0` the update throws (`newCentroids[0]` is undefined). */
  method Run(data: seq<Point>, k: int, picks: seq<nat>) returns (result: Result<Outcome>)
    requires |data| > 0
    requires k > 0 ==> |picks| == k && forall i | 0 <= i < k :: picks[i] < |data|
    ensures result.Failure? <==> k <= 0
    ensures result.Success? ==> FromLoop(data, k, picks, result.value)
    ensures result.Success? ==> Drawn(data, k, picks, result.value)
  {
    if k <= 0 {
      return Failure("TypeError: newCentroids[point.cluster] is undefined");
    }
    var centroids, clusters, newCentroids := Start(data, k, picks);
    var iterations;
    clusters, centroids, newCentroids, iterations := Iterate(data, k, clusters, centroids, newCentroids);
    var o := Outcome(clusters, centroids, iterations);
    FromLoopDrawn(data, k, picks, o);
    return Success(o);
  }

  /** The first round of `kmeans`: seeds, their assignment and its means. */
  method Start(data: seq<Point>, k: nat, picks: seq<nat>)
    returns (centroids: seq<Centroid>, clusters: seq<Labelled>, newCentroids: seq<Centroid>)
    requires |data| > 0 && k > 0
    requires |picks| == k && forall i | 0 <= i < k :: picks[i] < |data|
    ensures CentroidVecs(centroids) == KMeans.Seeds(Vecs(data), picks)
    ensures KMeans.Round(Vecs(data), k, 2, CentroidVecs(centroids), LabelledVecs(clusters), CentroidVecs(newCentroids))
    ensures |clusters| == |data| && forall i | 0 <= i < |data| :: clusters[i].point == data[i]
  {
    centroids := InitializeCentroids(data, k, picks);
    assert CentroidVecs(centroids)[0].Mean?;
    clusters := AssignClusters(data, centroids);
    KMeans.RoundFrom(Vecs(data), k, 2, CentroidVecs(centroids));
    newCentroids := UpdateCentroids(clusters, k);
  }

  /** The `while` loop of `kmeans`, from one completed round: it repeats rounds
      while the centroids moved and fewer than 100 iterations ran, and so
      stops where the general loop from the same centroids stops. */
  method Iterate(data: seq<Point>, k: nat, clusters0: seq<Labelled>, centroids0: seq<Centroid>,
                 newCentroids0: seq<Centroid>)
    returns (clusters: seq<Labelled>, centroids: seq<Centroid>, newCentroids: seq<Centroid>, iterations: nat)
    requires KMeans.Round(Vecs(data), k, 2, CentroidVecs(centroids0), LabelledVecs(clusters0), CentroidVecs(newCentroids0))
    requires |clusters0| == |data| && forall i | 0 <= i < |data| :: clusters0[i].point == data[i]
    ensures KMeans.Round(Vecs(data), k, 2, CentroidVecs(centroids), LabelledVecs(clusters), CentroidVecs(newCentroids))
    ensures |clusters| == |data| && forall i | 0 <= i < |data| :: clusters[i].point == data[i]
    ensures KMeans.Loop(Vecs(data), k, 2, CentroidVecs(centroids0), MaxIterations).last == CentroidVecs(centroids)
    ensures |KMeans.Loop(Vecs(data), k, 2, CentroidVecs(centroids0), MaxIterations).costs| == iterations
  {
    ghost var v := Vecs(data);
    clusters, centroids, newCentroids := clusters0, centroids0, newCentroids0;
    iterations := 0;
    ghost var left := MaxIterations;
    ghost var total := KMeans.Loop(v, k, 2, CentroidVecs(centroids0), MaxIterations);
    while !Converged(centroids, newCentroids) && iterations < MaxIterations
      invariant KMeans.Round(v, k, 2, CentroidVecs(centroids), LabelledVecs(clusters), CentroidVecs(newCentroids))
      invariant |clusters| == |data| && forall i | 0 <= i < |data| :: clusters[i].point == data[i]
      invariant iterations <= MaxIterations && left == MaxIterations - iterations
      invariant total.last == KMeans.Loop(v, k, 2, CentroidVecs(centroids), left).last
      invariant |total.costs| == iterations + |KMeans.Loop(v, k, 2, CentroidVecs(centroids), left).costs|
    {
      clusters, centroids, newCentroids := Step(data, k, clusters, centroids, newCentroids, left);
      iterations := iterations + 1;
      left := left - 1;
    }
    ConvergedAgrees(centroids, newCentroids);
    KMeans.LoopDone(v, k, 2, CentroidVecs(centroids), left);
  }

  /** The body of the loop of `kmeans` with `fuel` iterations left: the new
      centroids become current, the points are reassigned and the means
      recomputed; the general loop from the new centroids ends where the one
      from the old did, one iteration sooner. */
  method Step(data: seq<Point>, k: nat, clusters0: seq<Labelled>, centroids0: seq<Centroid>,
              newCentroids0: seq<Centroid>, ghost fuel: nat)
    returns (clusters: seq<Labelled>, centroids: seq<Centroid>, newCentroids: seq<Centroid>)
    requires KMeans.Round(Vecs(data), k, 2, CentroidVecs(centroids0), LabelledVecs(clusters0), CentroidVecs(newCentroids0))
    requires fuel > 0 && !Converged(centroids0, newCentroids0)
    ensures centroids == newCentroids0
    ensures KMeans.Round(Vecs(data), k, 2, CentroidVecs(centroids), LabelledVecs(clusters), CentroidVecs(newCentroids))
    ensures |clusters| == |data| && forall i | 0 <= i < |data| :: clusters[i].point == data[i]
    ensures KMeans.Loop(Vecs(data), k, 2, CentroidVecs(centroids), fuel - 1).last
            == KMeans.Loop(Vecs(data), k, 2, CentroidVecs(centroids0), fuel).last
    ensures 1 + |KMeans.Loop(Vecs(data), k, 2, CentroidVecs(centroids), fuel - 1).costs|
            == |KMeans.Loop(Vecs(data), k, 2, CentroidVecs(centroids0), fuel).costs|
  {
    ConvergedAgrees(centroids0, newCentroids0);
    KMeans.LoopAppend(Vecs(data), k, 2, CentroidVecs(centroids0), fuel, []);
    centroids := newCentroids0;
    clusters := AssignClusters(data, centroids);
    KMeans.RoundFrom(Vecs(data), k, 2, CentroidVecs(centroids));
    newCentroids := UpdateCentroids(clusters, k);
  }
}
