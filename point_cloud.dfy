/** `createWalletPointCloud` of `src/main-v19-audit.js` and
    `src/final-fix.js`: one sprite per generated point whose coordinates are
    all numbers, and an orbiting level-2 cluster for each such point among the
    first 500. The audited copy also counts the skipped points and logs the
    first nine of them; the other copy only warns on the console. Random orbit
    speeds and angles and the cluster's own mini sprites are not modelled. */
module PointCloud {
  import opened JsNumber

  /** A generated point: its coordinates and the wallet amount it stands for */
  datatype Point = Point(x: Num, y: Num, z: Num, amount: Num)

  predicate ValidPoint(p: Point)
  {
    !p.x.NaN? && !p.y.NaN? && !p.z.NaN?
  }

  /** Only points at these indices get a level-2 cluster */
  const Level2Cap: nat := 500
  /** Skipped points are logged while fewer than this many have been skipped */
  const SkipLogLimit: nat := 10

  datatype Sprite = Sprite(parentIndex: nat, x: Num, y: Num, z: Num, scale: Num)
  datatype Level2Cluster = Level2Cluster(parentIndex: nat, orbitRadius: Num)

  /** The groups built and the counters kept while building them */
  datatype Cloud = Cloud(
    sprites: seq<Sprite>,
    level2: seq<Level2Cluster>,
    validSpriteCount: nat,
    invalidSpriteCount: nat,
    /** Indices of the skipped points the audit log reports */
    skipLog: seq<nat>)

  const EmptyCloud: Cloud := Cloud([], [], 0, 0, [])

  /** `max(260, 3.9 * (amount ? 10 * log(amount) : 200))`, `log` being `Math.log` */
  function SpriteScale(amount: Num, log: Num -> Num): (scale: Num)
    ensures !scale.NaN? ==> AtLeast(scale, 260.0)
    ensures !Truthy(amount) ==> scale == Fin(780.0)
  {
    var baseScale := if Truthy(amount) then Affine(log(amount), 10.0, 0.0) else Fin(200.0);
    MaxWith(260.0, Affine(baseScale, 3.9, 0.0))
  }

  /** What the callback does with the point at `index` */
  function Step(c: Cloud, index: nat, p: Point, log: Num -> Num): Cloud
  {
    if !ValidPoint(p) then
      var invalid := c.invalidSpriteCount + 1;
      c.(invalidSpriteCount := invalid, skipLog := if invalid < SkipLogLimit then c.skipLog + [index] else c.skipLog)
    else
      var scale := SpriteScale(p.amount, log);
      c.(sprites := c.sprites + [Sprite(index, p.x, p.y, p.z, scale)],
         validSpriteCount := c.validSpriteCount + 1,
         level2 := if index < Level2Cap then c.level2 + [Level2Cluster(index, Affine(scale, 1.092, 0.0))] else c.level2)
  }

  /** The cloud built from a list of points */
  function Build(points: seq<Point>, log: Num -> Num): Cloud
  {
    if points == [] then EmptyCloud
    else Step(Build(points[..|points| - 1], log), |points| - 1, points[|points| - 1], log)
  }

  /** `createWalletPointCloud(pointsArray, …)` */
  method CreateWalletPointCloud(pointsArray: seq<Point>, log: Num -> Num) returns (cloud: Cloud)
    ensures cloud == Build(pointsArray, log)
  {
    if |pointsArray| == 0 {
      return EmptyCloud;
    }
    var sprites: seq<Sprite> := [];
    var level2: seq<Level2Cluster> := [];
    var validSpriteCount := 0;
    var invalidSpriteCount := 0;
    var skipLog: seq<nat> := [];
    for index := 0 to |pointsArray|
      invariant Cloud(sprites, level2, validSpriteCount, invalidSpriteCount, skipLog) == Build(pointsArray[..index], log)
    {
      var point := pointsArray[index];
      assert pointsArray[..index + 1][..index] == pointsArray[..index];
      if point.x.NaN? || point.y.NaN? || point.z.NaN? {
        invalidSpriteCount := invalidSpriteCount + 1;
        if invalidSpriteCount < SkipLogLimit {
          skipLog := skipLog + [index];
        }
        continue;
      }
      var scale := SpriteScale(point.amount, log);
      sprites := sprites + [Sprite(index, point.x, point.y, point.z, scale)];
      validSpriteCount := validSpriteCount + 1;
      if index < Level2Cap {
        level2 := level2 + [Level2Cluster(index, Affine(scale, 1.092, 0.0))];
      }
    }
    assert pointsArray[..|pointsArray|] == pointsArray;
    cloud := Cloud(sprites, level2, validSpriteCount, invalidSpriteCount, skipLog);
  }

  /** Indices of the points that keep all coordinates, in order */
  function ValidIndices(points: seq<Point>): (idx: seq<nat>)
    ensures |idx| <= |points|
    ensures forall k :: 0 <= k < |idx| ==> idx[k] < |points| && ValidPoint(points[idx[k]])
    ensures forall k, l :: 0 <= k < l < |idx| ==> idx[k] < idx[l]
  {
    if points == [] then []
    else
      var n := |points| - 1;
      var prefix := ValidIndices(points[..n]);
      if ValidPoint(points[n]) then prefix + [n] else prefix
  }

  /** Indices of the points with a NaN coordinate, in order */
  function InvalidIndices(points: seq<Point>): (idx: seq<nat>)
    ensures |idx| <= |points|
    ensures forall k :: 0 <= k < |idx| ==> idx[k] < |points| && !ValidPoint(points[idx[k]])
  {
    if points == [] then []
    else
      var n := |points| - 1;
      var prefix := InvalidIndices(points[..n]);
      if ValidPoint(points[n]) then prefix else prefix + [n]
  }

  /** Every point is listed by exactly one of the two: a valid point among
      the valid indices, a point with a NaN coordinate among the invalid ones. */
  lemma {:induction false} IndicesComplete(points: seq<Point>, i: nat)
    requires i < |points|
    ensures ValidPoint(points[i]) ==> i in ValidIndices(points) && i !in InvalidIndices(points)
    ensures !ValidPoint(points[i]) ==> i in InvalidIndices(points) && i !in ValidIndices(points)
  {
    var n := |points| - 1;
    if i < n {
      IndicesComplete(points[..n], i);
      assert points[..n][i] == points[i];
    }
  }

  function SpriteParent(s: Sprite): nat { s.parentIndex }
  function ClusterParent(c: Level2Cluster): nat { c.parentIndex }

  /** The point indices a group of sprites or clusters hangs off, in order */
  function ParentIndices<T>(group: seq<T>, parent: T -> nat): (idx: seq<nat>)
    ensures |idx| == |group|
    ensures forall k :: 0 <= k < |group| ==> idx[k] == parent(group[k])
  {
    seq(|group|, k requires 0 <= k < |group| => parent(group[k]))
  }

  function Min(a: nat, b: nat): nat { if a <= b then a else b }

  /** What a built cloud holds: a sprite for every valid point and for no
      other, in order; both counters are exact; a level-2 cluster for exactly
      the valid points among the first 500; and the audit log reports the
      first nine skipped points. */
  lemma {:induction false} BuildShape(points: seq<Point>, log: Num -> Num)
    ensures var c := Build(points, log);
      ParentIndices(c.sprites, SpriteParent) == ValidIndices(points) &&
      c.validSpriteCount == |ValidIndices(points)| &&
      c.invalidSpriteCount == |InvalidIndices(points)| &&
      c.validSpriteCount + c.invalidSpriteCount == |points| &&
      ParentIndices(c.level2, ClusterParent) == ValidIndices(points[..Min(|points|, Level2Cap)]) &&
      c.skipLog == InvalidIndices(points)[..Min(|InvalidIndices(points)|, SkipLogLimit - 1)]
  {
    if points != [] {
      var n := |points| - 1;
      var prefix := points[..n];
      BuildShape(prefix, log);
      var c := Build(prefix, log);
      var d := Build(points, log);
      assert d == Step(c, n, points[n], log);
      if ValidPoint(points[n]) {
        assert ParentIndices(d.sprites, SpriteParent) == ParentIndices(c.sprites, SpriteParent) + [n];
      }
      if n < Level2Cap {
        assert points[..Min(|points|, Level2Cap)] == points;
        assert prefix[..Min(n, Level2Cap)] == prefix;
        if ValidPoint(points[n]) {
          assert ParentIndices(d.level2, ClusterParent) == ParentIndices(c.level2, ClusterParent) + [n];
        }
      } else {
        assert points[..Min(|points|, Level2Cap)] == prefix[..Min(n, Level2Cap)];
      }
      var inv := InvalidIndices(prefix);
      if !ValidPoint(points[n]) && |inv| + 1 < SkipLogLimit {
        assert (inv + [n])[..|inv| + 1] == inv + [n];
        assert inv[..|inv|] == inv;
      } else if !ValidPoint(points[n]) {
        assert (inv + [n])[..SkipLogLimit - 1] == inv[..SkipLogLimit - 1];
      }
    }
  }

  /** At most 500 level-2 clusters, never more than there are sprites, each
      orbiting a sprite of one of the first 500 points. */
  lemma Level2Bound(points: seq<Point>, log: Num -> Num)
    ensures var c := Build(points, log);
      |c.level2| <= Level2Cap && |c.level2| <= |c.sprites| &&
      forall k :: 0 <= k < |c.level2| ==>
        c.level2[k].parentIndex < Level2Cap && c.level2[k].parentIndex < |points| &&
        ValidPoint(points[c.level2[k].parentIndex])
  {
    BuildShape(points, log);
    var c := Build(points, log);
    var m := Min(|points|, Level2Cap);
    var capped := ValidIndices(points[..m]);
    assert |c.level2| == |capped| <= m;
    ValidIndicesOfPrefix(points, m);
    forall k | 0 <= k < |c.level2|
      ensures c.level2[k].parentIndex < Level2Cap && c.level2[k].parentIndex < |points| &&
        ValidPoint(points[c.level2[k].parentIndex])
    {
      assert ParentIndices(c.level2, ClusterParent)[k] == capped[k];
      assert capped[k] < m;
      assert points[..m][capped[k]] == points[capped[k]];
    }
  }

  /** The valid indices of a prefix are a prefix of the valid indices. */
  lemma {:induction false} ValidIndicesOfPrefix(points: seq<Point>, m: nat)
    requires m <= |points|
    ensures |ValidIndices(points[..m])| <= |ValidIndices(points)|
    ensures ValidIndices(points[..m]) == ValidIndices(points)[..|ValidIndices(points[..m])|]
  {
    if m < |points| {
      var n := |points| - 1;
      assert points[..n][..m] == points[..m];
      ValidIndicesOfPrefix(points[..n], m);
    } else {
      assert points[..m] == points;
    }
  }
}
