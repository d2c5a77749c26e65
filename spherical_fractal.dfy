/** `src/main-v24-spherical-fractal.js`: each wallet list becomes a run of
    glowing spheres on six concentric shells, shared wallets on the inner
    shells, laid out on a Fibonacci spiral; and that entry point's jetpack
    copy. The spiral's trigonometry is not modelled: a node keeps its shell
    radius and the cosine of its polar angle, from which the source computes
    its position. */
module SphericalFractal {
  import opened JsNumber
  import opened DataLoader
  import opened WalletRecords
  import opened Jetpack

  datatype NodeKind = SharedNode | FartcoinNode | GoatTokenNode

  const LayerCount: nat := 6
  const LayerSpacing: real := 3000.0

  /** `Math.ceil(total / layerCount)` */
  function PointsPerLayer(total: nat): (p: nat)
    ensures total > 0 ==> p >= 1 && (p - 1) * LayerCount < total <= p * LayerCount
  {
    (total + LayerCount - 1) / LayerCount
  }

  lemma DivBelow(i: nat, p: nat, k: nat)
    requires p > 0 && i < k * p
    ensures i / p < k
  {
    var q := i / p;
    assert i == p * q + i % p;
  }

  /** The shell of the `i`-th of `total` nodes */
  function Layer(total: nat, i: nat): nat
    requires i < total
  {
    i / PointsPerLayer(total)
  }

  /** Shells are filled in order, `PointsPerLayer(total)` nodes each, and
      there are never more than six of them. */
  lemma LayerRange(total: nat, i: nat)
    requires i < total
    ensures var p := PointsPerLayer(total);
      Layer(total, i) < LayerCount && Layer(total, i) * p <= i < (Layer(total, i) + 1) * p
  {
    var p := PointsPerLayer(total);
    DivBelow(i, p, LayerCount);
    var l := i / p;
    assert i == l * p + i % p;
  }

  function BaseRadius(kind: NodeKind): real
  {
    if kind == SharedNode then 3000.0 else 15000.0
  }

  function Radius(kind: NodeKind, layer: nat): real
  {
    BaseRadius(kind) + layer as real * LayerSpacing
  }

  /** `1 - 2 * (i % pointsPerLayer) / pointsPerLayer`, the cosine of the polar
      angle; it stays within the domain of `Math.acos`, so no node gets a NaN
      position. */
  function SpiralCosine(total: nat, i: nat): (c: real)
    requires i < total
    ensures -1.0 < c <= 1.0
  {
    var p := PointsPerLayer(total);
    1.0 - 2.0 * (i % p) as real / p as real
  }

  function NodeSize(kind: NodeKind): real
  {
    if kind == SharedNode then 200.0 else 150.0
  }

  /** The cap on a kind's brightness */
  function BrightnessCap(kind: NodeKind): real
  {
    if kind == SharedNode then 255.0 else 200.0
  }

  /** Shared wallets: `min(255, floor(200 + (fartAmount + goatAmount) / 1e6))`;
      the others: `min(200, floor(50 + amount / 1e6))` */
  function Brightness(kind: NodeKind, w: Wallet): (b: Num)
    ensures !b.NaN? ==> AtMost(b, BrightnessCap(kind))
    ensures kind == SharedNode ==> (b.NaN? <==> Add(w.fartAmount, w.goatAmount).NaN?)
    ensures kind != SharedNode ==> (b.NaN? <==> w.amount.NaN?)
  {
    if kind == SharedNode then
      MinWith(255.0, Floor(Affine(Add(w.fartAmount, w.goatAmount), 1.0 / 1000000.0, 200.0)))
    else
      MinWith(200.0, Floor(Affine(w.amount, 1.0 / 1000000.0, 50.0)))
  }

  datatype Colour = Colour(r: Num, g: Num, b: Num)

  /** Grey for shared wallets, green for Fartcoin, blue for Goat Token */
  function NodeColour(kind: NodeKind, brightness: Num): Colour
  {
    match kind
    case SharedNode =>
      var c := Affine(brightness, 1.0 / 255.0, 0.0);
      Colour(c, c, c)
    case FartcoinNode => Colour(Fin(0.1), Affine(brightness, 1.0 / 255.0, 55.0 / 255.0), Fin(0.1))
    case GoatTokenNode => Colour(Fin(0.1), Fin(0.1), Affine(brightness, 1.0 / 255.0, 55.0 / 255.0))
  }

  datatype Node = Node(
    kind: NodeKind,
    address: string,
    layer: nat,
    radius: real,
    spiralCosine: real,
    size: real,
    colour: Colour,
    amount: Num)

  /** The node the source builds for the `i`-th wallet of a list */
  function NodeAt(walletData: seq<Wallet>, kind: NodeKind, i: nat): Node
    requires i < |walletData|
  {
    var w := walletData[i];
    var layer := Layer(|walletData|, i);
    Node(kind, w.address, layer, Radius(kind, layer), SpiralCosine(|walletData|, i), NodeSize(kind),
         NodeColour(kind, Brightness(kind, w)), AmountOrSum(w))
  }

  /** What every node satisfies: it sits on one of the six shells of its
      kind (shared wallets between 3000 and 18000, the others between 15000
      and 30000), keeps its wallet's address, and its colour channels never
      exceed 1. */
  lemma NodeShape(walletData: seq<Wallet>, kind: NodeKind, i: nat)
    requires i < |walletData|
    ensures var n := NodeAt(walletData, kind, i);
      n.layer < LayerCount &&
      BaseRadius(kind) <= n.radius <= BaseRadius(kind) + 5.0 * LayerSpacing &&
      n.address == walletData[i].address &&
      (n.colour.r.NaN? || AtMost(n.colour.r, 1.0)) &&
      (n.colour.g.NaN? || AtMost(n.colour.g, 1.0)) &&
      (n.colour.b.NaN? || AtMost(n.colour.b, 1.0))
  {
    LayerRange(|walletData|, i);
    var l := Layer(|walletData|, i);
    assert l as real <= 5.0;
    var b := Brightness(kind, walletData[i]);
    if !b.NaN? && b.Fin? {
      assert b.v <= BrightnessCap(kind);
      assert b.v * (1.0 / 255.0) <= BrightnessCap(kind) / 255.0;
    }
  }

  /** `createSphericalFractalNodes(walletData, type)` */
  method CreateSphericalFractalNodes(walletData: seq<Wallet>, kind: NodeKind) returns (nodes: seq<Node>)
    ensures |nodes| == |walletData|
    ensures forall i :: 0 <= i < |nodes| ==> nodes[i] == NodeAt(walletData, kind, i)
  {
    nodes := [];
    var totalPoints := |walletData|;
    var pointsPerLayer := (totalPoints + LayerCount - 1) / LayerCount;
    for i := 0 to |walletData|
      invariant |nodes| == i
      invariant forall j :: 0 <= j < i ==> nodes[j] == NodeAt(walletData, kind, j)
    {
      var wallet := walletData[i];
      var layer := i / pointsPerLayer;
      var radius := BaseRadius(kind) + layer as real * LayerSpacing;
      var spiralCosine := 1.0 - 2.0 * (i % pointsPerLayer) as real / pointsPerLayer as real;
      var brightness := Brightness(kind, wallet);
      var node := Node(kind, wallet.address, layer, radius, spiralCosine, NodeSize(kind),
                       NodeColour(kind, brightness), AmountOrSum(wallet));
      nodes := nodes + [node];
    }
  }

  /** All nodes of one list */
  function Nodes(walletData: seq<Wallet>, kind: NodeKind): (nodes: seq<Node>)
    ensures |nodes| == |walletData|
    ensures forall i :: 0 <= i < |nodes| ==> nodes[i].kind == kind
  {
    seq(|walletData|, i requires 0 <= i < |walletData| => NodeAt(walletData, kind, i))
  }

  /** The node-building part of `setupVisualization`: nothing is built when a
      list is empty; otherwise the shared, Fartcoin and Goat Token nodes, in
      that order. */
  method BuildWalletNodes(data: WalletData) returns (walletNodes: Option<seq<Node>>)
    ensures walletNodes.None? <==>
      data.sharedHolders == [] || data.fartcoinHolders == [] || data.goatTokenHolders == []
    ensures walletNodes.Some? ==>
      walletNodes.value == Nodes(SharedWallets(data.sharedHolders), SharedNode)
        + Nodes(Holders(data.fartcoinHolders), FartcoinNode)
        + Nodes(Holders(data.goatTokenHolders), GoatTokenNode)
    ensures walletNodes.Some? ==>
      |walletNodes.value| == |data.sharedHolders| + |data.fartcoinHolders| + |data.goatTokenHolders|
  {
    if |data.sharedHolders| == 0 || |data.fartcoinHolders| == 0 || |data.goatTokenHolders| == 0 {
      return None;
    }
    var sharedNodes := CreateSphericalFractalNodes(SharedWallets(data.sharedHolders), SharedNode);
    var fartcoinNodes := CreateSphericalFractalNodes(Holders(data.fartcoinHolders), FartcoinNode);
    var goatTokenNodes := CreateSphericalFractalNodes(Holders(data.goatTokenHolders), GoatTokenNode);
    walletNodes := Some(sharedNodes + fartcoinNodes + goatTokenNodes);
  }

  /** The jetpack copy: re-enables only strictly above the reactivation level
      and sets the speed to 800, boosted while active */
  const V24Jetpack: JetpackConfig := StandardConfig(AboveThreshold, Some(800.0))
  const V24InitialSpeed: real := 800.0
  const V24FuelBands: BandRule := FromBottom(20.0, 50.0)
  const V24FuelPalette: Palette := Palette("#ff3333", "#ffaa22", "#22cc22")

  /** This copy's step: fuel stays within the 250-unit tank, the speed is
      2000 (800 boosted 2.5 times) while boosting and 800 otherwise, and a
      disabled jetpack comes back only once refilled past 25 units. */
  lemma V24JetpackStep(s: JetpackState, shiftKeyPressed: bool, delta: real)
    requires Inv(V24Jetpack, s) && delta >= 0.0
    ensures var t := Next(V24Jetpack, s, shiftKeyPressed, delta);
      Inv(V24Jetpack, t) && 0.0 <= t.fuel <= 250.0 &&
      t.movementSpeed == (if t.active then 2000.0 else 800.0) &&
      (!s.enabled ==> (t.enabled <==> t.fuel > 25.0))
  {
    NextInv(V24Jetpack, s, shiftKeyPressed, delta);
    SpeedRule(V24Jetpack, s, shiftKeyPressed, delta);
    if !s.enabled {
      ReenableRule(V24Jetpack, s, shiftKeyPressed, delta);
    }
  }

  /** The meter is green on a full tank and red on an empty one. */
  lemma V24MeterEnds()
    ensures MeterColour(V24Jetpack, V24FuelBands, V24FuelPalette, V24Jetpack.maxFuel) == "#22cc22"
    ensures MeterColour(V24Jetpack, V24FuelBands, V24FuelPalette, 0.0) == "#ff3333"
  {
    BandExtremes(V24FuelBands);
  }
}
