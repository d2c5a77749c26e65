/** `src/main-v26-enhanced-scale.js`: twenty medium "branch" spheres around
    the core, ten for Fartcoin and ten for Goat Token, each carrying up to a
    hundred wallet nodes cut from its ledger; and that entry point's jetpack
    copy. Positions (random distances on a Fibonacci sphere) are not
    modelled. */
module EnhancedScale {
  import opened JsNumber
  import opened DataLoader
  import opened Jetpack

  const TotalSpheres: nat := 20
  /** Spheres of each token */
  const SpheresPerToken: nat := 10
  const NodesPerMediumSphere: nat := 100

  datatype Rgb = Rgb(r: real, g: real, b: real)

  datatype MediumSphere = MediumSphere(index: nat, name: string, isFartcoin: bool, colour: Rgb)

  function DigitChar(d: nat): char
    requires d < 10
  {
    ('0' as int + d) as char
  }

  /** The decimal text of a number, as string concatenation writes it */
  function NatToString(n: nat): (s: string)
    ensures |s| >= 1
    ensures n < 10 ==> s == [DigitChar(n)]
  {
    if n < 10 then [DigitChar(n)] else NatToString(n / 10) + [DigitChar(n % 10)]
  }

  /** The `i`-th medium sphere: the first ten green and named
      `fartcoinBranch_<i>`, the next ten blue and named `goatBranch_<i - 10>` */
  function MediumSphereAt(i: nat): (sphere: MediumSphere)
    ensures sphere.index == i && (sphere.isFartcoin <==> i < SpheresPerToken)
  {
    if i < SpheresPerToken then MediumSphere(i, "fartcoinBranch_" + NatToString(i), true, Rgb(0.2, 0.8, 0.2))
    else MediumSphere(i, "goatBranch_" + NatToString(i - SpheresPerToken), false, Rgb(0.2, 0.2, 0.8))
  }

  /** `createMediumSpheres()` */
  method CreateMediumSpheres() returns (mediumSpheres: seq<MediumSphere>)
    ensures |mediumSpheres| == TotalSpheres
    ensures forall i :: 0 <= i < TotalSpheres ==> mediumSpheres[i] == MediumSphereAt(i)
  {
    mediumSpheres := [];
    for i := 0 to TotalSpheres
      invariant |mediumSpheres| == i
      invariant forall j :: 0 <= j < i ==> mediumSpheres[j] == MediumSphereAt(j)
    {
      var isFartcoin := i < 10;
      var name := if isFartcoin then "fartcoinBranch_" + NatToString(i) else "goatBranch_" + NatToString(i - 10);
      var colour := if isFartcoin then Rgb(0.2, 0.8, 0.2) else Rgb(0.2, 0.2, 0.8);
      mediumSpheres := mediumSpheres + [MediumSphere(i, name, isFartcoin, colour)];
    }
  }

  /** The twenty spheres split evenly between the tokens and have twenty
      different names. */
  lemma MediumSpheresDistinct(i: nat, j: nat)
    requires i < TotalSpheres && j < TotalSpheres
    ensures MediumSphereAt(i).isFartcoin <==> i < SpheresPerToken
    ensures i != j ==> MediumSphereAt(i).name != MediumSphereAt(j).name
  {
    var a, b := MediumSphereAt(i).name, MediumSphereAt(j).name;
    if i != j {
      if (i < 10) == (j < 10) {
        var k := if i < 10 then 15 else 11;
        assert a[k] != b[k];
      } else {
        assert a[0] != b[0];
      }
    }
  }

  /** A wallet node: its name, the address and amount it shows, its size and
      the factor its colour is scaled by */
  datatype WalletNode = WalletNode(
    name: string, isFartcoin: bool, mediumIndex: nat, address: string,
    amount: Num, normalizedAmount: Num, size: Num, brightness: Num)

  /** Where a sphere's slice of its ledger starts */
  function StartIndex(mediumIndex: nat): nat
  {
    mediumIndex % SpheresPerToken * NodesPerMediumSphere
  }

  /** The ledger index of the `i`-th node of a sphere, wrapping around the ledger */
  function DataIndex(mediumIndex: nat, i: nat, length: nat): (d: nat)
    requires length > 0
    ensures d < length
  {
    (StartIndex(mediumIndex) + i) % length
  }

  /** `min(1, amount / 1e7)` of `wallet.amount || 0` */
  function NormalizedAmount(amount: Num): (n: Num)
    ensures !n.NaN? ==> AtMost(n, 1.0)
    ensures n.NaN? <==> amount.NaN?
  {
    MinWith(1.0, Affine(amount, 1.0 / 10000000.0, 0.0))
  }

  /** `${type}_wallet_${i}` */
  function NodeName(isFartcoin: bool, i: nat): string
  {
    (if isFartcoin then "fartcoin" else "goat") + "_wallet_" + NatToString(i)
  }

  function WalletNodeAt(sphere: MediumSphere, mediumIndex: nat, data: seq<HolderEntry>, i: nat): WalletNode
    requires |data| > 0
  {
    var wallet := data[DataIndex(mediumIndex, i, |data|)];
    var amount := if Truthy(wallet.amount) then wallet.amount else Fin(0.0);
    var normalized := NormalizedAmount(amount);
    WalletNode(
      NodeName(sphere.isFartcoin, i),
      sphere.isFartcoin, mediumIndex, wallet.address, amount, normalized,
      Affine(normalized, 50.0, 125.0 - 25.0), Affine(normalized, 0.7, 0.3))
  }

  /** The ledger a sphere takes its wallets from */
  function LedgerOf(sphere: MediumSphere, fart: seq<HolderEntry>, goat: seq<HolderEntry>): seq<HolderEntry>
  {
    if sphere.isFartcoin then fart else goat
  }

  /** The nodes of one sphere: none when its slice starts past the end of the
      ledger, a hundred otherwise */
  function SphereNodes(sphere: MediumSphere, mediumIndex: nat, data: seq<HolderEntry>): (nodes: seq<WalletNode>)
    ensures |nodes| == if StartIndex(mediumIndex) < |data| then NodesPerMediumSphere else 0
  {
    if StartIndex(mediumIndex) >= |data| then []
    else seq(NodesPerMediumSphere, i requires 0 <= i < NodesPerMediumSphere => WalletNodeAt(sphere, mediumIndex, data, i))
  }

  /** The nodes of all spheres, in sphere order */
  function AllNodes(spheres: seq<MediumSphere>, fart: seq<HolderEntry>, goat: seq<HolderEntry>): seq<WalletNode>
  {
    if spheres == [] then []
    else
      var k := |spheres| - 1;
      AllNodes(spheres[..k], fart, goat) + SphereNodes(spheres[k], k, LedgerOf(spheres[k], fart, goat))
  }

  /** `createWalletNodes(mediumSpheres)` over the two ledgers */
  method CreateWalletNodes(mediumSpheres: seq<MediumSphere>, fart: seq<HolderEntry>, goat: seq<HolderEntry>)
    returns (walletNodes: seq<WalletNode>)
    ensures walletNodes == AllNodes(mediumSpheres, fart, goat)
  {
    walletNodes := [];
    for mediumIndex := 0 to |mediumSpheres|
      invariant walletNodes == AllNodes(mediumSpheres[..mediumIndex], fart, goat)
    {
      var mediumSphere := mediumSpheres[mediumIndex];
      assert mediumSpheres[..mediumIndex + 1][..mediumIndex] == mediumSpheres[..mediumIndex];
      var nodes := NodesAroundSphere(mediumSphere, mediumIndex, fart, goat);
      walletNodes := walletNodes + nodes;
    }
    assert mediumSpheres[..|mediumSpheres|] == mediumSpheres;
  }

  /** The per-sphere callback of `createWalletNodes`: the nodes it pushes */
  method NodesAroundSphere(mediumSphere: MediumSphere, mediumIndex: nat, fart: seq<HolderEntry>, goat: seq<HolderEntry>)
    returns (nodes: seq<WalletNode>)
    ensures nodes == SphereNodes(mediumSphere, mediumIndex, LedgerOf(mediumSphere, fart, goat))
  {
    var data := if mediumSphere.isFartcoin then fart else goat;
    var startIndex := mediumIndex % 10 * NodesPerMediumSphere;
    nodes := [];
    if startIndex >= |data| {
      return;
    }
    ghost var all := SphereNodes(mediumSphere, mediumIndex, data);
    for i := 0 to NodesPerMediumSphere
      invariant nodes == all[..i]
    {
      var dataIndex := (startIndex + i) % |data|;
      assert dataIndex == DataIndex(mediumIndex, i, |data|);
      var wallet := data[dataIndex];
      var amount := if Truthy(wallet.amount) then wallet.amount else Fin(0.0);
      var normalizedAmount := NormalizedAmount(amount);
      var size := Affine(normalizedAmount, 50.0, 125.0 - 25.0);
      var name := NodeName(mediumSphere.isFartcoin, i);
      var node := WalletNode(name, mediumSphere.isFartcoin, mediumIndex, wallet.address,
                             amount, normalizedAmount, size, Affine(normalizedAmount, 0.7, 0.3));
      assert node == all[i];
      assert all[..i + 1] == all[..i] + [all[i]];
      nodes := nodes + [node];
    }
    assert all[..NodesPerMediumSphere] == all;
  }

  /** No node is more than 150 units across or scaled by more than 1. A node
      with a non-negative amount, `Infinity` included, is between 100 and 150
      units across, and its colour is scaled by a factor between 0.3 and 1. */
  lemma NodeSizeRange(sphere: MediumSphere, mediumIndex: nat, data: seq<HolderEntry>, i: nat)
    requires |data| > 0
    ensures var n := WalletNodeAt(sphere, mediumIndex, data, i);
      !n.amount.NaN? && n.address == data[DataIndex(mediumIndex, i, |data|)].address &&
      AtMost(n.size, 150.0) && AtMost(n.brightness, 1.0) &&
      (AtLeast(n.amount, 0.0) ==>
        n.size.Fin? && 100.0 <= n.size.v <= 150.0 && n.brightness.Fin? && 0.3 <= n.brightness.v <= 1.0)
  {
  }

  /** Number of the first `m` spheres of a token whose slice starts inside a
      ledger of `length` wallets */
  function Covered(m: nat, length: nat): nat
  {
    if m == 0 then 0 else Covered(m - 1, length) + (if (m - 1) * NodesPerMediumSphere < length then 1 else 0)
  }

  /** That number is the ledger length in hundreds, rounded up, capped at `m`. */
  lemma {:induction false} CoveredCount(m: nat, length: nat)
    ensures Covered(m, length) == if m <= (length + 99) / 100 then m else (length + 99) / 100
  {
    if m > 0 {
      CoveredCount(m - 1, length);
      assert (m - 1) * 100 < length <==> m - 1 < (length + 99) / 100;
    }
  }

  lemma ModBelow(a: nat, m: nat)
    requires a < m
    ensures a % m == a
  {
    var d := a / m;
    assert a == m * d + a % m;
  }

  lemma ModHundred(k: nat)
    ensures k == 100 * (k / 100) + k % 100 && k % 100 < 100
  {
  }

  lemma ModTen(k: nat, q: nat)
    requires q * 10 <= k < q * 10 + 10
    ensures k % 10 == k - q * 10 && k / 10 == q
  {
    assert k == 10 * (k / 10) + k % 10;
  }

  /** Sphere lists laid out as `createMediumSpheres` lays them out: Fartcoin first, then Goat Token */
  predicate TokenOrdered(spheres: seq<MediumSphere>)
  {
    forall k :: 0 <= k < |spheres| ==> (spheres[k].isFartcoin <==> k < SpheresPerToken)
  }

  lemma {:induction false} AllNodesCount(spheres: seq<MediumSphere>, n: nat, fart: seq<HolderEntry>, goat: seq<HolderEntry>)
    requires n <= |spheres| <= TotalSpheres && TokenOrdered(spheres)
    ensures |AllNodes(spheres[..n], fart, goat)| ==
      NodesPerMediumSphere * (Covered(if n < 10 then n else 10, |fart|) + Covered(if n < 10 then 0 else n - 10, |goat|))
  {
    if n > 0 {
      var s := spheres[..n];
      var k := n - 1;
      assert s[..k] == spheres[..k];
      AllNodesCount(spheres, k, fart, goat);
      assert s[k] == spheres[k];
      LastSphereCount(s[k], k, fart, goat);
      assert |AllNodes(s, fart, goat)| ==
        |AllNodes(spheres[..k], fart, goat)| + |SphereNodes(s[k], k, LedgerOf(s[k], fart, goat))|;
      if k < 10 {
        assert Covered(n, |fart|) == Covered(k, |fart|) + (if k * 100 < |fart| then 1 else 0);
      } else {
        assert Covered(n - 10, |goat|) == Covered(k - 10, |goat|) + (if (k - 10) * 100 < |goat| then 1 else 0);
      }
    }
  }

  /** A sphere's node count: a hundred when its slice starts inside its ledger */
  lemma LastSphereCount(sphere: MediumSphere, k: nat, fart: seq<HolderEntry>, goat: seq<HolderEntry>)
    requires k < TotalSpheres && (sphere.isFartcoin <==> k < SpheresPerToken)
    ensures |SphereNodes(sphere, k, LedgerOf(sphere, fart, goat))| ==
      if k < 10 then (if k * 100 < |fart| then 100 else 0)
      else (if (k - 10) * 100 < |goat| then 100 else 0)
  {
    if k >= 10 {
      ModTen(k, 1);
    } else {
      ModTen(k, 0);
    }
  }

  /** With the twenty spheres `createMediumSpheres` makes, each token shows a
      hundred nodes for every started hundred of its ledger, up to ten
      hundreds. */
  lemma TotalWalletNodes(spheres: seq<MediumSphere>, fart: seq<HolderEntry>, goat: seq<HolderEntry>)
    requires |spheres| == TotalSpheres
    requires forall i :: 0 <= i < TotalSpheres ==> spheres[i] == MediumSphereAt(i)
    ensures var cf := if (|fart| + 99) / 100 < 10 then (|fart| + 99) / 100 else 10;
      var cg := if (|goat| + 99) / 100 < 10 then (|goat| + 99) / 100 else 10;
      |AllNodes(spheres, fart, goat)| == NodesPerMediumSphere * (cf + cg)
  {
    assert TokenOrdered(spheres);
    AllNodesCount(spheres, TotalSpheres, fart, goat);
    assert spheres[..TotalSpheres] == spheres;
    CoveredCount(10, |fart|);
    CoveredCount(10, |goat|);
  }

  /** Wallet `j` of the first thousand is read at slot `j % 100` of the
      token's sphere `j / 100`. */
  lemma FirstThousandIndex(j: nat, length: nat)
    requires j < length && j < SpheresPerToken * NodesPerMediumSphere
    ensures StartIndex(j / 100) < length && DataIndex(j / 100, j % 100, length) == j
    ensures StartIndex(j / 100 + SpheresPerToken) < length && DataIndex(j / 100 + SpheresPerToken, j % 100, length) == j
  {
    ModHundred(j);
    var q := j / 100;
    assert q < 10;
    ModTen(q, 0);
    ModTen(q + 10, 1);
    assert StartIndex(q) == q * 100 == StartIndex(q + 10);
    ModBelow(j, length);
  }

  /** Each of the first thousand wallets of a ledger gets a node: fartcoin
      wallet `j` is node `j % 100` of sphere `j / 100`, goat wallet `j` node
      `j % 100` of sphere `j / 100 + 10`, and the node shows its address. */
  lemma FirstThousandShown(j: nat, fart: seq<HolderEntry>, goat: seq<HolderEntry>)
    requires j < SpheresPerToken * NodesPerMediumSphere
    ensures j < |fart| ==>
      var sphere := MediumSphereAt(j / 100);
      var nodes := SphereNodes(sphere, j / 100, LedgerOf(sphere, fart, goat));
      |nodes| == NodesPerMediumSphere && nodes[j % 100].isFartcoin &&
      nodes[j % 100].address == fart[j].address
    ensures j < |goat| ==>
      var sphere := MediumSphereAt(j / 100 + SpheresPerToken);
      var nodes := SphereNodes(sphere, j / 100 + SpheresPerToken, LedgerOf(sphere, fart, goat));
      |nodes| == NodesPerMediumSphere && !nodes[j % 100].isFartcoin &&
      nodes[j % 100].address == goat[j].address
  {
    if j < |fart| {
      FirstThousandIndex(j, |fart|);
    }
    if j < |goat| {
      FirstThousandIndex(j, |goat|);
    }
  }

  /** Node names restart at every sphere: the first node of the first two
      Fartcoin spheres share a name. */
  lemma NodeNamesRepeat(data: seq<HolderEntry>)
    requires |data| > 0
    ensures WalletNodeAt(MediumSphereAt(0), 0, data, 0).name == WalletNodeAt(MediumSphereAt(1), 1, data, 0).name
  {
  }

  /** The jetpack copy: re-enables only strictly above the reactivation level
      and sets the speed to 1500, boosted while active */
  const V26Jetpack: JetpackConfig := StandardConfig(AboveThreshold, Some(1500.0))
  const V26InitialSpeed: real := 1500.0
  const V26FuelBands: BandRule := FromBottom(20.0, 50.0)
  const V26FuelPalette: Palette := Palette("#ff3333", "#ffaa22", "#22cc22")

  /** This copy's step: fuel stays within the 250-unit tank, the speed is
      3750 (1500 boosted 2.5 times) while boosting and 1500 otherwise, and a
      disabled jetpack comes back only once refilled past 25 units. */
  lemma V26JetpackStep(s: JetpackState, shiftKeyPressed: bool, delta: real)
    requires Inv(V26Jetpack, s) && delta >= 0.0
    ensures var t := Next(V26Jetpack, s, shiftKeyPressed, delta);
      Inv(V26Jetpack, t) && 0.0 <= t.fuel <= 250.0 &&
      t.movementSpeed == (if t.active then 3750.0 else 1500.0) &&
      (!s.enabled ==> (t.enabled <==> t.fuel > 25.0))
  {
    NextInv(V26Jetpack, s, shiftKeyPressed, delta);
    SpeedRule(V26Jetpack, s, shiftKeyPressed, delta);
    if !s.enabled {
      ReenableRule(V26Jetpack, s, shiftKeyPressed, delta);
    }
  }
}
