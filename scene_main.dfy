/** `public/src/main.js`: the abstract constellations of the starfield (star
    counts, line patterns and the guard that draws only lines between
    existing stars, colours), the single-object hover state of the wallet
    points with the 3D tooltip it drives, the movement a frame adds in the
    fly controls, and that entry point's jetpack copy. Star positions, random
    sizes and opacities, and the pulse animation's sine are not modelled. */
module SceneMain {
  import opened JsNumber
  import opened Geometry
  import opened Tooltip
  import opened Jetpack
  import FrameClock

  // ---------------------------------------------------------------------
  // Constellations

  datatype ConstellationType = Triangle | Square | Pentagon | Hexagon | Circle | Unknown

  /** The types `createConstellations` builds, in order; constellation `i`
      gets the `i`-th type */
  const ConstellationTypes: seq<ConstellationType> := [Triangle, Square, Pentagon, Hexagon, Circle]

  /** `numStars`, the stars of the outline; `roll` is the `Math.random()`
      draw the fallback pattern uses */
  function PatternSize(t: ConstellationType, roll: real): (n: nat)
    requires 0.0 <= roll < 1.0
    ensures t == Unknown ==> 5 <= n <= 9
  {
    match t
    case Triangle => 3
    case Square => 4
    case Pentagon => 5
    case Hexagon => 6
    case Circle => 8
    case Unknown =>
      var extra := (roll * 5.0).Floor;
      assert 0 <= extra < 5;
      5 + extra
  }

  /** The triangle and the square add a centre star after the outline. */
  predicate HasCentre(t: ConstellationType)
  {
    t == Triangle || t == Square
  }

  /** `starPositions.length`: the stars a constellation shows */
  function StarTotal(t: ConstellationType, roll: real): (n: nat)
    requires 0.0 <= roll < 1.0
    ensures t == Triangle ==> n == 4
    ensures t == Square ==> n == 5
    ensures t == Pentagon ==> n == 5
    ensures t == Hexagon ==> n == 6
    ensures t == Circle ==> n == 8
    ensures t == Unknown ==> 5 <= n <= 9
  {
    PatternSize(t, roll) + if HasCentre(t) then 1 else 0
  }

  /** `colorChoices`: blue-white, yellow-white, orange-white, red-white and
      another blue-white */
  const ColorChoices: seq<int> := [0xccffff, 0xffffcc, 0xffddcc, 0xffcccc, 0xccccff]

  /** The colour of the constellation at `index` */
  function ConstellationColour(index: nat): (colour: int)
    ensures colour in ColorChoices
  {
    ColorChoices[index % |ColorChoices|]
  }

  /** The five constellations get five different colours, and the colours
      repeat every five constellations. */
  lemma ConstellationColours(index: nat)
    ensures ConstellationColour(index + 5) == ConstellationColour(index)
    ensures forall i, j :: 0 <= i < j < |ConstellationTypes| ==> ConstellationColour(i) != ConstellationColour(j)
  {
    assert (index + 5) % 5 == index % 5;
  }

  /** A line between two stars, by index */
  type Connection = (nat, nat)

  /** A line between two different stars, both among the first `stars` */
  predicate Joins(line: Connection, stars: nat)
  {
    line.0 < stars && line.1 < stars && line.0 != line.1
  }

  /** What the fallback's random connections satisfy: three of them
      (`min(3, numStars - 2)` with at least five stars), each joining two
      different stars, as the redraw loop guarantees */
  predicate ValidRandomPairs(pairs: seq<Connection>, numStars: nat)
  {
    |pairs| == 3 && forall k :: 0 <= k < |pairs| ==> Joins(pairs[k], numStars)
  }

  /** How many lines a pattern has */
  function LineCount(t: ConstellationType, numStars: nat): nat
  {
    match t
    case Triangle => 6
    case Square => 6
    case Pentagon => 7
    case Hexagon => 9
    case Circle => 12
    case Unknown => if numStars == 0 then 3 else numStars - 1 + 3
  }

  /** `lineConnections` for a pattern; `cross` is the `Math.random() > 0.5`
      choice of the pentagon's and the circle's inner lines. */
  method LineConnections(t: ConstellationType, numStars: nat, cross: bool, randomPairs: seq<Connection>)
    returns (lines: seq<Connection>)
    requires t != Unknown ==> numStars == PatternSize(t, 0.0)
    requires t == Unknown ==> 5 <= numStars && ValidRandomPairs(randomPairs, numStars)
    ensures |lines| == LineCount(t, numStars)
    ensures forall k :: 0 <= k < |lines| ==> Joins(lines[k], numStars + if HasCentre(t) then 1 else 0)
    ensures t == Circle ==> forall i :: 0 <= i < 8 ==> lines[i] == (i, (i + 1) % 8)
    ensures t == Unknown ==>
      (forall i :: 0 <= i < numStars - 1 ==> lines[i] == (i, i + 1)) && lines[numStars - 1..] == randomPairs
  {
    match t
    case Triangle =>
      lines := [(0, 1), (1, 2), (2, 0), (0, 3), (1, 3), (2, 3)];
    case Square =>
      lines := [(0, 1), (1, 2), (2, 3), (3, 0), (0, 2), (1, 3)];
    case Pentagon =>
      lines := [(0, 1), (1, 2), (2, 3), (3, 4), (4, 0)];
      if cross {
        lines := lines + [(0, 2), (0, 3)];
      } else {
        lines := lines + [(1, 3), (1, 4)];
      }
    case Hexagon =>
      lines := [(0, 1), (1, 2), (2, 3), (3, 4), (4, 5), (5, 0)];
      lines := lines + [(0, 3), (1, 4), (2, 5)];
    case Circle =>
      lines := [];
      for i := 0 to numStars
        invariant |lines| == i
        invariant forall j :: 0 <= j < i ==> lines[j] == (j, (j + 1) % 8)
      {
        lines := lines + [(i, (i + 1) % numStars)];
      }
      if cross {
        lines := lines + [(0, 4), (1, 5), (2, 6), (3, 7)];
      } else {
        lines := lines + [(0, 2), (2, 4), (4, 6), (6, 0)];
      }
    case Unknown =>
      lines := [];
      for i := 0 to numStars - 1
        invariant |lines| == i
        invariant forall j :: 0 <= j < i ==> lines[j] == (j, j + 1)
      {
        lines := lines + [(i, i + 1)];
      }
      lines := lines + randomPairs;
  }

  /** The lines the guard keeps: those whose two ends are existing stars */
  function InRange(lines: seq<Connection>, stars: nat): seq<Connection>
  {
    if lines == [] then []
    else
      var last := lines[|lines| - 1];
      InRange(lines[..|lines| - 1], stars) + if last.0 < stars && last.1 < stars then [last] else []
  }

  /** Every line drawn is one of the pattern's lines and joins two existing
      stars. */
  lemma {:induction false} InRangeSound(lines: seq<Connection>, stars: nat)
    ensures |InRange(lines, stars)| <= |lines|
    ensures forall k :: 0 <= k < |InRange(lines, stars)| ==>
      InRange(lines, stars)[k] in lines && InRange(lines, stars)[k].0 < stars && InRange(lines, stars)[k].1 < stars
  {
    if lines != [] {
      InRangeSound(lines[..|lines| - 1], stars);
    }
  }

  /** A pattern whose lines all join existing stars loses none of them. */
  lemma {:induction false} InRangeKeepsAll(lines: seq<Connection>, stars: nat)
    requires forall k :: 0 <= k < |lines| ==> lines[k].0 < stars && lines[k].1 < stars
    ensures InRange(lines, stars) == lines
  {
    if lines != [] {
      InRangeKeepsAll(lines[..|lines| - 1], stars);
    }
  }

  /** The `lineConnections.forEach` that draws the lines, with its guard */
  method DrawLines(lineConnections: seq<Connection>, starCount: nat) returns (drawn: seq<Connection>)
    ensures drawn == InRange(lineConnections, starCount)
  {
    drawn := [];
    for k := 0 to |lineConnections|
      invariant drawn == InRange(lineConnections[..k], starCount)
    {
      assert lineConnections[..k + 1][..k] == lineConnections[..k];
      var (fromIndex, toIndex) := lineConnections[k];
      if fromIndex < starCount && toIndex < starCount {
        drawn := drawn + [(fromIndex, toIndex)];
      }
    }
    assert lineConnections[..|lineConnections|] == lineConnections;
  }

  /** A built constellation: its stars, colour and drawn lines */
  datatype Constellation = Constellation(starCount: nat, colour: int, lines: seq<Connection>)

  /** `createAbstractConstellation(type, index)`: every pattern line joins
      two existing stars, so the guard drops none and all of them are drawn. */
  method CreateAbstractConstellation(t: ConstellationType, index: nat, roll: real, cross: bool, randomPairs: seq<Connection>)
    returns (c: Constellation)
    requires 0.0 <= roll < 1.0
    requires t == Unknown ==> ValidRandomPairs(randomPairs, PatternSize(Unknown, roll))
    ensures c.starCount == StarTotal(t, roll)
    ensures c.colour == ConstellationColour(index)
    ensures |c.lines| == LineCount(t, PatternSize(t, roll))
    ensures forall k :: 0 <= k < |c.lines| ==> Joins(c.lines[k], c.starCount)
  {
    var numStars := PatternSize(t, roll);
    var starCount := StarTotal(t, roll);
    var colour := ColorChoices[index % |ColorChoices|];
    var lineConnections := LineConnections(t, numStars, cross, randomPairs);
    InRangeKeepsAll(lineConnections, starCount);
    var lines := DrawLines(lineConnections, starCount);
    c := Constellation(starCount, colour, lines);
  }

  // ---------------------------------------------------------------------
  // Hover

  datatype Rgb = Rgb(r: real, g: real, b: real)

  const HoverBrightnessFactor: real := 1.3
  /** A hovered point is drawn this many times its original size */
  const HoverScale: real := 3.0

  /** `Math.min(1, x * hoverBrightnessFactor)` */
  function BrightenChannel(x: real): (y: real)
    ensures y <= 1.0
    ensures 0.0 <= x ==> x <= y || y == 1.0
  {
    MinReal(1.0, x * HoverBrightnessFactor)
  }

  /** The colour of a hovered point: each channel brightened by 30 %, capped at 1 */
  function Brighter(c: Rgb): (b: Rgb)
    ensures b.r <= 1.0 && b.g <= 1.0 && b.b <= 1.0
  {
    Rgb(BrightenChannel(c.r), BrightenChannel(c.g), BrightenChannel(c.b))
  }

  /** A wallet sprite the raycaster can hit */
  class WalletPoint {
    const position: Vec3
    /** `userData.walletData`, absent on points without a wallet */
    const walletData: Option<WalletInfo>
    /** Whether the sprite has a material whose colour can be set */
    const hasMaterial: bool
    const originalScale: real
    const originalColor: Rgb
    /** The x and y scale; z stays 1 */
    var scale: real
    var colour: Rgb
    var pulseAnimation: bool
    var pulseTime: real
    var storedOriginalColor: Option<Rgb>

    constructor (position: Vec3, walletData: Option<WalletInfo>, hasMaterial: bool, originalScale: real, originalColor: Rgb)
      ensures this.position == position && this.walletData == walletData && this.hasMaterial == hasMaterial
      ensures this.originalScale == originalScale && this.originalColor == originalColor
      ensures scale == originalScale && colour == originalColor
      ensures !pulseAnimation && pulseTime == 0.0 && storedOriginalColor.None?
    {
      this.position := position;
      this.walletData := walletData;
      this.hasMaterial := hasMaterial;
      this.originalScale := originalScale;
      this.originalColor := originalColor;
      scale := originalScale;
      colour := originalColor;
      pulseAnimation := false;
      pulseTime := 0.0;
      storedOriginalColor := None;
    }

    /** Restores the original scale and, when there is a material, the
        original colour; the pulse flags are left as they are. */
    method Restore()
      modifies this
      ensures scale == originalScale
      ensures colour == if hasMaterial then originalColor else old(colour)
      ensures pulseAnimation == old(pulseAnimation) && pulseTime == old(pulseTime)
      ensures storedOriginalColor == old(storedOriginalColor)
    {
      scale := originalScale;
      if hasMaterial {
        colour := originalColor;
      }
    }

    /** Scales the point up threefold, starts its pulse and brightens its
        colour, remembering the colour it had the first time. */
    method Highlight()
      modifies this
      ensures scale == originalScale * HoverScale
      ensures pulseAnimation && pulseTime == 0.0
      ensures hasMaterial ==> colour == Brighter(originalColor)
      ensures hasMaterial ==> storedOriginalColor == if old(storedOriginalColor).None? then Some(old(colour)) else old(storedOriginalColor)
      ensures !hasMaterial ==> colour == old(colour) && storedOriginalColor == old(storedOriginalColor)
    {
      scale := originalScale * HoverScale;
      pulseAnimation := true;
      pulseTime := 0.0;
      if hasMaterial {
        if storedOriginalColor.None? {
          storedOriginalColor := Some(colour);
        }
        colour := Brighter(originalColor);
      }
    }
  }

  /** The module-level hover state: `hoveredObject` and the 3D tooltip */
  class Hover {
    var hoveredObject: WalletPoint?
    const tooltip: WalletTooltip

    /** A hovered point always carries wallet data, and the tooltip is shown
        for it. */
    predicate Valid()
      reads this, tooltip
    {
      tooltip.Valid() &&
      (hoveredObject != null ==>
        hoveredObject.walletData.Some? && tooltip.visible && tooltip.walletData == hoveredObject.walletData)
    }

    /** The tooltip is visible exactly while a point is hovered. */
    predicate Synced()
      reads this, tooltip
    {
      tooltip.visible <==> hoveredObject != null
    }

    constructor (tooltip: WalletTooltip)
      requires tooltip.Valid() && !tooltip.visible
      ensures Valid() && Synced() && hoveredObject == null && this.tooltip == tooltip
    {
      hoveredObject := null;
      this.tooltip := tooltip;
    }

    /** The hover part of a frame: `hit` is the first object the ray hits,
        `null` when it hits nothing; `addressTextWidth` is the measured width
        of the address the tooltip draws. */
    method UpdateHover(hit: WalletPoint?, addressTextWidth: real)
      requires Valid()
      modifies this, tooltip, hit, hoveredObject
      ensures Valid()
      ensures old(Synced()) ==> Synced()
      // Nothing hit while a point is hovered: it is restored and the hover ends.
      ensures hit == null && old(hoveredObject) != null ==>
        var previous := old(hoveredObject);
        hoveredObject == null && !tooltip.visible &&
        previous.scale == previous.originalScale &&
        (previous.hasMaterial ==> previous.colour == previous.originalColor)
      // A new point with wallet data: the previous one is restored, the new one
      // is highlighted and the tooltip shows its wallet.
      ensures hit != null && hit.walletData.Some? && hit != old(hoveredObject) ==>
        hoveredObject == hit &&
        hit.scale == hit.originalScale * HoverScale && hit.pulseAnimation && hit.pulseTime == 0.0 &&
        (hit.hasMaterial ==> hit.colour == Brighter(hit.originalColor)) &&
        tooltip.visible && tooltip.walletData == hit.walletData && tooltip.position == hit.position &&
        (old(hoveredObject) != null ==>
          old(hoveredObject).scale == old(hoveredObject).originalScale &&
          (old(hoveredObject).hasMaterial ==> old(hoveredObject).colour == old(hoveredObject).originalColor))
      // Otherwise (nothing hit and nothing hovered, a point without wallet
      // data, or the point already hovered) nothing changes.
      ensures (hit == null && old(hoveredObject) == null) || (hit != null && (hit.walletData.None? || hit == old(hoveredObject))) ==>
        hoveredObject == old(hoveredObject) && unchanged(tooltip) &&
        (hit != null ==> unchanged(hit)) && (old(hoveredObject) != null ==> unchanged(old(hoveredObject)))
    {
      if hit != null {
        if hit.walletData.Some? {
          if hoveredObject != hit {
            if hoveredObject != null {
              hoveredObject.Restore();
            }
            hoveredObject := hit;
            hit.Highlight();
            tooltip.Show(hit.walletData, hit.position, addressTextWidth);
          }
        }
      } else if hoveredObject != null {
        hoveredObject.Restore();
        hoveredObject := null;
        tooltip.Hide();
      }
    }

    /** The hover part of the resize handler: a hovered point is restored and
        the hover ends; only the HTML tooltip is hidden, the 3D tooltip is
        left as it is. */
    method OnResize()
      requires Valid()
      modifies this, hoveredObject
      ensures Valid() && hoveredObject == null && unchanged(tooltip)
      ensures old(hoveredObject) != null ==>
        var previous := old(hoveredObject);
        previous.scale == previous.originalScale &&
        (previous.hasMaterial ==> previous.colour == previous.originalColor)
    {
      if hoveredObject != null {
        hoveredObject.Restore();
        hoveredObject := null;
      }
    }

    /** The resize handler hiding the 3D tooltip together with the hover, so
        that a hover ended by a resize leaves no tooltip behind. */
    method OnResizeHidingTooltip()
      requires Valid()
      modifies this, hoveredObject, tooltip
      ensures Valid() && hoveredObject == null
      ensures old(Synced()) ==> Synced()
      ensures old(hoveredObject) != null ==>
        var previous := old(hoveredObject);
        !tooltip.visible && previous.scale == previous.originalScale &&
        (previous.hasMaterial ==> previous.colour == previous.originalColor)
    {
      if hoveredObject != null {
        hoveredObject.Restore();
        hoveredObject := null;
        tooltip.Hide();
      }
    }
  }

  /** A hover followed by a resize, as the handlers are written: the hover
      is gone but the 3D tooltip stays visible, and a later frame that hits
      nothing does not hide it either, since nothing is hovered any more. */
  method StaleTooltipAfterResize() returns (tooltipVisible: bool, hoverCleared: bool, stillVisibleNextFrame: bool)
    ensures tooltipVisible && hoverCleared && stillVisibleNextFrame
  {
    var tooltip := new WalletTooltip();
    var hover := new Hover(tooltip);
    var point := new WalletPoint(Vec3(0.0, 0.0, 0.0), Some(WalletInfo("wallet", Fin(1.0), Fin(2.0))), true, 1.0, Rgb(0.5, 0.5, 0.5));
    hover.UpdateHover(point, 80.0);
    hover.OnResize();
    tooltipVisible := hover.tooltip.visible;
    hoverCleared := hover.hoveredObject == null;
    hover.UpdateHover(null, 80.0);
    stillVisibleNextFrame := hover.tooltip.visible;
  }

  // ---------------------------------------------------------------------
  // Fly movement

  /** `controls.moveState` */
  datatype MoveState = MoveState(forward: bool, back: bool, left: bool, right: bool, up: bool, down: bool)

  predicate AnyKey(keys: MoveState)
  {
    keys.forward || keys.back || keys.left || keys.right || keys.up || keys.down
  }

  /** A movement along the camera's own forward, right and up axes */
  datatype LocalMove = LocalMove(forward: real, right: real, up: real)

  /** `+1`, `-1` or `0` along an axis with a key each way (both cancel) */
  function Axis(plus: bool, minus: bool): (a: real)
    ensures -1.0 <= a <= 1.0
  {
    (if plus then 1.0 else 0.0) - (if minus then 1.0 else 0.0)
  }

  function Step(speed: real, delta: real, axis: real): real
  {
    speed * delta * axis
  }

  /** The movement the keys ask for at `speed` */
  function KeyMovement(speed: real, keys: MoveState, delta: real): (m: LocalMove)
    ensures !AnyKey(keys) ==> m == LocalMove(0.0, 0.0, 0.0)
  {
    LocalMove(Step(speed, delta, Axis(keys.forward, keys.back)),
              Step(speed, delta, Axis(keys.right, keys.left)),
              Step(speed, delta, Axis(keys.up, keys.down)))
  }

  function Thrust(speed: real, boostFactor: real, delta: real): real
  {
    speed * boostFactor * delta
  }

  /** The movement a frame adds to the velocity of the fly controls: the
      jetpack's forward thrust while it is active and enabled, and the keys'
      movement only while it is not active. */
  function FrameMovement(c: JetpackConfig, s: JetpackState, keys: MoveState, delta: real): (m: LocalMove)
    ensures s.active ==> m.right == 0.0 && m.up == 0.0
    ensures s.active && s.enabled ==> m.forward == Thrust(ThrustSpeed(c, s).value, 1.0, delta)
    ensures !s.active ==> m == KeyMovement(s.movementSpeed, keys, delta)
  {
    var thrust := if s.active && s.enabled then Thrust(s.movementSpeed, c.boostFactor, delta) else 0.0;
    var walk := if !s.active && AnyKey(keys) then KeyMovement(s.movementSpeed, keys, delta) else LocalMove(0.0, 0.0, 0.0);
    LocalMove(thrust + walk.forward, walk.right, walk.up)
  }

  /** In every reachable jetpack state the keys add no movement to the
      velocity while the jetpack boosts: the movement added is then the
      boosted thrust alone. The camera move done by the fly-controls library
      and the key-dependent gravity are outside this model. */
  lemma KeysIgnoredWhileBoosting(c: JetpackConfig, s: JetpackState, keys: MoveState, other: MoveState, delta: real)
    requires Inv(c, s)
    ensures s.active ==> FrameMovement(c, s, keys, delta) == FrameMovement(c, s, other, delta)
    ensures s.active ==> FrameMovement(c, s, keys, delta) == LocalMove(Thrust(s.movementSpeed, c.boostFactor, delta), 0.0, 0.0)
  {
  }

  // ---------------------------------------------------------------------
  // Jetpack and frame counter settings

  /** The jetpack copy: re-enables at the reactivation level or above and
      never touches the movement speed */
  const MainJetpack: JetpackConfig := StandardConfig(AtThreshold, None)
  const MainInitialSpeed: real := 400.0
  const MainFuelBands: BandRule := FromBottom(20.0, 50.0)
  const MainFuelPalette: Palette := Palette("#cc2222", "#cccc22", "#22cc22")
  /** Frames between two periodic checks */
  const LogInterval: nat := 60

  /** This copy's step: fuel stays within the 250-unit tank, the speed is
      left alone, and a disabled jetpack comes back once refilled to 25
      units or more. The meter is green on a full tank, red on an empty one,
      and the frame counter's interval is one the frame clock keeps bounded. */
  lemma MainJetpackStep(s: JetpackState, shiftKeyPressed: bool, delta: real)
    requires Inv(MainJetpack, s) && delta >= 0.0
    ensures var t := Next(MainJetpack, s, shiftKeyPressed, delta);
      Inv(MainJetpack, t) && 0.0 <= t.fuel <= 250.0 && t.movementSpeed == s.movementSpeed &&
      (!s.enabled ==> (t.enabled <==> t.fuel >= 25.0))
    ensures MeterColour(MainJetpack, MainFuelBands, MainFuelPalette, MainJetpack.maxFuel) == "#22cc22"
    ensures MeterColour(MainJetpack, MainFuelBands, MainFuelPalette, 0.0) == "#cc2222"
    ensures FrameClock.KnownInterval(LogInterval)
  {
    NextInv(MainJetpack, s, shiftKeyPressed, delta);
    SpeedRule(MainJetpack, s, shiftKeyPressed, delta);
    if !s.enabled {
      ReenableRule(MainJetpack, s, shiftKeyPressed, delta);
    }
    BandExtremes(MainFuelBands);
  }
}
