/** `src/final-fix.js`: its jetpack copy and frame counter settings. Its
    `createWalletPointCloud` is the point-cloud builder without the count of
    skipped points and their audit messages. */
module FinalFix {
  import opened JsNumber
  import opened Jetpack
  import opened FrameClock

  /** Re-enables at the reactivation level or above and never touches the
      movement speed */
  const FinalFixJetpack: JetpackConfig := StandardConfig(AtThreshold, None)
  const FinalFixInitialSpeed: real := 400.0
  /** The meter bands, cut from the bottom: below 20 %, below 50 %, the rest */
  const FinalFixFuelBands: BandRule := FromBottom(20.0, 50.0)
  const FinalFixFuelPalette: Palette := Palette("#cc2222", "#cccc22", "#22cc22")
  /** Frames between two periodic checks */
  const FinalFixLogInterval: nat := 60

  /** This copy's step: fuel stays within the 250-unit tank, the speed is
      left alone, and a disabled jetpack comes back once refilled to 25
      units or more. */
  lemma FinalFixJetpackStep(s: JetpackState, shiftKeyPressed: bool, delta: real)
    requires Inv(FinalFixJetpack, s) && delta >= 0.0
    ensures var t := Next(FinalFixJetpack, s, shiftKeyPressed, delta);
      Inv(FinalFixJetpack, t) && 0.0 <= t.fuel <= 250.0 && t.movementSpeed == s.movementSpeed &&
      (!s.enabled ==> (t.enabled <==> t.fuel >= 25.0))
  {
    NextInv(FinalFixJetpack, s, shiftKeyPressed, delta);
    SpeedRule(FinalFixJetpack, s, shiftKeyPressed, delta);
    if !s.enabled {
      ReenableRule(FinalFixJetpack, s, shiftKeyPressed, delta);
    }
  }

  /** The meter is green on a full tank and red on an empty one, and the
      counter's interval is one the frame clock keeps bounded. */
  lemma FinalFixSettings()
    ensures MeterColour(FinalFixJetpack, FinalFixFuelBands, FinalFixFuelPalette, FinalFixJetpack.maxFuel) == "#22cc22"
    ensures MeterColour(FinalFixJetpack, FinalFixFuelBands, FinalFixFuelPalette, 0.0) == "#cc2222"
    ensures KnownInterval(FinalFixLogInterval)
  {
    BandExtremes(FinalFixFuelBands);
  }
}
