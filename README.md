# Wallet visualiser core, modelled in Dafny

The visualiser shows two token-holder ledgers in 3D: fartcoin and goat token.
Each is a list of `address,amount` rows. Around the scene code sit four small
pieces of sequential logic, and this project models each of them and proves
what they guarantee.

- **The wallet ledger loader** (`DataLoader`, with `Text` and `JsNumber`).
  `parseCSV` is a line parser: it skips the header and drops malformed rows.
  `loadWalletData` picks a source for each ledger: the fetched text, then the
  embedded CSV, then a fixed five-entry list. It lower-cases every address
  and joins the two ledgers into the shared-holder list. `initializeData`
  installs the result in the module-level arrays, or the emergency data when
  loading fails.
- **The jetpack fuel machine of the fly controls** (`Jetpack`). It appears in
  six entry points. The model is one machine parametrised by the re-enable
  comparison (`>=` or `>`) and by whether the step sets the movement speed.
  Each entry point instantiates it with its own constants and fuel-meter
  colour bands (`MainV21`, `SphericalFractal`, `EnhancedScale`, `FinalFix`,
  `AuditV19`, `SceneMain`).
- **The index, layout and counting arithmetic of the entry points**:
  - the shell assignment of the spherical fractal (`SphericalFractal`);
  - the twenty branch spheres and their wallet slices (`EnhancedScale`);
  - the point-cloud builder with its valid/invalid counts and its cap of 500
    level-2 clusters (`PointCloud`);
  - the 30-entry audit console and the level-2 orbit update (`AuditV19`);
  - the frame counter with its reset (`FrameClock`);
  - the camera boundary and the initial camera distance (`MainV21`);
  - the constellations, the hover state and the fly movement (`SceneMain`).
- **The canvas tooltip** (`Tooltip`): address shortening, the Solscan link,
  the inclusive hit test, and the `show`/`hide`/`update` visibility state.

The code that changes state step by step is imperative Dafny:
- `ParseCSV`, `SharedJoin`, `NormalizeAddresses` and `LoadWalletData` are
  loops or sequences of steps;
- `WalletStore` holds the exported arrays;
- `JetpackControls` holds the fuel fields;
- `WalletTooltip`, `WalletPoint` and `Hover` hold the tooltip and hover state;
- `FrameCounter` holds the frame counter, and `AuditConsole` the on-screen log.

Each of these methods is proved against a specification function (`ParsedCsv`,
`Shared`/`Lookup`, `Next`, `Build`, `Recent`, …). The lemmas state the
source's promises about those functions.

Numbers are JavaScript numbers (`JsNumber.Num`): finite values are exact
reals, and NaN and both infinities are kept. `parseFloat` accepts `Infinity`
and `isNaN` is the only check, so an infinite or negative amount passes the
parser exactly as in the source. A field a record does not have (`undefined`)
is written NaN, which behaves the same under `+`, `||` and `Math.min`.

Where the source and its design description disagree, the model follows the
source:
- amounts are only checked with `isNaN`, so they need not be finite;
- the join's lookup comes from the fartcoin ledger, and its output follows
  goat-ledger order.

## Model

| member | source | states |
|---|---|---|
| `DataLoader.ParseCSV` | src/dataLoader.js:9-56 | the result is `ParsedCsv`: empty for a missing or empty text or one with fewer than two lines; otherwise one entry per accepted line after the header, in line order; every entry is well formed (non-empty trimmed comma-free address, non-NaN amount) |
| `DataLoader.ParsedCsvSingleLine` | src/dataLoader.js:21-27 | a text whose trimmed form holds no line feed yields no entries |
| `DataLoader.HeaderSkipped` | src/dataLoader.js:32-33 | the first line is never parsed, whatever it holds: the entries are those of the lines after it |
| `DataLoader.ParsedCsvBound` | src/dataLoader.js:33-56 | at most one entry per line after the header: `|result| <= lines - 1` |
| `DataLoader.ParseRowsAroundRow` | src/dataLoader.js:33-50 | a skipped row contributes nothing and does not abort the parse; an accepted row contributes exactly its entry, between the entries of the rows before and after it |
| `DataLoader.ParseRowsConcat` | src/dataLoader.js:33-56 | rows are parsed independently and in order: parsing `a + b` gives the entries of `a` followed by those of `b` |
| `DataLoader.ParseLineWellFormed` | src/dataLoader.js:34-50 | a line that is accepted yields a non-empty, trimmed, comma-free address and a non-NaN amount |
| `DataLoader.ParseRowsWellFormed` | src/dataLoader.js:43-55 | every entry of a parse is well formed |
| `DataLoader.LookupLastWins` | src/dataLoader.js:195-197 | for a duplicated address the map keeps the amount of its last entry |
| `DataLoader.SharedJoin` | src/dataLoader.js:192-207 | the join builds the map `Lookup(fart)` and returns `Shared(goat, Lookup(fart))` |
| `DataLoader.SharedFollowsGoat` | src/dataLoader.js:199-207 | shared entry k comes from the k-th goat entry whose address is in the map, in goat order; it carries that entry's address and goat amount and the map's fartcoin amount |
| `DataLoader.SharedMembership` | src/dataLoader.js:193-207 | an address is in the shared list if and only if it occurs in both ledgers |
| `DataLoader.NormalizeAddresses` | src/dataLoader.js:188-189 | every entry keeps its amount and position, and its address becomes its lower-cased form |
| `Text.ToLowerIdempotent` | src/dataLoader.js:188-189 | a lower-cased address is its own lower-cased form |
| `DataLoader.LoadLedger` | src/dataLoader.js:144-189 | a ledger uses the fetched text when it is a non-empty string, else the embedded CSV; an empty parse is replaced by the fixed five-entry list; the result is non-empty and lower-cased |
| `DataLoader.LoadWalletData` | src/dataLoader.js:135-217 | each ledger depends only on its own fetch result; both are non-empty and lower-cased; the shared list is their join |
| `DataLoader.EmergencySharedIsJoin` | src/dataLoader.js:255-274 | the emergency shared list is exactly the join of the two emergency ledgers |
| `DataLoader.WalletStore.InitializeData` | src/dataLoader.js:234-277 | the exported arrays get what `loadWalletData` returns for the two fetch results (each ledger the lower-cased chosen source, non-empty), or the emergency data when the await rejects; in both cases both ledgers are non-empty and the shared array is the join of the other two |
| `Tooltip.ShortAddress` | public/src/walletTooltip.js:141-144 | an address longer than 12 characters is shown as its first 8 characters, `...` and its last 4 (15 characters); a shorter one is unchanged |
| `Tooltip.UrlCarriesFullAddress` | public/src/walletTooltip.js:177-183 | the link is the Solscan account page of the full, unshortened address |
| `Tooltip.WalletTooltip.UpdateTooltipContent` | public/src/walletTooltip.js:121-195 | nothing changes for null data; otherwise the canvas shows the short address, both amounts and their sum, and the link area is the 30/65/width/20 rectangle with the Solscan URL |
| `Tooltip.WalletTooltip.Show` | public/src/walletTooltip.js:197-204 | sets the wallet data and position, redraws, and becomes visible |
| `Tooltip.WalletTooltip.Hide` | public/src/walletTooltip.js:206-210 | becomes invisible; wallet data, link area and content are unchanged |
| `Tooltip.WalletTooltip.Update` | public/src/walletTooltip.js:212-234 | nothing changes when invisible; otherwise only the sprite position moves |
| `Tooltip.WalletTooltip.Click` | public/src/walletTooltip.js:42-73 | a link opens if and only if the tooltip is visible, has a link area and data, and the click lies in the inclusive link rectangle; the opened link is the account of the shown wallet |
| `Jetpack.JetpackControls.HandleJetpack` | src/main-v21.js:461-530 | the new fuel, flags and speed are `Next` of the old ones |
| `Jetpack.JetpackControls.constructor` | src/main-v21.js:172-180 | the tank starts full, the jetpack enabled and idle |
| `Jetpack.NextInv` | src/main-v21.js:466-492 | a step with `delta >= 0` keeps fuel in `[0, max]`, active only while enabled with fuel, and disabled only below the re-enable level |
| `Jetpack.RunInv` | src/main-v21.js:466-492 | over any session of frames from the initial state the invariant holds throughout |
| `Jetpack.ActiveRule` | src/main-v21.js:466-478 | after a step the jetpack is active if and only if Shift was held, it was enabled with fuel, and the step left fuel |
| `Jetpack.FuelDirection` | src/main-v21.js:469-485 | boosting never adds fuel; not boosting never removes fuel and never exceeds the tank |
| `Jetpack.DisabledOnlyWhenEmpty` | src/main-v21.js:473-476 | the jetpack is disabled only by boosting the tank to exactly 0, which also deactivates it |
| `Jetpack.ReenableRule` | src/main-v21.js:487-490 | a disabled jetpack is re-enabled exactly when the refilled fuel meets the copy's comparison, and stays inactive |
| `Jetpack.SpeedRule` | src/main-v21.js:510-529 | copies that set the speed use base times boost while active and base otherwise; the other copies leave it alone |
| `Jetpack.ReactivationVariantsDiffer` | src/main-v24-spherical-fractal.js:424 | a dry jetpack refilled to exactly 25 comes back under `>=` but not under `>` |
| `Jetpack.ThrustWhileActive` | src/final-fix.js:518-526 | in a reachable state there is thrust exactly while the jetpack is active |
| `Jetpack.BandMonotone` | src/main-v21.js:500-506 | more fuel never shows a lower colour band |
| `Jetpack.BandExtremes` | src/final-fix.js:508-514 | with cuts strictly inside 0..100 a full tank is in the high band and an empty one in the low band |
| `MainV21.V21JetpackStep` | src/main-v21.js:461-530 | this copy keeps fuel in `[0, 250]`, sets the speed to 750 while active and 300 otherwise, and re-enables at fuel `>= 25` |
| `MainV21.V21MeterEnds` | src/main-v21.js:532-548 | with the shared bands (above 60 % green, above 30 % yellow, else red) a full tank is green and an empty one red |
| `MainV21.BoundaryAlongAxis` | src/main-v21.js:365-376 | the check is false under orbit controls; under fly controls it fires if and only if the distance exceeds 30000 |
| `MainV21.CameraDistance` | src/main-v21.js:606-617 | the initial camera distance lies in `[5000, 25000]`, and equals `2.2 × maxDim` when that lies in range |
| `MainV21.ResetPositionInsideBoundary` | src/main-v21.js:622-632 | the initial camera position, where resets go, is inside the 30000 boundary |
| `SphericalFractal.LayerRange` | src/main-v24-spherical-fractal.js:276-284 | with `ceil(n/6)` nodes per shell, node i is on shell `floor(i/ppl)`, which lies in 0..5 |
| `SphericalFractal.NodeShape` | src/main-v24-spherical-fractal.js:282-317 | every node is on one of its kind's six shells (3000 + 3000·layer for shared, 15000 + 3000·layer otherwise), keeps its wallet's address, and no colour channel exceeds 1 |
| `SphericalFractal.Brightness` | src/main-v24-spherical-fractal.js:302-316 | brightness is at most 255 for shared nodes and 200 for the others, and is NaN only for a NaN amount |
| `SphericalFractal.SpiralCosine` | src/main-v24-spherical-fractal.js:292 | the cosine passed to `Math.acos` stays in `(-1, 1]` |
| `SphericalFractal.CreateSphericalFractalNodes` | src/main-v24-spherical-fractal.js:271-345 | one node per wallet, in input order, node i being `NodeAt(i)` (size 200 for shared, 150 otherwise) |
| `SphericalFractal.BuildWalletNodes` | src/main-v24-spherical-fractal.js:361-369 | nothing is built when a list is empty; otherwise shared, fartcoin and goat nodes in that order, one per wallet |
| `SphericalFractal.V24JetpackStep` | src/main-v24-spherical-fractal.js:402-435 | this copy keeps fuel in `[0, 250]`, sets the speed to 2000 while active and 800 otherwise, and re-enables only at fuel `> 25` |
| `SphericalFractal.V24MeterEnds` | src/main-v24-spherical-fractal.js:437-450 | a full tank is green and an empty one red |
| `EnhancedScale.CreateMediumSpheres` | src/main-v26-enhanced-scale.js:294-348 | exactly 20 spheres, sphere i being `MediumSphereAt(i)` |
| `EnhancedScale.MediumSpheresDistinct` | src/main-v26-enhanced-scale.js:311-331 | spheres 0-9 are fartcoin and 10-19 goat, and the twenty names are pairwise different |
| `EnhancedScale.DataIndex` | src/main-v26-enhanced-scale.js:377 | `(startIndex + i) mod length` is a valid index |
| `EnhancedScale.NodesAroundSphere` | src/main-v26-enhanced-scale.js:364-447 | a sphere whose slice starts at or past the ledger's end gets no nodes; otherwise exactly 100 |
| `EnhancedScale.CreateWalletNodes` | src/main-v26-enhanced-scale.js:351-447 | the nodes are those of every sphere, in sphere order |
| `EnhancedScale.TotalWalletNodes` | src/main-v26-enhanced-scale.js:355-376 | each token gets 100 nodes per started hundred of its ledger, up to ten hundreds, so at most 2000 in total |
| `EnhancedScale.FirstThousandIndex` | src/main-v26-enhanced-scale.js:367-378 | for `j` below 1000 and the ledger length, slot `j mod 100` of the token's sphere `j / 100` reads ledger index `j`, and that sphere's slice is populated |
| `EnhancedScale.FirstThousandShown` | src/main-v26-enhanced-scale.js:364-447 | each of a ledger's first 1000 wallets is shown: fartcoin wallet `j` by node `j mod 100` of sphere `j / 100`, goat wallet `j` by node `j mod 100` of sphere `j / 100 + 10`; the sphere has its 100 nodes and the node carries the wallet's address and token |
| `EnhancedScale.NodeSizeRange` | src/main-v26-enhanced-scale.js:399-417 | the node shows its wallet's address and a non-NaN amount; for every amount the size is at most 150 and the brightness factor at most 1; for a non-negative amount, `Infinity` included, the size is in `[100, 150]` and the brightness factor in `[0.3, 1]` |
| `EnhancedScale.NodeNamesRepeat` | src/main-v26-enhanced-scale.js:432 | node names restart at every sphere, so the first nodes of two spheres share a name |
| `EnhancedScale.V26JetpackStep` | src/main-v26-enhanced-scale.js:509-542 | this copy keeps fuel in `[0, 250]`, sets the speed to 3750 while active and 1500 otherwise, and re-enables only at fuel `> 25` |
| `FinalFix.FinalFixJetpackStep` | src/final-fix.js:474-500 | this copy keeps fuel in `[0, 250]`, leaves the speed alone, and re-enables at fuel `>= 25` |
| `FinalFix.FinalFixSettings` | src/final-fix.js:502-515 | with bands below 20 % red, below 50 % yellow, else green, a full tank is green and an empty one red |
| `FrameClock.FrameCounter.Tick` | src/final-fix.js:621-628 | the counter is incremented; a frame that is a multiple of the interval is a checkpoint, and there the counter is reset to 0 once above 1000 |
| `FrameClock.NextCountBounded` | src/final-fix.js:621-628 | with an interval of 30 or 60 the counter never exceeds 1019 |
| `FrameClock.ResetOnlyAtCheckpoint` | src/main-v21.js:665-674 | the counter returns to 0 exactly at a checkpoint beyond 1000 |
| `FrameClock.CheckedPosition` | public/src/main.js:1416-1433 | at a checkpoint a camera with a NaN coordinate goes back to its initial position; a valid camera is never moved |
| `PointCloud.CreateWalletPointCloud` | src/main-v19-audit.js:539-593 | the result is `Build` of the points |
| `PointCloud.BuildShape` | src/main-v19-audit.js:539-593 | exactly the valid points get sprites, in order; the valid and invalid counts are exact and sum to the number of points; level-2 clusters go to exactly the valid points with index below 500; only the first 9 skipped points are logged |
| `PointCloud.IndicesComplete` | src/main-v19-audit.js:542-549 | every point is listed by exactly one of the valid and invalid index lists, according to whether all its coordinates are numbers |
| `PointCloud.Level2Bound` | src/final-fix.js:342-343 | at most 500 level-2 clusters, no more than sprites, each for a valid point with index below 500 |
| `PointCloud.SpriteScale` | src/final-fix.js:333-334 | a scale that is a number is at least 260, and an amount that is 0 or NaN gives 780 |
| `AuditV19.AuditConsole.AuditLog` | src/main-v19-audit.js:20-46 | with a console element it is shown, and the entries become the last 30 of the old entries plus the new one |
| `AuditV19.Recent` | src/main-v19-audit.js:38-41 | the kept entries are the last `min(30, n)` of the history |
| `AuditV19.LogAllRecent` | src/main-v19-audit.js:38-41 | trimming after each append keeps the last 30 of everything ever logged, oldest removed first |
| `AuditV19.FormatMessage` | src/main-v19-audit.js:22 | the message starts with `[AUDIT:` and ends with the message text |
| `AuditV19.UpdateLevel2Clusters` | src/main-v19-audit.js:476-500 | every cluster's orbit advances by `delta × speed`; the count is the number of clusters with an orbit angle and a parent that is not hidden; it is reported every 120 frames |
| `AuditV19.CountAllBounded` | src/main-v19-audit.js:480-494 | the count never exceeds the number of clusters |
| `AuditV19.CountAllAdvance` | src/main-v19-audit.js:480-494 | advancing the orbits does not change the count |
| `AuditV19.V19JetpackStep` | src/main-v19-audit.js:620-663 | this copy keeps fuel in `[0, 250]`, leaves the speed alone, re-enables at fuel `>= 25`, and its meter is green full and red empty |
| `SceneMain.StarTotal` | public/src/main.js:356-431 | triangle 4 stars, square 5, pentagon 5, hexagon 6, circle 8, any other type 5 to 9 |
| `SceneMain.ConstellationColours` | public/src/main.js:435-443 | colours repeat every five constellations, and the five constellations get five different colours |
| `SceneMain.LineConnections` | public/src/main.js:464-520 | each pattern has its fixed number of lines, each joining two different existing stars; the circle is the 8-cycle and the fallback a chain plus its random pairs |
| `SceneMain.DrawLines` | public/src/main.js:523-525 | the lines drawn are exactly the pattern lines whose ends are existing stars, in order |
| `SceneMain.InRangeSound` | public/src/main.js:525 | every drawn line is a pattern line between existing stars |
| `SceneMain.CreateAbstractConstellation` | public/src/main.js:347-525 | the star count and colour are as above, and every pattern line is drawn |
| `SceneMain.WalletPoint.Highlight` | public/src/main.js:1561-1596 | the point is scaled to 3× its original scale, its pulse starts, its colour is the original brightened by 30 % capped at 1, and the first colour seen is stored |
| `SceneMain.WalletPoint.Restore` | public/src/main.js:1627-1640 | the original scale is restored, and the original colour when there is a material |
| `SceneMain.Hover.UpdateHover` | public/src/main.js:1523-1655 | a new point with wallet data restores the previous one, is highlighted, and the tooltip shows it; no hit restores and clears the hovered point and hides the tooltip; anything else changes nothing |
| `SceneMain.Hover.OnResize` | public/src/main.js:1136-1156 | a hovered point is restored and the hover cleared; the 3D tooltip is not touched |
| `SceneMain.StaleTooltipAfterResize` | public/src/main.js:1136-1156 | a hover followed by a resize leaves the 3D tooltip visible with nothing hovered, and a later frame that hits nothing does not hide it |
| `SceneMain.Hover.OnResizeHidingTooltip` | public/src/main.js:1136-1156 | the corrected handler clears the hover and hides the 3D tooltip, so the tooltip is visible exactly while a point is hovered |
| `SceneMain.FrameMovement` | public/src/main.js:1291-1335 | the movement a frame adds to the velocity: while active only the boosted forward thrust; otherwise the keys' movement at the current speed |
| `SceneMain.KeysIgnoredWhileBoosting` | public/src/main.js:1308-1335 | in a reachable state the keys add no movement to the velocity while the jetpack is active; the movement added is the boosted forward thrust alone |
| `SceneMain.MainJetpackStep` | public/src/main.js:1221-1279 | this copy keeps fuel in `[0, 250]`, leaves the speed alone, re-enables at fuel `>= 25`, its meter is green full and red empty, and its log interval keeps the frame counter bounded |
| `WalletRecords.AmountOrSumCases` | src/main-v24-spherical-fractal.js:334 | a shared node's amount is the sum of its two amounts; a holder's is its own amount unless that is 0, in which case it is NaN |

## Findings

| source | as written | input that shows it | evidently intended | confidence | as-written member | corrected member |
|---|---|---|---|---|---|---|
| public/src/main.js:1136-1156 | the resize handler clears `hoveredObject` and hides only the HTML tooltip | hover a wallet point, then resize the window: the 3D tooltip stays visible; every later frame that hits nothing skips the hide branch, because nothing is hovered any more | a resize that ends the hover also hides the 3D tooltip, so it is visible exactly while a point is hovered | medium, not executed | `SceneMain.StaleTooltipAfterResize` (with `SceneMain.Hover.OnResize`) | `SceneMain.Hover.OnResizeHidingTooltip` |

## Left out

- Network I/O: `fetchCSVFile` (src/dataLoader.js:115-132) is not modelled. Its result is an `Option<string>` input, with `None` for the `null` of a failed fetch.
- `loadWalletData`'s catch branch is not modelled: nothing in the modelled body throws. `initializeData`'s rejection is modelled as a `None` load result.
- The `parseFloat` grammar is not modelled. It is a function parameter from text to `Num`, and every parser property holds for any such function.
- `toLowerCase` is ASCII-only in the model. Ledger addresses are base58.
- `toLocaleString` formatting of the tooltip amounts is not modelled; the model keeps the numbers drawn.
- Canvas text measurement, camera projection and `unproject` are foreign code. The measured address width and the projected positions are parameters.
- Floating-point arithmetic: fuel, frame time and coordinates are exact reals, so IEEE rounding is not captured.
- Trigonometric placement is left out: the Fibonacci spiral in v24 (a node keeps its shell radius and the cosine given to `Math.acos`), the sphere positions in v26, and the star positions in the constellations. `positionMapper.js` is not part of this model.
- `Math.log` in the sprite scale is a function parameter.
- `Math.random` draws are parameters or left out:
  - the constellation fallback's size draw and random pairs, and its line-direction choice;
  - the v26 sphere and node radii;
  - the orbit speed and angle of each level-2 cluster.
- The fallback's redraw loop is summarised as a precondition: its three pairs join two different existing stars.
- Velocity, damping and gravity physics are not modelled (src/final-fix.js:528-537, public/src/main.js:1337-1352). `SceneMain.FrameMovement` only models the movement a frame adds to the velocity.
- The keys still act while the jetpack boosts in two ways the model leaves out. The fly-controls library call `controls.update(delta)` (public/src/main.js:1286-1287) moves the camera from the key state every Fly frame. Holding up or down also cancels the gravity pull (public/src/main.js:1346). `SceneMain.KeysIgnoredWhileBoosting` covers only the `movement` vector.
- The level-2 clusters' mini sprites are not modelled; neither are the orbit positions computed from the angle.
- Console logging, DOM styling (meter width, the boost flash and its `setTimeout`) and the HTML tooltip are not modelled. Neither are timers, `requestAnimationFrame`, the scene graph, textures, the starfield, and the control and raycaster library calls.
- `SceneMain.WalletPoint.Highlight`: the per-frame hover pulse is not modelled (public/src/main.js:1188-1204). On every frame after the highlight it rescales the hovered point to between 2× and 8× its original scale and sets its colour to full red and green with a pulsing blue. That replaces the 3× scale and the brightened colour the member states. The pulse depends on `Math.sin` of the elapsed time, which lies outside the model's exact-real arithmetic.
- `resetCamera` is not modelled beyond the position it restores (`MainV21.InitialCameraPosition`).
- The v21 speed update runs under `controls.velocity && controlType === 'Fly'`. Both always hold when `handleJetpack` runs, so the model applies the update unconditionally.
- The v26 `if (!wallet) continue` guard is not modelled: `EnhancedScale.DataIndex` shows the index is always valid, so the guard never fires.
- `misc/fixed-desktop.js` and `public/bundle.js` are not modelled. They are scene setup and test geometry with no logic of their own.
