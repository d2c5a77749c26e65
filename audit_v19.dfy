/** `src/main-v19-audit.js`: the on-screen audit console, which keeps only
    the 30 most recent entries, and the per-frame update of the level-2
    clusters, which advances each cluster's orbit and counts the clusters
    whose parent sprite is shown; and that entry point's jetpack copy. */
module AuditV19 {
  import opened JsNumber
  import opened Jetpack

  /** The on-screen console keeps at most this many entries */
  const MaxEntries: nat := 30

  /** `[AUDIT:<timestamp>][<category>] <message>` */
  function FormatMessage(timestamp: string, category: string, message: string): (m: string)
    ensures |m| == 11 + |timestamp| + |category| + |message|
    ensures m[..7] == "[AUDIT:" && m[|m| - |message|..] == message
  {
    "[AUDIT:" + timestamp + "][" + category + "] " + message
  }

  /** The text of an on-screen entry: the formatted message, followed by a
      space and the data's JSON text when there is data */
  function EntryText(formatted: string, dataText: Option<string>): (e: string)
    ensures |e| >= |formatted| && e[..|formatted|] == formatted
    ensures dataText.None? ==> e == formatted
    ensures dataText.Some? ==> |e| == |formatted| + 1 + |dataText.value|
  {
    match dataText
    case None => formatted
    case Some(json) => formatted + " " + json
  }

  /** The entries the console keeps of a history: its last 30 */
  function Recent(history: seq<string>): (r: seq<string>)
    ensures |r| == if |history| <= MaxEntries then |history| else MaxEntries
    ensures r == history[|history| - |r|..]
  {
    if |history| > MaxEntries then history[|history| - MaxEntries..] else history
  }

  /** Trimming after every append keeps the same entries as trimming once at
      the end, so the console always shows the last 30 messages ever logged. */
  lemma RecentAppend(history: seq<string>, entry: string)
    ensures Recent(Recent(history) + [entry]) == Recent(history + [entry])
  {
    var full := history + [entry];
    var kept := Recent(history) + [entry];
    assert kept == full[|full| - |kept|..];
  }

  /** The entries after logging each of `entries` in turn */
  function LogAll(shown: seq<string>, entries: seq<string>): seq<string>
  {
    if entries == [] then shown
    else Recent(LogAll(shown, entries[..|entries| - 1]) + [entries[|entries| - 1]])
  }

  /** However many messages are logged, the console holds the last 30 of
      everything it ever received. */
  lemma {:induction false} LogAllRecent(shown: seq<string>, entries: seq<string>)
    requires |shown| <= MaxEntries
    ensures LogAll(shown, entries) == Recent(shown + entries)
  {
    if entries != [] {
      var n := |entries| - 1;
      LogAllRecent(shown, entries[..n]);
      RecentAppend(shown + entries[..n], entries[n]);
      assert shown + entries[..n] + [entries[n]] == shown + entries;
    }
  }

  /** The `console` element of the page */
  class AuditConsole {
    /** Whether the page has the element; without it nothing is shown */
    const present: bool
    /** `style.display === 'block'` */
    var shown: bool
    /** The text of each child entry, oldest first */
    var entries: seq<string>

    predicate Valid()
      reads this
    {
      |entries| <= MaxEntries && (!present ==> entries == [])
    }

    constructor (present: bool)
      ensures Valid() && this.present == present && !shown && entries == []
    {
      this.present := present;
      shown := false;
      entries := [];
    }

    /** `auditLog(category, message, data)`, the timestamp being read from
        the clock by the caller; the console output is not modelled. */
    method AuditLog(timestamp: string, category: string, message: string, dataText: Option<string>)
      requires Valid()
      modifies this
      ensures Valid()
      ensures !present ==> shown == old(shown) && entries == old(entries)
      ensures present ==>
        shown && entries == Recent(old(entries) + [EntryText(FormatMessage(timestamp, category, message), dataText)])
    {
      if present {
        shown := true;
        var formattedMessage := FormatMessage(timestamp, category, message);
        var full := entries + [EntryText(formattedMessage, dataText)];
        entries := full;
        assert full[0..] == full;
        while |entries| > MaxEntries
          invariant entries == full[|full| - |entries|..]
          invariant |entries| < |full| ==> |entries| >= MaxEntries
          invariant shown
          decreases |entries|
        {
          entries := entries[1..];
        }
        if |full| <= MaxEntries {
          assert entries == full;
        }

      }
    }
  }

  /** The parent sprite a cluster orbits */
  datatype ParentSprite = ParentSprite(isHidden: bool)

  /** `cluster.userData`; an undefined orbit angle is `None` */
  datatype ClusterData = ClusterData(orbitAngle: Option<real>, orbitSpeed: real, parentSprite: Option<ParentSprite>)

  datatype Cluster = Cluster(userData: Option<ClusterData>)

  /** A level-2 group: `None` when the group or its children are missing */
  type Group = Option<seq<Cluster>>

  /** Whether the update touches a cluster at all */
  predicate Orbiting(c: Cluster)
  {
    c.userData.Some? && c.userData.value.orbitAngle.Some?
  }

  /** Whether the update counts a cluster: it orbits a parent that is shown */
  predicate Counted(c: Cluster)
  {
    Orbiting(c) && c.userData.value.parentSprite.Some? && !c.userData.value.parentSprite.value.isHidden
  }

  /** An orbit angle after `delta` seconds at `speed` radians per second */
  function Turned(angle: real, delta: real, speed: real): real
  {
    angle + delta * speed
  }

  /** One cluster after a frame of `delta` seconds: its orbit angle advances
      by `delta * orbitSpeed`, and nothing else changes. */
  function Advance(c: Cluster, delta: real): (r: Cluster)
    ensures Orbiting(r) <==> Orbiting(c)
    ensures Counted(r) <==> Counted(c)
    ensures !Orbiting(c) ==> r == c
    ensures Orbiting(c) ==>
      var (old_, new_) := (c.userData.value, r.userData.value);
      new_.orbitAngle.value == Turned(old_.orbitAngle.value, delta, old_.orbitSpeed) &&
      new_.orbitSpeed == old_.orbitSpeed && new_.parentSprite == old_.parentSprite
  {
    if Orbiting(c) then
      var d := c.userData.value;
      Cluster(Some(d.(orbitAngle := Some(Turned(d.orbitAngle.value, delta, d.orbitSpeed)))))
    else c
  }

  /** Every cluster of a list after a frame */
  function AdvanceAll(clusters: seq<Cluster>, delta: real): (r: seq<Cluster>)
    ensures |r| == |clusters|
    ensures forall i :: 0 <= i < |r| ==> r[i] == Advance(clusters[i], delta)
  {
    if clusters == [] then []
    else AdvanceAll(clusters[..|clusters| - 1], delta) + [Advance(clusters[|clusters| - 1], delta)]
  }

  function AdvanceGroup(g: Group, delta: real): (r: Group)
  {
    match g
    case None => None
    case Some(clusters) => Some(AdvanceAll(clusters, delta))
  }

  /** How many clusters of a list are counted */
  function CountIn(clusters: seq<Cluster>): (n: nat)
    ensures n <= |clusters|
  {
    if clusters == [] then 0
    else CountIn(clusters[..|clusters| - 1]) + if Counted(clusters[|clusters| - 1]) then 1 else 0
  }

  function GroupCount(g: Group): nat
  {
    if g.None? then 0 else CountIn(g.value)
  }

  function GroupSize(g: Group): nat
  {
    if g.None? then 0 else |g.value|
  }

  /** How many clusters of all groups are counted */
  function CountAll(groups: seq<Group>): (n: nat)
  {
    if groups == [] then 0 else CountAll(groups[..|groups| - 1]) + GroupCount(groups[|groups| - 1])
  }

  function TotalClusters(groups: seq<Group>): nat
  {
    if groups == [] then 0 else TotalClusters(groups[..|groups| - 1]) + GroupSize(groups[|groups| - 1])
  }

  /** The count never exceeds the number of clusters in the groups. */
  lemma {:induction false} CountAllBounded(groups: seq<Group>)
    ensures CountAll(groups) <= TotalClusters(groups)
  {
    if groups != [] {
      CountAllBounded(groups[..|groups| - 1]);
    }
  }

  /** Advancing the orbits does not change which clusters are counted, so
      the count reported on the next frame is the same. */
  lemma {:induction false} CountInAdvance(clusters: seq<Cluster>, delta: real)
    ensures CountIn(AdvanceAll(clusters, delta)) == CountIn(clusters)
  {
    if clusters != [] {
      var n := |clusters| - 1;
      CountInAdvance(clusters[..n], delta);
      var advanced := AdvanceAll(clusters, delta);
      assert advanced[..n] == AdvanceAll(clusters[..n], delta);
    }
  }

  /** Every group after a frame */
  function AdvanceGroups(groups: seq<Group>, delta: real): (r: seq<Group>)
    ensures |r| == |groups|
    ensures forall i :: 0 <= i < |r| ==> r[i] == AdvanceGroup(groups[i], delta)
  {
    if groups == [] then []
    else AdvanceGroups(groups[..|groups| - 1], delta) + [AdvanceGroup(groups[|groups| - 1], delta)]
  }

  lemma {:induction false} CountAllAdvance(groups: seq<Group>, delta: real)
    ensures CountAll(AdvanceGroups(groups, delta)) == CountAll(groups)
  {
    if groups != [] {
      var n := |groups| - 1;
      CountAllAdvance(groups[..n], delta);
      var advanced := AdvanceGroups(groups, delta);
      assert advanced[..n] == AdvanceGroups(groups[..n], delta);
      if groups[n].Some? {
        CountInAdvance(groups[n].value, delta);
      }
    }
  }

  /** Every how many frames the update reports its count */
  const ReportInterval: nat := 120

  /** `updateLevel2Clusters(delta)`: the groups after the frame, the number
      of clusters counted, and whether the count is reported */
  method UpdateLevel2Clusters(level2Groups: seq<Group>, delta: real, frameCounter: nat)
    returns (groups: seq<Group>, updatedClusters: nat, reported: bool)
    ensures groups == AdvanceGroups(level2Groups, delta)
    ensures updatedClusters == CountAll(level2Groups)
    ensures reported <==> frameCounter % ReportInterval == 0
  {
    updatedClusters := 0;
    groups := [];
    for g := 0 to |level2Groups|
      invariant |groups| == g
      invariant forall i :: 0 <= i < g ==> groups[i] == AdvanceGroup(level2Groups[i], delta)
      invariant updatedClusters == CountAll(level2Groups[..g])
    {
      assert level2Groups[..g + 1][..g] == level2Groups[..g];
      var group := level2Groups[g];
      if group.Some? {
        var clusters := group.value;
        var advanced: seq<Cluster> := [];
        var counted := 0;
        for c := 0 to |clusters|
          invariant |advanced| == c
          invariant forall i :: 0 <= i < c ==> advanced[i] == Advance(clusters[i], delta)
          invariant counted == CountIn(clusters[..c])
        {
          assert clusters[..c + 1][..c] == clusters[..c];
          var cluster := clusters[c];
          if cluster.userData.Some? && cluster.userData.value.orbitAngle.Some? {
            var data := cluster.userData.value;
            cluster := Cluster(Some(data.(orbitAngle := Some(Turned(data.orbitAngle.value, delta, data.orbitSpeed)))));
            var parentSprite := data.parentSprite;
            if parentSprite.Some? && !parentSprite.value.isHidden {
              counted := counted + 1;
            }
          }
          advanced := advanced + [cluster];
        }
        assert clusters[..|clusters|] == clusters;
        assert advanced == AdvanceAll(clusters, delta);
        updatedClusters := updatedClusters + counted;
        groups := groups + [Some(advanced)];
      } else {
        groups := groups + [None];
      }
    }
    assert level2Groups[..|level2Groups|] == level2Groups;
    assert groups == AdvanceGroups(level2Groups, delta);
    reported := frameCounter % ReportInterval == 0;
  }

  /** The jetpack copy: re-enables at the reactivation level or above and
      never touches the movement speed */
  const V19Jetpack: JetpackConfig := StandardConfig(AtThreshold, None)
  const V19InitialSpeed: real := 400.0
  const V19FuelBands: BandRule := FromBottom(20.0, 50.0)
  const V19FuelPalette: Palette := Palette("#ff3333", "#ffaa33", "#22cc22")

  /** This copy's step: fuel stays within the 250-unit tank, the speed is
      left alone, and a disabled jetpack comes back once refilled to 25
      units or more. The meter is green on a full tank, red on an empty one. */
  lemma V19JetpackStep(s: JetpackState, shiftKeyPressed: bool, delta: real)
    requires Inv(V19Jetpack, s) && delta >= 0.0
    ensures var t := Next(V19Jetpack, s, shiftKeyPressed, delta);
      Inv(V19Jetpack, t) && 0.0 <= t.fuel <= 250.0 && t.movementSpeed == s.movementSpeed &&
      (!s.enabled ==> (t.enabled <==> t.fuel >= 25.0))
    ensures MeterColour(V19Jetpack, V19FuelBands, V19FuelPalette, V19Jetpack.maxFuel) == "#22cc22"
    ensures MeterColour(V19Jetpack, V19FuelBands, V19FuelPalette, 0.0) == "#ff3333"
  {
    NextInv(V19Jetpack, s, shiftKeyPressed, delta);
    SpeedRule(V19Jetpack, s, shiftKeyPressed, delta);
    if !s.enabled {
      ReenableRule(V19Jetpack, s, shiftKeyPressed, delta);
    }
    BandExtremes(V19FuelBands);
  }
  /** Frames between two periodic checks */
  const LogInterval: nat := 30
}
