/** The sub-box plan of one longitude band: the dense Suva window cut into a
    2x2 grid first (east band only), then a 2x2 bisection of the band whose
    quadrants are dropped only when an already planned box contains them. */
module SubBoxPlan {
  import opened Geometry

  // Grid lines of the Suva window, in the source's order.
  const SuvaLons: seq<real> := [178.3, 178.4, 178.5]
  const SuvaLats: seq<real> := [-18.2, -18.1, -18.0]

  function SuvaWindow(): Box { Box(178.3, -18.2, 178.5, -18.0) }

  /** The inline test that decides whether the Suva grid opens the plan. */
  predicate SuvaApplies(b: Box, band: Band) {
    band == East && b.minLon <= 178.5 && b.maxLon >= 178.3 &&
    b.minLat <= -18.0 && b.maxLat >= -18.2
  }

  function SuvaCell(i: nat, j: nat): Box
    requires i < 2 && j < 2
  {
    Box(SuvaLons[i], SuvaLats[j], SuvaLons[i + 1], SuvaLats[j + 1])
  }

  /** The four Suva cells, longitude index outer and latitude index inner. */
  function SuvaGrid(): seq<Box> {
    [SuvaCell(0, 0), SuvaCell(0, 1), SuvaCell(1, 0), SuvaCell(1, 1)]
  }

  /** Quadrant (i, j) of the halved band; the upper halves end at the band's
      own maxima rather than at min + 2 * step. */
  function Quadrant(b: Box, i: nat, j: nat): Box
    requires i < 2 && j < 2
  {
    var lonStep := (b.maxLon - b.minLon) / 2.0;
    var latStep := (b.maxLat - b.minLat) / 2.0;
    Box(b.minLon + i as real * lonStep, b.minLat + j as real * latStep,
        if i < 1 then b.minLon + (i + 1) as real * lonStep else b.maxLon,
        if j < 1 then b.minLat + (j + 1) as real * latStep else b.maxLat)
  }

  /** The four quadrants in the order (lo,lo), (lo,hi), (hi,lo), (hi,hi). */
  function Quadrants(b: Box): seq<Box> {
    [Quadrant(b, 0, 0), Quadrant(b, 0, 1), Quadrant(b, 1, 0), Quadrant(b, 1, 1)]
  }

  /** Position 2 * i + j of a 2x2 grid listed longitude index outer. */
  lemma GridIndex(i: nat, j: nat)
    requires i < 2 && j < 2
    ensures 2 * i + j < 4
    ensures forall b: Box :: Quadrants(b)[2 * i + j] == Quadrant(b, i, j)
    ensures SuvaGrid()[2 * i + j] == SuvaCell(i, j)
  {
  }

  /** Some box of `boxes` contains `q`. */
  predicate Covered(q: Box, boxes: seq<Box>) {
    exists k :: 0 <= k < |boxes| && ContainsBox(boxes[k], q)
  }

  /** One quadrant step: in the east band a quadrant already contained in a
      planned box is skipped; otherwise it is appended. */
  function Step(acc: seq<Box>, q: Box, band: Band): seq<Box> {
    if band == East && Covered(q, acc) then acc else acc + [q]
  }

  function AddQuadrants(acc: seq<Box>, qs: seq<Box>, band: Band): seq<Box>
    decreases |qs|
  {
    if |qs| == 0 then acc
    else Step(AddQuadrants(acc, qs[..|qs| - 1], band), qs[|qs| - 1], band)
  }

  function Prefix(b: Box, band: Band): seq<Box> {
    if SuvaApplies(b, band) then SuvaGrid() else []
  }

  /** The plan the download loop fetches for band `b`. */
  function Plan(b: Box, band: Band): seq<Box> {
    AddQuadrants(Prefix(b, band), Quadrants(b), band)
  }

  /** Scans the boxes planned so far and stops at the first one that
      contains `q`: the source's inner `for ... break` loop. */
  method ContainedInPlanned(q: Box, planned: seq<Box>) returns (found: bool)
    ensures found == Covered(q, planned)
  {
    found := false;
    for k := 0 to |planned|
      invariant forall m :: 0 <= m < k ==> !ContainsBox(planned[m], q)
    {
      var s := planned[k];
      if q.minLon >= s.minLon && q.maxLon <= s.maxLon && q.minLat >= s.minLat && q.maxLat <= s.maxLat {
        found := true;
        break;
      }
    }
  }

  /** The Suva cells, emitted by nested loops over the grid lines. */
  method SuvaSubBoxes() returns (cells: seq<Box>)
    ensures cells == SuvaGrid()
  {
    cells := [];
    for i := 0 to 2
      invariant cells == SuvaGrid()[..2 * i]
    {
      for j := 0 to 2
        invariant cells == SuvaGrid()[..2 * i + j]
      {
        assert SuvaGrid()[2 * i + j] == SuvaCell(i, j) by { GridIndex(i, j); }
        cells := cells + [Box(SuvaLons[i], SuvaLats[j], SuvaLons[i + 1], SuvaLats[j + 1])];
      }
    }
  }

  /** Appends quadrant `q` unless, in the east band, a planned box already
      contains it. */
  method AddQuadrant(planned: seq<Box>, q: Box, band: Band) returns (next: seq<Box>)
    ensures next == Step(planned, q, band)
  {
    var isSuvaSubbox := false;
    if band == East {
      isSuvaSubbox := ContainedInPlanned(q, planned);
    }
    next := planned;
    if !isSuvaSubbox {
      next := next + [q];
    }
  }

  /** Builds the plan with the source's nested loops. */
  method PlanSubBoxes(bbox: Box, band: Band) returns (subBoxes: seq<Box>)
    ensures subBoxes == Plan(bbox, band)
  {
    var minLon, minLat, maxLon, maxLat := bbox.minLon, bbox.minLat, bbox.maxLon, bbox.maxLat;
    subBoxes := [];
    if band == East && minLon <= 178.5 && maxLon >= 178.3 && minLat <= -18.0 && maxLat >= -18.2 {
      subBoxes := SuvaSubBoxes();
    }
    ghost var prefix := subBoxes;
    assert prefix == Prefix(bbox, band);
    var lonStep := (maxLon - minLon) / 2.0;
    var latStep := (maxLat - minLat) / 2.0;
    for i := 0 to 2
      invariant subBoxes == AddQuadrants(prefix, Quadrants(bbox)[..2 * i], band)
    {
      for j := 0 to 2
        invariant subBoxes == AddQuadrants(prefix, Quadrants(bbox)[..2 * i + j], band)
      {
        var subMinLon := minLon + i as real * lonStep;
        var subMaxLon := if i < 1 then minLon + (i + 1) as real * lonStep else maxLon;
        var subMinLat := minLat + j as real * latStep;
        var subMaxLat := if j < 1 then minLat + (j + 1) as real * latStep else maxLat;
        var q := Box(subMinLon, subMinLat, subMaxLon, subMaxLat);
        assert q == Quadrants(bbox)[2 * i + j] by { GridIndex(i, j); }
        ghost var done := Quadrants(bbox)[..2 * i + j + 1];
        assert done[..2 * i + j] == Quadrants(bbox)[..2 * i + j];
        subBoxes := AddQuadrant(subBoxes, q, band);
      }
    }
    assert Quadrants(bbox)[..4] == Quadrants(bbox);
  }

  /** The quadrants of the plan that survive the exclusion test against the
      fixed list `cells` (a reference definition of the quadrant part of the
      plan). */
  function Kept(qs: seq<Box>, band: Band, cells: seq<Box>): seq<Box>
    decreases |qs|
  {
    if |qs| == 0 then []
    else Kept(qs[..|qs| - 1], band, cells) +
         (if band == East && Covered(qs[|qs| - 1], cells) then [] else [qs[|qs| - 1]])
  }

  function Mid(lo: real, hi: real): real { lo + (hi - lo) / 2.0 }

  lemma QuadrantsExplicit(b: Box)
    ensures Quadrants(b) ==
      [Box(b.minLon, b.minLat, Mid(b.minLon, b.maxLon), Mid(b.minLat, b.maxLat)),
       Box(b.minLon, Mid(b.minLat, b.maxLat), Mid(b.minLon, b.maxLon), b.maxLat),
       Box(Mid(b.minLon, b.maxLon), b.minLat, b.maxLon, Mid(b.minLat, b.maxLat)),
       Box(Mid(b.minLon, b.maxLon), Mid(b.minLat, b.maxLat), b.maxLon, b.maxLat)]
  {
    var lonMid, latMid := Mid(b.minLon, b.maxLon), Mid(b.minLat, b.maxLat);
    assert Quadrant(b, 0, 0) == Box(b.minLon, b.minLat, lonMid, latMid);
    assert Quadrant(b, 0, 1) == Box(b.minLon, latMid, lonMid, b.maxLat);
    assert Quadrant(b, 1, 0) == Box(lonMid, b.minLat, b.maxLon, latMid);
    assert Quadrant(b, 1, 1) == Box(lonMid, latMid, b.maxLon, b.maxLat);
  }

  /** The Suva test is the closed overlap of the band with the Suva window,
      restricted to the east band. */
  lemma SuvaAppliesIffOverlap(b: Box, band: Band)
    ensures SuvaApplies(b, band) <==> band == East && Intersects(b, SuvaWindow())
  {
  }

  /** The four Suva cells tile the Suva window exactly. */
  lemma SuvaGridTilesWindow()
    ensures |SuvaGrid()| == 4 && Tiles(SuvaGrid(), SuvaWindow())
  {
    var g := SuvaGrid();
    assert g == [Box(178.3, -18.2, 178.4, -18.1), Box(178.3, -18.1, 178.4, -18.0),
                 Box(178.4, -18.2, 178.5, -18.1), Box(178.4, -18.1, 178.5, -18.0)];
    forall lon, lat | ContainsPoint(SuvaWindow(), lon, lat)
      ensures exists k :: 0 <= k < |g| && ContainsPoint(g[k], lon, lat)
    {
      var k := (if lon <= 178.4 then 0 else 2) + (if lat <= -18.1 then 0 else 1);
      assert ContainsPoint(g[k], lon, lat);
    }
  }

  /** Bisecting a well-formed band tiles it exactly. */
  lemma QuadrantsTile(b: Box)
    requires WellFormed(b)
    ensures |Quadrants(b)| == 4 && Tiles(Quadrants(b), b)
  {
    QuadrantsExplicit(b);
    var q := Quadrants(b);
    forall lon, lat | ContainsPoint(b, lon, lat)
      ensures exists k :: 0 <= k < |q| && ContainsPoint(q[k], lon, lat)
    {
      QuadrantsCover(b, lon, lat);
    }
  }

  /** Every point of a band, well-formed or not, lies in one of its quadrants. */
  lemma QuadrantsCover(b: Box, lon: real, lat: real)
    requires ContainsPoint(b, lon, lat)
    ensures exists k :: 0 <= k < 4 && ContainsPoint(Quadrants(b)[k], lon, lat)
  {
    QuadrantsExplicit(b);
    var k := (if lon <= Mid(b.minLon, b.maxLon) then 0 else 2) +
             (if lat <= Mid(b.minLat, b.maxLat) then 0 else 1);
    assert ContainsPoint(Quadrants(b)[k], lon, lat);
  }

  /** In a well-formed band no quadrant contains another. */
  lemma QuadrantsNotNested(b: Box)
    requires WellFormed(b)
    ensures forall k, l :: 0 <= k < 4 && 0 <= l < 4 && k != l ==>
              !ContainsBox(Quadrants(b)[k], Quadrants(b)[l])
  {
    QuadrantsExplicit(b);
  }

  lemma {:induction false} KeptFrom(qs: seq<Box>, band: Band, cells: seq<Box>)
    ensures |Kept(qs, band, cells)| <= |qs|
    ensures forall x :: x in Kept(qs, band, cells) ==> x in qs
    decreases |qs|
  {
    if |qs| > 0 {
      var init := qs[..|qs| - 1];
      KeptFrom(init, band, cells);
      assert forall x :: x in init ==> x in qs;
    }
  }

  /** Exactly the quadrants that no box of `cells` contains survive (in the
      east band); in the west band every quadrant survives. */
  lemma {:induction false} KeptMembers(qs: seq<Box>, band: Band, cells: seq<Box>, q: Box)
    ensures q in Kept(qs, band, cells) <==> q in qs && !(band == East && Covered(q, cells))
    decreases |qs|
  {
    if |qs| > 0 {
      var init := qs[..|qs| - 1];
      KeptMembers(init, band, cells, q);
      assert qs == init + [qs[|qs| - 1]];
    }
  }

  lemma {:induction false} KeptWithoutCells(qs: seq<Box>, band: Band)
    ensures Kept(qs, band, []) == qs
    decreases |qs|
  {
    if |qs| > 0 {
      KeptWithoutCells(qs[..|qs| - 1], band);
      assert qs == qs[..|qs| - 1] + [qs[|qs| - 1]];
    }
  }

  /** When no quadrant contains a later one, the quadrant steps never see the
      quadrants already added: the plan is the prefix followed by the
      quadrants that no prefix box contains. */
  lemma {:induction false} AddQuadrantsSplit(acc: seq<Box>, qs: seq<Box>, band: Band)
    requires forall k, l :: 0 <= k < l < |qs| ==> !ContainsBox(qs[k], qs[l])
    ensures AddQuadrants(acc, qs, band) == acc + Kept(qs, band, acc)
    decreases |qs|
  {
    if |qs| > 0 {
      var n := |qs|;
      var init, last := qs[..n - 1], qs[n - 1];
      AddQuadrantsSplit(acc, init, band);
      var k := Kept(init, band, acc);
      KeptFrom(init, band, acc);
      forall m | |acc| <= m < |acc + k|
        ensures !ContainsBox((acc + k)[m], last)
      {
        assert (acc + k)[m] == k[m - |acc|] && k[m - |acc|] in init;
      }
      if Covered(last, acc + k) {
        var m :| 0 <= m < |acc + k| && ContainsBox((acc + k)[m], last);
        assert (acc + k)[m] == acc[m];
      }
      if Covered(last, acc) {
        var m :| 0 <= m < |acc| && ContainsBox(acc[m], last);
        assert (acc + k)[m] == acc[m];
      }
      assert qs[..n - 1] == init;
      assert AddQuadrants(acc, qs, band) == Step(acc + k, last, band);
      assert acc + k + [last] == acc + (k + [last]);
    }
  }

  /** For a well-formed band the plan is the Suva prefix (when it applies)
      followed by the quadrants not inside any Suva cell, in quadrant order. */
  lemma PlanIsPrefixThenKept(b: Box, band: Band)
    requires WellFormed(b)
    ensures Plan(b, band) == Prefix(b, band) + Kept(Quadrants(b), band, Prefix(b, band))
  {
    QuadrantsNotNested(b);
    AddQuadrantsSplit(Prefix(b, band), Quadrants(b), band);
  }

  /** The west band never runs the exclusion test: its plan is its four
      quadrants, whatever the box. */
  lemma WestPlanIsQuadrants(b: Box)
    ensures Plan(b, West) == Quadrants(b)
  {
    AddQuadrantsWest([], Quadrants(b));
  }

  lemma {:induction false} AddQuadrantsWest(acc: seq<Box>, qs: seq<Box>)
    ensures AddQuadrants(acc, qs, West) == acc + qs
    decreases |qs|
  {
    if |qs| > 0 {
      AddQuadrantsWest(acc, qs[..|qs| - 1]);
      assert qs == qs[..|qs| - 1] + [qs[|qs| - 1]];
    }
  }

  /** A well-formed band is planned as 4 to 8 boxes; the west band as exactly
      its 4 quadrants. */
  lemma PlanLength(b: Box, band: Band)
    requires WellFormed(b)
    ensures 4 <= |Plan(b, band)| <= 8
    ensures band == West ==> |Plan(b, band)| == 4
  {
    PlanIsPrefixThenKept(b, band);
    var p := Prefix(b, band);
    KeptFrom(Quadrants(b), band, p);
    if !SuvaApplies(b, band) {
      KeptWithoutCells(Quadrants(b), band);
    }
  }

  /** A quadrant of a well-formed band is left out of the plan exactly when
      the east band's Suva grid was emitted and one Suva cell contains all of
      its bounds; a partial overlap never drops it. */
  lemma QuadrantDroppedIffInsideSuvaCell(b: Box, band: Band, k: nat)
    requires WellFormed(b) && k < 4
    ensures |Prefix(b, band)| <= |Plan(b, band)|
    ensures Quadrants(b)[k] !in Plan(b, band)[|Prefix(b, band)|..] <==>
              SuvaApplies(b, band) && exists c :: 0 <= c < 4 && ContainsBox(SuvaGrid()[c], Quadrants(b)[k])
  {
    var p := Prefix(b, band);
    PlanIsPrefixThenKept(b, band);
    assert Plan(b, band)[|p|..] == Kept(Quadrants(b), band, p);
    KeptMembers(Quadrants(b), band, p, Quadrants(b)[k]);
  }

  /** The prefix of the plan is kept, and every quadrant lies inside some box
      of the plan (the quadrant itself or a box that made it redundant). */
  lemma {:induction false} AddQuadrantsCovers(acc: seq<Box>, qs: seq<Box>, band: Band)
    ensures |AddQuadrants(acc, qs, band)| >= |acc|
    ensures AddQuadrants(acc, qs, band)[..|acc|] == acc
    ensures forall k :: 0 <= k < |qs| ==> Covered(qs[k], AddQuadrants(acc, qs, band))
    decreases |qs|
  {
    if |qs| > 0 {
      var n := |qs|;
      var init, last := qs[..n - 1], qs[n - 1];
      AddQuadrantsCovers(acc, init, band);
      var before := AddQuadrants(acc, init, band);
      var after := AddQuadrants(acc, qs, band);
      assert after == Step(before, last, band);
      assert after[..|before|] == before;
      forall k | 0 <= k < n
        ensures Covered(qs[k], after)
      {
        if k < n - 1 {
          assert qs[k] == init[k];
          var m :| 0 <= m < |before| && ContainsBox(before[m], qs[k]);
          assert after[m] == before[m];
        } else if after == before {
          var m :| 0 <= m < |before| && ContainsBox(before[m], last);
        } else {
          assert after[|before|] == last;
        }
      }
    }
  }

  /** Every point of the band lies in some box of its plan. */
  lemma PlanCoversBand(b: Box, band: Band, lon: real, lat: real)
    requires ContainsPoint(b, lon, lat)
    ensures exists m :: 0 <= m < |Plan(b, band)| && ContainsPoint(Plan(b, band)[m], lon, lat)
  {
    QuadrantsCover(b, lon, lat);
    var k :| 0 <= k < 4 && ContainsPoint(Quadrants(b)[k], lon, lat);
    AddQuadrantsCovers(Prefix(b, band), Quadrants(b), band);
    var m :| 0 <= m < |Plan(b, band)| && ContainsBox(Plan(b, band)[m], Quadrants(b)[k]);
  }

  /** For the configured east band the Suva grid opens the plan and all four
      quadrants survive, so the Suva window is requested a second time as part
      of the first quadrant; the configured west band is its four quadrants. */
  lemma ConfiguredPlans()
    ensures Plan(EastBox(), East) == SuvaGrid() + Quadrants(EastBox())
    ensures |Plan(EastBox(), East)| == 8
    ensures ContainsBox(Plan(EastBox(), East)[4], SuvaWindow())
    ensures Plan(WestBox(), West) == Quadrants(WestBox()) && |Plan(WestBox(), West)| == 4
  {
    var e := EastBox();
    QuadrantsExplicit(e);
    PlanIsPrefixThenKept(e, East);
    assert SuvaApplies(e, East);
    var g := SuvaGrid();
    assert g == [Box(178.3, -18.2, 178.4, -18.1), Box(178.3, -18.1, 178.4, -18.0),
                 Box(178.4, -18.2, 178.5, -18.1), Box(178.4, -18.1, 178.5, -18.0)];
    forall k | 0 <= k < 4
      ensures !Covered(Quadrants(e)[k], g)
    {
    }
    KeptNoneCovered(Quadrants(e), East, g);
    WestPlanIsQuadrants(WestBox());
  }

  lemma {:induction false} KeptNoneCovered(qs: seq<Box>, band: Band, cells: seq<Box>)
    requires forall k :: 0 <= k < |qs| ==> !Covered(qs[k], cells)
    ensures Kept(qs, band, cells) == qs
    decreases |qs|
  {
    if |qs| > 0 {
      KeptNoneCovered(qs[..|qs| - 1], band, cells);
      assert qs == qs[..|qs| - 1] + [qs[|qs| - 1]];
    }
  }

  lemma {:induction false} AddQuadrantsFrom(acc: seq<Box>, qs: seq<Box>, band: Band)
    ensures forall x :: x in AddQuadrants(acc, qs, band) ==> x in acc || x in qs
    decreases |qs|
  {
    if |qs| > 0 {
      var init := qs[..|qs| - 1];
      AddQuadrantsFrom(acc, init, band);
      assert forall x :: x in init ==> x in qs;
    }
  }

  /** When the Suva test holds the plan opens with the four Suva cells;
      otherwise every planned box is one of the band's quadrants. */
  lemma PlanOpening(b: Box, band: Band)
    ensures SuvaApplies(b, band) ==> |Plan(b, band)| >= 4 && Plan(b, band)[..4] == SuvaGrid()
    ensures !SuvaApplies(b, band) ==> forall x :: x in Plan(b, band) ==> x in Quadrants(b)
  {
    AddQuadrantsCovers(Prefix(b, band), Quadrants(b), band);
    AddQuadrantsFrom(Prefix(b, band), Quadrants(b), band);
  }

  /** No box occurs twice in `s`. */
  predicate Distinct(s: seq<Box>) {
    forall i, j :: 0 <= i < j < |s| ==> s[i] != s[j]
  }

  /** The four quadrants of a well-formed band are four different boxes. */
  lemma QuadrantsDistinct(b: Box)
    requires WellFormed(b)
    ensures Distinct(Quadrants(b))
  {
    QuadrantsNotNested(b);
  }

  /** Filtering a list of different quadrants keeps them different. */
  lemma {:induction false} KeptDistinct(qs: seq<Box>, band: Band, cells: seq<Box>)
    requires Distinct(qs)
    ensures Distinct(Kept(qs, band, cells))
    decreases |qs|
  {
    if |qs| > 0 {
      var n := |qs|;
      var init, last := qs[..n - 1], qs[n - 1];
      KeptDistinct(init, band, cells);
      KeptFrom(init, band, cells);
      assert last !in init by {
        forall m | 0 <= m < n - 1 ensures init[m] != last {
          assert init[m] == qs[m];
        }
      }
    }
  }

  /** A well-formed band's plan requests no box twice: the Suva cells differ
      from one another, the quadrants differ from one another, and a
      quadrant equal to a Suva cell would be contained in it and so dropped. */
  lemma PlanDistinct(b: Box, band: Band)
    requires WellFormed(b)
    ensures Distinct(Plan(b, band))
  {
    var p := Prefix(b, band);
    var k := Kept(Quadrants(b), band, p);
    PlanIsPrefixThenKept(b, band);
    QuadrantsDistinct(b);
    KeptDistinct(Quadrants(b), band, p);
    assert Distinct(p) by {
      if SuvaApplies(b, band) {
        assert p == [Box(178.3, -18.2, 178.4, -18.1), Box(178.3, -18.1, 178.4, -18.0),
                     Box(178.4, -18.2, 178.5, -18.1), Box(178.4, -18.1, 178.5, -18.0)];
      }
    }
    forall i, j | 0 <= i < |p| <= j < |p + k|
      ensures (p + k)[i] != (p + k)[j]
    {
      var q := k[j - |p|];
      assert (p + k)[j] == q && (p + k)[i] == p[i];
      KeptMembers(Quadrants(b), band, p, q);
      assert SuvaApplies(b, band) ==> band == East && ContainsBox(p[i], p[i]);
    }
  }
}
