/** The download driver: choose the layer, then for the east band and the
    west band plan the sub-boxes and fetch them; a failed or empty band is
    skipped, the run fails only when no band contributed, and the merged
    features pass through the Fiji filter. */
module WfsDownload {
  import opened Wrappers
  import opened Geometry
  import opened SubBoxPlan
  import opened LayerChoice
  import opened BandFetch
  import opened FijiFilter

  /** The features a band outcome keeps: none when the band failed. */
  function BandFeatures(o: BandOutcome): seq<Feature> {
    if o.Gathered? then o.features else []
  }

  function AllBandFeatures(outcomes: seq<BandOutcome>): seq<seq<Feature>> {
    seq(|outcomes|, k requires 0 <= k < |outcomes| => BandFeatures(outcomes[k]))
  }

  /** The feature lists of the bands that produced data, in band order. */
  function Contributions(outcomes: seq<BandOutcome>): seq<seq<Feature>>
    decreases |outcomes|
  {
    if |outcomes| == 0 then []
    else
      var last := outcomes[|outcomes| - 1];
      Contributions(outcomes[..|outcomes| - 1]) +
        (if last.Gathered? && |last.features| > 0 then [last.features] else [])
  }

  ghost predicate Barren(o: BandOutcome) {
    o.BandFailed? || |o.features| == 0
  }

  /** Combining fails, with NoData, exactly when every band failed or came
      back empty; otherwise it is all surviving bands' features in band order,
      a failed band's partial features being discarded. */
  function CombineBands(outcomes: seq<BandOutcome>): (r: Result<seq<Feature>, DownloadError>)
    ensures r.Failure? <==> forall k :: 0 <= k < |outcomes| ==> Barren(outcomes[k])
    ensures r.Failure? ==> r.error == NoData
    ensures r.Success? ==> r.value == Flatten(AllBandFeatures(outcomes))
  {
    ContributionsSpec(outcomes);
    if |Contributions(outcomes)| == 0 then Failure(NoData)
    else Success(Flatten(Contributions(outcomes)))
  }

  lemma {:induction false} ContributionsSpec(outcomes: seq<BandOutcome>)
    ensures |Contributions(outcomes)| == 0 <==> forall k :: 0 <= k < |outcomes| ==> Barren(outcomes[k])
    ensures Flatten(Contributions(outcomes)) ==
      Flatten(AllBandFeatures(outcomes))
    decreases |outcomes|
  {
    var all := AllBandFeatures(outcomes);
    if |outcomes| > 0 {
      var n := |outcomes|;
      var init, last := outcomes[..n - 1], outcomes[n - 1];
      ContributionsSpec(init);
      var allInit := AllBandFeatures(init);
      assert all == allInit + [BandFeatures(last)];
      FlattenSnoc(allInit, BandFeatures(last));
      var extra := if last.Gathered? && |last.features| > 0 then [last.features] else [];
      if extra == [] {
        assert Contributions(outcomes) == Contributions(init);
        assert Flatten(allInit) + BandFeatures(last) == Flatten(allInit);
      } else {
        FlattenSnoc(Contributions(init), last.features);
      }
      if forall k :: 0 <= k < |init| ==> Barren(init[k]) {
        if Barren(last) {
          forall k | 0 <= k < n ensures Barren(outcomes[k]) {
            if k < n - 1 { assert outcomes[k] == init[k]; }
          }
        }
      } else {
        var k :| 0 <= k < |init| && !Barren(init[k]);
        assert outcomes[k] == init[k];
      }
    } else {
      assert all == [];
    }
  }

  /** The outcomes of the east and west band for `layer`, in the source's
      order. */
  function BandOutcomes(layer: string, fetch: (string, Box) -> FetchOutcome): seq<BandOutcome> {
    [Collect(layer, Plan(EastBox(), East), fetch), Collect(layer, Plan(WestBox(), West), fetch)]
  }

  /** The whole download, as a value. */
  function Download(layerName: Option<string>, discovered: seq<string>,
                    fetch: (string, Box) -> FetchOutcome): Result<seq<Feature>, DownloadError>
  {
    match ChooseLayer(layerName, discovered)
    case Failure(e) => Failure(e)
    case Success(layer) =>
      match CombineBands(BandOutcomes(layer, fetch))
      case Failure(e) => Failure(e)
      case Success(fs) => Success(FilterFiji(fs))
  }

  /** Runs the source's band loop: each band is planned and fetched; a failed
      band and an empty band are skipped with `continue`. */
  method DownloadFromWfs(layerName: Option<string>, discovered: seq<string>,
                         fetch: (string, Box) -> FetchOutcome)
    returns (r: Result<seq<Feature>, DownloadError>)
    ensures r == Download(layerName, discovered, fetch)
  {
    var chosen := ChooseLayer(layerName, discovered);
    if chosen.Failure? {
      return Failure(chosen.error);
    }
    var layer := chosen.value;
    var (bboxEast, bboxWest) := FijiBoxes();
    var bands := [(bboxEast, East), (bboxWest, West)];
    ghost var outcomes := BandOutcomes(layer, fetch);
    var gdfs: seq<seq<Feature>> := [];
    for i := 0 to |bands|
      invariant gdfs == Contributions(outcomes[..i])
    {
      assert outcomes[..i + 1][..i] == outcomes[..i];
      var (bbox, band) := bands[i];
      var subBoxes := PlanSubBoxes(bbox, band);
      var outcome := FoldBatches(layer, subBoxes, fetch);
      assert outcome == outcomes[i];
      if outcome.BandFailed? {
        continue;
      }
      if |outcome.features| == 0 {
        continue;
      }
      gdfs := gdfs + [outcome.features];
    }
    assert outcomes[..|bands|] == outcomes;
    if |gdfs| == 0 {
      return Failure(NoData);
    }
    var combined := Flatten(gdfs);
    r := Success(FilterFiji(combined));
  }

  /** The download fails exactly when no layer can be chosen (NoLayerList) or
      when both bands failed or came back empty (NoData); on success it is the
      Fiji filter applied to the east band's features followed by the west
      band's. */
  lemma DownloadSpec(layerName: Option<string>, discovered: seq<string>,
                     fetch: (string, Box) -> FetchOutcome)
    ensures var r := Download(layerName, discovered, fetch);
      && (r == Failure(NoLayerList) <==> layerName.None? && |discovered| == 0)
      && (r == Failure(NoData) <==>
            ChooseLayer(layerName, discovered).Success? &&
            var layer := ChooseLayer(layerName, discovered).value;
            Barren(BandOutcomes(layer, fetch)[0]) && Barren(BandOutcomes(layer, fetch)[1]))
      && (r.Success? ==>
            var layer := ChooseLayer(layerName, discovered).value;
            r.value == FilterFiji(BandFeatures(BandOutcomes(layer, fetch)[0]) +
                                  BandFeatures(BandOutcomes(layer, fetch)[1])))
  {
    var chosen := ChooseLayer(layerName, discovered);
    if chosen.Success? {
      var outcomes := BandOutcomes(chosen.value, fetch);
      var all := AllBandFeatures(outcomes);
      assert all == [BandFeatures(outcomes[0]), BandFeatures(outcomes[1])];
      assert all[1..] == [BandFeatures(outcomes[1])] && all[1..][1..] == [];
      assert Flatten(all[1..]) == BandFeatures(outcomes[1]) + Flatten([]);
      assert Flatten(all) == BandFeatures(outcomes[0]) + BandFeatures(outcomes[1]);
      if CombineBands(outcomes).Success? {
        assert Download(layerName, discovered, fetch) == Success(FilterFiji(CombineBands(outcomes).value));
      }
    }
  }

  /** When every request fails, the download fails with NoData (given a
      layer). */
  lemma AllRequestsFailing(layerName: Option<string>, discovered: seq<string>,
                           fetch: (string, Box) -> FetchOutcome)
    requires layerName.Some? || |discovered| > 0
    requires forall layer, b :: fetch(layer, b).RequestFailed?
    ensures Download(layerName, discovered, fetch) == Failure(NoData)
  {
    var layer := ChooseLayer(layerName, discovered).value;
    var (east, west) := FijiBoxes();
    PlanLength(east, East);
    PlanLength(west, West);
    CollectFailsIff(layer, Plan(east, East), fetch);
    CollectFailsIff(layer, Plan(west, West), fetch);
    assert fetch(layer, Plan(east, East)[0]).RequestFailed?;
    assert fetch(layer, Plan(west, West)[0]).RequestFailed?;
    DownloadSpec(layerName, discovered, fetch);
  }

  /** The features of `universe` a bounding-box query for `b` returns. */
  function Within(universe: seq<Feature>, b: Box): seq<Feature>
    decreases |universe|
  {
    if |universe| == 0 then []
    else (if Intersects(universe[0].extent, b) then [universe[0]] else []) + Within(universe[1..], b)
  }

  /** A service that answers every bounding-box query with exactly the
      features of `universe` that intersect the box, never failing; on the
      sub-boxes the download requests (the configured east and west plans)
      it holds fewer features than the cap, so none of those answers is
      truncated. The universe as a whole may be far larger than the cap. */
  ghost predicate Honest(fetch: (string, Box) -> FetchOutcome, universe: seq<Feature>) {
    && (forall layer, b :: fetch(layer, b) == Fetched(Response(Some(Within(universe, b)), None)))
    && (forall b :: b in Plan(EastBox(), East) || b in Plan(WestBox(), West) ==>
          |Within(universe, b)| < Cap)
  }

  /** A building footprint strictly inside the Suva cell
      [178.4, 178.5] x [-18.2, -18.1]. */
  function SuvaBuilding(): Feature { Feature(1, Box(178.45, -18.15, 178.45, -18.15)) }

  lemma WithinOne(f: Feature, b: Box)
    ensures Within([f], b) == if Intersects(f.extent, b) then [f] else []
  {
    assert [f][1..] == [];
  }

  /** The configured east plan, written out. */
  lemma EastPlanExplicit()
    ensures Plan(EastBox(), East) ==
      [Box(178.3, -18.2, 178.4, -18.1), Box(178.3, -18.1, 178.4, -18.0),
       Box(178.4, -18.2, 178.5, -18.1), Box(178.4, -18.1, 178.5, -18.0),
       Box(177.0, -20.0, 178.5, -17.5), Box(177.0, -17.5, 178.5, -15.0),
       Box(178.5, -20.0, 180.0, -17.5), Box(178.5, -17.5, 180.0, -15.0)]
  {
    ConfiguredPlans();
    QuadrantsExplicit(EastBox());
    assert SuvaGrid() == [Box(178.3, -18.2, 178.4, -18.1), Box(178.3, -18.1, 178.4, -18.0),
                          Box(178.4, -18.2, 178.5, -18.1), Box(178.4, -18.1, 178.5, -18.0)];
  }

  lemma SuvaBuildingAnswers(layer: string, fetch: (string, Box) -> FetchOutcome, b: Box)
    requires Honest(fetch, [SuvaBuilding()])
    ensures BatchOf(fetch(layer, b)) ==
              if Intersects(SuvaBuilding().extent, b) then [SuvaBuilding()] else []
  {
    WithinOne(SuvaBuilding(), b);
  }

  /** Of the eight east boxes, only the third Suva cell and the first
      quadrant meet the Suva building. */
  lemma EastBoxesMeetingSuvaBuilding()
    ensures |Plan(EastBox(), East)| == 8
    ensures forall k :: 0 <= k < 8 ==>
              (Intersects(SuvaBuilding().extent, Plan(EastBox(), East)[k]) <==> k == 2 || k == 4)
  {
    EastPlanExplicit();
  }

  lemma {:induction false} EastBatchesForSuvaBuilding(layer: string, fetch: (string, Box) -> FetchOutcome)
    requires Honest(fetch, [SuvaBuilding()])
    ensures Batches(layer, Plan(EastBox(), East), fetch) ==
              [[], [], [SuvaBuilding()], [], [SuvaBuilding()], [], [], []]
  {
    var plan := Plan(EastBox(), East);
    EastBoxesMeetingSuvaBuilding();
    var bs := Batches(layer, plan, fetch);
    forall k | 0 <= k < 8
      ensures bs[k] == if k == 2 || k == 4 then [SuvaBuilding()] else []
    {
      SuvaBuildingAnswers(layer, fetch, plan[k]);
    }
  }

  lemma {:induction false} WestBatchesForSuvaBuilding(layer: string, fetch: (string, Box) -> FetchOutcome)
    requires Honest(fetch, [SuvaBuilding()])
    ensures Batches(layer, Plan(WestBox(), West), fetch) == [[], [], [], []]
  {
    WestPlanIsQuadrants(WestBox());
    QuadrantsExplicit(WestBox());
    var plan := Plan(WestBox(), West);
    SuvaBuildingAnswers(layer, fetch, plan[0]);
    SuvaBuildingAnswers(layer, fetch, plan[1]);
    SuvaBuildingAnswers(layer, fetch, plan[2]);
    SuvaBuildingAnswers(layer, fetch, plan[3]);
  }

  lemma FlattenSuvaBatches(f: Feature)
    ensures Flatten([[], [], [f], [], [f], [], [], []]) == [f, f]
    ensures Flatten([[], [], [], []]) == []
  {
    var bs: seq<seq<Feature>> := [[], [], [f], [], [f], [], [], []];
    assert Flatten(bs[7..]) == [] && Flatten(bs[6..]) == [] && Flatten(bs[5..]) == [];
    assert Flatten(bs[4..]) == [f] && Flatten(bs[3..]) == [f] && Flatten(bs[2..]) == [f, f];
    assert Flatten(bs[1..]) == [f, f];
    var ws: seq<seq<Feature>> := [[], [], [], []];
    assert Flatten(ws[3..]) == [] && Flatten(ws[2..]) == [] && Flatten(ws[1..]) == [];
  }

  /** Under an honest service no request fails, so each band gathers the
      concatenation of its batches. */
  lemma HonestBandGathers(layer: string, plan: seq<Box>, fetch: (string, Box) -> FetchOutcome,
                          universe: seq<Feature>)
    requires Honest(fetch, universe)
    ensures Collect(layer, plan, fetch).Gathered?
    ensures Collect(layer, plan, fetch).features == Flatten(Batches(layer, plan, fetch))
  {
    CollectFailsIff(layer, plan, fetch);
    CollectFeatures(layer, plan, fetch);
  }

  lemma CombinedSuvaBuilding(layer: string, fetch: (string, Box) -> FetchOutcome)
    requires Honest(fetch, [SuvaBuilding()])
    ensures CombineBands(BandOutcomes(layer, fetch)) == Success([SuvaBuilding(), SuvaBuilding()])
  {
    var f := SuvaBuilding();
    var outcomes := BandOutcomes(layer, fetch);
    HonestBandGathers(layer, Plan(EastBox(), East), fetch, [f]);
    HonestBandGathers(layer, Plan(WestBox(), West), fetch, [f]);
    EastBatchesForSuvaBuilding(layer, fetch);
    WestBatchesForSuvaBuilding(layer, fetch);
    FlattenSuvaBatches(f);
    assert outcomes[0].features == [f, f] && outcomes[1].features == [];
    CombineEastOnly(outcomes[0], outcomes[1]);
  }

  lemma CombineEastOnly(east: BandOutcome, west: BandOutcome)
    requires east.Gathered? && west.Gathered? && west.features == []
    requires |east.features| > 0
    ensures CombineBands([east, west]) == Success(east.features)
  {
    var outcomes := [east, west];
    assert outcomes[..1][..0] == [];
    assert Contributions(outcomes[..1]) == [east.features];
    assert outcomes[..2][..1] == outcomes[..1] && outcomes[..2] == outcomes;
    assert Contributions(outcomes) == [east.features];
    assert [east.features][1..] == [];
    var empty: seq<seq<Feature>> := [];
    assert Flatten([east.features]) == east.features + Flatten(empty);
    assert Flatten(empty) == [] && east.features + [] == east.features;
  }

  /** A concrete instance of `SuvaInteriorReturnedTwice`: a service holding
      only the example building is answered both by its Suva cell and by the
      first east quadrant, so the building appears twice in the output. */
  lemma SuvaBuildingReturnedTwice(layer: string, fetch: (string, Box) -> FetchOutcome)
    requires Honest(fetch, [SuvaBuilding()])
    ensures Download(Some(layer), [], fetch) == Success([SuvaBuilding(), SuvaBuilding()])
  {
    var f := SuvaBuilding();
    CombinedSuvaBuilding(layer, fetch);
    assert ChooseLayer(Some(layer), []) == Success(layer);
    assert InFiji(f) && [f, f][1..] == [f] && [f][1..] == [];
    assert FilterFiji([f, f]) == [f, f];
  }

  /** An honest answer holds each feature of the universe as often as the
      universe does when the feature meets the box, and never otherwise. */
  lemma {:induction false} WithinCount(universe: seq<Feature>, b: Box, f: Feature)
    ensures multiset(Within(universe, b))[f] ==
              if Intersects(f.extent, b) then multiset(universe)[f] else 0
    decreases |universe|
  {
    if |universe| > 0 {
      WithinCount(universe[1..], b, f);
      assert universe == [universe[0]] + universe[1..];
    }
  }

  /** How many boxes of `plan` meet the extent `e`. */
  function Hits(plan: seq<Box>, e: Box): nat
    decreases |plan|
  {
    if |plan| == 0 then 0
    else (if Intersects(e, plan[0]) then 1 else 0) + Hits(plan[1..], e)
  }

  /** The honest answers to every box of `plan`, in plan order. */
  function Answers(universe: seq<Feature>, plan: seq<Box>): seq<seq<Feature>> {
    seq(|plan|, k requires 0 <= k < |plan| => Within(universe, plan[k]))
  }

  lemma HonestBatches(layer: string, plan: seq<Box>, fetch: (string, Box) -> FetchOutcome,
                      universe: seq<Feature>)
    requires Honest(fetch, universe)
    ensures Batches(layer, plan, fetch) == Answers(universe, plan)
  {
    forall k | 0 <= k < |plan|
      ensures Batches(layer, plan, fetch)[k] == Answers(universe, plan)[k]
    {
      assert fetch(layer, plan[k]) == Fetched(Response(Some(Within(universe, plan[k])), None));
    }
  }

  /** `m` copies for every box of `plan` that meets `e`. */
  function Copies(plan: seq<Box>, e: Box, m: nat): nat
    decreases |plan|
  {
    if |plan| == 0 then 0
    else (if Intersects(e, plan[0]) then m else 0) + Copies(plan[1..], e, m)
  }

  lemma {:induction false} CopiesIsProduct(plan: seq<Box>, e: Box, m: nat)
    ensures Copies(plan, e, m) == Hits(plan, e) * m
    decreases |plan|
  {
    if |plan| > 0 {
      CopiesIsProduct(plan[1..], e, m);
      var here := if Intersects(e, plan[0]) then 1 else 0;
      assert (here + Hits(plan[1..], e)) * m == here * m + Hits(plan[1..], e) * m;
    }
  }

  /** The honest answers hold each feature once per planned box that its
      footprint meets. */
  lemma {:induction false} AnswersCount(universe: seq<Feature>, plan: seq<Box>, f: Feature)
    ensures multiset(Flatten(Answers(universe, plan)))[f] == Copies(plan, f.extent, multiset(universe)[f])
    decreases |plan|
  {
    if |plan| > 0 {
      var bs, rest := Answers(universe, plan), Answers(universe, plan[1..]);
      var first := Within(universe, plan[0]);
      assert bs[1..] == rest && bs[0] == first;
      assert Flatten(bs) == first + Flatten(rest);
      assert multiset(Flatten(bs))[f] == multiset(first)[f] + multiset(Flatten(rest))[f];
      AnswersCount(universe, plan[1..], f);
      WithinCount(universe, plan[0], f);
    }
  }

  /** Under an honest service a band returns each feature once per planned
      box that its footprint meets. */
  lemma HonestCount(layer: string, plan: seq<Box>, fetch: (string, Box) -> FetchOutcome,
                    universe: seq<Feature>, f: Feature)
    requires Honest(fetch, universe)
    ensures multiset(Flatten(Batches(layer, plan, fetch)))[f] == Hits(plan, f.extent) * multiset(universe)[f]
  {
    HonestBatches(layer, plan, fetch, universe);
    AnswersCount(universe, plan, f);
    CopiesIsProduct(plan, f.extent, multiset(universe)[f]);
  }

  /** The extent `e` lies strictly inside `cell`, touching none of its edges. */
  predicate InsideCellInterior(cell: Box, e: Box) {
    cell.minLon < e.minLon <= e.maxLon < cell.maxLon &&
    cell.minLat < e.minLat <= e.maxLat < cell.maxLat
  }

  /** A footprint strictly inside a Suva cell meets exactly two east boxes:
      its cell and the first quadrant. */
  lemma SuvaInteriorEastHits(e: Box, c: nat)
    requires c < 4 && InsideCellInterior(SuvaGrid()[c], e)
    ensures Hits(Plan(EastBox(), East), e) == 2
  {
    var east := Plan(EastBox(), East);
    EastPlanExplicit();
    assert SuvaGrid() == east[..4];
    assert Hits(east[7..], e) == 0 && Hits(east[6..], e) == 0 && Hits(east[5..], e) == 0;
    assert Hits(east[4..], e) == 1;
    assert Hits(east[3..], e) == (if c == 3 then 2 else 1);
    assert Hits(east[2..], e) == (if c >= 2 then 2 else 1);
    assert Hits(east[1..], e) == (if c >= 1 then 2 else 1);
  }

  /** A footprint east of longitude 178 meets no west box. */
  lemma EastOf178WestHits(e: Box)
    requires e.minLon > 178.0
    ensures Hits(Plan(WestBox(), West), e) == 0
  {
    var west := Plan(WestBox(), West);
    WestPlanIsQuadrants(WestBox());
    QuadrantsExplicit(WestBox());
    assert Hits(west[3..], e) == 0;
    assert Hits(west[2..], e) == 0;
    assert Hits(west[1..], e) == 0;
  }

  /** Under an honest service a band gathers each feature once per planned
      box that its footprint meets. */
  lemma HonestBandCount(layer: string, plan: seq<Box>, fetch: (string, Box) -> FetchOutcome,
                        universe: seq<Feature>, f: Feature)
    requires Honest(fetch, universe)
    ensures Collect(layer, plan, fetch).Gathered?
    ensures multiset(Collect(layer, plan, fetch).features)[f] == Hits(plan, f.extent) * multiset(universe)[f]
  {
    HonestBandGathers(layer, plan, fetch, universe);
    HonestCount(layer, plan, fetch, universe, f);
  }

  /** Under an honest service the east band holds a building strictly
      inside a Suva cell twice per stored copy. */
  lemma SuvaInteriorEastCount(layer: string, fetch: (string, Box) -> FetchOutcome,
                              universe: seq<Feature>, f: Feature, c: nat)
    requires Honest(fetch, universe)
    requires c < 4 && InsideCellInterior(SuvaGrid()[c], f.extent)
    ensures Collect(layer, Plan(EastBox(), East), fetch).Gathered?
    ensures multiset(Collect(layer, Plan(EastBox(), East), fetch).features)[f] == 2 * multiset(universe)[f]
  {
    HonestBandCount(layer, Plan(EastBox(), East), fetch, universe, f);
    SuvaInteriorHits(f.extent, c);
  }

  /** Under an honest service the west band never holds a building strictly
      inside a Suva cell. */
  lemma SuvaInteriorWestCount(layer: string, fetch: (string, Box) -> FetchOutcome,
                              universe: seq<Feature>, f: Feature, c: nat)
    requires Honest(fetch, universe)
    requires c < 4 && InsideCellInterior(SuvaGrid()[c], f.extent)
    ensures Collect(layer, Plan(WestBox(), West), fetch).Gathered?
    ensures multiset(Collect(layer, Plan(WestBox(), West), fetch).features)[f] == 0
  {
    var west := Plan(WestBox(), West);
    HonestBandCount(layer, west, fetch, universe, f);
    SuvaInteriorHits(f.extent, c);
    assert Hits(west, f.extent) * multiset(universe)[f] == 0 * multiset(universe)[f] == 0;
  }

  lemma SuvaInteriorHits(e: Box, c: nat)
    requires c < 4 && InsideCellInterior(SuvaGrid()[c], e)
    ensures Hits(Plan(EastBox(), East), e) == 2
    ensures Hits(Plan(WestBox(), West), e) == 0
  {
    SuvaInteriorEastHits(e, c);
    assert SuvaGrid()[c].minLon >= 178.3;
    EastOf178WestHits(e);
  }

  /** A footprint inside a Suva cell meets the east box of Fiji. */
  lemma SuvaInteriorInFiji(f: Feature, c: nat)
    requires c < 4 && InsideCellInterior(SuvaGrid()[c], f.extent)
    ensures InFiji(f)
  {
    assert SuvaGrid()[c].minLon >= 178.3 && SuvaGrid()[c].maxLon <= 178.5;
    assert SuvaGrid()[c].minLat >= -18.2 && SuvaGrid()[c].maxLat <= -18.0;
  }

  /** For a service that answers every requested box exactly, without
      failing or truncating, a building strictly inside a Suva cell is
      returned twice for every time it is stored: once through its Suva cell
      and once through the first east quadrant. The download succeeds as soon
      as the service holds it. */
  lemma SuvaInteriorReturnedTwice(layer: string, fetch: (string, Box) -> FetchOutcome,
                                  universe: seq<Feature>, f: Feature, c: nat)
    requires Honest(fetch, universe)
    requires c < 4 && InsideCellInterior(SuvaGrid()[c], f.extent)
    ensures f in universe ==> Download(Some(layer), [], fetch).Success?
    ensures Download(Some(layer), [], fetch).Success? ==>
              multiset(Download(Some(layer), [], fetch).value)[f] == 2 * multiset(universe)[f]
  {
    var outcomes := BandOutcomes(layer, fetch);
    SuvaInteriorEastCount(layer, fetch, universe, f, c);
    SuvaInteriorWestCount(layer, fetch, universe, f, c);
    var eastFs, westFs := outcomes[0].features, outcomes[1].features;
    assert ChooseLayer(Some(layer), []) == Success(layer);
    DownloadSpec(Some(layer), [], fetch);
    if f in universe {
      assert f in eastFs;
    }
    var r := Download(Some(layer), [], fetch);
    if r.Success? {
      var combined := eastFs + westFs;
      assert r.value == FilterFiji(combined);
      assert multiset(combined)[f] == 2 * multiset(universe)[f];
      SuvaInteriorInFiji(f, c);
      FilterCounts(combined, f);
    }
  }
}
