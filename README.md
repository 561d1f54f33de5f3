# Fiji building retrieval: sub-box planner and aggregator

A Dafny model of the retrieval core of `extract_fiji_buildings.py`, the script
that extracts building footprints for Fiji from the GlobalBuildingAtlas
feature service. Fiji straddles the antimeridian, so the area is handled as
two longitude bands: east (177..180) and west (-180..-178), both over
latitudes -20..-15. Each band goes through the same steps:

* **Plan.** The band is cut into sub-boxes (`SubBoxPlan`). In the east band a
  2x2 grid over the dense Suva window comes first. A 2x2 bisection of the band
  follows. In the east band a quadrant is dropped when a box already in the
  plan contains all of its bounds.
* **Fetch.** Every sub-box is requested in plan order (`BandFetch`).
  Features are appended without deduplication. The first reported
  `numberMatched` is kept. A batch of exactly 100000 features (the service
  cap) is flagged as saturated. One failed request abandons the whole band.
* **Combine.** A failed or empty band is skipped (`WfsDownload`). The run
  fails with `NoData` only when no band produced data.
* **Filter.** The merged features pass through the Fiji filter
  (`FijiFilter`). A feature is kept when it intersects the east box or the
  west box.

The layer to query is chosen first (`LayerChoice`). An explicit name is used
as given. Otherwise the discovered layers are searched for the first name
whose lower-cased form contains `building` or `lod`, falling back to the first
layer. An empty discovery list is an error.

Modules, one file each: `Wrappers` (Option, Result, the two fatal errors),
`Geometry` (boxes, features, the configured area), `SubBoxPlan`,
`LayerChoice`, `BandFetch`, `FijiFilter`, `WfsDownload`.

The network is a parameter. `fetch: (string, Box) -> FetchOutcome` is the
service's answer to a request for a layer and a bounding box: a decoded JSON
response, or `RequestFailed`. `RequestFailed` stands for an unreachable
service, a non-2xx status, a body that is not JSON, a JSON body that is not
an object (`'features' in data` or `data.keys()` raises), or a `features`
value that `extend` cannot iterate, such as null or a number (the whole band
then fails). A `features` value that is a string or an object is iterable and
is not modelled: the model's `features` is a list of features or absent. The layer-discovery
query is the parameter `discovered`, which is empty when that query failed.
Each imperative part of the source is a method proved equal to a
specification function: `PlanSubBoxes` = `Plan`, `FoldBatches` = `Collect`,
`DownloadFromWfs` = `Download`. The lemmas state the properties of those
functions.

Behaviour of the code worth knowing, as the model states it:

* The code concatenates batches without deduplication
  (`all_features.extend`, extract_fiji_buildings.py:236). With the configured
  east band the Suva window is requested twice: once through its four cells
  and once through the first quadrant, which the exclusion test at
  extract_fiji_buildings.py:196-206 keeps because no single cell contains it
  (the source's own comment there says a quadrant is added only when it does
  not overlap the Suva sub-boxes). `SuvaInteriorReturnedTwice` proves that,
  for a service that answers every box with all stored features meeting it,
  without failing or truncating at the cap, a building strictly inside a
  Suva cell comes back twice for every stored copy; `SuvaBuildingReturnedTwice` is a
  concrete instance.
* One failed request abandons the band's partial features
  (`CollectFailsIff`); the other band is still fetched.
* Saturation is only logged. The model keeps the indices of saturated
  sub-boxes in the band outcome, and the download result does not carry
  them.

## Model

| member | source | states |
|---|---|---|
| Geometry.FijiBoxes | extract_fiji_buildings.py:33-61 | east box (177,-20,180,-15) and west box (-180,-20,-178,-15); both well-formed, same latitude range, inside [-180,180] (no wrap-around), disjoint |
| SubBoxPlan.PlanSubBoxes | extract_fiji_buildings.py:169-206 | the nested loops build exactly the plan `Plan(bbox, band)`: Suva cells when the Suva test holds, then each quadrant unless (east band) a box already planned contains it |
| SubBoxPlan.SuvaSubBoxes | extract_fiji_buildings.py:177-182 | the nested loops over the grid lines emit exactly the four Suva cells, longitude index outer, which tile the Suva window (`SuvaGridTilesWindow`) |
| SubBoxPlan.AddQuadrant | extract_fiji_buildings.py:196-206 | the new plan is the old one with the quadrant appended, except in the east band when a planned box already contains it, where the plan is unchanged |
| SubBoxPlan.ContainedInPlanned | extract_fiji_buildings.py:197-203 | the scan with `break` answers true iff some already planned box contains every bound of the quadrant |
| SubBoxPlan.SuvaAppliesIffOverlap | extract_fiji_buildings.py:176 | the Suva grid is emitted iff the band is tagged east and closed-overlaps the Suva window [178.3,178.5]x[-18.2,-18.0] |
| SubBoxPlan.SuvaGridTilesWindow | extract_fiji_buildings.py:176-182 | the four Suva cells (longitude outer, latitude inner) tile the Suva window: well-formed, inside it, covering every point, disjoint interiors |
| SubBoxPlan.QuadrantsExplicit | extract_fiji_buildings.py:186-194 | the quadrants come in order (lo,lo),(lo,hi),(hi,lo),(hi,hi), split at the midpoints, the upper ones ending at max_lon/max_lat |
| SubBoxPlan.QuadrantsTile | extract_fiji_buildings.py:186-194 | the four quadrants of a well-formed band tile it exactly with disjoint interiors |
| SubBoxPlan.QuadrantsCover | extract_fiji_buildings.py:186-194 | every point of any band lies in one of its quadrants |
| SubBoxPlan.QuadrantsNotNested | extract_fiji_buildings.py:186-194 | in a well-formed band no quadrant contains another, so the exclusion scan can only be triggered by a Suva cell |
| SubBoxPlan.KeptMembers | extract_fiji_buildings.py:197-206 | a quadrant survives iff it is not (east band and contained in a Suva cell) |
| SubBoxPlan.AddQuadrantsSplit | extract_fiji_buildings.py:197-206 | when no quadrant contains a later one, scanning the growing plan equals scanning only the prefix boxes |
| SubBoxPlan.PlanIsPrefixThenKept | extract_fiji_buildings.py:173-206 | for a well-formed band the plan is the Suva prefix followed by the surviving quadrants, in order |
| SubBoxPlan.PlanOpening | extract_fiji_buildings.py:173-206 | when the Suva test holds the plan opens with the four Suva cells; otherwise it holds only quadrants |
| SubBoxPlan.WestPlanIsQuadrants | extract_fiji_buildings.py:198-206 | the west band never runs the exclusion test: its plan is exactly its four quadrants |
| SubBoxPlan.PlanLength | extract_fiji_buildings.py:173-206 | a well-formed band's plan has between 4 and 8 boxes; the west band's has exactly 4 |
| SubBoxPlan.QuadrantDroppedIffInsideSuvaCell | extract_fiji_buildings.py:197-206 | a quadrant is missing from the quadrant part of the plan iff the Suva grid was emitted and one Suva cell contains it; partial overlap never drops it |
| SubBoxPlan.QuadrantsDistinct | extract_fiji_buildings.py:186-194 | the four quadrants of a well-formed band are four different boxes |
| SubBoxPlan.KeptDistinct | extract_fiji_buildings.py:196-206 | filtering different quadrants keeps them different |
| SubBoxPlan.PlanDistinct | extract_fiji_buildings.py:173-206 | a well-formed band's plan requests no box twice (the exclusion test drops a quadrant equal to a Suva cell) |
| SubBoxPlan.AddQuadrantsCovers | extract_fiji_buildings.py:197-206 | the quadrant steps keep the prefix and leave every quadrant inside some planned box |
| SubBoxPlan.PlanCoversBand | extract_fiji_buildings.py:169-206 | every point of the band lies in some planned box |
| SubBoxPlan.ConfiguredPlans | extract_fiji_buildings.py:160-206 | configured east band: Suva cells then all four quadrants (8 boxes), the first quadrant containing the Suva window again; configured west band: its 4 quadrants |
| LayerChoice.Lower | extract_fiji_buildings.py:146 | lower-casing keeps the length and lowers each character |
| LayerChoice.HasInfixIff | extract_fiji_buildings.py:146 | the substring test holds iff the pattern occurs at some position |
| LayerChoice.FirstBuildingLayer | extract_fiji_buildings.py:146-148 | returns the index of the first layer whose lower-cased name contains "building" or "lod", or none when no layer does |
| LayerChoice.ChooseLayer | extract_fiji_buildings.py:140-152 | explicit name used unchanged; otherwise empty discovery is the NoLayerList error; otherwise the first building-like layer, else layers[0] |
| BandFetch.FoldBatches | extract_fiji_buildings.py:209-247 | the request loop yields exactly `Collect(layer, plan, fetch)`, stopping at the first failed request |
| BandFetch.FailureEndsBand | extract_fiji_buildings.py:212-277 | once a request failed, the band's outcome is failure whatever follows |
| BandFetch.CollectFailsIff | extract_fiji_buildings.py:212-277 | a band fails iff one of its requests fails, and then its partial features are discarded |
| BandFetch.CollectFeatures | extract_fiji_buildings.py:234-241 | a band's features are all batches concatenated in plan order without deduplication; their count is the sum of the batch sizes; a response without `features` adds nothing |
| BandFetch.CollectTotalMatched | extract_fiji_buildings.py:238-239 | the kept match count is the first one reported alongside features, never overwritten |
| BandFetch.CollectSaturated | extract_fiji_buildings.py:243-245 | sub-box k is flagged iff its batch has exactly 100000 features (99999 is not), flags are in plan order, and later sub-boxes are still fetched |
| FijiFilter.FilterFiji | extract_fiji_buildings.py:76-86 | the result is no longer than the input; each kept feature is from the input and intersects the east or west box; each input feature that intersects either box is kept |
| FijiFilter.FilterCounts | extract_fiji_buildings.py:64-90 | each feature intersecting the east or west box keeps all its occurrences; every other feature is dropped |
| FijiFilter.FilterMembers | extract_fiji_buildings.py:82-86 | a feature is in the result iff it is in the input and intersects east or west |
| FijiFilter.FilterIsSubsequence | extract_fiji_buildings.py:86 | the result is a subsequence of the input (order kept) |
| FijiFilter.FilterIdempotent | extract_fiji_buildings.py:64-90 | filtering twice equals filtering once |
| FijiFilter.FilterAppend | extract_fiji_buildings.py:82-86 | filtering distributes over concatenation |
| FijiFilter.FilterOrderOfBoxes | extract_fiji_buildings.py:82-84 | testing the west box first keeps the same features |
| WfsDownload.ContributionsSpec | extract_fiji_buildings.py:249-280 | no band contributes iff every band failed or is empty; the contributions concatenate to all non-failed bands' features |
| WfsDownload.CombineBands | extract_fiji_buildings.py:249-283 | combining fails, with NoData, iff every band failed or came back empty; otherwise it is the non-failed bands' features in band order |
| WfsDownload.DownloadFromWfs | extract_fiji_buildings.py:126-288 | the band loop with `continue` yields exactly `Download(layerName, discovered, fetch)` |
| WfsDownload.DownloadSpec | extract_fiji_buildings.py:140-288 | NoLayerList iff no explicit layer and no discovered layer; NoData iff a layer was chosen and both bands failed or were empty; on success the Fiji filter of east features followed by west features |
| WfsDownload.AllRequestsFailing | extract_fiji_buildings.py:212-280 | when every request fails the download fails with NoData |
| WfsDownload.HonestBandGathers | extract_fiji_buildings.py:212-247 | under a service that answers every box exactly without failing (requested sub-boxes below the cap), a band never fails and gathers its batches concatenated |
| WfsDownload.EastBatchesForSuvaBuilding | extract_fiji_buildings.py:169-247 | example: for a service holding only the point building at (178.45,-18.15), the east batches are that building from the third Suva cell and from the first quadrant, nothing else |
| WfsDownload.CombineEastOnly | extract_fiji_buildings.py:249-283 | with a non-empty east band and an empty west band the combined features are the east band's |
| WfsDownload.SuvaBuildingReturnedTwice | extract_fiji_buildings.py:169-288 | example: a service holding only the point building at (178.45,-18.15) makes the download return it twice |
| WfsDownload.WithinCount | extract_fiji_buildings.py:215-233 | an honest bounding-box answer holds each feature as often as the service does when the feature meets the box, never otherwise |
| WfsDownload.AnswersCount | extract_fiji_buildings.py:212-236 | the honest answers to a plan, concatenated, hold each feature as many times as it is stored for every planned box its footprint meets |
| WfsDownload.HonestCount | extract_fiji_buildings.py:212-236 | under a service that answers every box exactly without failing (requested sub-boxes below the cap), a band's batches hold each feature once per planned box its footprint meets |
| WfsDownload.HonestBandCount | extract_fiji_buildings.py:212-247 | under a service that answers every box exactly without failing (requested sub-boxes below the cap), a band never fails and its features hold each feature once per planned box its footprint meets |
| WfsDownload.SuvaInteriorEastHits | extract_fiji_buildings.py:169-206 | a footprint strictly inside a Suva cell meets exactly two boxes of the configured east plan (its cell and the first quadrant) |
| WfsDownload.EastOf178WestHits | extract_fiji_buildings.py:184-206 | a footprint east of longitude 178 meets no box of the configured west plan |
| WfsDownload.SuvaInteriorHits | extract_fiji_buildings.py:169-206 | a footprint strictly inside a Suva cell meets two east boxes and no west box |
| WfsDownload.SuvaInteriorEastCount | extract_fiji_buildings.py:169-247 | under any service that answers every box exactly without failing (requested sub-boxes below the cap), the east band gathers a building strictly inside a Suva cell twice per stored copy |
| WfsDownload.SuvaInteriorWestCount | extract_fiji_buildings.py:184-247 | under any service that answers every box exactly without failing (requested sub-boxes below the cap), the west band never gathers a building strictly inside a Suva cell |
| WfsDownload.SuvaInteriorInFiji | extract_fiji_buildings.py:76-86 | a footprint inside a Suva cell passes the Fiji filter (it meets the east box) |
| WfsDownload.SuvaInteriorReturnedTwice | extract_fiji_buildings.py:169-288 | for every service that answers each box with all stored features meeting it, never failing and staying below the cap on the requested sub-boxes: if it holds a building strictly inside a Suva cell the download succeeds, and a successful download holds that building exactly twice as often as the service does (no deduplication) |

## Left out

- HTTP requests, `raise_for_status`, JSON decoding and the XML capabilities parse (`get_wfs_layers`): the service is the `fetch` parameter and the discovery result the `discovered` parameter.
- The temporary GeoJSON file, `gpd.read_file`, `pd.concat`, `to_file`: file I/O and geopandas internals. A failure there lands in the same `except` branch as a failed request; the model only lets requests fail.
- Polygon geometry: a feature is its bounding rectangle, and shapely's `intersects` is closed-rectangle overlap (`Geometry.Intersects`).
- Floating point: coordinates are exact reals. With the configured bounds every computed split (178.5, -17.5, -179.0) is exact in binary as well, so the configured plans match. For other bounds, rounding of `min + step` and of the Suva constants is not modelled.
- WfsDownload.SuvaInteriorReturnedTwice: stated only for a service whose answers to the requested sub-boxes (the 8 east and 4 west boxes of the configured plans) stay below the 100000 cap, because a service that truncates at the cap chooses which features to drop, and the source gives no rule for that choice. The total number of stored features is not limited.
- HonestBandGathers: assumes a service that answers every box exactly and never fails, with the requested sub-boxes below the cap (as for `SuvaInteriorReturnedTwice`); a failing service is covered by `CollectFailsIff` instead, a truncating one not at all.
- HonestCount: same assumption as `HonestBandGathers`; the count for a truncating service is not stated, since the source does not say which features a truncated answer drops.
- HonestBandCount: same assumption and reason as `HonestCount`.
- SuvaInteriorEastCount: same assumption and reason as `HonestCount`, for the configured east band.
- SuvaInteriorWestCount: same assumption and reason as `HonestCount`, for the configured west band.
- LayerChoice.Lower: lowers ASCII letters only, whereas Python's `str.lower` applies the full Unicode case mapping. The layer choice is unaffected: the only non-ASCII characters whose lower case contains an ASCII letter are U+0130 (to "i" followed by U+0307) and U+212A (to "k"), and neither can complete "building" or "lod".
- Logging: the saturation and missing-`features` warnings are not printed. The saturated sub-box indices are kept in the band outcome.
- `total_matched` is computed but never used by the source; the model keeps it in the band outcome.
- `process_downloaded_data` and `main` (argument parsing, file globbing, writing the output): input/output glue. Its "no readable file is an error" branch has the same shape as `NoData`, and it reuses the same filter.
- `scripts/defect_density.py`: floating-point unit conversion and CSV handling, unrelated to retrieval.
