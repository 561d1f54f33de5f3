/** Fetching one band: every planned sub-box is requested in plan order and
    the returned features are appended without deduplication; the first
    reported match count is kept; a batch of exactly the service cap is
    flagged as saturated; any failed request abandons the whole band. */
module BandFetch {
  import opened Wrappers
  import opened Geometry

  /** The per-request result cap of the service. */
  const Cap: nat := 100000

  /** A decoded JSON response: `features` is None when the key is absent,
      `numberMatched` is None when that key is absent. */
  datatype Response = Response(features: Option<seq<Feature>>, numberMatched: Option<int>)

  /** The outcome of one request: a decoded response, or a failure (the
      service was unreachable, answered with a non-2xx status, sent a body
      that is not JSON, sent a JSON body that is not an object, or sent a
      `features` value that `extend` cannot iterate, such as null). */
  datatype FetchOutcome = Fetched(response: Response) | RequestFailed

  /** What one band yields: nothing (a request failed), or the concatenated
      features, the first reported match count and the indices of the
      saturated sub-boxes. */
  datatype BandOutcome =
    | BandFailed
    | Gathered(features: seq<Feature>, totalMatched: Option<int>, saturated: seq<nat>)

  /** The features a response contributes. */
  function BatchOf(o: FetchOutcome): seq<Feature> {
    if o.Fetched? && o.response.features.Some? then o.response.features.value else []
  }

  /** Folds the response to sub-box `idx` into the band's running state. */
  function Absorb(state: BandOutcome, idx: nat, o: FetchOutcome): BandOutcome {
    match state
    case BandFailed => BandFailed
    case Gathered(fs, total, sat) =>
      match o
      case RequestFailed => BandFailed
      case Fetched(Response(None, _)) => state
      case Fetched(Response(Some(batch), matched)) =>
        Gathered(fs + batch,
                 if total.None? && matched.Some? then matched else total,
                 if |batch| == Cap then sat + [idx] else sat)
  }

  /** The band outcome after requesting every box of `plan` for `layer`. */
  function Collect(layer: string, plan: seq<Box>, fetch: (string, Box) -> FetchOutcome): BandOutcome
    decreases |plan|
  {
    if |plan| == 0 then Gathered([], None, [])
    else Absorb(Collect(layer, plan[..|plan| - 1], fetch), |plan| - 1, fetch(layer, plan[|plan| - 1]))
  }

  /** Runs the source's request loop; the first failed request ends the band. */
  method FoldBatches(layer: string, plan: seq<Box>, fetch: (string, Box) -> FetchOutcome)
    returns (outcome: BandOutcome)
    ensures outcome == Collect(layer, plan, fetch)
  {
    var allFeatures: seq<Feature> := [];
    var totalMatched: Option<int> := None;
    var saturated: seq<nat> := [];
    var idx := 0;
    while idx < |plan|
      invariant 0 <= idx <= |plan|
      invariant Collect(layer, plan[..idx], fetch) == Gathered(allFeatures, totalMatched, saturated)
    {
      assert plan[..idx + 1][..idx] == plan[..idx];
      var response := fetch(layer, plan[idx]);
      if response.RequestFailed? {
        FailureEndsBand(layer, plan, idx + 1, fetch);
        return BandFailed;
      }
      var data := response.response;
      if data.features.Some? {
        var features := data.features.value;
        allFeatures := allFeatures + features;
        if data.numberMatched.Some? && totalMatched.None? {
          totalMatched := data.numberMatched;
        }
        if |features| == Cap {
          saturated := saturated + [idx];
        }
      }
      idx := idx + 1;
    }
    assert plan[..idx] == plan;
    outcome := Gathered(allFeatures, totalMatched, saturated);
  }

  /** Once a request of the band has failed, the band stays failed. */
  lemma {:induction false} FailureEndsBand(layer: string, plan: seq<Box>, n: nat, fetch: (string, Box) -> FetchOutcome)
    requires n <= |plan| && Collect(layer, plan[..n], fetch) == BandFailed
    ensures Collect(layer, plan, fetch) == BandFailed
    decreases |plan| - n
  {
    if n < |plan| {
      assert plan[..n + 1][..n] == plan[..n];
      FailureEndsBand(layer, plan, n + 1, fetch);
    } else {
      assert plan[..n] == plan;
    }
  }

  /** Concatenation of batches, front to back. */
  function Flatten(batches: seq<seq<Feature>>): seq<Feature>
    decreases |batches|
  {
    if |batches| == 0 then [] else batches[0] + Flatten(batches[1..])
  }

  lemma {:induction false} FlattenSnoc(batches: seq<seq<Feature>>, b: seq<Feature>)
    ensures Flatten(batches + [b]) == Flatten(batches) + b
    decreases |batches|
  {
    if |batches| > 0 {
      assert (batches + [b])[1..] == batches[1..] + [b];
      FlattenSnoc(batches[1..], b);
    }
  }

  lemma {:induction false} FlattenLength(batches: seq<seq<Feature>>)
    ensures |Flatten(batches)| == SumLengths(batches)
    decreases |batches|
  {
    if |batches| > 0 {
      FlattenLength(batches[1..]);
    }
  }

  function SumLengths(batches: seq<seq<Feature>>): nat
    decreases |batches|
  {
    if |batches| == 0 then 0 else |batches[0]| + SumLengths(batches[1..])
  }

  /** The batch each sub-box of the plan answers with, in plan order. */
  function Batches(layer: string, plan: seq<Box>, fetch: (string, Box) -> FetchOutcome): seq<seq<Feature>> {
    seq(|plan|, k requires 0 <= k < |plan| => BatchOf(fetch(layer, plan[k])))
  }

  /** The band fails exactly when one of its requests fails. */
  lemma {:induction false} CollectFailsIff(layer: string, plan: seq<Box>, fetch: (string, Box) -> FetchOutcome)
    ensures Collect(layer, plan, fetch).BandFailed? <==>
              exists k :: 0 <= k < |plan| && fetch(layer, plan[k]).RequestFailed?
    decreases |plan|
  {
    if |plan| > 0 {
      var n := |plan|;
      var init := plan[..n - 1];
      CollectFailsIff(layer, init, fetch);
      if exists k :: 0 <= k < n - 1 && fetch(layer, init[k]).RequestFailed? {
        var k :| 0 <= k < n - 1 && fetch(layer, init[k]).RequestFailed?;
        assert plan[k] == init[k];
      }
      if exists k :: 0 <= k < n && fetch(layer, plan[k]).RequestFailed? {
        var k :| 0 <= k < n && fetch(layer, plan[k]).RequestFailed?;
        if k < n - 1 {
          assert init[k] == plan[k];
        }
      }
    }
  }

  /** Features accumulate in plan order with no deduplication: the band's
      features are all the batches concatenated, and their number is the sum
      of the batch sizes (a saturated batch does not stop later ones). */
  lemma {:induction false} CollectFeatures(layer: string, plan: seq<Box>, fetch: (string, Box) -> FetchOutcome)
    requires Collect(layer, plan, fetch).Gathered?
    ensures Collect(layer, plan, fetch).features == Flatten(Batches(layer, plan, fetch))
    ensures |Collect(layer, plan, fetch).features| == SumLengths(Batches(layer, plan, fetch))
    decreases |plan|
  {
    if |plan| > 0 {
      var n := |plan|;
      var init := plan[..n - 1];
      assert Collect(layer, init, fetch).Gathered?;
      CollectFeatures(layer, init, fetch);
      assert Batches(layer, plan, fetch) == Batches(layer, init, fetch) + [BatchOf(fetch(layer, plan[n - 1]))];
      FlattenSnoc(Batches(layer, init, fetch), BatchOf(fetch(layer, plan[n - 1])));
    }
    FlattenLength(Batches(layer, plan, fetch));
  }

  /** The first match count reported alongside a features list, scanning the
      plan from the front. */
  function FirstReported(layer: string, plan: seq<Box>, fetch: (string, Box) -> FetchOutcome): Option<int>
    decreases |plan|
  {
    if |plan| == 0 then None
    else
      var o := fetch(layer, plan[0]);
      if o.Fetched? && o.response.features.Some? && o.response.numberMatched.Some?
      then o.response.numberMatched
      else FirstReported(layer, plan[1..], fetch)
  }

  lemma {:induction false} FirstReportedSnoc(layer: string, plan: seq<Box>, b: Box, fetch: (string, Box) -> FetchOutcome)
    ensures FirstReported(layer, plan + [b], fetch) ==
      if FirstReported(layer, plan, fetch).Some? then FirstReported(layer, plan, fetch)
      else FirstReported(layer, [b], fetch)
    decreases |plan|
  {
    if |plan| > 0 {
      assert (plan + [b])[1..] == plan[1..] + [b];
      FirstReportedSnoc(layer, plan[1..], b, fetch);
    }
  }

  /** The kept match count is the first one reported; later ones never
      overwrite it. */
  lemma {:induction false} CollectTotalMatched(layer: string, plan: seq<Box>, fetch: (string, Box) -> FetchOutcome)
    requires Collect(layer, plan, fetch).Gathered?
    ensures Collect(layer, plan, fetch).totalMatched == FirstReported(layer, plan, fetch)
    decreases |plan|
  {
    if |plan| > 0 {
      var n := |plan|;
      var init := plan[..n - 1];
      assert Collect(layer, init, fetch).Gathered?;
      CollectTotalMatched(layer, init, fetch);
      assert plan == init + [plan[n - 1]];
      FirstReportedSnoc(layer, init, plan[n - 1], fetch);
    }
  }

  /** Sub-box k is flagged exactly when its batch holds exactly Cap features
      (so 99999 is not flagged), and the flags come in plan order. */
  lemma {:induction false} CollectSaturated(layer: string, plan: seq<Box>, fetch: (string, Box) -> FetchOutcome)
    requires Collect(layer, plan, fetch).Gathered?
    ensures forall k :: k in Collect(layer, plan, fetch).saturated <==>
              0 <= k < |plan| && |BatchOf(fetch(layer, plan[k]))| == Cap
    ensures forall i, j :: 0 <= i < j < |Collect(layer, plan, fetch).saturated| ==>
              Collect(layer, plan, fetch).saturated[i] < Collect(layer, plan, fetch).saturated[j]
    decreases |plan|
  {
    if |plan| > 0 {
      var n := |plan|;
      var init := plan[..n - 1];
      assert Collect(layer, init, fetch).Gathered?;
      CollectSaturated(layer, init, fetch);
      var before := Collect(layer, init, fetch).saturated;
      forall i | 0 <= i < |before| ensures before[i] < n - 1 {
        assert before[i] in before;
      }
      forall k
        ensures k in Collect(layer, plan, fetch).saturated <==>
                0 <= k < n && |BatchOf(fetch(layer, plan[k]))| == Cap
      {
        if 0 <= k < n - 1 {
          assert init[k] == plan[k];
        }
      }
    }
  }
}
