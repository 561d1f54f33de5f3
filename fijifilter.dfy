/** The final spatial filter: a feature is kept when its footprint intersects
    the east box or the west box of Fiji. */
module FijiFilter {
  import opened Geometry

  predicate InFiji(f: Feature) {
    Intersects(f.extent, EastBox()) || Intersects(f.extent, WestBox())
  }

  /** Keeps the features that lie in Fiji, in their original order. */
  function FilterFiji(fs: seq<Feature>): (r: seq<Feature>)
    ensures |r| <= |fs|
    ensures forall k :: 0 <= k < |r| ==> InFiji(r[k]) && r[k] in fs
    ensures forall k :: 0 <= k < |fs| && InFiji(fs[k]) ==> fs[k] in r
    decreases |fs|
  {
    if |fs| == 0 then []
    else (if InFiji(fs[0]) then [fs[0]] else []) + FilterFiji(fs[1..])
  }

  /** The same mask with the west box tested first. */
  function FilterFijiWestFirst(fs: seq<Feature>): seq<Feature>
    decreases |fs|
  {
    if |fs| == 0 then []
    else (if Intersects(fs[0].extent, WestBox()) || Intersects(fs[0].extent, EastBox()) then [fs[0]] else [])
         + FilterFijiWestFirst(fs[1..])
  }

  /** `r` is `s` with some elements removed and the rest in their order. */
  ghost predicate SubsequenceOf(r: seq<Feature>, s: seq<Feature>)
    decreases |s|
  {
    if |r| == 0 then true
    else if |s| == 0 then false
    else (r[0] == s[0] && SubsequenceOf(r[1..], s[1..])) || SubsequenceOf(r, s[1..])
  }

  /** Each feature of Fiji is kept as many times as it occurs, every other
      feature is dropped. */
  lemma {:induction false} FilterCounts(fs: seq<Feature>, f: Feature)
    ensures multiset(FilterFiji(fs))[f] == if InFiji(f) then multiset(fs)[f] else 0
    decreases |fs|
  {
    if |fs| > 0 {
      FilterCounts(fs[1..], f);
      assert fs == [fs[0]] + fs[1..];
    }
  }

  /** A feature is in the result exactly when it is in the input and
      intersects one of the two boxes. */
  lemma FilterMembers(fs: seq<Feature>, f: Feature)
    ensures f in FilterFiji(fs) <==> f in fs && InFiji(f)
  {
    FilterCounts(fs, f);
  }

  /** The result keeps the input's order. */
  lemma {:induction false} FilterIsSubsequence(fs: seq<Feature>)
    ensures SubsequenceOf(FilterFiji(fs), fs)
    decreases |fs|
  {
    if |fs| > 0 {
      FilterIsSubsequence(fs[1..]);
      if InFiji(fs[0]) {
        assert FilterFiji(fs)[1..] == FilterFiji(fs[1..]);
      } else {
        assert FilterFiji(fs) == FilterFiji(fs[1..]);
      }
    }
  }

  /** Filtering an already filtered collection changes nothing. */
  lemma {:induction false} FilterIdempotent(fs: seq<Feature>)
    ensures FilterFiji(FilterFiji(fs)) == FilterFiji(fs)
    decreases |fs|
  {
    if |fs| > 0 {
      FilterIdempotent(fs[1..]);
      FilterAppend(if InFiji(fs[0]) then [fs[0]] else [], FilterFiji(fs[1..]));
      if InFiji(fs[0]) {
        assert FilterFiji([fs[0]]) == [fs[0]];
      }
    }
  }

  /** Filtering distributes over concatenation. */
  lemma {:induction false} FilterAppend(a: seq<Feature>, b: seq<Feature>)
    ensures FilterFiji(a + b) == FilterFiji(a) + FilterFiji(b)
    decreases |a|
  {
    if |a| > 0 {
      assert (a + b)[1..] == a[1..] + b;
      FilterAppend(a[1..], b);
    } else {
      assert a + b == b;
    }
  }

  /** Whichever box is tested first, the same features are kept. */
  lemma {:induction false} FilterOrderOfBoxes(fs: seq<Feature>)
    ensures FilterFijiWestFirst(fs) == FilterFiji(fs)
    decreases |fs|
  {
    if |fs| > 0 {
      FilterOrderOfBoxes(fs[1..]);
    }
  }
}
