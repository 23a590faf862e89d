/** The two endpoints of the estimation service: `/predict` assembles the
    per-detection report, `/compare` re-prices the new damage found between
    two photographs. Upload decoding and image encoding are not modelled:
    the endpoints receive decoded images and return the annotated images
    as they are. */
module Api {
  import opened Wrappers
  import opened MlServices

  // ---------------------------------------------------------------------
  // /predict
  // ---------------------------------------------------------------------

  /** One element of the `detections` list of the response. */
  datatype DetectionEntry = DetectionEntry(
    className: string,
    confidence: Option<real>,
    eachCostUsd: Option<real>)

  datatype PredictResponse = PredictResponse(
    classes: seq<string>,
    detections: seq<DetectionEntry>,
    counts: Counts,
    perClassCosts: map<string, ClassCost>,
    totals: Totals,
    annotatedImage: Image)

  /** The unit cost looked up for a normalised key: present exactly when the
      key has an entry and that entry has a `min_each` value. */
  function MinEachFor(perClassCosts: map<string, ClassCost>, key: string): (r: Option<real>)
    ensures r.Some? <==> key in perClassCosts && perClassCosts[key].minEach.Some?
    ensures r.Some? ==> r == perClassCosts[key].minEach
  {
    if key in perClassCosts then perClassCosts[key].minEach else None
  }

  /** The confidence reported for detection `idx`: present exactly when the
      detector gave a confidence list longer than `idx`; an absent list
      reads as an empty one. */
  function ConfidenceAt(confidences: Option<seq<real>>, idx: nat): (r: Option<real>)
    ensures r.Some? ==> confidences.Some? && idx < |confidences.value| && r.value == confidences.value[idx]
    ensures r.None? ==> confidences.None? || |confidences.value| <= idx
  {
    var confList := if confidences.Some? then confidences.value else [];
    if idx < |confList| then Some(confList[idx]) else None
  }

  /** The loop that builds `dets`: one entry per detected label, in the
      detector's order, carrying the label unchanged, the confidence at the
      same index and the unit cost of the label's normalised key. */
  method AssembleDetections(
    classes: seq<string>,
    confidences: Option<seq<real>>,
    perClassCosts: map<string, ClassCost>,
    normalize: string -> string)
    returns (dets: seq<DetectionEntry>)
    ensures |dets| == |classes|
    ensures forall i :: 0 <= i < |dets| ==> dets[i].className == classes[i]
    ensures forall i :: 0 <= i < |dets| ==> dets[i].confidence == ConfidenceAt(confidences, i)
    ensures forall i :: 0 <= i < |dets| ==>
      dets[i].eachCostUsd == MinEachFor(perClassCosts, normalize(classes[i]))
    ensures forall i, j ::
      0 <= i < |dets| && 0 <= j < |dets| && normalize(classes[i]) == normalize(classes[j]) ==>
        dets[i].eachCostUsd == dets[j].eachCostUsd
  {
    dets := [];
    for idx := 0 to |classes|
      invariant |dets| == idx
      invariant forall i :: 0 <= i < idx ==>
        dets[i] == DetectionEntry(classes[i], ConfidenceAt(confidences, i), MinEachFor(perClassCosts, normalize(classes[i])))
    {
      var cls := classes[idx];
      var norm := normalize(cls);
      var each := MinEachFor(perClassCosts, norm);
      var confList := if confidences.Some? then confidences.value else [];
      var confidence := if idx < |confList| then Some(confList[idx]) else None;
      dets := dets + [DetectionEntry(cls, confidence, each)];
    }
  }

  /** `/predict`: detect, price the detected labels for the requested vehicle
      type, and report them together with one entry per detection. */
  method Predict(s: Services, image: Image, prices: PriceMap, vehicleType: Option<string>)
    returns (resp: PredictResponse)
    ensures var det := s.detectFromNumpy(image);
      var summary := s.aggregateCostsForClasses(det.classes, prices, vehicleType, None);
      && resp.classes == det.classes
      && resp.counts == summary.counts
      && resp.perClassCosts == summary.perClassCosts
      && resp.totals == summary.totals
      && resp.annotatedImage == det.annotatedImage
      && |resp.detections| == |det.classes|
      && forall i :: 0 <= i < |det.classes| ==>
           resp.detections[i] == DetectionEntry(det.classes[i], ConfidenceAt(det.confidences, i),
             MinEachFor(summary.perClassCosts, s.normalizeClassKey(det.classes[i])))
  {
    var det := s.detectFromNumpy(image);
    var costSummary := s.aggregateCostsForClasses(det.classes, prices, vehicleType, None);
    var dets := AssembleDetections(det.classes, det.confidences, costSummary.perClassCosts, s.normalizeClassKey);
    resp := PredictResponse(det.classes, dets, costSummary.counts, costSummary.perClassCosts,
      costSummary.totals, det.annotatedImage);
  }

  // ---------------------------------------------------------------------
  // /compare: expanding the new-damage counts back into a flat list
  // ---------------------------------------------------------------------

  /** How many copies `[cls] * n` makes: none when `n` is not positive. */
  function Positive(n: int): nat
  {
    if n > 0 then n else 0
  }

  /** `[cls] * n`. */
  function Repeat(cls: string, n: int): (r: seq<string>)
    ensures |r| == Positive(n)
    ensures forall i :: 0 <= i < |r| ==> r[i] == cls
  {
    if n <= 0 then [] else Repeat(cls, n - 1) + [cls]
  }

  /** The list that extending by `[cls] * n`, for each item of the dict in
      iteration order, builds. */
  function Expanded(d: seq<(string, int)>): seq<string>
  {
    if |d| == 0 then [] else Expanded(d[..|d| - 1]) + Repeat(d[|d| - 1].0, d[|d| - 1].1)
  }

  /** The sum of the (non-negative parts of the) counts. */
  function TotalCount(d: seq<(string, int)>): nat
  {
    if |d| == 0 then 0 else TotalCount(d[..|d| - 1]) + Positive(d[|d| - 1].1)
  }

  lemma ExpandedStep(d: seq<(string, int)>, p: nat)
    requires p < |d|
    ensures Expanded(d[..p + 1]) == Expanded(d[..p]) + Repeat(d[p].0, d[p].1)
  {
    assert d[..p + 1][..p] == d[..p];
  }

  /** Expanding a prefix of the dict gives a prefix of the expansion. */
  lemma {:induction false} ExpandedPrefix(d: seq<(string, int)>, q: nat)
    requires q <= |d|
    ensures Expanded(d[..q]) <= Expanded(d)
  {
    if q < |d| {
      var n := |d|;
      assert d[..n - 1][..q] == d[..q];
      ExpandedPrefix(d[..n - 1], q);
    } else {
      assert d[..q] == d;
    }
  }

  /** The expansion is as long as the sum of the counts. */
  lemma {:induction false} ExpandedLength(d: seq<(string, int)>)
    ensures |Expanded(d)| == TotalCount(d)
  {
    if |d| > 0 {
      ExpandedLength(d[..|d| - 1]);
    }
  }

  lemma {:induction false} RepeatMultiplicity(cls: string, n: int, c: string)
    ensures multiset(Repeat(cls, n))[c] == if c == cls then Positive(n) else 0
  {
    if n > 0 {
      RepeatMultiplicity(cls, n - 1, c);
    }
  }

  /** A label that is not a key of the dict never appears in the expansion. */
  lemma {:induction false} ExpandedOnlyKeys(d: seq<(string, int)>, c: string)
    requires forall p :: 0 <= p < |d| ==> d[p].0 != c
    ensures multiset(Expanded(d))[c] == 0
    ensures c !in Expanded(d)
  {
    if |d| > 0 {
      var n := |d|;
      ExpandedOnlyKeys(d[..n - 1], c);
      RepeatMultiplicity(d[n - 1].0, d[n - 1].1, c);
    }
  }

  /** Each key appears exactly as many times as its count says (none for a
      count of zero or less). */
  lemma {:induction false} ExpandedMultiplicity(d: seq<(string, int)>, p: nat)
    requires DistinctKeys(d)
    requires p < |d|
    ensures multiset(Expanded(d))[d[p].0] == Positive(d[p].1)
  {
    var n := |d|;
    var prefix := d[..n - 1];
    assert d[..n - 1] == prefix;
    assert multiset(Expanded(d)) == multiset(Expanded(prefix)) + multiset(Repeat(d[n - 1].0, d[n - 1].1));
    RepeatMultiplicity(d[n - 1].0, d[n - 1].1, d[p].0);
    if p == n - 1 {
      ExpandedOnlyKeys(prefix, d[p].0);
    } else {
      ExpandedMultiplicity(prefix, p);
    }
  }

  /** An entry with count zero (or less) contributes nothing. */
  lemma ZeroCountContributesNothing(d: seq<(string, int)>, p: nat)
    requires DistinctKeys(d)
    requires p < |d| && d[p].1 <= 0
    ensures d[p].0 !in Expanded(d)
  {
    ExpandedMultiplicity(d, p);
  }

  /** The copies of entry `p` sit at the positions that follow the copies of
      all earlier entries. */
  lemma ExpandedBlockAt(d: seq<(string, int)>, p: nat, t: nat)
    requires p < |d| && t < Positive(d[p].1)
    ensures |Expanded(d[..p])| + t < |Expanded(d)|
    ensures Expanded(d)[|Expanded(d[..p])| + t] == d[p].0
  {
    ExpandedStep(d, p);
    ExpandedPrefix(d, p + 1);
  }

  /** The entry of the dict whose copies cover position `i` of the expansion. */
  ghost function BlockOf(d: seq<(string, int)>, i: nat): (r: nat)
    requires i < |Expanded(d)|
    ensures r < |d|
    ensures |Expanded(d[..r])| <= i < |Expanded(d[..r])| + Positive(d[r].1)
    ensures Expanded(d)[i] == d[r].0
    decreases |d|
  {
    var n := |d|;
    var prefix := d[..n - 1];
    if i < |Expanded(prefix)| then
      var r := BlockOf(prefix, i);
      assert prefix[..r] == d[..r];
      r
    else
      assert prefix == d[..n - 1];
      n - 1
  }

  /** Expanding a longer prefix of the dict never gives a shorter list. */
  lemma PrefixLengthMonotone(d: seq<(string, int)>, p: nat, q: nat)
    requires p <= q <= |d|
    ensures |Expanded(d[..p])| <= |Expanded(d[..q])|
  {
    assert d[..q][..p] == d[..p];
    ExpandedPrefix(d[..q], p);
  }

  /** No other entry's block covers the position `BlockOf` names. */
  lemma BlockOfUnique(d: seq<(string, int)>, i: nat, r: nat)
    requires i < |Expanded(d)|
    requires r < |d| && |Expanded(d[..r])| <= i < |Expanded(d[..r])| + Positive(d[r].1)
    ensures r == BlockOf(d, i)
  {
    var b := BlockOf(d, i);
    if r < b {
      ExpandedStep(d, r);
      PrefixLengthMonotone(d, r + 1, b);
    } else if b < r {
      ExpandedStep(d, b);
      PrefixLengthMonotone(d, b + 1, r);
    }
  }

  lemma BlockOfMonotone(d: seq<(string, int)>, i: nat, j: nat)
    requires i <= j < |Expanded(d)|
    ensures BlockOf(d, i) <= BlockOf(d, j)
  {
  }

  /** All copies of a key are contiguous in the expansion. */
  lemma ExpandedGroupsContiguous(d: seq<(string, int)>, i: nat, j: nat, k: nat)
    requires DistinctKeys(d)
    requires i <= j <= k < |Expanded(d)|
    requires Expanded(d)[i] == Expanded(d)[k]
    ensures Expanded(d)[j] == Expanded(d)[i]
  {
    BlockOfMonotone(d, i, j);
    BlockOfMonotone(d, j, k);
  }

  /** The groups follow the iteration order of the dict: every copy of an
      earlier key comes before every copy of a later one. */
  lemma ExpandedFollowsKeyOrder(d: seq<(string, int)>, p: nat, q: nat, i: nat, j: nat)
    requires DistinctKeys(d)
    requires p < q < |d|
    requires i < |Expanded(d)| && j < |Expanded(d)|
    requires Expanded(d)[i] == d[p].0 && Expanded(d)[j] == d[q].0
    ensures i < j
  {
    if j <= i {
      BlockOfMonotone(d, j, i);
    }
  }

  /** The loop that builds `expanded_new`. */
  method ExpandCounts(counts: Counts) returns (expanded: seq<string>)
    ensures expanded == Expanded(counts)
    ensures |expanded| == TotalCount(counts)
    ensures forall p :: 0 <= p < |counts| ==> multiset(expanded)[counts[p].0] == Positive(counts[p].1)
    ensures forall c :: c in expanded ==> exists p :: 0 <= p < |counts| && counts[p].0 == c
  {
    expanded := [];
    for i := 0 to |counts|
      invariant expanded == Expanded(counts[..i])
    {
      var (cls, n) := counts[i];
      ExpandedStep(counts, i);
      expanded := expanded + Repeat(cls, n);
    }
    assert counts[..|counts|] == counts;
    ExpandedLength(counts);
    forall p | 0 <= p < |counts|
      ensures multiset(expanded)[counts[p].0] == Positive(counts[p].1)
    {
      ExpandedMultiplicity(counts, p);
    }
    forall c | c in expanded
      ensures exists p :: 0 <= p < |counts| && counts[p].0 == c
    {
      if forall p :: 0 <= p < |counts| ==> counts[p].0 != c {
        ExpandedOnlyKeys(counts, c);
      }
    }
  }

  // ---------------------------------------------------------------------
  // /compare
  // ---------------------------------------------------------------------

  datatype CompareResponse = CompareResponse(
    beforeCounts: Counts,
    afterCounts: Counts,
    newDamageCounts: Counts,
    newDamageCosts: CostSummary,
    beforeAnnotated: Image,
    afterAnnotated: Image)

  /** `/compare`: the differ's counts are passed through unchanged; only the
      new-damage costs are replaced, by pricing the expanded new damage for
      the requested vehicle type. */
  method Compare(s: Services, beforeImage: Image, afterImage: Image, prices: PriceMap, vehicleType: Option<string>)
    returns (resp: CompareResponse)
    ensures var summary := s.compareBeforeAfter(beforeImage, afterImage, prices);
      && resp.beforeCounts == summary.beforeCounts
      && resp.afterCounts == summary.afterCounts
      && resp.newDamageCounts == summary.newDamageCounts
      && resp.newDamageCosts == s.aggregateCostsForClasses(Expanded(summary.newDamageCounts), prices, vehicleType, None)
      && resp.beforeAnnotated == summary.before.annotatedImage
      && resp.afterAnnotated == summary.after.annotatedImage
  {
    var summary := s.compareBeforeAfter(beforeImage, afterImage, prices);
    var expandedNew := ExpandCounts(summary.newDamageCounts);
    var vtCosts := s.aggregateCostsForClasses(expandedNew, prices, vehicleType, None);
    summary := summary.(newDamageCosts := vtCosts);
    resp := CompareResponse(summary.beforeCounts, summary.afterCounts, summary.newDamageCounts,
      summary.newDamageCosts, summary.before.annotatedImage, summary.after.annotatedImage);
  }
}
