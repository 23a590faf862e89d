/** The collaborators that the service and the trainer import from the
    inference and feature modules of the repository. Their bodies are not
    part of this model: each one is a field of `Services`, so every result
    below holds for whatever normaliser, detector, aggregator, differ and
    feature builder the program is run with. */
module MlServices {
  import opened Wrappers

  /** A decoded RGB image (a numpy array in the program). */
  type Image

  /** The loaded price table. */
  type PriceMap

  /** A fitted regressor. */
  type Model

  /** A Python dict has each key at most once. */
  predicate DistinctKeys(d: seq<(string, int)>)
  {
    forall i, j :: 0 <= i < j < |d| ==> d[i].0 != d[j].0
  }

  /** A dict from class key to count, in its iteration (insertion) order. */
  type Counts = d: seq<(string, int)> | DistinctKeys(d) witness []

  /** What the detector reports for one image. `confidences` and `areas`
      are `None` when the dict has no such key. */
  datatype Detection = Detection(
    classes: seq<string>,
    confidences: Option<seq<real>>,
    areas: Option<seq<real>>,
    annotatedImage: Image)

  /** One value of `per_class_costs`; a field is `None` when it is missing. */
  datatype ClassCost = ClassCost(minEach: Option<real>, minTotal: Option<real>)

  datatype Totals = Totals(min: real)

  /** The result of `aggregate_costs_for_classes`. */
  datatype CostSummary = CostSummary(
    counts: Counts,
    perClassCosts: map<string, ClassCost>,
    totals: Totals)

  /** The result of `compare_before_after`. */
  datatype CompareSummary = CompareSummary(
    before: Detection,
    after: Detection,
    beforeCounts: Counts,
    afterCounts: Counts,
    newDamageCounts: Counts,
    newDamageCosts: CostSummary)

  /** The imported functions and the feature schema `FEATURE_NAMES`, plus
      `imageShape`. `imageShape` is not imported: it stands for
      `(img.shape[0], img.shape[1])`, the height and width of a numpy image. */
  datatype Services = Services(
    normalizeClassKey: string -> string,
    detectFromNumpy: Image -> Detection,
    aggregateCostsForClasses: (seq<string>, PriceMap, Option<string>, Option<seq<real>>) -> CostSummary,
    compareBeforeAfter: (Image, Image, PriceMap) -> CompareSummary,
    computeFeatures: (Detection, string, real, (nat, nat)) -> seq<real>,
    imageShape: Image -> (nat, nat),
    featureNames: seq<string>)
}
