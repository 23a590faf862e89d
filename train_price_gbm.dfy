/** The training script: build a feature matrix and target vector from a
    claims table, refuse to train on fewer than 20 samples, and bundle the
    fitted model with its feature schema. Reading the table, fitting and
    serialising are not modelled; image reading is a parameter that may
    fail. */
module TrainPriceGbm {
  import opened Wrappers
  import opened MlServices

  /** Used when the table has no `vehicle_type` column. */
  const DefaultVehicleType: string := "car"

  /** Fewer samples than this is a fatal error. */
  const MinSamples: nat := 20

  /** One row of the claims table. `vehicleType` is `None` when the table has
      no `vehicle_type` column, and then it is `None` for every row; a blank
      cell of an existing column is not modelled. `totalUsd` is `None` when
      the cell cannot be converted to a float. */
  datatype Row = Row(imagePath: string, vehicleType: Option<string>, totalUsd: Option<real>)

  /** A 2-D array: its rows and its number of columns. */
  datatype Matrix = Matrix(rows: seq<seq<real>>, cols: nat)

  datatype Dataset = Dataset(x: Matrix, y: seq<real>)

  datatype TrainError =
    | InvalidTarget(row: nat)    // float() of the target of this row raised
    | RaggedFeatures             // the feature vectors cannot be stacked
    | NotEnoughSamples(count: nat)

  /** The saved artifact. */
  datatype Payload = Payload(model: Model, featureNames: seq<string>)

  /** The vehicle type a row is priced and featurised with. */
  function VehicleTypeOf(row: Row): (vt: string)
    ensures row.vehicleType.None? ==> vt == DefaultVehicleType
    ensures row.vehicleType.Some? ==> vt == row.vehicleType.value
  {
    match row.vehicleType
    case Some(vt) => vt
    case None => DefaultVehicleType
  }

  /** The feature vector of a row whose image was read: detection, the
      rule-based total for the row's vehicle type, then the features. */
  function RowFeatures(s: Services, prices: PriceMap, row: Row, image: Image): seq<real>
  {
    var det := s.detectFromNumpy(image);
    var vehicleType := VehicleTypeOf(row);
    var ruleCosts := s.aggregateCostsForClasses(det.classes, prices, Some(vehicleType), det.areas);
    s.computeFeatures(det, vehicleType, ruleCosts.totals.min, s.imageShape(image))
  }

  /** In a table without a vehicle-type column, a row is priced and
      featurised as a car. */
  lemma DefaultVehicleTypeUsed(s: Services, prices: PriceMap, row: Row, image: Image)
    requires row.vehicleType.None?
    ensures var det := s.detectFromNumpy(image);
      RowFeatures(s, prices, row, image) ==
        s.computeFeatures(det, "car",
          s.aggregateCostsForClasses(det.classes, prices, Some("car"), det.areas).totals.min,
          s.imageShape(image))
  {
  }

  /** The indices of the rows whose image can be read, i.e. the rows that
      become samples: in table order, and exactly those rows. */
  function KeptRows(rows: seq<Row>, readImage: string -> Option<Image>): (kept: seq<nat>)
    ensures forall k :: 0 <= k < |kept| ==> kept[k] < |rows| && readImage(rows[kept[k]].imagePath).Some?
    ensures forall k, l :: 0 <= k < l < |kept| ==> kept[k] < kept[l]
    ensures forall j :: 0 <= j < |rows| && readImage(rows[j].imagePath).Some? ==> j in kept
  {
    if |rows| == 0 then []
    else
      var n := |rows|;
      var prefix := rows[..n - 1];
      assert forall j :: 0 <= j < n - 1 ==> prefix[j] == rows[j];
      KeptRows(prefix, readImage) + (if readImage(rows[n - 1].imagePath).Some? then [n - 1] else [])
  }

  /** The number of rows whose image cannot be read. */
  function FailedReads(rows: seq<Row>, readImage: string -> Option<Image>): nat
  {
    if |rows| == 0 then 0
    else FailedReads(rows[..|rows| - 1], readImage) + (if readImage(rows[|rows| - 1].imagePath).None? then 1 else 0)
  }

  /** Every row either becomes a sample or is skipped. */
  lemma {:induction false} KeptCount(rows: seq<Row>, readImage: string -> Option<Image>)
    ensures |KeptRows(rows, readImage)| == |rows| - FailedReads(rows, readImage)
  {
    if |rows| > 0 {
      KeptCount(rows[..|rows| - 1], readImage);
    }
  }

  /** The lists `xs` and `ys` the row loop builds, or the error that ends it. */
  function Collected(s: Services, prices: PriceMap, readImage: string -> Option<Image>, rows: seq<Row>)
    : (r: Result<(seq<seq<real>>, seq<real>), TrainError>)
    ensures r.Ok? ==> |r.value.0| == |r.value.1| <= |rows|
  {
    if |rows| == 0 then Ok(([], []))
    else
      var n := |rows|;
      var row := rows[n - 1];
      match Collected(s, prices, readImage, rows[..n - 1])
      case Err(e) => Err(e)
      case Ok((xs, ys)) =>
        if row.totalUsd.None? then Err(InvalidTarget(n - 1))
        else
          match readImage(row.imagePath)
          case None => Ok((xs, ys))
          case Some(image) => Ok((xs + [RowFeatures(s, prices, row, image)], ys + [row.totalUsd.value]))
  }

  /** Once the loop has stopped with an error it stays stopped. */
  lemma {:induction false} CollectedErrorPersists(
    s: Services, prices: PriceMap, readImage: string -> Option<Image>, rows: seq<Row>, m: nat)
    requires m <= |rows|
    requires Collected(s, prices, readImage, rows[..m]).Err?
    ensures Collected(s, prices, readImage, rows) == Collected(s, prices, readImage, rows[..m])
  {
    if m < |rows| {
      var n := |rows|;
      assert rows[..n - 1][..m] == rows[..m];
      CollectedErrorPersists(s, prices, readImage, rows[..n - 1], m);
    } else {
      assert rows[..m] == rows;
    }
  }

  /** The loop fails exactly when some target cannot be converted, and then
      at the first such row, whatever happens to that row's image. */
  lemma {:induction false} CollectedFailsOnFirstInvalidTarget(
    s: Services, prices: PriceMap, readImage: string -> Option<Image>, rows: seq<Row>)
    ensures Collected(s, prices, readImage, rows).Ok? <==> forall i :: 0 <= i < |rows| ==> rows[i].totalUsd.Some?
    ensures Collected(s, prices, readImage, rows).Err? ==>
      var e := Collected(s, prices, readImage, rows).error;
      && e.InvalidTarget? && e.row < |rows| && rows[e.row].totalUsd.None?
      && forall j :: 0 <= j < e.row ==> rows[j].totalUsd.Some?
  {
    if |rows| > 0 {
      var n := |rows|;
      var prefix := rows[..n - 1];
      assert forall j :: 0 <= j < n - 1 ==> prefix[j] == rows[j];
      CollectedFailsOnFirstInvalidTarget(s, prices, readImage, prefix);
    }
  }

  /** `xs` and `ys` stay aligned: the k-th sample is the feature vector and
      the target of the k-th readable row. */
  lemma {:induction false} CollectedAligned(
    s: Services, prices: PriceMap, readImage: string -> Option<Image>, rows: seq<Row>)
    requires Collected(s, prices, readImage, rows).Ok?
    ensures var (xs, ys) := Collected(s, prices, readImage, rows).value;
      var kept := KeptRows(rows, readImage);
      && |xs| == |ys| == |kept|
      && forall k :: 0 <= k < |kept| ==>
           && xs[k] == RowFeatures(s, prices, rows[kept[k]], readImage(rows[kept[k]].imagePath).value)
           && rows[kept[k]].totalUsd == Some(ys[k])
  {
    if |rows| > 0 {
      var n := |rows|;
      var prefix := rows[..n - 1];
      assert forall j :: 0 <= j < n - 1 ==> prefix[j] == rows[j];
      CollectedAligned(s, prices, readImage, prefix);
    }
  }

  /** `np.vstack(xs) if xs else np.zeros((0, emptyCols))`. */
  function Stack(xs: seq<seq<real>>, emptyCols: nat): (r: Result<Matrix, TrainError>)
    ensures xs == [] ==> r == Ok(Matrix([], emptyCols))
    ensures r.Ok? <==> forall i :: 0 <= i < |xs| ==> |xs[i]| == |xs[0]|
    ensures r.Ok? ==> r.value.rows == xs && forall i :: 0 <= i < |xs| ==> |xs[i]| == r.value.cols
  {
    if xs == [] then Ok(Matrix([], emptyCols))
    else if forall i :: 0 <= i < |xs| ==> |xs[i]| == |xs[0]| then Ok(Matrix(xs, |xs[0]|))
    else Err(RaggedFeatures)
  }

  /** What `build_dataset` returns, or the error it raises. */
  function DatasetSpec(s: Services, prices: PriceMap, readImage: string -> Option<Image>, rows: seq<Row>)
    : (r: Result<Dataset, TrainError>)
    ensures r.Ok? ==> |r.value.x.rows| == |r.value.y| <= |rows|
  {
    match Collected(s, prices, readImage, rows)
    case Err(e) => Err(e)
    case Ok((xs, ys)) =>
      match Stack(xs, |s.featureNames|)
      case Err(e) => Err(e)
      case Ok(x) => Ok(Dataset(x, ys))
  }

  /** A built dataset has one sample per readable row, in table order, each
      feature row paired with the target of the same table row. */
  lemma DatasetAligned(s: Services, prices: PriceMap, readImage: string -> Option<Image>, rows: seq<Row>)
    requires DatasetSpec(s, prices, readImage, rows).Ok?
    ensures var d := DatasetSpec(s, prices, readImage, rows).value;
      var kept := KeptRows(rows, readImage);
      && |d.x.rows| == |d.y| == |kept| == |rows| - FailedReads(rows, readImage)
      && forall k :: 0 <= k < |kept| ==>
           && d.x.rows[k] == RowFeatures(s, prices, rows[kept[k]], readImage(rows[kept[k]].imagePath).value)
           && rows[kept[k]].totalUsd == Some(d.y[k])
  {
    CollectedAligned(s, prices, readImage, rows);
    KeptCount(rows, readImage);
  }

  /** With valid targets and no readable image, the dataset is an empty
      matrix with one column per feature name and an empty target vector. */
  lemma EmptyDatasetShape(s: Services, prices: PriceMap, readImage: string -> Option<Image>, rows: seq<Row>)
    requires forall i :: 0 <= i < |rows| ==> rows[i].totalUsd.Some?
    requires FailedReads(rows, readImage) == |rows|
    ensures DatasetSpec(s, prices, readImage, rows) == Ok(Dataset(Matrix([], |s.featureNames|), []))
  {
    CollectedFailsOnFirstInvalidTarget(s, prices, readImage, rows);
    CollectedAligned(s, prices, readImage, rows);
    KeptCount(rows, readImage);
  }

  /** `build_dataset`: the row loop, then the stacking. */
  method BuildDataset(s: Services, prices: PriceMap, readImage: string -> Option<Image>, rows: seq<Row>)
    returns (r: Result<Dataset, TrainError>)
    ensures r == DatasetSpec(s, prices, readImage, rows)
    ensures r.Ok? ==> |r.value.x.rows| == |r.value.y| == |rows| - FailedReads(rows, readImage)
  {
    var xs: seq<seq<real>> := [];
    var ys: seq<real> := [];
    for idx := 0 to |rows|
      invariant Collected(s, prices, readImage, rows[..idx]) == Ok((xs, ys))
    {
      assert rows[..idx + 1][..idx] == rows[..idx];
      var row := rows[idx];
      var vehicleType := VehicleTypeOf(row);
      if row.totalUsd.None? {
        CollectedErrorPersists(s, prices, readImage, rows, idx + 1);
        return Err(InvalidTarget(idx));
      }
      var y := row.totalUsd.value;
      var image := readImage(row.imagePath);
      if image.None? {
        continue;
      }
      var det := s.detectFromNumpy(image.value);
      var ruleCosts := s.aggregateCostsForClasses(det.classes, prices, Some(vehicleType), det.areas);
      var feats := s.computeFeatures(det, vehicleType, ruleCosts.totals.min, s.imageShape(image.value));
      xs := xs + [feats];
      ys := ys + [y];
    }
    assert rows[..|rows|] == rows;
    match Stack(xs, |s.featureNames|)
    case Err(e) =>
      r := Err(e);
    case Ok(x) =>
      r := Ok(Dataset(x, ys));
      DatasetAligned(s, prices, readImage, rows);
  }

  /** `np.log1p(y)`, element by element. */
  function LogTargets(y: seq<real>, log1p: real -> real): (r: seq<real>)
    ensures |r| == |y|
    ensures forall i :: 0 <= i < |y| ==> r[i] == log1p(y[i])
  {
    seq(|y|, i requires 0 <= i < |y| => log1p(y[i]))
  }

  /** `main` after argument parsing: build the dataset, refuse fewer than
      `MinSamples` samples, fit on the log targets and bundle the model with
      `FEATURE_NAMES`. */
  method Train(
    s: Services, prices: PriceMap, readImage: string -> Option<Image>, rows: seq<Row>,
    log1p: real -> real, fit: (Matrix, seq<real>) -> Model)
    returns (r: Result<Payload, TrainError>)
    ensures var d := DatasetSpec(s, prices, readImage, rows);
      && (d.Err? ==> r == Err(d.error))
      && (d.Ok? && |d.value.x.rows| < MinSamples ==> r == Err(NotEnoughSamples(|d.value.x.rows|)))
      && (d.Ok? && |d.value.x.rows| >= MinSamples ==>
            r == Ok(Payload(fit(d.value.x, LogTargets(d.value.y, log1p)), s.featureNames)))
    ensures r.Ok? ==> |rows| - FailedReads(rows, readImage) >= MinSamples
  {
    var built := BuildDataset(s, prices, readImage, rows);
    if built.Err? {
      return Err(built.error);
    }
    var x, y := built.value.x, built.value.y;
    if |x.rows| < MinSamples {
      return Err(NotEnoughSamples(|x.rows|));
    }
    var yLog := LogTargets(y, log1p);
    var model := fit(x, yLog);
    r := Ok(Payload(model, s.featureNames));
  }
}
