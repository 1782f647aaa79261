/**
 * The prediction server (app.py): artifacts loaded once at start-up, and the
 * `/predict` handler that validates a request body, frames it in the
 * training-time column order, coerces it to numbers, scales it when a scaler
 * was loaded, and asks the model for predictions. Every failure becomes a
 * 400 answer carrying the error.
 */
module Serving {
  import opened Wrappers
  import opened PyValues
  import opened Seqs
  import opened Tables
  import opened Numeric
  import opened Estimators
  import opened Artifacts

  /** The exception behind a 400 answer. */
  datatype RequestError =
    | InvalidJson                               // the body does not decode
    | NoDataKey                                 // "Body must be JSON with a 'data' key."
    | BadDataShape                              // "'data' must be an object or a list of objects."
    | NoRecords                                 // `rows[0]` of an empty list: IndexError
    | MissingKeys(missing: seq<string>)         // "Missing keys: [...]"
    | UnexpectedKeys(unexpected: seq<string>)   // "Unexpected keys: [...]"
    | NotNumeric(value: Json, position: nat)    // `to_numeric` refuses the value at this row
    | ScalerFailed                              // `scaler.transform` raised or changed the shape
    | PredictFailed                             // `model.predict` raised

  /** The answer of `/predict`: 200 with the predictions and `n`, or 400. */
  datatype Response = Predictions(values: seq<real>, n: nat) | BadRequest(error: RequestError)

  predicate AllObjects(items: seq<Json>) {
    forall i :: 0 <= i < |items| ==> items[i].JObject?
  }

  /** Lines 24-33: the records of the body. `data` may be one object (one
      record) or a list of objects (its elements, in order); nothing else. */
  function Records(payload: Json): (r: Result<seq<Json>, RequestError>)
    ensures r.Success? ==> AllObjects(r.value)
    ensures (!payload.JObject? || "data" !in payload.entries) ==> r == Failure(NoDataKey)
    ensures (payload.JObject? && "data" in payload.entries && payload.entries["data"].JObject?)
              ==> r == Success([payload.entries["data"]])
    ensures (payload.JObject? && "data" in payload.entries && payload.entries["data"].JArray?
               && AllObjects(payload.entries["data"].items))
              ==> r == Success(payload.entries["data"].items)
    ensures payload.JObject? && "data" in payload.entries && r.Failure? ==> r.error == BadDataShape
    ensures r.Success? <==>
              payload.JObject? && "data" in payload.entries &&
              (payload.entries["data"].JObject? ||
               (payload.entries["data"].JArray? && AllObjects(payload.entries["data"].items)))
  {
    if !payload.JObject? || "data" !in payload.entries then Failure(NoDataKey)
    else
      var data := payload.entries["data"];
      if data.JObject? then Success([data])
      else if data.JArray? && AllObjects(data.items) then Success(data.items)
      else Failure(BadDataShape)
  }

  /** `f not in record` and `k not in feature_order`, as named tests. */
  function AbsentFrom(record: Json): string -> bool
    requires record.JObject?
  {
    f => f !in record.entries
  }

  function NotIn(features: seq<string>): string -> bool {
    k => k !in features
  }

  /** Line 36: the features the record lacks, in feature-list order. */
  function Missing(features: seq<string>, record: Json): (r: seq<string>)
    requires record.JObject?
    ensures forall f :: f in r <==> f in features && f !in record.entries
  {
    Filter(features, AbsentFrom(record))
  }

  /** Line 37: the record's keys that are not features, in the record's key order. */
  function Unexpected(features: seq<string>, record: Json): (r: seq<string>)
    requires record.JObject?
    ensures forall k :: k in r <==> k in record.keys && k !in features
  {
    Filter(record.keys, NotIn(features))
  }

  /** Line 36: the missing keys are listed in feature-list order: the missing
      keys of features placed side by side are those of each part in turn. */
  lemma MissingInFeatureOrder(front: seq<string>, back: seq<string>, record: Json)
    requires record.JObject?
    ensures Missing(front + back, record) == Missing(front, record) + Missing(back, record)
  {
    FilterConcat(front, back, AbsentFrom(record));
  }

  /** Line 37: the unexpected keys are listed in the record's key order: the
      unexpected keys of a record whose keys are `k1` then `k2` are those of
      `k1`, then those of `k2`. */
  lemma UnexpectedInKeyOrder(features: seq<string>, record: Json, k1: seq<string>, k2: seq<string>)
    requires record.JObject? && record.keys == k1 + k2
    ensures Unexpected(features, record) == Filter(k1, NotIn(features)) + Filter(k2, NotIn(features))
  {
    FilterConcat(k1, k2, NotIn(features));
  }

  /** Lines 36-41: missing keys are reported first; unexpected keys only when
      nothing is missing; no error exactly when the record has every feature
      and no other key. */
  function CheckKeys(features: seq<string>, record: Json): (r: Option<RequestError>)
    requires record.JObject?
    ensures r.None? <==>
              (forall f :: f in features ==> f in record.entries) &&
              (forall k :: k in record.keys ==> k in features)
    ensures Missing(features, record) != [] ==> r == Some(MissingKeys(Missing(features, record)))
    ensures Missing(features, record) == [] && Unexpected(features, record) != [] ==>
              r == Some(UnexpectedKeys(Unexpected(features, record)))
  {
    var missing := Missing(features, record);
    var extra := Unexpected(features, record);
    if missing != [] then
      assert missing[0] in missing;
      Some(MissingKeys(missing))
    else if extra != [] then
      assert extra[0] in extra;
      Some(UnexpectedKeys(extra))
    else None
  }

  /** A frame cell before and after `to_numeric`. */
  datatype Cell = Raw(v: Json) | Number(n: Num)

  /** The cell `pd.DataFrame(rows, columns=...)` makes of one record and one
      column: the record's value, or NaN where the record lacks the key. */
  function CellOf(record: Json, key: string): (c: Cell)
    requires record.JObject?
    ensures key in record.entries ==> c == Raw(record.entries[key])
    ensures key !in record.entries ==> c == Number(NaN)
  {
    if key in record.entries then Raw(record.entries[key]) else Number(NaN)
  }

  /** Line 44: the records framed column by column, one column per feature in
      the given order; keys that are not features are dropped. */
  function RecordCells(records: seq<Json>, columns: seq<string>): (r: seq<seq<Cell>>)
    requires AllObjects(records)
    ensures |r| == |columns|
    ensures forall j :: 0 <= j < |columns| ==> |r[j]| == |records|
    ensures forall j, i :: 0 <= j < |columns| && 0 <= i < |records| ==> r[j][i] == CellOf(records[i], columns[j])
  {
    seq(|columns|, j requires 0 <= j < |columns| =>
      seq(|records|, i requires 0 <= i < |records| => CellOf(records[i], columns[j])))
  }

  /** The number `to_numeric` makes of a cell, if any. */
  function CellNumber(c: Cell, parse: string -> Option<Num>): (r: Option<Num>)
    ensures c.Number? ==> r == Some(c.n)
    ensures c.Raw? ==> r == ToNumber(c.v, parse)
  {
    match c
    case Number(n) => Some(n)
    case Raw(v) => ToNumber(v, parse)
  }

  /** `pd.to_numeric(column, errors="raise")`: all cells as numbers, or the
      first cell (by position) that does not convert. */
  function ToNumericColumn(col: seq<Cell>, parse: string -> Option<Num>): (r: Result<seq<Num>, RequestError>)
    ensures r.Success? <==> forall i :: 0 <= i < |col| ==> CellNumber(col[i], parse).Some?
    ensures r.Success? ==> |r.value| == |col|
    ensures r.Success? ==> forall i :: 0 <= i < |col| ==> CellNumber(col[i], parse) == Some(r.value[i])
    ensures r.Failure? ==>
              && r.error.NotNumeric?
              && r.error.position < |col|
              && col[r.error.position].Raw?
              && col[r.error.position].v == r.error.value
              && CellNumber(col[r.error.position], parse).None?
              && forall i :: 0 <= i < r.error.position ==> CellNumber(col[i], parse).Some?
  {
    if col == [] then Success([])
    else
      var last := |col| - 1;
      var init :- ToNumericColumn(col[..last], parse);
      match CellNumber(col[last], parse)
      case None => Failure(NotNumeric(col[last].v, last))
      case Some(n) => Success(init + [n])
  }

  /** Lines 47-48 as a value: the columns converted one after the other, or the
      error of the first column (in feature order) that does not convert. */
  function CoerceColumns(cols: seq<seq<Cell>>, parse: string -> Option<Num>): (r: Result<seq<seq<Num>>, RequestError>)
    ensures r.Success? ==> |r.value| == |cols|
    ensures r.Success? ==> forall j :: 0 <= j < |cols| ==> ToNumericColumn(cols[j], parse) == Success(r.value[j])
  {
    if cols == [] then Success([])
    else
      var last := |cols| - 1;
      var init :- CoerceColumns(cols[..last], parse);
      var col :- ToNumericColumn(cols[last], parse);
      Success(init + [col])
  }

  /** The frame converts exactly when every column does. */
  lemma {:induction false} CoerceColumnsSuccess(cols: seq<seq<Cell>>, parse: string -> Option<Num>)
    ensures CoerceColumns(cols, parse).Success? <==>
              forall j :: 0 <= j < |cols| ==> ToNumericColumn(cols[j], parse).Success?
  {
    if cols != [] {
      var last := |cols| - 1;
      CoerceColumnsSuccess(cols[..last], parse);
      assert forall j :: 0 <= j < last ==> cols[..last][j] == cols[j];
    }
  }

  /** Once a prefix of the columns fails, the whole frame fails with that error. */
  lemma {:induction false} CoercePrefixFailure(cols: seq<seq<Cell>>, k: nat, parse: string -> Option<Num>)
    requires k <= |cols|
    requires CoerceColumns(cols[..k], parse).Failure?
    ensures CoerceColumns(cols, parse) == CoerceColumns(cols[..k], parse)
  {
    if k < |cols| {
      var last := |cols| - 1;
      assert cols[..last][..k] == cols[..k];
      CoercePrefixFailure(cols[..last], k, parse);
      var init := CoerceColumns(cols[..last], parse);
      assert init.Failure?;
      assert CoerceColumns(cols, parse) == Failure(init.error);
    } else {
      assert cols[..k] == cols;
    }
  }

  /** Numbers as cells. */
  function NumberCells(ns: seq<Num>): (r: seq<Cell>)
    ensures |r| == |ns|
    ensures forall i :: 0 <= i < |ns| ==> r[i] == Number(ns[i])
  {
    seq(|ns|, i requires 0 <= i < |ns| => Number(ns[i]))
  }

  /** Rows of a frame given by columns of `height` numbers each. */
  function Transpose(cols: seq<seq<Num>>, height: nat): (r: seq<seq<Num>>)
    requires forall j :: 0 <= j < |cols| ==> |cols[j]| == height
    ensures HasShape(r, height, |cols|)
    ensures forall i, j :: 0 <= i < height && 0 <= j < |cols| ==> r[i][j] == cols[j][i]
  {
    seq(height, i requires 0 <= i < height =>
      seq(|cols|, j requires 0 <= j < |cols| => cols[j][i]))
  }

  /** Two matrices of one shape with equal cells are equal. */
  lemma SameRows(a: seq<seq<Num>>, b: seq<seq<Num>>, height: nat, width: nat)
    requires HasShape(a, height, width) && HasShape(b, height, width)
    requires forall i, j :: 0 <= i < height && 0 <= j < width ==> a[i][j] == b[i][j]
    ensures a == b
  {
    forall i | 0 <= i < height ensures a[i] == b[i] {
    }
  }

  /** The framed records convert exactly when every cell does, and then each
      cell's number is the converted column's entry. */
  lemma RecordCellsConvert(records: seq<Json>, features: seq<string>, parse: string -> Option<Num>)
    requires AllObjects(records)
    ensures CoerceColumns(RecordCells(records, features), parse).Success? <==>
              forall i, j :: 0 <= i < |records| && 0 <= j < |features| ==>
                CellNumber(CellOf(records[i], features[j]), parse).Some?
    ensures CoerceColumns(RecordCells(records, features), parse).Success? ==>
              forall i, j :: 0 <= i < |records| && 0 <= j < |features| ==>
                CellNumber(CellOf(records[i], features[j]), parse) ==
                Some(CoerceColumns(RecordCells(records, features), parse).value[j][i])
  {
    var cells := RecordCells(records, features);
    CoerceColumnsSuccess(cells, parse);
    assert forall j, i :: 0 <= j < |features| && 0 <= i < |records| ==> cells[j][i] == CellOf(records[i], features[j]);
  }

  /** `_validate_and_frame` after the records are known. */
  function FrameRecords(records: seq<Json>, features: seq<string>, parse: string -> Option<Num>): (r: Result<Table<Num>, RequestError>)
    requires AllObjects(records)
    ensures records == [] ==> r == Failure(NoRecords)
    ensures records != [] && CheckKeys(features, records[0]).Some? ==> r == Failure(CheckKeys(features, records[0]).value)
    ensures r.Success? <==>
              && records != []
              && CheckKeys(features, records[0]).None?
              && forall i, j :: 0 <= i < |records| && 0 <= j < |features| ==>
                   CellNumber(CellOf(records[i], features[j]), parse).Some?
    ensures r.Success? ==> r.value.Valid() && r.value.columns == features && |r.value.rows| == |records|
    ensures r.Success? ==>
              forall i, j :: 0 <= i < |records| && 0 <= j < |features| ==>
                CellNumber(CellOf(records[i], features[j]), parse) == Some(r.value.rows[i][j])
  {
    if records == [] then Failure(NoRecords)
    else match CheckKeys(features, records[0])
      case Some(e) => Failure(e)
      case None =>
        var cells := RecordCells(records, features);
        RecordCellsConvert(records, features, parse);
        match CoerceColumns(cells, parse)
        case Failure(e) => Failure(e)
        case Success(nums) => Success(Table(features, Transpose(nums, |records|)))
  }

  /** `_validate_and_frame` as a value: the numeric frame, columns in feature
      order, one row per record in input order, or the first error. */
  function Frame(payload: Json, features: seq<string>, parse: string -> Option<Num>): (r: Result<Table<Num>, RequestError>)
    ensures Records(payload).Failure? ==> r == Failure(Records(payload).error)
    ensures Records(payload).Success? ==> r == FrameRecords(Records(payload).value, features, parse)
    ensures r.Success? ==> r.value.Valid() && r.value.columns == features
    ensures r.Success? ==> |r.value.rows| == |Records(payload).value|
  {
    var records :- Records(payload);
    FrameRecords(records, features, parse)
  }

  /** A pandas frame under construction: fixed labels and height, columns
      replaced one at a time. */
  class DataFrame {
    const columns: seq<string>
    const height: nat
    var data: seq<seq<Cell>>

    ghost predicate Valid()
      reads this
    {
      |data| == |columns| && forall j :: 0 <= j < |data| ==> |data[j]| == height
    }

    constructor (columns: seq<string>, data: seq<seq<Cell>>, height: nat)
      requires |data| == |columns| && forall j :: 0 <= j < |data| ==> |data[j]| == height
      ensures Valid()
      ensures this.columns == columns && this.data == data && this.height == height
    {
      this.columns := columns;
      this.data := data;
      this.height := height;
    }

    /** `X[columns[j]] = values`. */
    method SetColumn(j: nat, values: seq<Cell>)
      requires Valid() && j < |columns| && |values| == height
      modifies this
      ensures Valid()
      ensures data == old(data)[j := values]
    {
      data := data[j := values];
    }

    /** Every cell holds a number. */
    ghost predicate AllNumbers()
      reads this
      requires Valid()
    {
      forall j, i :: 0 <= j < |data| && 0 <= i < height ==> data[j][i].Number?
    }

    /** The numbers, row by row. */
    function Numbers(): (t: Table<Num>)
      reads this
      requires Valid()
      requires AllNumbers()
      ensures t.Valid() && t.columns == columns && |t.rows| == height
      ensures forall i, j :: 0 <= i < height && 0 <= j < |columns| ==> t.rows[i][j] == data[j][i].n
    {
      var d := data;
      Table(columns, seq(height, i requires 0 <= i < height =>
        seq(|columns|, j requires 0 <= j < |columns| => d[j][i].n)))
    }
  }

  /** Lines 47-48: each feature column in turn is replaced by its numeric
      version; the first column that does not convert stops the loop. */
  method CoerceNumeric(x: DataFrame, parse: string -> Option<Num>) returns (err: Option<RequestError>)
    requires x.Valid()
    modifies x
    ensures x.Valid()
    ensures err.None? <==> CoerceColumns(old(x.data), parse).Success?
    ensures err.Some? ==> err.value == CoerceColumns(old(x.data), parse).error
    ensures err.None? ==>
              forall j :: 0 <= j < |x.columns| ==> x.data[j] == NumberCells(CoerceColumns(old(x.data), parse).value[j])
  {
    ghost var original := x.data;
    var j := 0;
    while j < |x.columns|
      invariant 0 <= j <= |x.columns|
      invariant x.Valid()
      invariant CoerceColumns(original[..j], parse).Success?
      invariant forall k :: 0 <= k < j ==> x.data[k] == NumberCells(CoerceColumns(original[..j], parse).value[k])
      invariant x.data[j..] == original[j..]
    {
      assert x.data[j] == original[j];
      var col := ToNumericColumn(x.data[j], parse);
      assert original[..j + 1][..j] == original[..j];
      if col.Failure? {
        CoercePrefixFailure(original, j + 1, parse);
        return Some(col.error);
      }
      x.SetColumn(j, NumberCells(col.value));
      j := j + 1;
    }
    assert original[..j] == original;
    return None;
  }

  /** `_validate_and_frame`: the checks in order, the frame built in feature
      order, then coerced in place. The result is the frame `Frame` describes. */
  method ValidateAndFrame(payload: Json, featureOrder: seq<string>, parse: string -> Option<Num>)
    returns (r: Result<DataFrame, RequestError>)
    ensures r.Success? <==> Frame(payload, featureOrder, parse).Success?
    ensures r.Failure? ==> r.error == Frame(payload, featureOrder, parse).error
    ensures r.Success? ==> fresh(r.value) && r.value.Valid()
    ensures r.Success? ==>
              r.value.AllNumbers() &&
              r.value.Numbers() == Frame(payload, featureOrder, parse).value
  {
    var records :- Records(payload);
    if records == [] {
      return Failure(NoRecords);
    }
    var keyError := CheckKeys(featureOrder, records[0]);
    if keyError.Some? {
      return Failure(keyError.value);
    }
    var x := new DataFrame(featureOrder, RecordCells(records, featureOrder), |records|);
    var err := CoerceNumeric(x, parse);
    if err.Some? {
      return Failure(err.value);
    }
    ghost var nums := CoerceColumns(RecordCells(records, featureOrder), parse).value;
    assert FrameRecords(records, featureOrder, parse) == Success(Table(featureOrder, Transpose(nums, |records|)));
    SameRows(x.Numbers().rows, Transpose(nums, |records|), |records|, |featureOrder|);
    return Success(x);
  }

  /** Line 44: the frame does not depend on the order of the keys inside the
      records: two requests whose records hold the same values are framed
      alike, columns in feature order. */
  lemma {:induction false} FrameIgnoresKeyOrder(r1: seq<Json>, r2: seq<Json>, features: seq<string>, parse: string -> Option<Num>)
    requires AllObjects(r1) && AllObjects(r2) && |r1| == |r2|
    requires forall i :: 0 <= i < |r1| ==> r1[i].entries == r2[i].entries
    requires r1 != [] ==> WellFormedObject(r1[0]) && WellFormedObject(r2[0])
    ensures FrameRecords(r1, features, parse).Success? <==> FrameRecords(r2, features, parse).Success?
    ensures FrameRecords(r1, features, parse).Success? ==>
              FrameRecords(r1, features, parse) == FrameRecords(r2, features, parse)
  {
    if r1 != [] {
      assert CheckKeys(features, r1[0]).None? <==> CheckKeys(features, r2[0]).None?;
      assert forall i, j :: 0 <= i < |r1| && 0 <= j < |features| ==>
               CellOf(r1[i], features[j]) == CellOf(r2[i], features[j]);
      var f1, f2 := FrameRecords(r1, features, parse), FrameRecords(r2, features, parse);
      if f1.Success? {
        SameRows(f1.value.rows, f2.value.rows, |r1|, |features|);
      }
    }
  }

  /** Lines 36-44: only the first record's keys are checked; a later record
      that lacks a feature is framed with NaN in that column. */
  lemma LaterMissingKeyIsNaN(payload: Json, features: seq<string>, parse: string -> Option<Num>, i: nat, j: nat)
    requires Frame(payload, features, parse).Success?
    requires i < |Records(payload).value| && j < |features|
    requires features[j] !in Records(payload).value[i].entries
    ensures Frame(payload, features, parse).value.rows[i][j] == NaN
  {
  }

  /** Line 69: the frame the model sees. Without a scaler it is the request
      frame itself; with one it is the scaler's output under the same labels,
      which must keep the frame's shape. */
  function ModelInput(scaler: Option<FittedScaler>, lib: Library, x: Table<Num>): (r: Result<Table<Num>, RequestError>)
    requires x.Valid()
    ensures scaler.None? ==> r == Success(x)
    ensures r.Success? ==> r.value.Valid() && r.value.columns == x.columns && |r.value.rows| == |x.rows|
    ensures scaler.Some? ==>
              (r.Success? <==>
                 var out := lib.scaleRequest(scaler.value, x.rows);
                 out.Some? && HasShape(out.value, |x.rows|, |x.columns|))
    ensures scaler.Some? && r.Success? ==> r.value.rows == lib.scaleRequest(scaler.value, x.rows).value
    ensures r.Failure? ==> r.error == ScalerFailed
  {
    match scaler
    case None => Success(x)
    case Some(sc) =>
      match lib.scaleRequest(sc, x.rows)
      case None => Failure(ScalerFailed)
      case Some(rows) =>
        if HasShape(rows, |x.rows|, |x.columns|) then Success(Table(x.columns, rows))
        else Failure(ScalerFailed)
  }

  /** Lines 63-73: the answer to a request body (None when it is not JSON).
      A 200 answer carries the model's predictions on the (scaled) frame and
      `n`, the number of records; every error becomes a 400 with that error. */
  function Respond(features: seq<string>, model: FittedModel, scaler: Option<FittedScaler>, lib: Library, body: Option<Json>): (r: Response)
    ensures body.None? ==> r == BadRequest(InvalidJson)
    ensures body.Some? && Frame(body.value, features, lib.parse).Failure? ==>
              r == BadRequest(Frame(body.value, features, lib.parse).error)
    ensures r.Predictions? <==>
              && body.Some?
              && Frame(body.value, features, lib.parse).Success?
              && ModelInput(scaler, lib, Frame(body.value, features, lib.parse).value).Success?
              && lib.predict(model, ModelInput(scaler, lib, Frame(body.value, features, lib.parse).value).value).Some?
    ensures r.Predictions? ==>
              && r.n == |Records(body.value).value|
              && r.values == lib.predict(model, ModelInput(scaler, lib, Frame(body.value, features, lib.parse).value).value).value
  {
    match body
    case None => BadRequest(InvalidJson)
    case Some(payload) =>
      match Frame(payload, features, lib.parse)
      case Failure(e) => BadRequest(e)
      case Success(x) =>
        match ModelInput(scaler, lib, x)
        case Failure(e) => BadRequest(e)
        case Success(input) =>
          match lib.predict(model, input)
          case None => BadRequest(PredictFailed)
          case Some(preds) => Predictions(preds, |x.rows|)
  }

  /** What `_load_artifacts` returns. */
  datatype Loaded = Loaded(features: seq<string>, model: FittedModel, scaler: Option<FittedScaler>)

  /** Lines 11-20: the feature list and the model are required; the scaler is
      loaded exactly when `scaler.joblib` exists. */
  function LoadArtifacts(files: map<Path, Artifact>): (r: Result<Loaded, PyError>)
    ensures FeaturesJson !in files ==> r == Failure(FileNotFound(FeaturesJson.name))
    ensures FeaturesJson in files && files[FeaturesJson].FeatureList? && ModelJoblib !in files ==>
              r == Failure(FileNotFound(ModelJoblib.name))
    ensures r.Success? ==>
              && FeaturesJson in files && files[FeaturesJson] == FeatureList(r.value.features)
              && ModelJoblib in files && files[ModelJoblib] == ModelFile(r.value.model)
    ensures r.Success? ==> (r.value.scaler.Some? <==> ScalerJoblib in files)
    ensures r.Success? && r.value.scaler.Some? ==> files[ScalerJoblib] == ScalerFile(r.value.scaler.value)
    ensures r.Success? <==>
              && FeaturesJson in files && files[FeaturesJson].FeatureList?
              && ModelJoblib in files && files[ModelJoblib].ModelFile?
              && (ScalerJoblib in files ==> files[ScalerJoblib].ScalerFile?)
  {
    if FeaturesJson !in files then Failure(FileNotFound(FeaturesJson.name))
    else if !files[FeaturesJson].FeatureList? then Failure(ValueError)
    else if ModelJoblib !in files then Failure(FileNotFound(ModelJoblib.name))
    else if !files[ModelJoblib].ModelFile? then Failure(ValueError)
    else if ScalerJoblib !in files then
      Success(Loaded(files[FeaturesJson].names, files[ModelJoblib].model, None))
    else if !files[ScalerJoblib].ScalerFile? then Failure(ValueError)
    else Success(Loaded(files[FeaturesJson].names, files[ModelJoblib].model, Some(files[ScalerJoblib].scaler)))
  }

  /** The application `create_app` builds: the artifacts it loaded once, shared
      by every request. */
  class Server {
    const features: seq<string>
    const model: FittedModel
    const scaler: Option<FittedScaler>
    const lib: Library

    constructor (loaded: Loaded, lib: Library)
      ensures features == loaded.features && model == loaded.model && scaler == loaded.scaler
      ensures this.lib == lib
    {
      features := loaded.features;
      model := loaded.model;
      scaler := loaded.scaler;
      this.lib := lib;
    }

    /** `/predict`: frame the body, scale it if a scaler was loaded, predict. */
    method Predict(body: Option<Json>) returns (resp: Response)
      ensures resp == Respond(features, model, scaler, lib, body)
      ensures resp.Predictions? ==> resp.n == |Records(body.value).value|
    {
      if body.None? {
        return BadRequest(InvalidJson);
      }
      var framed := ValidateAndFrame(body.value, features, lib.parse);
      if framed.Failure? {
        return BadRequest(framed.error);
      }
      var x := framed.value.Numbers();
      var input := ModelInput(scaler, lib, x);
      if input.Failure? {
        return BadRequest(input.error);
      }
      var preds := lib.predict(model, input.value);
      if preds.None? {
        return BadRequest(PredictFailed);
      }
      resp := Predictions(preds.value, |x.rows|);
    }
  }

  /** Lines 53-54: the artifacts are loaded when the application is created;
      a load error means there is no application. */
  method CreateApp(files: map<Path, Artifact>, lib: Library) returns (r: Result<Server, PyError>)
    ensures r.Success? <==> LoadArtifacts(files).Success?
    ensures r.Failure? ==> r.error == LoadArtifacts(files).error
    ensures r.Success? ==>
              var loaded := LoadArtifacts(files).value;
              r.value.features == loaded.features && r.value.model == loaded.model &&
              r.value.scaler == loaded.scaler && r.value.lib == lib
  {
    var loaded :- LoadArtifacts(files);
    var server := new Server(loaded, lib);
    return Success(server);
  }
}
