/** The request handlers of predictions/views.py: CSV upload, manual and batch
    prediction, and the crop-information lookup. The database is a `Store` object
    whose tables are sequences of rows; the classifier is a `CropPredictionModel`
    together with its probability function. */
module Views {
  import opened Wrappers
  import opened Strings
  import opened Models
  import opened Serializers
  import opened MlModel

  // ---------------------------------------------------------------------------
  // Generic sequence helpers
  // ---------------------------------------------------------------------------

  /** The elements of `s` that `keep` accepts, in their order. */
  function Filter<T(!new)>(s: seq<T>, keep: T -> bool): (r: seq<T>)
    ensures |r| <= |s|
    ensures forall x :: x in r <==> x in s && keep(x)
    decreases |s|
  {
    if |s| == 0 then []
    else
      var rest := Filter(s[1..], keep);
      assert forall x :: x in s <==> x == s[0] || x in s[1..];
      if keep(s[0]) then [s[0]] + rest else rest
  }

  /** Filtering keeps a sequence whose every element is accepted. */
  lemma {:induction false} FilterKeepsAll<T(!new)>(s: seq<T>, keep: T -> bool)
    requires forall i :: 0 <= i < |s| ==> keep(s[i])
    ensures Filter(s, keep) == s
    decreases |s|
  {
    if |s| > 0 {
      FilterKeepsAll(s[1..], keep);
      assert [s[0]] + s[1..] == s;
    }
  }

  /** `s` is `t` with some elements left out, the rest in their order. */
  predicate IsSubsequence<T(==)>(s: seq<T>, t: seq<T>)
    decreases |t|
  {
    if |s| == 0 then true
    else if |t| == 0 then false
    else if s[0] == t[0] then IsSubsequence(s[1..], t[1..])
    else IsSubsequence(s, t[1..])
  }

  lemma {:induction false} SubsequencePrepend<T>(a: seq<T>, t: seq<T>, x: T)
    requires IsSubsequence(a, t)
    ensures IsSubsequence(a, [x] + t)
    decreases |t|, 1
  {
    var u := [x] + t;
    assert u[1..] == t;
    if |a| > 0 && a[0] == x {
      SubsequenceDropFirst(a, t);
    }
  }

  lemma {:induction false} SubsequenceDropFirst<T>(a: seq<T>, t: seq<T>)
    requires |a| > 0 && IsSubsequence(a, t)
    ensures IsSubsequence(a[1..], t)
    decreases |t|, 0
  {
    assert |t| > 0;
    if a[0] == t[0] {
      SubsequencePrepend(a[1..], t[1..], t[0]);
    } else {
      SubsequenceDropFirst(a, t[1..]);
      SubsequencePrepend(a[1..], t[1..], t[0]);
    }
    assert [t[0]] + t[1..] == t;
  }

  /** A filter keeps its elements in their original order. */
  lemma {:induction false} FilterIsSubsequence<T(!new)>(s: seq<T>, keep: T -> bool)
    ensures IsSubsequence(Filter(s, keep), s)
    decreases |s|
  {
    if |s| > 0 {
      FilterIsSubsequence(s[1..], keep);
      var r := Filter(s, keep);
      if keep(s[0]) {
        assert r[0] == s[0] && r[1..] == Filter(s[1..], keep);
      } else {
        SubsequencePrepend(r, s[1..], s[0]);
        assert [s[0]] + s[1..] == s;
      }
    }
  }

  /** `key` strictly increases along `s`; in particular no two elements share a key. */
  predicate Increasing<T>(s: seq<T>, key: T -> int)
  {
    forall i, j :: 0 <= i < j < |s| ==> key(s[i]) < key(s[j])
  }

  lemma IncreasingTail<T>(s: seq<T>, key: T -> int)
    requires |s| > 0 && Increasing(s, key)
    ensures Increasing(s[1..], key)
    ensures forall j :: 0 <= j < |s[1..]| ==> key(s[0]) < key(s[1..][j])
  {
    var tail := s[1..];
    forall i, j | 0 <= i < j < |tail| ensures key(tail[i]) < key(tail[j]) {
      assert tail[i] == s[i + 1] && tail[j] == s[j + 1];
    }
    forall j | 0 <= j < |tail| ensures key(s[0]) < key(tail[j]) {
      assert tail[j] == s[j + 1];
    }
  }

  /** A filter of an increasing sequence is increasing. */
  lemma {:induction false} FilterKeepsIncreasing<T(!new)>(s: seq<T>, keep: T -> bool, key: T -> int)
    requires Increasing(s, key)
    ensures Increasing(Filter(s, keep), key)
    decreases |s|
  {
    if |s| > 0 {
      var tail := s[1..];
      IncreasingTail(s, key);
      FilterKeepsIncreasing(tail, keep, key);
      if keep(s[0]) {
        var rest := Filter(tail, keep);
        var r := [s[0]] + rest;
        forall y | y in rest ensures key(s[0]) < key(y) {
          var j :| 0 <= j < |tail| && tail[j] == y;
          assert s[j + 1] == y;
        }
        forall i, j | 0 <= i < j < |r| ensures key(r[i]) < key(r[j]) {
          assert r[j] == rest[j - 1] && r[j] in rest;
          if i > 0 {
            assert r[i] == rest[i - 1];
          }
        }
      }
    }
  }

  /** Appending keys that all lie at or above every earlier key keeps the order. */
  lemma IncreasingAppend<T>(a: seq<T>, b: seq<T>, key: T -> int, bound: int)
    requires Increasing(a, key) && Increasing(b, key)
    requires forall i :: 0 <= i < |a| ==> key(a[i]) < bound
    requires forall j :: 0 <= j < |b| ==> bound <= key(b[j])
    ensures Increasing(a + b, key)
  {
    var c := a + b;
    forall i, j | 0 <= i < j < |c| ensures key(c[i]) < key(c[j]) {
      if j < |a| {
        assert c[i] == a[i] && c[j] == a[j];
      } else if i < |a| {
        assert c[i] == a[i] && c[j] == b[j - |a|];
      } else {
        assert c[i] == b[i - |a|] && c[j] == b[j - |a|];
      }
    }
  }

  // ---------------------------------------------------------------------------
  // The database (models.py's three tables)
  // ---------------------------------------------------------------------------

  /** A `Dataset` row; `file` is the storage path `upload_to` gives it. */
  datatype DatasetRow = DatasetRow(id: nat, user: nat, name: string, file: string, fileSize: int, rowsCount: nat)

  /** A `SoilData` row; `dataset` is None for a manual entry. */
  datatype SoilRow = SoilRow(id: nat, user: nat, dataset: Option<nat>, data: Measurements)

  /** The result fields of a `Prediction` row. */
  datatype Slots = Slots(predictedCrop: string, confidenceScore: real,
                         secondCrop: Option<string>, secondConfidence: Option<real>,
                         thirdCrop: Option<string>, thirdConfidence: Option<real>)

  /** A `Prediction` row. */
  datatype PredictionRow = PredictionRow(id: nat, user: nat, dataset: Option<nat>, soilData: nat,
                                         slots: Slots, modelVersion: string)

  const ModelVersion: string := "1.0"

  function DatasetId(d: DatasetRow): int { d.id }
  function SoilId(s: SoilRow): int { s.id }
  function PredictionId(p: PredictionRow): int { p.id }

  /** Rows created in one `bulk_create`, with consecutive fresh ids from `start`. */
  function NewSoilRows(start: nat, user: nat, dataset: Option<nat>, ms: seq<Measurements>): (r: seq<SoilRow>)
    ensures |r| == |ms|
    ensures forall i :: 0 <= i < |ms| ==> r[i] == SoilRow(start + i, user, dataset, ms[i])
  {
    seq(|ms|, i requires 0 <= i < |ms| => SoilRow(start + i, user, dataset, ms[i]))
  }

  function NewPredictionRows(start: nat, user: nat, dataset: Option<nat>, items: seq<(nat, Slots)>): (r: seq<PredictionRow>)
    ensures |r| == |items|
    ensures forall i :: 0 <= i < |items| ==>
      r[i] == PredictionRow(start + i, user, dataset, items[i].0, items[i].1, ModelVersion)
  {
    seq(|items|, i requires 0 <= i < |items| => PredictionRow(start + i, user, dataset, items[i].0, items[i].1, ModelVersion))
  }

  /** A `bulk_create` of soil rows issues distinct increasing ids, all drawn from
      `start .. start + |ms|`, and keeps the records' order and owner. */
  lemma NewSoilRowsFresh(start: nat, user: nat, dataset: Option<nat>, ms: seq<Measurements>)
    ensures var r := NewSoilRows(start, user, dataset, ms);
      && Increasing(r, SoilId)
      && (forall i :: 0 <= i < |r| ==> start <= r[i].id < start + |ms|)
      && (forall i :: 0 <= i < |r| ==> r[i].user == user && r[i].dataset == dataset && r[i].data == ms[i])
  {
  }

  /** Likewise for prediction rows, one per (soil row, slots) pair. */
  lemma NewPredictionRowsFresh(start: nat, user: nat, dataset: Option<nat>, items: seq<(nat, Slots)>)
    ensures var r := NewPredictionRows(start, user, dataset, items);
      && Increasing(r, PredictionId)
      && (forall i :: 0 <= i < |r| ==> start <= r[i].id < start + |items|)
      && (forall i :: 0 <= i < |r| ==>
            r[i].dataset == dataset && r[i].soilData == items[i].0 && r[i].slots == items[i].1)
  {
  }

  /** The ids of the soil rows of a dataset, which its deletion cascades to. */
  function SoilIdsOf(soil: seq<SoilRow>, datasetId: nat): (r: set<nat>)
    ensures forall id :: id in r <==> exists s :: s in soil && s.dataset == Some(datasetId) && s.id == id
    decreases |soil|
  {
    if |soil| == 0 then {}
    else
      assert forall x :: x in soil <==> x == soil[0] || x in soil[1..];
      (if soil[0].dataset == Some(datasetId) then {soil[0].id} else {}) + SoilIdsOf(soil[1..], datasetId)
  }

  /** What deleting dataset `id` keeps of each table. */
  function KeepDataset(id: nat): DatasetRow -> bool
  {
    (d: DatasetRow) => d.id != id
  }

  function KeepSoil(id: nat): SoilRow -> bool
  {
    (s: SoilRow) => s.dataset != Some(id)
  }

  function KeepPrediction(id: nat, goneSoil: set<nat>): PredictionRow -> bool
  {
    (p: PredictionRow) => p.dataset != Some(id) && p.soilData !in goneSoil
  }

  /** The database. Ids come from one counter, so every id is fresh when issued. */
  class Store {
    var datasets: seq<DatasetRow>
    var soil: seq<SoilRow>
    var predictions: seq<PredictionRow>
    var nextId: nat

    /** Every id and every reference was issued before `nextId`, and each table
        lists its rows in the order they were created, so by increasing id. */
    predicate Valid()
      reads this
    {
      && Increasing(datasets, DatasetId)
      && Increasing(soil, SoilId)
      && Increasing(predictions, PredictionId)
      && (forall d :: d in datasets ==> d.id < nextId)
      && (forall s :: s in soil ==> s.id < nextId && (s.dataset.Some? ==> s.dataset.value < nextId))
      && (forall p :: p in predictions ==>
            && p.id < nextId && p.soilData < nextId
            && (p.dataset.Some? ==> p.dataset.value < nextId))
    }

    constructor()
      ensures Valid()
      ensures datasets == [] && soil == [] && predictions == [] && nextId == 0
    {
      datasets, soil, predictions, nextId := [], [], [], 0;
    }

    /** `DatasetSerializer.save(user=…, file_size=…)`: the file is stored under `upload_to`. */
    method CreateDataset(user: nat, name: string, fileSize: int) returns (id: nat)
      requires Valid()
      modifies this
      ensures Valid()
      ensures id == old(nextId) && nextId == id + 1
      ensures datasets == old(datasets) + [DatasetRow(id, user, name, UploadTo(user, name), fileSize, 0)]
      ensures soil == old(soil) && predictions == old(predictions)
    {
      id := nextId;
      IncreasingAppend(datasets, [DatasetRow(id, user, name, UploadTo(user, name), fileSize, 0)], DatasetId, id);
      datasets := datasets + [DatasetRow(id, user, name, UploadTo(user, name), fileSize, 0)];
      nextId := nextId + 1;
    }

    /** `dataset.rows_count = …; dataset.save()`. */
    method SetRowsCount(id: nat, count: nat)
      requires Valid()
      modifies this
      ensures Valid()
      ensures |datasets| == |old(datasets)|
      ensures forall i :: 0 <= i < |datasets| ==>
        datasets[i] == if old(datasets)[i].id == id then old(datasets)[i].(rowsCount := count) else old(datasets)[i]
      ensures soil == old(soil) && predictions == old(predictions) && nextId == old(nextId)
    {
      datasets := seq(|datasets|, i requires 0 <= i < |datasets| reads this =>
        if datasets[i].id == id then datasets[i].(rowsCount := count) else datasets[i]);
    }

    /** `dataset.delete()`: the row goes, and the cascade removes its soil rows and
        every prediction tied to the dataset or to one of those soil rows. */
    method DeleteDataset(id: nat)
      requires Valid()
      modifies this
      ensures Valid()
      ensures datasets == Filter(old(datasets), KeepDataset(id))
      ensures soil == Filter(old(soil), KeepSoil(id))
      ensures predictions == Filter(old(predictions), KeepPrediction(id, SoilIdsOf(old(soil), id)))
      ensures nextId == old(nextId)
    {
      var gone := SoilIdsOf(soil, id);
      FilterKeepsIncreasing(datasets, KeepDataset(id), DatasetId);
      FilterKeepsIncreasing(soil, KeepSoil(id), SoilId);
      FilterKeepsIncreasing(predictions, KeepPrediction(id, gone), PredictionId);
      datasets := Filter(datasets, KeepDataset(id));
      soil := Filter(soil, KeepSoil(id));
      predictions := Filter(predictions, KeepPrediction(id, gone));
    }

    /** `SoilData.objects.bulk_create(records)`. */
    method BulkCreateSoil(user: nat, dataset: Option<nat>, ms: seq<Measurements>)
      requires Valid()
      requires dataset.Some? ==> dataset.value < nextId
      modifies this
      ensures Valid()
      ensures soil == old(soil) + NewSoilRows(old(nextId), user, dataset, ms)
      ensures nextId == old(nextId) + |ms|
      ensures datasets == old(datasets) && predictions == old(predictions)
    {
      NewSoilRowsFresh(nextId, user, dataset, ms);
      IncreasingAppend(soil, NewSoilRows(nextId, user, dataset, ms), SoilId, nextId);
      soil := soil + NewSoilRows(nextId, user, dataset, ms);
      nextId := nextId + |ms|;
    }

    /** `SoilData.objects.create(…)`. */
    method CreateSoil(user: nat, dataset: Option<nat>, m: Measurements) returns (id: nat)
      requires Valid()
      requires dataset.Some? ==> dataset.value < nextId
      modifies this
      ensures Valid()
      ensures id == old(nextId) && nextId == id + 1
      ensures soil == old(soil) + [SoilRow(id, user, dataset, m)]
      ensures datasets == old(datasets) && predictions == old(predictions)
    {
      id := nextId;
      IncreasingAppend(soil, [SoilRow(id, user, dataset, m)], SoilId, id);
      soil := soil + [SoilRow(id, user, dataset, m)];
      nextId := nextId + 1;
    }

    /** `Prediction.objects.create(…)`. */
    method CreatePrediction(user: nat, dataset: Option<nat>, soilId: nat, slots: Slots) returns (id: nat)
      requires Valid()
      requires dataset.Some? ==> dataset.value < nextId
      requires soilId < nextId
      modifies this
      ensures Valid()
      ensures id == old(nextId) && nextId == id + 1
      ensures predictions == old(predictions) + [PredictionRow(id, user, dataset, soilId, slots, ModelVersion)]
      ensures datasets == old(datasets) && soil == old(soil)
    {
      id := nextId;
      IncreasingAppend(predictions, [PredictionRow(id, user, dataset, soilId, slots, ModelVersion)], PredictionId, id);
      predictions := predictions + [PredictionRow(id, user, dataset, soilId, slots, ModelVersion)];
      nextId := nextId + 1;
    }

    /** `Prediction.objects.bulk_create(records)`; one (soil row, slots) pair per record. */
    method BulkCreatePredictions(user: nat, dataset: Option<nat>, items: seq<(nat, Slots)>)
      requires Valid()
      requires dataset.Some? ==> dataset.value < nextId
      requires forall i :: 0 <= i < |items| ==> items[i].0 < nextId
      modifies this
      ensures Valid()
      ensures predictions == old(predictions) + NewPredictionRows(old(nextId), user, dataset, items)
      ensures nextId == old(nextId) + |items|
      ensures datasets == old(datasets) && soil == old(soil)
    {
      NewPredictionRowsFresh(nextId, user, dataset, items);
      IncreasingAppend(predictions, NewPredictionRows(nextId, user, dataset, items), PredictionId, nextId);
      predictions := predictions + NewPredictionRows(nextId, user, dataset, items);
      nextId := nextId + |items|;
    }
  }

  /** Deleting a dataset created after everything else in a valid store, before
      anything refers to it, gives back the tables as they were: its own row goes, ... */
  lemma DeleteFreshDatasetRow(datasets: seq<DatasetRow>, created: DatasetRow, nextId: nat)
    requires forall d :: d in datasets ==> d.id < nextId
    requires created.id == nextId
    ensures Filter(datasets + [created], KeepDataset(nextId)) == datasets
  {
    FilterDropLast(datasets, created, KeepDataset(nextId));
    FilterKeepsAll(datasets, KeepDataset(nextId));
  }

  /** ... no soil row is cascaded to, ... */
  lemma DeleteFreshDatasetSoil(soil: seq<SoilRow>, nextId: nat)
    requires forall s :: s in soil ==> s.dataset.Some? ==> s.dataset.value < nextId
    ensures SoilIdsOf(soil, nextId) == {}
    ensures Filter(soil, KeepSoil(nextId)) == soil
  {
    assert forall s :: s in soil ==> s.dataset != Some(nextId);
    FilterKeepsAll(soil, KeepSoil(nextId));
  }

  /** ... and no prediction either. */
  lemma DeleteFreshDatasetPredictions(soil: seq<SoilRow>, predictions: seq<PredictionRow>, nextId: nat)
    requires forall s :: s in soil ==> s.dataset.Some? ==> s.dataset.value < nextId
    requires forall p :: p in predictions ==> p.dataset.Some? ==> p.dataset.value < nextId
    ensures Filter(predictions, KeepPrediction(nextId, SoilIdsOf(soil, nextId))) == predictions
  {
    DeleteFreshDatasetSoil(soil, nextId);
    FilterKeepsAll(predictions, KeepPrediction(nextId, SoilIdsOf(soil, nextId)));
  }

  lemma {:induction false} FilterDropLast<T(!new)>(s: seq<T>, x: T, keep: T -> bool)
    requires !keep(x)
    ensures Filter(s + [x], keep) == Filter(s, keep)
    decreases |s|
  {
    if |s| == 0 {
      assert (s + [x])[1..] == [];
    } else {
      assert (s + [x])[0] == s[0] && (s + [x])[1..] == s[1..] + [x];
      FilterDropLast(s[1..], x, keep);
    }
  }

  // ---------------------------------------------------------------------------
  // upload_csv (lines 49-122)
  // ---------------------------------------------------------------------------

  /** `required_columns`. */
  const RequiredColumns: seq<string> := ["N", "P", "K", "temperature", "humidity", "ph", "rainfall"]

  /** `missing_columns`: the required columns absent from the header, in the
      order of `required_columns`. */
  function MissingColumns(header: seq<string>): (r: seq<string>)
    ensures forall c :: c in r <==> c in RequiredColumns && c !in header
    ensures IsSubsequence(r, RequiredColumns)
  {
    FilterIsSubsequence(RequiredColumns, (c: string) => c !in header);
    Filter(RequiredColumns, (c: string) => c !in header)
  }

  /** A cell of the parsed frame: a number, or text `float()` refuses. */
  datatype Cell = Num(value: real) | Text(text: string)

  /** What aborts a row's conversion: `row[c]` raising KeyError, or `float()`
      raising ValueError. */
  datatype RowError = MissingKey(column: string) | NotAFloat(column: string)

  predicate Convertible(row: map<string, Cell>, c: string)
  {
    c in row && row[c].Num?
  }

  function CellError(row: map<string, Cell>, c: string): RowError
  {
    if c !in row then MissingKey(c) else NotAFloat(c)
  }

  /** `float(row[c])` for each column in turn, stopping at the first that raises. */
  function ColumnValues(row: map<string, Cell>, cols: seq<string>): (r: Result<seq<real>, RowError>)
    ensures r.Success? <==> forall i :: 0 <= i < |cols| ==> Convertible(row, cols[i])
    ensures r.Success? ==> |r.value| == |cols| && forall i :: 0 <= i < |cols| ==> r.value[i] == row[cols[i]].value
    ensures r.Failure? ==> exists i :: (0 <= i < |cols| && !Convertible(row, cols[i]) &&
      r.error == CellError(row, cols[i]) && forall j :: 0 <= j < i ==> Convertible(row, cols[j]))
    decreases |cols|
  {
    if |cols| == 0 then Success([])
    else if !Convertible(row, cols[0]) then Failure(CellError(row, cols[0]))
    else
      assert forall i :: 1 <= i < |cols| ==> cols[i] == cols[1..][i - 1];
      match ColumnValues(row, cols[1..])
      case Failure(e) =>
        var k :| 0 <= k < |cols[1..]| && !Convertible(row, cols[1..][k]) && e == CellError(row, cols[1..][k]) &&
          forall j :: 0 <= j < k ==> Convertible(row, cols[1..][j]);
        assert !Convertible(row, cols[k + 1]) && forall j :: 0 <= j < k + 1 ==> Convertible(row, cols[j]);
        Failure(e)
      case Success(vs) => Success([row[cols[0]].value] + vs)
  }

  /** The `SoilData(...)` built from one row: N, P, K, temperature, humidity, ph and
      rainfall become nitrogen, phosphorus, potassium, temperature, humidity, ph
      and rainfall. */
  function ConvertRow(row: map<string, Cell>): (r: Result<Measurements, RowError>)
  {
    match ColumnValues(row, RequiredColumns)
    case Failure(e) => Failure(e)
    case Success(v) => Success(Measurements(v[0], v[1], v[2], v[3], v[4], v[5], v[6]))
  }

  /** Applies `f` to each element in turn: every result, or the error of the first
      element that fails. */
  function Traverse<A, B, E>(xs: seq<A>, f: A -> Result<B, E>): (r: Result<seq<B>, E>)
    ensures r.Success? <==> forall i :: 0 <= i < |xs| ==> f(xs[i]).Success?
    ensures r.Success? ==> |r.value| == |xs| && forall i :: 0 <= i < |xs| ==> r.value[i] == f(xs[i]).value
    ensures r.Failure? ==> exists i :: (0 <= i < |xs| && f(xs[i]).Failure? &&
      r.error == f(xs[i]).error && forall j :: 0 <= j < i ==> f(xs[j]).Success?)
    decreases |xs|
  {
    if |xs| == 0 then Success([])
    else
      match Traverse(xs[..|xs| - 1], f)
      case Failure(e) => Failure(e)
      case Success(ys) =>
        match f(xs[|xs| - 1])
        case Failure(e) => Failure(e)
        case Success(y) => Success(ys + [y])
  }

  lemma {:induction false} TraverseFailureSticks<A, B, E>(xs: seq<A>, f: A -> Result<B, E>, n: nat)
    requires n <= |xs|
    requires Traverse(xs[..n], f).Failure?
    ensures Traverse(xs, f) == Traverse(xs[..n], f)
    decreases |xs| - n
  {
    if n < |xs| {
      assert xs[..n + 1][..n] == xs[..n];
      TraverseFailureSticks(xs, f, n + 1);
    } else {
      assert xs[..n] == xs;
    }
  }

  /** One more element: its result appended, or its error once the prefix succeeded. */
  lemma TraverseSnoc<A, B, E>(xs: seq<A>, f: A -> Result<B, E>, i: nat)
    requires i < |xs|
    ensures Traverse(xs[..i + 1], f) ==
      match Traverse(xs[..i], f)
      case Failure(e) => Failure(e)
      case Success(ys) =>
        match f(xs[i])
        case Failure(e) => Failure(e)
        case Success(y) => Success(ys + [y])
  {
    assert xs[..i + 1][..i] == xs[..i];
  }

  /** The row loop: every row converted, or the error of the first row that fails. */
  function ConvertAll(rows: seq<map<string, Cell>>): Result<seq<Measurements>, RowError>
  {
    Traverse(rows, ConvertRow)
  }

  /** The loop of lines 84-103 that collects the converted records. */
  method ConvertRows(rows: seq<map<string, Cell>>) returns (r: Result<seq<Measurements>, RowError>)
    ensures r == ConvertAll(rows)
  {
    var records: seq<Measurements> := [];
    for i := 0 to |rows|
      invariant Traverse(rows[..i], ConvertRow) == Success(records)
    {
      assert rows[..i + 1][..i] == rows[..i];
      var converted := ConvertRow(rows[i]);
      if converted.Failure? {
        TraverseFailureSticks(rows, ConvertRow, i + 1);
        return Failure(converted.error);
      }
      records := records + [converted.value];
    }
    assert rows[..|rows|] == rows;
    r := Success(records);
  }

  /** The parsed CSV: its header and its rows by column name. */
  datatype CsvFrame = CsvFrame(columns: seq<string>, rows: seq<map<string, Cell>>)

  /** An uploaded file; `frame` is None when `pd.read_csv` raises. */
  datatype UploadedFile = UploadedFile(name: string, size: int, frame: Option<CsvFrame>)

  datatype UploadError =
    | NoFile                                   // 'No se encontró archivo'
    | NotCsv                                   // 'Solo se permiten archivos CSV'
    | InvalidFile(message: string)             // DatasetSerializer errors
    | MissingColumnsError(columns: seq<string>) // 'Columnas faltantes: …'
    | BadRow(error: RowError)                  // 'Error en los datos: …'
    | ProcessingError                          // 500 'Error procesando archivo: …'

  datatype UploadReply = UploadReply(datasetId: nat, rowsCount: nat)

  /** The checks made before any dataset exists: a file is present, its name ends
      in ".csv", and `DatasetSerializer` accepts it. */
  function UploadChecks(file: Option<UploadedFile>): (r: Result<UploadedFile, UploadError>)
    ensures r.Success? <==> file.Some? && EndsWith(file.value.name, CsvSuffix) && file.value.size <= MaxUploadBytes
    ensures r.Success? ==> r.value == file.value
  {
    if file.None? then Failure(NoFile)
    else if !EndsWith(file.value.name, ".csv") then Failure(NotCsv)
    else match ValidateFile(FileMeta(file.value.name, file.value.size))
      case Failure(msg) => Failure(InvalidFile(msg))
      case Success(_) => Success(file.value)
  }

  /** A missing file and a wrong name are told apart, and the view's own name check
      runs first, so the serializer's CSV message never reaches the client: the
      only serializer error an upload can show is the size one. */
  lemma UploadCheckOrder(file: Option<UploadedFile>)
    ensures file.None? ==> UploadChecks(file) == Failure(NoFile)
    ensures file.Some? && !EndsWith(file.value.name, CsvSuffix) ==> UploadChecks(file) == Failure(NotCsv)
    ensures UploadChecks(file).Failure? && UploadChecks(file).error.InvalidFile? ==>
      UploadChecks(file).error.message == TooLargeMessage
  {
  }

  /** Header check, then row conversion. */
  function ParseFrame(frame: CsvFrame): (r: Result<seq<Measurements>, UploadError>)
    ensures r.Success? <==> MissingColumns(frame.columns) == [] && ConvertAll(frame.rows).Success?
    ensures r.Success? ==> r.value == ConvertAll(frame.rows).value
    ensures MissingColumns(frame.columns) != [] ==> r == Failure(MissingColumnsError(MissingColumns(frame.columns)))
    ensures MissingColumns(frame.columns) == [] && ConvertAll(frame.rows).Failure? ==>
      r == Failure(BadRow(ConvertAll(frame.rows).error))
  {
    var missing := MissingColumns(frame.columns);
    if missing != [] then Failure(MissingColumnsError(missing))
    else match ConvertAll(frame.rows)
      case Failure(e) => Failure(BadRow(e))
      case Success(ms) => Success(ms)
  }

  /** The header is checked before any row is converted: with a column missing,
      the rows do not matter, and the error lists every missing column. */
  lemma ColumnsCheckedFirst(header: seq<string>, rows: seq<map<string, Cell>>, rows': seq<map<string, Cell>>)
    requires MissingColumns(header) != []
    ensures ParseFrame(CsvFrame(header, rows)) == ParseFrame(CsvFrame(header, rows'))
    ensures ParseFrame(CsvFrame(header, rows)).Failure?
    ensures forall c :: c in RequiredColumns && c !in header <==>
      c in ParseFrame(CsvFrame(header, rows)).error.columns
  {
  }

  const IngestCap: nat := 1000

  /** `soil_data_records[:1000]`. */
  function StoredRows(ms: seq<Measurements>): seq<Measurements>
  {
    ms[..Min(IngestCap, |ms|)]
  }

  /** The reported `rows_count` counts every parsed row, while only the first 1000
      are stored: the two agree exactly when there are at most 1000 rows. */
  lemma IngestCapVersusRowsCount(ms: seq<Measurements>)
    ensures |StoredRows(ms)| <= IngestCap && |StoredRows(ms)| <= |ms|
    ensures |StoredRows(ms)| == |ms| <==> |ms| <= IngestCap
    ensures forall i :: 0 <= i < |StoredRows(ms)| ==> StoredRows(ms)[i] == ms[i]
  {
  }

  /** The row `DatasetSerializer.save` creates. */
  function NewDataset(id: nat, user: nat, f: UploadedFile): DatasetRow
  {
    DatasetRow(id, user, f.name, UploadTo(user, f.name), f.size, 0)
  }

  /** `upload_csv`. */
  method UploadCsv(store: Store, user: nat, file: Option<UploadedFile>) returns (r: Result<UploadReply, UploadError>)
    requires store.Valid()
    modifies store
    ensures store.Valid()
    ensures UploadChecks(file).Failure? ==>
      && r == Failure(UploadChecks(file).error)
      && store.datasets == old(store.datasets) && store.soil == old(store.soil)
      && store.predictions == old(store.predictions) && store.nextId == old(store.nextId)
    ensures UploadChecks(file).Success? && file.value.frame.None? ==>
      && r == Failure(ProcessingError)
      && store.datasets == old(store.datasets) + [NewDataset(old(store.nextId), user, file.value)]
      && store.soil == old(store.soil) && store.predictions == old(store.predictions)
      && store.nextId == old(store.nextId) + 1
    ensures UploadChecks(file).Success? && file.value.frame.Some? && ParseFrame(file.value.frame.value).Failure? ==>
      && r == Failure(ParseFrame(file.value.frame.value).error)
      && store.datasets == old(store.datasets) && store.soil == old(store.soil)
      && store.predictions == old(store.predictions) && store.nextId == old(store.nextId) + 1
    ensures UploadChecks(file).Success? && file.value.frame.Some? && ParseFrame(file.value.frame.value).Success? ==>
      var id, ms := old(store.nextId), ParseFrame(file.value.frame.value).value;
      && r == Success(UploadReply(id, |ms|))
      && store.datasets == old(store.datasets) + [NewDataset(id, user, file.value).(rowsCount := |ms|)]
      && store.soil == old(store.soil) + NewSoilRows(id + 1, user, Some(id), StoredRows(ms))
      && store.predictions == old(store.predictions)
      && store.nextId == id + 1 + |StoredRows(ms)|
  {
    var checked := UploadChecks(file);
    if checked.Failure? {
      return Failure(checked.error);
    }
    var f := checked.value;
    var id := store.CreateDataset(user, f.name, f.size);
    assert store.datasets[|store.datasets| - 1] == NewDataset(id, user, f);
    if f.frame.None? {
      return Failure(ProcessingError);
    }
    r := IngestFrame(store, user, f.frame.value);
  }

  /** Lines 74-115, once the dataset row exists (it is the last one, and the
      newest id). */
  method IngestFrame(store: Store, user: nat, frame: CsvFrame) returns (r: Result<UploadReply, UploadError>)
    requires store.Valid()
    requires |store.datasets| > 0 && store.nextId > 0
    requires store.datasets[|store.datasets| - 1].id == store.nextId - 1
    requires forall d :: d in store.datasets[..|store.datasets| - 1] ==> d.id < store.nextId - 1
    requires forall s :: s in store.soil ==> s.dataset.Some? ==> s.dataset.value < store.nextId - 1
    requires forall p :: p in store.predictions ==> p.dataset.Some? ==> p.dataset.value < store.nextId - 1
    modifies store
    ensures store.Valid()
    ensures ParseFrame(frame).Failure? ==>
      && r == Failure(ParseFrame(frame).error)
      && store.datasets == old(store.datasets)[..|old(store.datasets)| - 1] && store.soil == old(store.soil)
      && store.predictions == old(store.predictions) && store.nextId == old(store.nextId)
    ensures ParseFrame(frame).Success? ==>
      var id, ms := old(store.nextId) - 1, ParseFrame(frame).value;
      && r == Success(UploadReply(id, |ms|))
      && store.datasets == old(store.datasets)[..|old(store.datasets)| - 1] +
                           [old(store.datasets)[|old(store.datasets)| - 1].(rowsCount := |ms|)]
      && store.soil == old(store.soil) + NewSoilRows(id + 1, user, Some(id), StoredRows(ms))
      && store.predictions == old(store.predictions)
      && store.nextId == id + 1 + |StoredRows(ms)|
  {
    var id := store.nextId - 1;
    var missing := MissingColumns(frame.columns);
    if missing != [] {
      DeleteCreated(store, id);
      return Failure(MissingColumnsError(missing));
    }
    var converted := ConvertRows(frame.rows);
    if converted.Failure? {
      DeleteCreated(store, id);
      return Failure(BadRow(converted.error));
    }
    var ms := converted.value;
    StoreParsed(store, user, id, ms);
    r := Success(UploadReply(id, |ms|));
  }

  /** Lines 105-108: the first thousand records stored, then `rows_count` set on
      the dataset just created. */
  method StoreParsed(store: Store, user: nat, id: nat, ms: seq<Measurements>)
    requires store.Valid()
    requires |store.datasets| > 0 && store.datasets[|store.datasets| - 1].id == id && id < store.nextId
    requires forall d :: d in store.datasets[..|store.datasets| - 1] ==> d.id < id
    modifies store
    ensures store.Valid()
    ensures store.datasets == old(store.datasets)[..|old(store.datasets)| - 1] +
                              [old(store.datasets)[|old(store.datasets)| - 1].(rowsCount := |ms|)]
    ensures store.soil == old(store.soil) + NewSoilRows(old(store.nextId), user, Some(id), StoredRows(ms))
    ensures store.predictions == old(store.predictions)
    ensures store.nextId == old(store.nextId) + |StoredRows(ms)|
  {
    store.BulkCreateSoil(user, Some(id), StoredRows(ms));
    ghost var ds := store.datasets;
    store.SetRowsCount(id, |ms|);
    assert ds == ds[..|ds| - 1] + [ds[|ds| - 1]];
    assert forall i :: 0 <= i < |ds| - 1 ==> ds[i] in ds[..|ds| - 1];
    assert store.datasets == ds[..|ds| - 1] + [ds[|ds| - 1].(rowsCount := |ms|)];
  }

  /** `dataset.delete()` on the dataset just created: the tables return to what
      they were before it. */
  method DeleteCreated(store: Store, id: nat)
    requires store.Valid()
    requires |store.datasets| > 0 && store.datasets[|store.datasets| - 1].id == id && id + 1 == store.nextId
    requires forall d :: d in store.datasets[..|store.datasets| - 1] ==> d.id < id
    requires forall s :: s in store.soil ==> s.dataset.Some? ==> s.dataset.value < id
    requires forall p :: p in store.predictions ==> p.dataset.Some? ==> p.dataset.value < id
    modifies store
    ensures store.Valid()
    ensures store.datasets == old(store.datasets)[..|old(store.datasets)| - 1]
    ensures store.soil == old(store.soil) && store.predictions == old(store.predictions)
    ensures store.nextId == old(store.nextId)
  {
    var ds := store.datasets;
    assert ds == ds[..|ds| - 1] + [ds[|ds| - 1]];
    DeleteFreshDatasetRow(ds[..|ds| - 1], ds[|ds| - 1], id);
    DeleteFreshDatasetSoil(store.soil, id);
    DeleteFreshDatasetPredictions(store.soil, store.predictions, id);
    store.DeleteDataset(id);
  }

  // ---------------------------------------------------------------------------
  // Record to feature dict and back (lines 90-96 and 185-193)
  // ---------------------------------------------------------------------------

  /** `soil_dict` of `predict_csv`: the record's fields under the CSV column names. */
  function SoilDict(m: Measurements): map<string, real>
  {
    map["N" := m.nitrogen, "P" := m.phosphorus, "K" := m.potassium, "temperature" := m.temperature,
        "humidity" := m.humidity, "ph" := m.ph, "rainfall" := m.rainfall]
  }

  /** A dict of numbers as a CSV row. */
  function AsCells(d: map<string, real>): map<string, Cell>
  {
    map k | k in d :: Num(d[k])
  }

  /** The record's values in column order. */
  function Vector(m: Measurements): (v: seq<real>)
    ensures |v| == |RequiredColumns|
    ensures forall i :: 0 <= i < |Params| ==> v[i] == Value(m, Params[i])
  {
    [m.nitrogen, m.phosphorus, m.potassium, m.temperature, m.humidity, m.ph, m.rainfall]
  }

  /** The dict holds each required column, with the record's value for it. */
  lemma SoilDictAt(m: Measurements)
    ensures forall i :: 0 <= i < |RequiredColumns| ==>
      RequiredColumns[i] in SoilDict(m) && SoilDict(m)[RequiredColumns[i]] == Vector(m)[i]
  {
    var d, v := SoilDict(m), Vector(m);
    forall i | 0 <= i < |RequiredColumns| ensures RequiredColumns[i] in d && d[RequiredColumns[i]] == v[i] {
      assert i in {0, 1, 2, 3, 4, 5, 6};
    }
  }

  /** A record written out as a CSV row under the required columns and read back
      by `upload_csv` is the same record. */
  lemma RecordRowRoundTrip(m: Measurements)
    ensures ConvertRow(AsCells(SoilDict(m))) == Success(m)
  {
    var row := AsCells(SoilDict(m));
    SoilDictAt(m);
    var r := ColumnValues(row, RequiredColumns);
    assert r.Success?;
    assert r.value == Vector(m);
  }

  /** A row `upload_csv` accepts gives a record whose `predict_csv` dict carries
      back every required column's value. */
  lemma RowRecordRoundTrip(row: map<string, Cell>)
    requires ConvertRow(row).Success?
    ensures forall c :: c in RequiredColumns ==>
      (c in row && row[c].Num? && c in SoilDict(ConvertRow(row).value) &&
       SoilDict(ConvertRow(row).value)[c] == row[c].value)
  {
    var r := ColumnValues(row, RequiredColumns);
    assert r.Success?;
    var m := ConvertRow(row).value;
    assert Vector(m) == r.value;
    SoilDictAt(m);
    forall c | c in RequiredColumns
      ensures c in row && row[c].Num? && c in SoilDict(m) && SoilDict(m)[c] == row[c].value
    {
      var i :| 0 <= i < |RequiredColumns| && RequiredColumns[i] == c;
      assert r.value[i] == row[c].value;
    }
  }

  /** `required_columns` lists the model's `feature_names` in the same order. */
  lemma ColumnsAreFeatures()
    ensures RequiredColumns == FeatureNames
  {
  }

  /** The dict `predict_csv` builds gives the classifier the record's fields in
      feature order. */
  lemma SoilDictFeatures(m: Measurements)
    ensures Features(FeatureDict(SoilDict(m))) ==
      Success(Vector(m))
  {
    ColumnsAreFeatures();
    SoilDictAt(m);
    var r := LookupAll(SoilDict(m), FeatureNames);
    assert r.Success?;
    assert r.value == Vector(m);
  }

  // ---------------------------------------------------------------------------
  // Slotting a result list into a Prediction row (lines 141-151, 201-212)
  // ---------------------------------------------------------------------------

  /** `predicted_crop = predictions[0]…` and the optional second and third slots;
      None where `predictions[0]` raises IndexError. */
  function SlotResults(rs: seq<CropResult>): Option<Slots>
  {
    if |rs| == 0 then None
    else Some(Slots(rs[0].crop, rs[0].confidence,
                    if |rs| > 1 then Some(rs[1].crop) else None,
                    if |rs| > 1 then Some(rs[1].confidence) else None,
                    if |rs| > 2 then Some(rs[2].crop) else None,
                    if |rs| > 2 then Some(rs[2].confidence) else None))
  }

  /** The (crop, confidence) pairs a prediction row holds, in slot order. */
  function Unslot(s: Slots): seq<(string, real)>
  {
    [(s.predictedCrop, s.confidenceScore)]
      + (if s.secondCrop.Some? && s.secondConfidence.Some? then [(s.secondCrop.value, s.secondConfidence.value)] else [])
      + (if s.thirdCrop.Some? && s.thirdConfidence.Some? then [(s.thirdCrop.value, s.thirdConfidence.value)] else [])
  }

  function Pairs(rs: seq<CropResult>): (r: seq<(string, real)>)
    ensures |r| == |rs| && forall i :: 0 <= i < |rs| ==> r[i] == (rs[i].crop, rs[i].confidence)
  {
    seq(|rs|, i requires 0 <= i < |rs| => (rs[i].crop, rs[i].confidence))
  }

  /** A non-empty list can be slotted; the row keeps exactly its first three
      (crop, confidence) pairs in order, and a slot is filled iff the list reaches it. */
  lemma SlotRoundTrip(rs: seq<CropResult>)
    ensures SlotResults(rs).Some? <==> |rs| > 0
    ensures |rs| > 0 ==> Unslot(SlotResults(rs).value) == Pairs(rs[..Min(3, |rs|)])
    ensures |rs| > 0 ==>
      && (SlotResults(rs).value.secondCrop.Some? <==> |rs| > 1)
      && (SlotResults(rs).value.secondConfidence.Some? <==> |rs| > 1)
      && (SlotResults(rs).value.thirdCrop.Some? <==> |rs| > 2)
      && (SlotResults(rs).value.thirdConfidence.Some? <==> |rs| > 2)
  {
    if |rs| > 0 {
      var u, p := Unslot(SlotResults(rs).value), Pairs(rs[..Min(3, |rs|)]);
      assert |u| == |p|;
      forall i | 0 <= i < |u| ensures u[i] == p[i] {
        assert i in {0, 1, 2};
      }
    }
  }

  // ---------------------------------------------------------------------------
  // predict_manual (lines 124-165)
  // ---------------------------------------------------------------------------

  /** Why a prediction request ends in a 500: `predict` raised, or it returned an
      empty list and `predictions[0]` raised IndexError. */
  datatype PredictFailure = Raised(error: PredictError) | NoResults

  datatype ManualError = InvalidInput(errors: seq<ManualFieldError>) | PredictionFailed(cause: PredictFailure)

  datatype ManualReply = ManualReply(predictionId: nat, predictions: seq<CropResult>, soilDataId: nat)

  /** `serializer.validated_data`: the declared fields only, under their own names. */
  function ValidatedData(m: Measurements): map<string, real>
  {
    map[FieldName(Nitrogen) := m.nitrogen, FieldName(Phosphorus) := m.phosphorus,
        FieldName(Potassium) := m.potassium, FieldName(Temperature) := m.temperature,
        FieldName(Humidity) := m.humidity, FieldName(Ph) := m.ph, FieldName(Rainfall) := m.rainfall]
  }

  /** The reply once the soil row `soilId` exists, for what `predict` did; the
      prediction row, when one is made, gets the next id. */
  function ManualReplyFor(outcome: Result<seq<CropResult>, PredictError>, soilId: nat): Result<ManualReply, ManualError>
  {
    match outcome
    case Failure(e) => Failure(PredictionFailed(Raised(e)))
    case Success(rs) =>
      if |rs| == 0 then Failure(PredictionFailed(NoResults)) else Success(ManualReply(soilId + 1, rs, soilId))
  }

  /** The dict `predict_manual` hands to `predict` lacks "N": `predict` raises
      KeyError('N') for every valid request. */
  lemma ManualPredictionAsWrittenFails(t: Tables, m: Measurements, proba: seq<real> -> seq<real>)
    ensures PredictWith(t, FeatureDict(ValidatedData(m)), proba) == Failure(MissingFeature("N"))
  {
    assert "N" !in ValidatedData(m);
    FeatureOrder(ValidatedData(m));
  }

  /** With the dict `predict_csv` uses, a manual request succeeds whenever the
      classifier has between 1 and 22 classes, and its reply is a top-three list. */
  lemma ManualPredictionCorrected(t: Tables, m: Measurements, proba: seq<real> -> seq<real>, soilId: nat)
    requires WellFormed(t)
    requires var p := proba(Vector(m));
      1 <= |p| <= |t.labels|
    ensures PredictWith(t, FeatureDict(SoilDict(m)), proba).Success?
    ensures ManualReplyFor(PredictWith(t, FeatureDict(SoilDict(m)), proba), soilId).Success?
    ensures TopThree(t,
      proba(Vector(m)),
      PredictWith(t, FeatureDict(SoilDict(m)), proba).value)
  {
    var input := FeatureDict(SoilDict(m));
    SoilDictFeatures(m);
    if PredictWith(t, input, proba).Failure? {
      PredictFailureCauses(t, input, proba);
    }
    PredictWithTopThree(t, input, proba);
  }

  /** The prediction row `predict_manual` stores after soil row `soilId`: one
      exactly when the reply is a success. */
  function ManualPredictionRows(outcome: Result<seq<CropResult>, PredictError>, soilId: nat, user: nat): (r: seq<PredictionRow>)
    ensures |r| <= 1
    ensures |r| == 1 <==> ManualReplyFor(outcome, soilId).Success?
  {
    if outcome.Success? && |outcome.value| > 0 then
      [PredictionRow(soilId + 1, user, None, soilId, SlotResults(outcome.value).value, ModelVersion)]
    else []
  }

  /** The stored row belongs to the user and soil row `soilId`, takes the next id,
      and its slots hold the reply's first three (crop, confidence) pairs in order. */
  lemma ManualPredictionRowContents(outcome: Result<seq<CropResult>, PredictError>, soilId: nat, user: nat)
    ensures var r := ManualPredictionRows(outcome, soilId, user);
      |r| == 1 ==>
        && outcome.Success? && |outcome.value| > 0
        && r[0].id == soilId + 1 && r[0].user == user && r[0].dataset == None
        && r[0].soilData == soilId && r[0].modelVersion == ModelVersion
        && Unslot(r[0].slots) == Pairs(outcome.value[..Min(3, |outcome.value|)])
  {
    if outcome.Success? {
      SlotRoundTrip(outcome.value);
    }
  }

  /** `predict_manual`, with the dict it passes to `predict` as a parameter. */
  method PredictManualVia(store: Store, ml: CropPredictionModel, user: nat, data: map<string, real>,
                          dictOf: Measurements -> map<string, real>, filesExist: bool, proba: seq<real> -> seq<real>)
    returns (r: Result<ManualReply, ManualError>)
    requires store.Valid()
    modifies store, ml
    ensures store.Valid()
    ensures store.datasets == old(store.datasets) && ml.tables == old(ml.tables)
    ensures ValidateManual(data).Failure? ==>
      && r == Failure(InvalidInput(ValidateManual(data).error))
      && store.soil == old(store.soil) && store.predictions == old(store.predictions)
      && store.nextId == old(store.nextId)
      && ml.model == old(ml.model) && ml.scaler == old(ml.scaler)
    ensures ValidateManual(data).Success? ==>
      r == ManualReplyFor(PredictWith(ml.tables, FeatureDict(dictOf(ValidateManual(data).value)), proba), old(store.nextId))
    ensures ValidateManual(data).Success? ==>
      store.soil == old(store.soil) + [SoilRow(old(store.nextId), user, None, ValidateManual(data).value)]
    ensures ValidateManual(data).Success? ==>
      var rows := ManualPredictionRows(PredictWith(ml.tables, FeatureDict(dictOf(ValidateManual(data).value)), proba), old(store.nextId), user);
      store.predictions == old(store.predictions) + rows && store.nextId == old(store.nextId) + 1 + |rows|
    ensures ValidateManual(data).Success? ==>
      (ml.model, ml.scaler) == PairAfterPredict(old(ml.model), old(ml.scaler), filesExist)
  {
    var validated := ValidateManual(data);
    if validated.Failure? {
      return Failure(InvalidInput(validated.error));
    }
    var m := validated.value;
    var soilId := store.CreateSoil(user, None, m);
    var predictions := ml.Predict(FeatureDict(dictOf(m)), filesExist, proba);
    r := RecordManualPrediction(store, user, soilId, predictions);
  }

  /** The `try` block of `predict_manual` after `predict` returned or raised: a
      prediction row for soil row `soilId` when there is a first result. */
  method RecordManualPrediction(store: Store, user: nat, soilId: nat, predictions: Result<seq<CropResult>, PredictError>)
    returns (r: Result<ManualReply, ManualError>)
    requires store.Valid() && soilId + 1 == store.nextId
    modifies store
    ensures store.Valid()
    ensures r == ManualReplyFor(predictions, soilId)
    ensures store.predictions == old(store.predictions) + ManualPredictionRows(predictions, soilId, user)
    ensures store.nextId == old(store.nextId) + |ManualPredictionRows(predictions, soilId, user)|
    ensures store.datasets == old(store.datasets) && store.soil == old(store.soil)
  {
    if predictions.Failure? {
      return Failure(PredictionFailed(Raised(predictions.error)));
    }
    var slots := SlotResults(predictions.value);
    if slots.None? {
      return Failure(PredictionFailed(NoResults));
    }
    var predictionId := store.CreatePrediction(user, None, soilId, slots.value);
    r := Success(ManualReply(predictionId, predictions.value, soilId));
  }

  /** `predict_manual` as written: `predict(serializer.validated_data)`. Every
      valid request stores its soil row and then fails. */
  method PredictManualAsWritten(store: Store, ml: CropPredictionModel, user: nat, data: map<string, real>,
                                filesExist: bool, proba: seq<real> -> seq<real>)
    returns (r: Result<ManualReply, ManualError>)
    requires store.Valid()
    modifies store, ml
    ensures store.Valid()
    ensures store.datasets == old(store.datasets) && ml.tables == old(ml.tables)
    ensures ValidateManual(data).Success? ==>
      && r == Failure(PredictionFailed(Raised(MissingFeature("N"))))
      && store.soil == old(store.soil) + [SoilRow(old(store.nextId), user, None, ValidateManual(data).value)]
      && store.predictions == old(store.predictions)
      && store.nextId == old(store.nextId) + 1
      && (ml.model, ml.scaler) == PairAfterPredict(old(ml.model), old(ml.scaler), filesExist)
    ensures ValidateManual(data).Failure? ==>
      && r == Failure(InvalidInput(ValidateManual(data).error))
      && store.soil == old(store.soil) && store.predictions == old(store.predictions)
      && store.nextId == old(store.nextId)
      && ml.model == old(ml.model) && ml.scaler == old(ml.scaler)
  {
    if ValidateManual(data).Success? {
      ManualPredictionAsWrittenFails(ml.tables, ValidateManual(data).value, proba);
    }
    r := PredictManualVia(store, ml, user, data, ValidatedData, filesExist, proba);
  }

  /** `predict_manual` passing the record under the feature names, as `predict_csv`
      does. */
  method PredictManual(store: Store, ml: CropPredictionModel, user: nat, data: map<string, real>,
                       filesExist: bool, proba: seq<real> -> seq<real>)
    returns (r: Result<ManualReply, ManualError>)
    requires store.Valid()
    modifies store, ml
    ensures store.Valid()
    ensures store.datasets == old(store.datasets) && ml.tables == old(ml.tables)
    ensures ValidateManual(data).Success? ==>
      var m, soilId := ValidateManual(data).value, old(store.nextId);
      var outcome := PredictWith(old(ml.tables), FeatureDict(SoilDict(m)), proba);
      var rows := ManualPredictionRows(outcome, soilId, user);
      && r == ManualReplyFor(outcome, soilId)
      && store.soil == old(store.soil) + [SoilRow(soilId, user, None, m)]
      && store.predictions == old(store.predictions) + rows
      && store.nextId == soilId + 1 + |rows|
      && (ml.model, ml.scaler) == PairAfterPredict(old(ml.model), old(ml.scaler), filesExist)
    ensures ValidateManual(data).Failure? ==>
      && r == Failure(InvalidInput(ValidateManual(data).error))
      && store.soil == old(store.soil) && store.predictions == old(store.predictions)
      && store.nextId == old(store.nextId)
      && ml.model == old(ml.model) && ml.scaler == old(ml.scaler)
  {
    r := PredictManualVia(store, ml, user, data, SoilDict, filesExist, proba);
  }

  // ---------------------------------------------------------------------------
  // predict_csv (lines 167-228)
  // ---------------------------------------------------------------------------

  /** One entry of `predictions_results`, with the row it stores. */
  datatype BatchItem = BatchItem(soilDataId: nat, predictions: seq<CropResult>, slots: Slots)

  /** `soil_data_records[:100]`. */
  const BatchCap: nat := 100

  /** `predictions_results[:10]`. */
  const ReplyWindow: nat := 10

  datatype CsvError = DatasetNotFound | NoSoilData | BatchFailed(cause: PredictFailure)

  datatype CsvReply = CsvReply(datasetId: nat, predictionsCount: nat, shown: seq<BatchItem>)

  /** `get_object_or_404(Dataset, id=…, user=…)` finds a row. */
  predicate OwnsDataset(datasets: seq<DatasetRow>, id: nat, user: nat)
  {
    exists i :: 0 <= i < |datasets| && datasets[i].id == id && datasets[i].user == user
  }

  function InDataset(id: nat): SoilRow -> bool
  {
    (s: SoilRow) => s.dataset == Some(id)
  }

  function Reversed<T>(s: seq<T>): (r: seq<T>)
    ensures |r| == |s| && forall i :: 0 <= i < |s| ==> r[i] == s[|s| - 1 - i]
  {
    seq(|s|, i requires 0 <= i < |s| => s[|s| - 1 - i])
  }

  /** `SoilData.objects.filter(dataset=dataset)`, newest first as the model's
      `-created_at` ordering gives it. */
  function DatasetRecords(soil: seq<SoilRow>, id: nat): (r: seq<SoilRow>)
    ensures forall s :: s in r <==> s in soil && s.dataset == Some(id)
  {
    var mine := Filter(soil, InDataset(id));
    assert forall s :: s in Reversed(mine) <==> s in mine by {
      forall s ensures s in Reversed(mine) ==> s in mine {
        if s in Reversed(mine) {
          var i :| 0 <= i < |mine| && Reversed(mine)[i] == s;
          assert mine[|mine| - 1 - i] == s;
        }
      }
      forall s ensures s in mine ==> s in Reversed(mine) {
        if s in mine {
          var i :| 0 <= i < |mine| && mine[i] == s;
          assert Reversed(mine)[|mine| - 1 - i] == s;
        }
      }
    }
    Reversed(mine)
  }

  /** When the soil table is in creation order, the records come newest first, by
      strictly decreasing id, and there is exactly one per soil row of the dataset. */
  lemma DatasetRecordsNewestFirst(soil: seq<SoilRow>, id: nat)
    requires Increasing(soil, SoilId)
    ensures var r := DatasetRecords(soil, id);
      && (forall i, j :: 0 <= i < j < |r| ==> r[i].id > r[j].id)
      && |r| == |SoilIdsOf(soil, id)|
  {
    var mine := Filter(soil, InDataset(id));
    FilterKeepsIncreasing(soil, InDataset(id), SoilId);
    SoilIdsCount(soil, id);
    var r := DatasetRecords(soil, id);
    forall i, j | 0 <= i < j < |r| ensures r[i].id > r[j].id {
      assert SoilId(mine[|mine| - 1 - j]) < SoilId(mine[|mine| - 1 - i]);
    }
  }

  /** Distinct ids: the dataset's soil ids are as many as its soil rows. */
  lemma {:induction false} SoilIdsCount(soil: seq<SoilRow>, id: nat)
    requires Increasing(soil, SoilId)
    ensures |SoilIdsOf(soil, id)| == |Filter(soil, InDataset(id))|
    decreases |soil|
  {
    if |soil| > 0 {
      var tail := soil[1..];
      IncreasingTail(soil, SoilId);
      SoilIdsCount(tail, id);
      if soil[0].dataset == Some(id) {
        forall x | x in tail ensures x.id != soil[0].id {
          var j :| 0 <= j < |tail| && tail[j] == x;
        }
        assert soil[0].id !in SoilIdsOf(tail, id);
      }
    }
  }

  /** The body of the row loop for one record: `predict(soil_dict)` and the row's
      slots, or why the request ends in a 500. */
  function PredictRow(t: Tables, proba: seq<real> -> seq<real>, s: SoilRow): Result<BatchItem, PredictFailure>
  {
    match PredictWith(t, FeatureDict(SoilDict(s.data)), proba)
    case Failure(e) => Failure(Raised(e))
    case Success(rs) =>
      match SlotResults(rs)
      case None => Failure(NoResults)
      case Some(slots) => Success(BatchItem(s.id, rs, slots))
  }

  /** A record yields an item exactly when `predict` answers it with a non-empty
      list; the item names the record and slots that list. */
  lemma PredictRowMeaning(t: Tables, proba: seq<real> -> seq<real>, s: SoilRow)
    ensures PredictRow(t, proba, s).Success? <==> (PredictWith(t, FeatureDict(SoilDict(s.data)), proba).Success? &&
      |PredictWith(t, FeatureDict(SoilDict(s.data)), proba).value| > 0)
    ensures PredictRow(t, proba, s).Success? ==> (PredictRow(t, proba, s).value.soilDataId == s.id &&
      PredictRow(t, proba, s).value.predictions == PredictWith(t, FeatureDict(SoilDict(s.data)), proba).value &&
      Some(PredictRow(t, proba, s).value.slots) == SlotResults(PredictRow(t, proba, s).value.predictions))
  {
  }

  function RowPredictor(t: Tables, proba: seq<real> -> seq<real>): SoilRow -> Result<BatchItem, PredictFailure>
  {
    (s: SoilRow) => PredictRow(t, proba, s)
  }

  /** The row loop: an item per record, or the failure of the first record that fails. */
  function PredictBatch(t: Tables, proba: seq<real> -> seq<real>, batch: seq<SoilRow>): Result<seq<BatchItem>, PredictFailure>
  {
    Traverse(batch, RowPredictor(t, proba))
  }

  /** The `(soil_data, slots)` of each `Prediction(…)` the loop builds. */
  function ItemRows(items: seq<BatchItem>): (r: seq<(nat, Slots)>)
    ensures |r| == |items| && forall i :: 0 <= i < |items| ==> r[i] == (items[i].soilDataId, items[i].slots)
  {
    seq(|items|, i requires 0 <= i < |items| => (items[i].soilDataId, items[i].slots))
  }

  /** The reply once the loop has run over `batch`. */
  function CsvReplyFor(datasetId: nat, outcome: Result<seq<BatchItem>, PredictFailure>): Result<CsvReply, CsvError>
  {
    match outcome
    case Failure(e) => Failure(BatchFailed(e))
    case Success(items) => Success(CsvReply(datasetId, |items|, items[..Min(ReplyWindow, |items|)]))
  }

  /** One pass of the row loop: `soil_dict`, `predict` and the row's slots. */
  method PredictRecord(ml: CropPredictionModel, s: SoilRow, filesExist: bool, proba: seq<real> -> seq<real>)
    returns (outcome: Result<BatchItem, PredictFailure>)
    modifies ml
    ensures outcome == PredictRow(ml.tables, proba, s)
    ensures ml.tables == old(ml.tables)
    ensures (ml.model, ml.scaler) == PairAfterPredict(old(ml.model), old(ml.scaler), filesExist)
  {
    var soilDict := SoilDict(s.data);
    var predictions := ml.Predict(FeatureDict(soilDict), filesExist, proba);
    outcome := match predictions
      case Failure(e) => Failure(Raised(e))
      case Success(rs) =>
        match SlotResults(rs)
        case None => Failure(NoResults)
        case Some(slots) => Success(BatchItem(s.id, rs, slots));
  }

  /** The loop of lines 184-213: `predict` for each record in turn, stopping at the
      first one that raises. */
  method RunBatch(ml: CropPredictionModel, batch: seq<SoilRow>, filesExist: bool, proba: seq<real> -> seq<real>)
    returns (res: Result<seq<BatchItem>, PredictFailure>)
    modifies ml
    ensures res == PredictBatch(ml.tables, proba, batch)
    ensures ml.tables == old(ml.tables)
    ensures (ml.model, ml.scaler) ==
      if |batch| == 0 then (old(ml.model), old(ml.scaler)) else PairAfterPredict(old(ml.model), old(ml.scaler), filesExist)
  {
    var items: seq<BatchItem> := [];
    ghost var t := ml.tables;
    ghost var f := RowPredictor(t, proba);
    for i := 0 to |batch|
      invariant ml.tables == t
      invariant Traverse(batch[..i], f) == Success(items)
      invariant (ml.model, ml.scaler) ==
        if i == 0 then (old(ml.model), old(ml.scaler)) else PairAfterPredict(old(ml.model), old(ml.scaler), filesExist)
    {
      TrainsAtMostOnce(old(ml.model), old(ml.scaler), filesExist, filesExist);
      var outcome := PredictRecord(ml, batch[i], filesExist, proba);
      assert outcome == f(batch[i]);
      TraverseSnoc(batch, f, i);
      if outcome.Failure? {
        TraverseFailureSticks(batch, f, i + 1);
        return Failure(outcome.error);
      }
      items := items + [outcome.value];
    }
    assert batch[..|batch|] == batch;
    res := Success(items);
  }

  /** `soil_data_records[:100]`: the first hundred records of the dataset. */
  function CsvBatch(soil: seq<SoilRow>, id: nat): (r: seq<SoilRow>)
    ensures |r| == Min(BatchCap, |DatasetRecords(soil, id)|)
    ensures r == DatasetRecords(soil, id)[..|r|]
    ensures forall s :: s in r ==> s in soil && s.dataset == Some(id)
  {
    var records := DatasetRecords(soil, id);
    var r := records[..Min(BatchCap, |records|)];
    assert forall s :: s in r ==> s in records by {
      forall s | s in r ensures s in records {
        var j :| 0 <= j < |r| && r[j] == s;
        assert records[j] == s;
      }
    }
    r
  }

  /** The prediction rows `bulk_create` stores: none unless every record succeeded. */
  function CsvPredictionRows(start: nat, user: nat, id: nat, outcome: Result<seq<BatchItem>, PredictFailure>): seq<PredictionRow>
  {
    if outcome.Success? then NewPredictionRows(start, user, Some(id), ItemRows(outcome.value)) else []
  }

  /** Each item is the prediction for its own record, in record order. */
  lemma BatchItemsFollowRecords(t: Tables, proba: seq<real> -> seq<real>, batch: seq<SoilRow>)
    requires PredictBatch(t, proba, batch).Success?
    ensures |PredictBatch(t, proba, batch).value| == |batch|
    ensures forall i :: 0 <= i < |batch| ==>
      && PredictBatch(t, proba, batch).value[i].soilDataId == batch[i].id
      && PredictBatch(t, proba, batch).value[i].predictions == PredictWith(t, FeatureDict(SoilDict(batch[i].data)), proba).value
  {
    var f := RowPredictor(t, proba);
    forall i | 0 <= i < |batch|
      ensures PredictBatch(t, proba, batch).value[i].soilDataId == batch[i].id
      ensures PredictBatch(t, proba, batch).value[i].predictions == PredictWith(t, FeatureDict(SoilDict(batch[i].data)), proba).value
    {
      assert f(batch[i]) == PredictRow(t, proba, batch[i]);
      PredictRowMeaning(t, proba, batch[i]);
    }
  }

  /** Whether `predict` gets a probability vector it can answer for the record:
      one to `|t.labels|` classes. */
  predicate Answerable(t: Tables, proba: seq<real> -> seq<real>, s: SoilRow)
  {
    var m := s.data;
    1 <= |proba(Vector(m))| <= |t.labels|
  }

  /** The batch fails only through a record `predict` cannot answer; when every
      record is answerable, every item is a top-three list for its record. */
  lemma BatchSucceeds(t: Tables, proba: seq<real> -> seq<real>, batch: seq<SoilRow>)
    requires WellFormed(t)
    requires forall i :: 0 <= i < |batch| ==> Answerable(t, proba, batch[i])
    ensures PredictBatch(t, proba, batch).Success?
    ensures forall i :: 0 <= i < |batch| ==>
      var m := batch[i].data;
      TopThree(t, proba(Vector(m)),
               PredictBatch(t, proba, batch).value[i].predictions)
  {
    var f := RowPredictor(t, proba);
    forall i | 0 <= i < |batch| ensures f(batch[i]).Success? {
      ManualPredictionCorrected(t, batch[i].data, proba, 0);
      assert f(batch[i]) == PredictRow(t, proba, batch[i]);
      PredictRowMeaning(t, proba, batch[i]);
    }
    BatchItemsFollowRecords(t, proba, batch);
    forall i | 0 <= i < |batch|
      ensures var m := batch[i].data;
        TopThree(t, proba(Vector(m)),
                 PredictBatch(t, proba, batch).value[i].predictions)
    {
      ManualPredictionCorrected(t, batch[i].data, proba, 0);
    }
  }

  /** At most a hundred records are processed, `predictions_count` is the number
      processed, the reply shows at most ten of them, and each stored row is the
      slotting of its record's prediction. */
  lemma CsvCaps(soil: seq<SoilRow>, id: nat, t: Tables, proba: seq<real> -> seq<real>, start: nat, user: nat)
    requires PredictBatch(t, proba, CsvBatch(soil, id)).Success?
    ensures var batch := CsvBatch(soil, id);
      var reply := CsvReplyFor(id, PredictBatch(t, proba, batch));
      && |batch| <= BatchCap
      && reply.Success? && reply.value.predictionsCount == |batch|
      && |reply.value.shown| == Min(ReplyWindow, |batch|)
      && reply.value.shown == PredictBatch(t, proba, batch).value[..|reply.value.shown|]
    ensures var batch := CsvBatch(soil, id);
      var rows := CsvPredictionRows(start, user, id, PredictBatch(t, proba, batch));
      && |rows| == |batch|
      && forall i :: 0 <= i < |batch| ==>
           rows[i] == PredictionRow(start + i, user, Some(id), batch[i].id,
                                    SlotResults(PredictBatch(t, proba, batch).value[i].predictions).value, ModelVersion)
  {
    var batch := CsvBatch(soil, id);
    BatchItemsFollowRecords(t, proba, batch);
    var f := RowPredictor(t, proba);
    forall i | 0 <= i < |batch|
      ensures Some(PredictBatch(t, proba, batch).value[i].slots) == SlotResults(PredictBatch(t, proba, batch).value[i].predictions)
    {
      assert f(batch[i]) == PredictRow(t, proba, batch[i]);
      PredictRowMeaning(t, proba, batch[i]);
    }
  }

  /** `bulk_create` and the reply, once the loop has run. */
  method RecordBatch(store: Store, user: nat, id: nat, batch: seq<SoilRow>, outcome: Result<seq<BatchItem>, PredictFailure>,
                     ghost t: Tables, ghost proba: seq<real> -> seq<real>)
    returns (r: Result<CsvReply, CsvError>)
    requires store.Valid() && id < store.nextId
    requires forall s :: s in batch ==> s in store.soil
    requires outcome == PredictBatch(t, proba, batch)
    modifies store
    ensures store.Valid()
    ensures r == CsvReplyFor(id, outcome)
    ensures store.predictions == old(store.predictions) + CsvPredictionRows(old(store.nextId), user, id, outcome)
    ensures store.nextId == old(store.nextId) + |CsvPredictionRows(old(store.nextId), user, id, outcome)|
    ensures store.datasets == old(store.datasets) && store.soil == old(store.soil)
  {
    if outcome.Failure? {
      return Failure(BatchFailed(outcome.error));
    }
    var items := outcome.value;
    BatchItemsFollowRecords(t, proba, batch);
    forall i | 0 <= i < |items| ensures ItemRows(items)[i].0 < store.nextId {
      assert batch[i] in store.soil;
    }
    store.BulkCreatePredictions(user, Some(id), ItemRows(items));
    r := Success(CsvReply(id, |items|, items[..Min(ReplyWindow, |items|)]));
  }

  /** `predict_csv(dataset_id)`: the user's dataset or 404, its records or 400, then
      `predict` for each of the first hundred; one that raises ends the request with
      a 500 and nothing stored. */
  method PredictCsv(store: Store, ml: CropPredictionModel, user: nat, id: nat, filesExist: bool, proba: seq<real> -> seq<real>)
    returns (r: Result<CsvReply, CsvError>)
    requires store.Valid()
    modifies store, ml
    ensures store.Valid()
    ensures store.datasets == old(store.datasets) && store.soil == old(store.soil)
    ensures ml.tables == old(ml.tables)
    ensures !OwnsDataset(old(store.datasets), id, user) ==>
      && r == Failure(DatasetNotFound)
      && store.predictions == old(store.predictions) && store.nextId == old(store.nextId)
      && ml.model == old(ml.model) && ml.scaler == old(ml.scaler)
    ensures OwnsDataset(old(store.datasets), id, user) && |DatasetRecords(old(store.soil), id)| == 0 ==>
      && r == Failure(NoSoilData)
      && store.predictions == old(store.predictions) && store.nextId == old(store.nextId)
      && ml.model == old(ml.model) && ml.scaler == old(ml.scaler)
    ensures OwnsDataset(old(store.datasets), id, user) && |DatasetRecords(old(store.soil), id)| > 0 ==>
      r == CsvReplyFor(id, PredictBatch(ml.tables, proba, CsvBatch(old(store.soil), id)))
    ensures OwnsDataset(old(store.datasets), id, user) && |DatasetRecords(old(store.soil), id)| > 0 ==>
      var rows := CsvPredictionRows(old(store.nextId), user, id, PredictBatch(ml.tables, proba, CsvBatch(old(store.soil), id)));
      store.predictions == old(store.predictions) + rows && store.nextId == old(store.nextId) + |rows|
    ensures OwnsDataset(old(store.datasets), id, user) && |DatasetRecords(old(store.soil), id)| > 0 ==>
      (ml.model, ml.scaler) == PairAfterPredict(old(ml.model), old(ml.scaler), filesExist)
  {
    if !OwnsDataset(store.datasets, id, user) {
      return Failure(DatasetNotFound);
    }
    var records := DatasetRecords(store.soil, id);
    if |records| == 0 {
      return Failure(NoSoilData);
    }
    var batch := CsvBatch(store.soil, id);
    var outcome := RunBatch(ml, batch, filesExist, proba);
    var k :| 0 <= k < |store.datasets| && store.datasets[k].id == id && store.datasets[k].user == user;
    assert store.datasets[k] in store.datasets;
    r := RecordBatch(store, user, id, batch, outcome, ml.tables, proba);
  }

  // ---------------------------------------------------------------------------
  // crop_info (lines 290-321)
  // ---------------------------------------------------------------------------

  datatype CropInfoReply = CropInfoReply(name: string, season: string, harvestTime: string, key: string,
                                         predictionsCount: nat, avgConfidence: real)

  /** A prediction `crop_info` counts: the user's, with `predicted_crop` the key. */
  predicate Counted(p: PredictionRow, user: nat, key: string)
  {
    p.user == user && p.slots.predictedCrop == key
  }

  /** The number of counted predictions and the sum of their confidences. */
  function CropStats(preds: seq<PredictionRow>, user: nat, key: string): (r: (nat, real))
    ensures r.0 <= |preds|
    ensures r.0 == 0 ==> forall i :: 0 <= i < |preds| ==> !Counted(preds[i], user, key)
    ensures r.0 == 0 ==> r.1 == 0.0
    decreases |preds|
  {
    if |preds| == 0 then (0, 0.0)
    else
      var (n, total) := CropStats(preds[..|preds| - 1], user, key);
      var p := preds[|preds| - 1];
      if Counted(p, user, key) then (n + 1, total + p.slots.confidenceScore) else (n, total)
  }

  /** `Avg(...) or 0`: no counted prediction gives 0. */
  function AvgConfidence(preds: seq<PredictionRow>, user: nat, key: string): real
  {
    var (n, total) := CropStats(preds, user, key);
    if n == 0 then 0.0 else total / (n as real)
  }

  /** `crop_info(crop_name)`: None for the 404 of an unknown crop. */
  function CropInfoView(t: Tables, preds: seq<PredictionRow>, user: nat, cropName: string): (r: Option<CropInfoReply>)
    ensures r.Some? <==> Lookup(t.info, AsciiLower(cropName)).Some?
    ensures r.Some? ==>
      var info := Lookup(t.info, AsciiLower(cropName)).value;
      && r.value.key == AsciiLower(cropName)
      && CropInfo(r.value.name, r.value.season, r.value.harvestTime) == info
      && r.value.predictionsCount == CropStats(preds, user, AsciiLower(cropName)).0
      && r.value.avgConfidence == AvgConfidence(preds, user, AsciiLower(cropName))
  {
    var key := AsciiLower(cropName);
    match Lookup(t.info, key)
    case None => None
    case Some(info) =>
      Some(CropInfoReply(info.name, info.season, info.harvestTime, key,
                         CropStats(preds, user, key).0, AvgConfidence(preds, user, key)))
  }

  /** The lookup ignores ASCII case. */
  lemma CropInfoCaseInsensitive(t: Tables, preds: seq<PredictionRow>, user: nat, cropName: string)
    ensures CropInfoView(t, preds, user, cropName) == CropInfoView(t, preds, user, AsciiLower(cropName))
  {
    assert AsciiLower(AsciiLower(cropName)) == AsciiLower(cropName);
  }

  /** The labels are lower case, so each is its own key. */
  lemma LabelsAreLowerCase(i: nat)
    requires i < |CropLabels|
    ensures AsciiLower(CropLabels[i]) == CropLabels[i]
  {
    var l := CropLabels[i];
    assert forall j :: 0 <= j < |l| ==> !IsUpper(l[j]);
  }

  /** Every crop `predict` can name has its information page. */
  lemma EveryLabelHasPage(preds: seq<PredictionRow>, user: nat, i: nat)
    requires i < |CropLabels|
    ensures CropInfoView(InitialTables, preds, user, CropLabels[i]).Some?
    ensures CropInfo(CropInfoView(InitialTables, preds, user, CropLabels[i]).value.name,
                     CropInfoView(InitialTables, preds, user, CropLabels[i]).value.season,
                     CropInfoView(InitialTables, preds, user, CropLabels[i]).value.harvestTime) == CropInfoEntries[i].1
  {
    LabelsAreLowerCase(i);
    EveryLabelHasInfo(i);
  }

  /** `n` copies of `x` added up. */
  function Times(n: nat, x: real): real
  {
    if n == 0 then 0.0 else Times(n - 1, x) + x
  }

  lemma {:induction false} TimesIsProduct(n: nat, x: real)
    ensures Times(n, x) == (n as real) * x
  {
    if n > 0 {
      TimesIsProduct(n - 1, x);
      assert (n as real) * x == ((n - 1) as real) * x + x;
    }
  }

  /** The count and the sum grow only by counted predictions, each adding its
      confidence, so a confidence bound on the counted predictions bounds the sum. */
  lemma {:induction false} CropStatsBounds(preds: seq<PredictionRow>, user: nat, key: string, lo: real, hi: real)
    requires forall i :: 0 <= i < |preds| && Counted(preds[i], user, key) ==>
      lo <= preds[i].slots.confidenceScore <= hi
    ensures Times(CropStats(preds, user, key).0, lo) <= CropStats(preds, user, key).1
    ensures CropStats(preds, user, key).1 <= Times(CropStats(preds, user, key).0, hi)
    decreases |preds|
  {
    if |preds| > 0 {
      var prefix := preds[..|preds| - 1];
      CropStatsBounds(prefix, user, key, lo, hi);
    }
  }

  /** `avg_confidence` lies between the lowest and the highest confidence of the
      counted predictions. */
  lemma AvgConfidenceBetween(preds: seq<PredictionRow>, user: nat, key: string, lo: real, hi: real)
    requires CropStats(preds, user, key).0 > 0
    requires forall i :: 0 <= i < |preds| && Counted(preds[i], user, key) ==>
      lo <= preds[i].slots.confidenceScore <= hi
    ensures lo <= AvgConfidence(preds, user, key) <= hi
  {
    var stats := CropStats(preds, user, key);
    CropStatsBounds(preds, user, key, lo, hi);
    QuotientBetween(stats.1, stats.0, lo, hi);
  }

  /** A sum of `n` values within [lo, hi], divided by `n`, is within [lo, hi]. */
  lemma QuotientBetween(total: real, n: nat, lo: real, hi: real)
    requires 0 < n && Times(n, lo) <= total <= Times(n, hi)
    ensures lo <= total / (n as real) <= hi
  {
    TimesIsProduct(n, lo);
    TimesIsProduct(n, hi);
    var c := n as real;
    var avg := total / c;
    assert avg * c == total;
    if avg < lo {
      MultiplyStrict(avg, lo, c);
    }
    if hi < avg {
      MultiplyStrict(hi, avg, c);
    }
  }

  lemma MultiplyStrict(a: real, b: real, c: real)
    requires a < b && 0.0 < c
    ensures a * c < b * c
  {
    assert b * c - a * c == (b - a) * c;
  }
}
