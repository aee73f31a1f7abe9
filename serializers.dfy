/** The validators of predictions/serializers.py: the uploaded-file gate, the
    cross-field check of a soil record, and the bounds of a manual prediction. */
module Serializers {
  import opened Wrappers
  import opened Strings
  import opened Models

  // ---------------------------------------------------------------------------
  // DatasetSerializer.validate_file
  // ---------------------------------------------------------------------------

  /** What the validator sees of an uploaded file: its name and its size in bytes. */
  datatype FileMeta = FileMeta(name: string, size: int)

  /** 10 MiB. */
  const MaxUploadBytes: int := 10 * 1024 * 1024

  const CsvSuffix: string := ".csv"
  const NotCsvMessage: string := "Solo se permiten archivos CSV."
  const TooLargeMessage: string := "El archivo es demasiado grande (máximo 10MB)."

  /** `DatasetSerializer.validate_file`: the extension is checked first, then the size. */
  function ValidateFile(f: FileMeta): (r: Result<FileMeta, string>)
    ensures r.Success? <==> EndsWith(f.name, CsvSuffix) && f.size <= MaxUploadBytes
    ensures r.Success? ==> r.value == f
    ensures r.Failure? ==> r.error == if EndsWith(f.name, CsvSuffix) then TooLargeMessage else NotCsvMessage
  {
    if !EndsWith(f.name, CsvSuffix) then Failure(NotCsvMessage)
    else if f.size > MaxUploadBytes then Failure(TooLargeMessage)
    else Success(f)
  }

  /** The cap is inclusive: exactly 10485760 bytes pass, one more byte does not,
      and an oversized file with the wrong name is refused for its name. */
  lemma FileSizeBoundary(name: string)
    ensures EndsWith(name, CsvSuffix) ==> ValidateFile(FileMeta(name, 10485760)).Success?
    ensures EndsWith(name, CsvSuffix) ==> ValidateFile(FileMeta(name, 10485761)) == Failure(TooLargeMessage)
    ensures !EndsWith(name, CsvSuffix) ==> ValidateFile(FileMeta(name, 10485761)) == Failure(NotCsvMessage)
  {
  }

  // ---------------------------------------------------------------------------
  // SoilDataSerializer.validate
  // ---------------------------------------------------------------------------

  /** One guard of `SoilDataSerializer.validate`: the field, its inclusive range and
      the message raised when the value falls outside it. */
  datatype SoilBound = SoilBound(param: Param, lo: real, hi: real, message: string)

  /** The guards in the order `validate` tries them. */
  const SoilBounds: seq<SoilBound> := [
    SoilBound(Nitrogen, 0.0, 500.0, "El nitrógeno debe estar entre 0 y 500 mg/kg"),
    SoilBound(Phosphorus, 0.0, 500.0, "El fósforo debe estar entre 0 y 500 mg/kg"),
    SoilBound(Potassium, 0.0, 500.0, "El potasio debe estar entre 0 y 500 mg/kg"),
    SoilBound(Temperature, -10.0, 50.0, "La temperatura debe estar entre -10 y 50°C"),
    SoilBound(Humidity, 0.0, 100.0, "La humedad debe estar entre 0 y 100%"),
    SoilBound(Ph, 0.0, 14.0, "El pH debe estar entre 0 y 14"),
    SoilBound(Rainfall, 0.0, 3000.0, "La precipitación debe estar entre 0 y 10000mm")
  ]

  /** `data.get(key, 0)`. */
  function Get(data: map<string, real>, key: string): real
  {
    if key in data then data[key] else 0.0
  }

  predicate Admits(data: map<string, real>, b: SoilBound)
  {
    b.lo <= Get(data, FieldName(b.param)) <= b.hi
  }

  /** The position of the first guard that `data` fails, if any. */
  function FirstRejected(data: map<string, real>, bounds: seq<SoilBound>): (r: Option<nat>)
    ensures r.None? <==> forall i :: 0 <= i < |bounds| ==> Admits(data, bounds[i])
    ensures r.Some? ==> r.value < |bounds| && !Admits(data, bounds[r.value]) &&
                        forall j :: 0 <= j < r.value ==> Admits(data, bounds[j])
    decreases |bounds|
  {
    if |bounds| == 0 then None
    else if !Admits(data, bounds[0]) then Some(0)
    else
      match FirstRejected(data, bounds[1..])
      case None => None
      case Some(i) => Some(i + 1)
  }

  /** The error `validate` raises: keyed by the field, with the guard's message. */
  datatype FieldError = FieldError(field: string, message: string)

  /** `SoilDataSerializer.validate`: the input comes back unchanged when every guard
      passes; otherwise only the first failing guard is reported. */
  function ValidateSoilData(data: map<string, real>): (r: Result<map<string, real>, FieldError>)
    ensures r.Success? <==> forall i :: 0 <= i < |SoilBounds| ==> Admits(data, SoilBounds[i])
    ensures r.Success? ==> r.value == data
    ensures r.Failure? ==> exists i :: (0 <= i < |SoilBounds| && !Admits(data, SoilBounds[i]) &&
      (forall j :: 0 <= j < i ==> Admits(data, SoilBounds[j])) &&
      r.error == FieldError(FieldName(SoilBounds[i].param), SoilBounds[i].message))
  {
    match FirstRejected(data, SoilBounds)
    case None => Success(data)
    case Some(i) => Failure(FieldError(FieldName(SoilBounds[i].param), SoilBounds[i].message))
  }

  /** The ranges `validate` enforces, field by field, all inclusive. */
  lemma SoilDataRanges(data: map<string, real>)
    ensures ValidateSoilData(data).Success? <==>
      && 0.0 <= Get(data, "nitrogen") <= 500.0
      && 0.0 <= Get(data, "phosphorus") <= 500.0
      && 0.0 <= Get(data, "potassium") <= 500.0
      && -10.0 <= Get(data, "temperature") <= 50.0
      && 0.0 <= Get(data, "humidity") <= 100.0
      && 0.0 <= Get(data, "ph") <= 14.0
      && 0.0 <= Get(data, "rainfall") <= 3000.0
  {
    var b := SoilBounds;
    assert Admits(data, b[0]) <==> 0.0 <= Get(data, "nitrogen") <= 500.0;
    assert Admits(data, b[1]) <==> 0.0 <= Get(data, "phosphorus") <= 500.0;
    assert Admits(data, b[2]) <==> 0.0 <= Get(data, "potassium") <= 500.0;
    assert Admits(data, b[3]) <==> -10.0 <= Get(data, "temperature") <= 50.0;
    assert Admits(data, b[4]) <==> 0.0 <= Get(data, "humidity") <= 100.0;
    assert Admits(data, b[5]) <==> 0.0 <= Get(data, "ph") <= 14.0;
    assert Admits(data, b[6]) <==> 0.0 <= Get(data, "rainfall") <= 3000.0;
    if Admits(data, b[0]) && Admits(data, b[1]) && Admits(data, b[2]) && Admits(data, b[3]) &&
       Admits(data, b[4]) && Admits(data, b[5]) && Admits(data, b[6]) {
      forall i | 0 <= i < |b| ensures Admits(data, b[i]) {
        assert i in {0, 1, 2, 3, 4, 5, 6};
      }
    }
  }

  /** An absent field reads as 0, which every range contains, so the field named
      by a rejection is always one the input supplied. */
  lemma RejectedFieldIsPresent(data: map<string, real>)
    ensures ValidateSoilData(data).Failure? ==> ValidateSoilData(data).error.field in data
  {
    if ValidateSoilData(data).Failure? {
      var i :| 0 <= i < |SoilBounds| && !Admits(data, SoilBounds[i]) &&
        ValidateSoilData(data).error.field == FieldName(SoilBounds[i].param);
      AbsentFieldAdmitted(data, i);
    }
  }

  lemma AbsentFieldAdmitted(data: map<string, real>, i: nat)
    requires i < |SoilBounds|
    ensures FieldName(SoilBounds[i].param) !in data ==> Admits(data, SoilBounds[i])
  {
    assert SoilBounds[i].lo <= 0.0 <= SoilBounds[i].hi by {
      assert i in {0, 1, 2, 3, 4, 5, 6};
    }
  }

  // ---------------------------------------------------------------------------
  // ManualPredictionSerializer
  // ---------------------------------------------------------------------------

  /** A declared `FloatField(min_value=…, max_value=…)`, required as every field is. */
  datatype FloatField = FloatField(param: Param, min: real, max: real)

  /** The fields of `ManualPredictionSerializer` in declaration order. */
  const ManualFields: seq<FloatField> := [
    FloatField(Nitrogen, 0.0, 500.0),
    FloatField(Phosphorus, 0.0, 500.0),
    FloatField(Potassium, 0.0, 500.0),
    FloatField(Temperature, -10.0, 50.0),
    FloatField(Humidity, 0.0, 100.0),
    FloatField(Ph, 0.0, 14.0),
    FloatField(Rainfall, 0.0, 10000.0)
  ]

  /** Why a field failed: it was absent, below `min_value` or above `max_value`. */
  datatype ManualIssue = Required | BelowMin(min: real) | AboveMax(max: real)

  datatype ManualFieldError = ManualFieldError(field: string, issue: ManualIssue)

  function FieldIssue(data: map<string, real>, f: FloatField): Option<ManualIssue>
  {
    var key := FieldName(f.param);
    if key !in data then Some(Required)
    else if data[key] < f.min then Some(BelowMin(f.min))
    else if data[key] > f.max then Some(AboveMax(f.max))
    else None
  }

  /** The positions from `from` on where `err` reports something, in increasing
      order: each such position exactly once. */
  function Positions<T, E>(xs: seq<T>, err: T -> Option<E>, from: nat): (idx: seq<nat>)
    requires from <= |xs|
    ensures |idx| <= |xs| - from
    ensures forall k :: 0 <= k < |idx| ==> from <= idx[k] < |xs| && err(xs[idx[k]]).Some?
    ensures forall i :: from <= i < |xs| && err(xs[i]).Some? ==> i in idx
    ensures forall k, l :: 0 <= k < l < |idx| ==> idx[k] < idx[l]
    decreases |xs| - from
  {
    if from == |xs| then []
    else
      var rest := Positions(xs, err, from + 1);
      if err(xs[from]).Some? then [from] + rest else rest
  }

  /** What `err` reports for the elements of `xs`, in order: report k is the one
      at the k-th reporting position. */
  function Collect<T, E(!new)>(xs: seq<T>, err: T -> Option<E>): (r: seq<E>)
    ensures |r| == |Positions(xs, err, 0)|
    ensures forall k :: 0 <= k < |r| ==> err(xs[Positions(xs, err, 0)[k]]) == Some(r[k])
    ensures r == [] <==> forall i :: 0 <= i < |xs| ==> err(xs[i]).None?
    ensures forall e :: e in r <==> exists i :: 0 <= i < |xs| && err(xs[i]) == Some(e)
  {
    var idx := Positions(xs, err, 0);
    var r := seq(|idx|, k requires 0 <= k < |idx| => err(xs[idx[k]]).value);
    assert r != [] ==> err(xs[idx[0]]).Some?;
    forall e | e in r
      ensures exists i :: 0 <= i < |xs| && err(xs[i]) == Some(e)
    {
      var k :| 0 <= k < |r| && r[k] == e;
      assert err(xs[idx[k]]) == Some(e);
    }
    forall e, i | 0 <= i < |xs| && err(xs[i]) == Some(e)
      ensures e in r
    {
      var k :| 0 <= k < |idx| && idx[k] == i;
      assert r[k] == e;
    }
    r
  }

  /** The error a field contributes to `serializer.errors`, if any. */
  function ManualFieldErrorOf(data: map<string, real>): FloatField -> Option<ManualFieldError>
  {
    (f: FloatField) =>
      match FieldIssue(data, f)
      case None => None
      case Some(issue) => Some(ManualFieldError(FieldName(f.param), issue))
  }

  /** A field contributes an error exactly when it has an issue, and then the error
      names the field and carries the issue. */
  lemma ManualFieldErrorOfMeaning(data: map<string, real>, f: FloatField)
    ensures ManualFieldErrorOf(data)(f).None? <==> FieldIssue(data, f).None?
    ensures forall e :: ManualFieldErrorOf(data)(f) == Some(e) <==>
      e.field == FieldName(f.param) && FieldIssue(data, f) == Some(e.issue)
  {
  }

  /** The serializer reports every failing field, and only those. */
  function ManualErrors(data: map<string, real>, fields: seq<FloatField>): (r: seq<ManualFieldError>)
    ensures |r| <= |fields|
    ensures r == [] <==> forall i :: 0 <= i < |fields| ==> FieldIssue(data, fields[i]).None?
    ensures forall e :: e in r <==> exists i :: (0 <= i < |fields| &&
      e.field == FieldName(fields[i].param) && FieldIssue(data, fields[i]) == Some(e.issue))
  {
    forall i | 0 <= i < |fields| {
      ManualFieldErrorOfMeaning(data, fields[i]);
    }
    Collect(fields, ManualFieldErrorOf(data))
  }

  /** The errors come in declaration order: error k is the issue of the field at the
      k-th failing position, and the positions strictly increase, so no field is
      reported twice. */
  lemma ManualErrorsInOrder(data: map<string, real>, fields: seq<FloatField>)
    ensures var r := ManualErrors(data, fields);
      var idx := Positions(fields, ManualFieldErrorOf(data), 0);
      && |r| == |idx|
      && (forall k, l :: 0 <= k < l < |idx| ==> idx[k] < idx[l])
      && (forall k :: 0 <= k < |r| ==>
            (idx[k] < |fields| &&
             r[k].field == FieldName(fields[idx[k]].param) &&
             FieldIssue(data, fields[idx[k]]) == Some(r[k].issue)))
  {
    forall i | 0 <= i < |fields| {
      ManualFieldErrorOfMeaning(data, fields[i]);
    }
  }

  /** The validated data as a measurement record. */
  function ManualMeasurements(data: map<string, real>): (m: Measurements)
    requires forall p :: FieldName(p) in data
    ensures forall p :: Value(m, p) == data[FieldName(p)]
  {
    Measurements(data[FieldName(Nitrogen)], data[FieldName(Phosphorus)], data[FieldName(Potassium)],
                 data[FieldName(Temperature)], data[FieldName(Humidity)], data[FieldName(Ph)],
                 data[FieldName(Rainfall)])
  }

  /** `ManualPredictionSerializer(data=…).is_valid()`, with `validated_data` on success
      and `errors` otherwise. */
  function ValidateManual(data: map<string, real>): (r: Result<Measurements, seq<ManualFieldError>>)
    ensures r.Success? <==> forall i :: 0 <= i < |ManualFields| ==> FieldIssue(data, ManualFields[i]).None?
    ensures r.Success? ==> forall p :: FieldName(p) in data && Value(r.value, p) == data[FieldName(p)]
    ensures r.Failure? ==> r.error != [] && r.error == ManualErrors(data, ManualFields)
  {
    var errors := ManualErrors(data, ManualFields);
    if errors != [] then Failure(errors)
    else
      NoIssueMeansPresent(data);
      Success(ManualMeasurements(data))
  }

  lemma NoIssueMeansPresent(data: map<string, real>)
    requires forall i :: 0 <= i < |ManualFields| ==> FieldIssue(data, ManualFields[i]).None?
    ensures forall p :: FieldName(p) in data
  {
    forall p ensures FieldName(p) in data {
      match p
      case Nitrogen => assert FieldIssue(data, ManualFields[0]).None?;
      case Phosphorus => assert FieldIssue(data, ManualFields[1]).None?;
      case Potassium => assert FieldIssue(data, ManualFields[2]).None?;
      case Temperature => assert FieldIssue(data, ManualFields[3]).None?;
      case Humidity => assert FieldIssue(data, ManualFields[4]).None?;
      case Ph => assert FieldIssue(data, ManualFields[5]).None?;
      case Rainfall => assert FieldIssue(data, ManualFields[6]).None?;
    }
  }

  /** The manual bounds enforced, field by field, all inclusive and all required. */
  lemma ManualRanges(data: map<string, real>)
    ensures ValidateManual(data).Success? <==>
      && "nitrogen" in data && 0.0 <= data["nitrogen"] <= 500.0
      && "phosphorus" in data && 0.0 <= data["phosphorus"] <= 500.0
      && "potassium" in data && 0.0 <= data["potassium"] <= 500.0
      && "temperature" in data && -10.0 <= data["temperature"] <= 50.0
      && "humidity" in data && 0.0 <= data["humidity"] <= 100.0
      && "ph" in data && 0.0 <= data["ph"] <= 14.0
      && "rainfall" in data && 0.0 <= data["rainfall"] <= 10000.0
  {
    var f := ManualFields;
    assert FieldIssue(data, f[0]).None? <==> "nitrogen" in data && 0.0 <= data["nitrogen"] <= 500.0;
    assert FieldIssue(data, f[1]).None? <==> "phosphorus" in data && 0.0 <= data["phosphorus"] <= 500.0;
    assert FieldIssue(data, f[2]).None? <==> "potassium" in data && 0.0 <= data["potassium"] <= 500.0;
    assert FieldIssue(data, f[3]).None? <==> "temperature" in data && -10.0 <= data["temperature"] <= 50.0;
    assert FieldIssue(data, f[4]).None? <==> "humidity" in data && 0.0 <= data["humidity"] <= 100.0;
    assert FieldIssue(data, f[5]).None? <==> "ph" in data && 0.0 <= data["ph"] <= 14.0;
    assert FieldIssue(data, f[6]).None? <==> "rainfall" in data && 0.0 <= data["rainfall"] <= 10000.0;
    if FieldIssue(data, f[0]).None? && FieldIssue(data, f[1]).None? && FieldIssue(data, f[2]).None? &&
       FieldIssue(data, f[3]).None? && FieldIssue(data, f[4]).None? && FieldIssue(data, f[5]).None? &&
       FieldIssue(data, f[6]).None? {
      forall i | 0 <= i < |f| ensures FieldIssue(data, f[i]).None? {
        assert i in {0, 1, 2, 3, 4, 5, 6};
      }
    }
  }

  /** The two validators agree except on rainfall: a manual entry passes the soil
      record check exactly when its rainfall is at most 3000, so rainfall in
      (3000, 10000] passes the manual form and fails `SoilDataSerializer`. */
  lemma ManualVersusSoilRainfall(data: map<string, real>)
    requires ValidateManual(data).Success?
    ensures ValidateSoilData(data).Success? <==> data["rainfall"] <= 3000.0
  {
    ManualRanges(data);
    SoilDataRanges(data);
    assert Get(data, "rainfall") == data["rainfall"];
  }

  /** For such an entry the soil record check names the rainfall field. */
  lemma ManualEntryRejectedForRainfall(data: map<string, real>)
    requires ValidateManual(data).Success?
    requires data["rainfall"] > 3000.0
    ensures ValidateSoilData(data).Failure? && ValidateSoilData(data).error.field == "rainfall"
  {
    ManualAdmitsAllButRainfall(data);
    var b := SoilBounds;
    assert FieldName(Rainfall) in data;
    assert !Admits(data, b[6]);
    var r := ValidateSoilData(data);
    var i :| 0 <= i < |b| && !Admits(data, b[i]) && (forall j :: 0 <= j < i ==> Admits(data, b[j])) &&
             r.error == FieldError(FieldName(b[i].param), b[i].message);
    assert i == 6;
  }

  /** A valid manual entry passes the first six soil guards. */
  lemma ManualAdmitsAllButRainfall(data: map<string, real>)
    requires ValidateManual(data).Success?
    ensures forall j :: 0 <= j < 6 ==> Admits(data, SoilBounds[j])
  {
    ManualRanges(data);
    var b := SoilBounds;
    assert Admits(data, b[0]) && Admits(data, b[1]) && Admits(data, b[2]);
    assert Admits(data, b[3]) && Admits(data, b[4]) && Admits(data, b[5]);
    forall j | 0 <= j < 6 ensures Admits(data, b[j]) {
      assert j in {0, 1, 2, 3, 4, 5};
    }
  }
}
