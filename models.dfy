/** The records of predictions/models.py: a soil measurement with its alert
    generator, and the storage path of an uploaded dataset file. */
module Models {
  import opened Wrappers
  import opened Strings

  // ---------------------------------------------------------------------------
  // Dataset file path
  // ---------------------------------------------------------------------------

  const UploadPrefix: string := "datasets/user_"

  /** `upload_to`: where a dataset's file is stored, relative to the media root. */
  function UploadTo(userId: nat, filename: string): (r: string)
    ensures StartsWith(r, UploadPrefix) && EndsWith(r, "/" + filename)
  {
    UploadPrefix + NatToString(userId) + "/" + filename
  }

  datatype UploadPath = UploadPath(userId: nat, filename: string)

  /** Position of the first `c` in `s`, or -1 when there is none. */
  function IndexOf(s: string, c: char): (r: int)
    ensures -1 <= r < |s|
    ensures r == -1 <==> c !in s
    ensures r >= 0 ==> s[r] == c && c !in s[..r]
  {
    if |s| == 0 then -1
    else if s[0] == c then 0
    else
      var k := IndexOf(s[1..], c);
      assert s[1..][..if k < 0 then 0 else k] == s[1..1 + if k < 0 then 0 else k];
      if k == -1 then -1 else k + 1
  }

  /** Recovers the owner and the file name from a path built by `UploadTo`. */
  function ParseUploadPath(path: string): Option<UploadPath>
  {
    if !StartsWith(path, UploadPrefix) then None
    else
      var rest := path[|UploadPrefix|..];
      var k := IndexOf(rest, '/');
      if k <= 0 || !AllDigits(rest[..k]) then None
      else Some(UploadPath(StringToNat(rest[..k]), rest[k + 1..]))
  }

  /** The path `UploadTo` builds determines its user and file name, so two uploads
      land in the same place only when both agree. */
  lemma {:induction false} UploadToRoundTrip(userId: nat, filename: string)
    ensures ParseUploadPath(UploadTo(userId, filename)) == Some(UploadPath(userId, filename))
  {
    var digits := NatToString(userId);
    var path := UploadTo(userId, filename);
    var rest := path[|UploadPrefix|..];
    assert path[..|UploadPrefix|] == UploadPrefix;
    assert rest == digits + "/" + filename;
    assert '/' !in digits by {
      forall i | 0 <= i < |digits| ensures digits[i] != '/' {
        assert IsDigit(digits[i]);
      }
    }
    assert rest[|digits|] == '/';
    assert rest[..|digits|] == digits;
    assert IndexOf(rest, '/') == |digits|;
    assert rest[|digits| + 1..] == filename;
    StringToNatOfNatToString(userId);
  }

  // ---------------------------------------------------------------------------
  // Soil measurements and their alerts
  // ---------------------------------------------------------------------------

  /** The seven measured parameters of a `SoilData` record. */
  datatype Param = Nitrogen | Phosphorus | Potassium | Temperature | Humidity | Ph | Rainfall

  /** The order of the `checks` dictionary in `get_alerts`, which is also the
      declaration order of the record's fields. */
  const Params: seq<Param> := [Nitrogen, Phosphorus, Potassium, Temperature, Humidity, Ph, Rainfall]

  /** The measurement part of a `SoilData` record (its floats, read as exact reals). */
  datatype Measurements = Measurements(
    nitrogen: real, phosphorus: real, potassium: real,
    temperature: real, humidity: real, ph: real, rainfall: real)

  function Value(m: Measurements, p: Param): real
  {
    match p
    case Nitrogen => m.nitrogen
    case Phosphorus => m.phosphorus
    case Potassium => m.potassium
    case Temperature => m.temperature
    case Humidity => m.humidity
    case Ph => m.ph
    case Rainfall => m.rainfall
  }

  /** The record field's name, also the key of `NORMAL_RANGES` and of the serializers. */
  function FieldName(p: Param): string
  {
    match p
    case Nitrogen => "nitrogen"
    case Phosphorus => "phosphorus"
    case Potassium => "potassium"
    case Temperature => "temperature"
    case Humidity => "humidity"
    case Ph => "ph"
    case Rainfall => "rainfall"
  }

  /** The name an alert shows for the parameter. */
  function DisplayName(p: Param): string
  {
    match p
    case Nitrogen => "Nitrógeno"
    case Phosphorus => "Fósforo"
    case Potassium => "Potasio"
    case Temperature => "Temperatura"
    case Humidity => "Humedad"
    case Ph => "pH"
    case Rainfall => "Lluvia"
  }

  /** `Params` lists every parameter. */
  lemma ParamsComplete(p: Param)
    ensures p in Params
  {
    match p
    case Nitrogen => assert Params[0] == p;
    case Phosphorus => assert Params[1] == p;
    case Potassium => assert Params[2] == p;
    case Temperature => assert Params[3] == p;
    case Humidity => assert Params[4] == p;
    case Ph => assert Params[5] == p;
    case Rainfall => assert Params[6] == p;
  }

  lemma DisplayNameInjective(p: Param, q: Param)
    ensures DisplayName(p) == DisplayName(q) ==> p == q
  {
  }

  datatype Range = Range(min: real, max: real)

  /** `SoilData.NORMAL_RANGES`. */
  function NormalRange(p: Param): Range
  {
    match p
    case Nitrogen => Range(0.0, 140.0)
    case Phosphorus => Range(5.0, 145.0)
    case Potassium => Range(5.0, 205.0)
    case Temperature => Range(8.0, 44.0)
    case Humidity => Range(14.0, 100.0)
    case Ph => Range(3.5, 9.5)
    case Rainfall => Range(20.0, 300.0)
  }

  predicate InNormalRange(m: Measurements, p: Param)
  {
    NormalRange(p).min <= Value(m, p) <= NormalRange(p).max
  }

  /** What an alert's message reports: the value and the bound it crossed (the
      message's text formatting is not modelled). */
  datatype AlertMessage = TooLow(value: real, minimum: real) | TooHigh(value: real, maximum: real)

  datatype Alert = Alert(alertType: string, parameter: string, message: AlertMessage)

  const Danger: string := "danger"

  /** The alert for a parameter outside its normal range. */
  function AlertFor(m: Measurements, p: Param): (a: Alert)
    requires !InNormalRange(m, p)
  {
    var v, r := Value(m, p), NormalRange(p);
    if v < r.min then Alert(Danger, DisplayName(p), TooLow(v, r.min))
    else Alert(Danger, DisplayName(p), TooHigh(v, r.max))
  }

  /** What one pass of the loop in `get_alerts` appends for parameter `p`. */
  function CheckParam(m: Measurements, p: Param): seq<Alert>
  {
    if InNormalRange(m, p) then [] else [AlertFor(m, p)]
  }

  /** The alerts the loop has produced after visiting the parameters `ps`. */
  function AlertsOver(m: Measurements, ps: seq<Param>): seq<Alert>
    decreases |ps|
  {
    if |ps| == 0 then [] else AlertsOver(m, ps[..|ps| - 1]) + CheckParam(m, ps[|ps| - 1])
  }

  /** The parameters of `ps` that are out of range, in the order of `ps`. */
  function OutOfRange(m: Measurements, ps: seq<Param>): (r: seq<Param>)
    ensures forall p :: p in r <==> p in ps && !InNormalRange(m, p)
    decreases |ps|
  {
    if |ps| == 0 then []
    else
      var init := OutOfRange(m, ps[..|ps| - 1]);
      assert forall p :: p in ps <==> p in ps[..|ps| - 1] || p == ps[|ps| - 1];
      if InNormalRange(m, ps[|ps| - 1]) then init else init + [ps[|ps| - 1]]
  }

  /** `SoilData.get_alerts`. The record is a value here, so it cannot be changed. */
  method GetAlerts(m: Measurements) returns (alerts: seq<Alert>)
    ensures alerts == AlertsOver(m, Params)
  {
    alerts := [];
    for i := 0 to |Params|
      invariant alerts == AlertsOver(m, Params[..i])
    {
      var p := Params[i];
      var v, r := Value(m, p), NormalRange(p);
      if v < r.min {
        alerts := alerts + [Alert(Danger, DisplayName(p), TooLow(v, r.min))];
      } else if v > r.max {
        alerts := alerts + [Alert(Danger, DisplayName(p), TooHigh(v, r.max))];
      }
      assert Params[..i + 1][..i] == Params[..i];
    }
    assert Params[..|Params|] == Params;
  }

  /** The loop emits, in visiting order, exactly one alert per out-of-range
      parameter and nothing else. */
  lemma {:induction false} AlertsAreOutOfRangeInOrder(m: Measurements, ps: seq<Param>)
    ensures |AlertsOver(m, ps)| == |OutOfRange(m, ps)| <= |ps|
    ensures forall k :: 0 <= k < |OutOfRange(m, ps)| ==>
      !InNormalRange(m, OutOfRange(m, ps)[k]) &&
      AlertsOver(m, ps)[k] == AlertFor(m, OutOfRange(m, ps)[k])
    decreases |ps|
  {
    if |ps| > 0 {
      AlertsAreOutOfRangeInOrder(m, ps[..|ps| - 1]);
    }
  }

  /** At most one alert per parameter, hence at most seven. */
  lemma AtMostSevenAlerts(m: Measurements)
    ensures |AlertsOver(m, Params)| <= 7
  {
    AlertsAreOutOfRangeInOrder(m, Params);
  }

  /** A parameter gets an alert exactly when its value lies strictly outside its
      normal range; a value equal to a bound gets none. */
  lemma AlertIffOutOfRange(m: Measurements, p: Param)
    ensures (exists k :: 0 <= k < |AlertsOver(m, Params)| &&
               AlertsOver(m, Params)[k].parameter == DisplayName(p))
        <==> (Value(m, p) < NormalRange(p).min || Value(m, p) > NormalRange(p).max)
  {
    var alerts, out := AlertsOver(m, Params), OutOfRange(m, Params);
    AlertsAreOutOfRangeInOrder(m, Params);
    ParamsComplete(p);
    if !InNormalRange(m, p) {
      var k :| 0 <= k < |out| && out[k] == p;
      assert alerts[k].parameter == DisplayName(p);
    }
    if k :| 0 <= k < |alerts| && alerts[k].parameter == DisplayName(p) {
      DisplayNameInjective(out[k], p);
    }
  }

  /** Every alert is a 'danger' alert naming an out-of-range parameter; a low
      reading cites the range's minimum and a high one its maximum. */
  lemma AlertCitesBound(m: Measurements, k: nat)
    requires k < |AlertsOver(m, Params)|
    ensures AlertsOver(m, Params)[k].alertType == "danger"
    ensures exists p :: (p in Params && AlertsOver(m, Params)[k].parameter == DisplayName(p) &&
      if Value(m, p) < NormalRange(p).min
      then AlertsOver(m, Params)[k].message == TooLow(Value(m, p), NormalRange(p).min)
      else Value(m, p) > NormalRange(p).max &&
           AlertsOver(m, Params)[k].message == TooHigh(Value(m, p), NormalRange(p).max))
  {
    AlertsAreOutOfRangeInOrder(m, Params);
    var p := OutOfRange(m, Params)[k];
    assert p in OutOfRange(m, Params);
  }

  /** A record whose every parameter is within its normal range yields no alerts,
      and only such a record does. */
  lemma NoAlertsIffAllInRange(m: Measurements)
    ensures AlertsOver(m, Params) == [] <==> forall p :: InNormalRange(m, p)
  {
    var out := OutOfRange(m, Params);
    AlertsAreOutOfRangeInOrder(m, Params);
    if out != [] {
      assert out[0] in out;
      assert !InNormalRange(m, out[0]);
    } else {
      forall p ensures InNormalRange(m, p) {
        ParamsComplete(p);
      }
    }
  }
}
