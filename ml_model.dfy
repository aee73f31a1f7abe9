/** predictions/ml_model.py: the crop classifier wrapper. The fitted scaler and
    random forest are foreign code; what is modelled is the wrapper's own logic:
    its tables, the synthetic training frame's layout, the load-or-train decision,
    the feature vector, and how a probability vector becomes the top-3 reply. */
module MlModel {
  import opened Wrappers
  import opened Strings

  // ---------------------------------------------------------------------------
  // The tables set up by __init__
  // ---------------------------------------------------------------------------

  /** `crop_labels`: class index i is the label at position i (its keys are exactly 0..21). */
  const CropLabels: seq<string> := [
    "rice", "maize", "chickpea", "kidneybeans", "pigeonpeas", "mothbeans", "mungbean",
    "blackgram", "lentil", "pomegranate", "banana", "mango", "grapes", "watermelon",
    "muskmelon", "apple", "orange", "papaya", "coconut", "cotton", "jute", "coffee"
  ]

  datatype CropInfo = CropInfo(name: string, season: string, harvestTime: string)

  /** `crop_info`, as its entries in the order the dict literal lists them. */
  const CropInfoEntries: seq<(string, CropInfo)> := [
    ("rice", CropInfo("Arroz", "Lluvioso", "3-6 meses")),
    ("maize", CropInfo("Maíz", "Verano", "2-3 meses")),
    ("chickpea", CropInfo("Garbanzo", "Invierno", "3-4 meses")),
    ("kidneybeans", CropInfo("Frijol", "Primavera", "2-3 meses")),
    ("pigeonpeas", CropInfo("Guandú", "Todo el año", "4-6 meses")),
    ("mothbeans", CropInfo("Frijol Polilla", "Verano", "3-4 meses")),
    ("mungbean", CropInfo("Frijol Mungo", "Verano", "2-3 meses")),
    ("blackgram", CropInfo("Lenteja Negra", "Invierno", "3-4 meses")),
    ("lentil", CropInfo("Lenteja", "Invierno", "3-4 meses")),
    ("pomegranate", CropInfo("Granada", "Todo el año", "6-7 meses")),
    ("banana", CropInfo("Plátano", "Todo el año", "9-12 meses")),
    ("mango", CropInfo("Mango", "Verano", "3-5 años")),
    ("grapes", CropInfo("Uva", "Verano", "2-3 años")),
    ("watermelon", CropInfo("Sandía", "Verano", "2-3 meses")),
    ("muskmelon", CropInfo("Melón", "Verano", "2-3 meses")),
    ("apple", CropInfo("Manzana", "Primavera", "2-4 años")),
    ("orange", CropInfo("Naranja", "Invierno", "3-4 años")),
    ("papaya", CropInfo("Papaya", "Todo el año", "6-8 meses")),
    ("coconut", CropInfo("Coco", "Todo el año", "5-6 años")),
    ("cotton", CropInfo("Algodón", "Verano", "4-6 meses")),
    ("jute", CropInfo("Yute", "Lluvioso", "3-4 meses")),
    ("coffee", CropInfo("Café", "Todo el año", "3-4 años"))
  ]

  /** Dict lookup over entries: the value of the first entry with that key. A
      Python dict literal with a repeated key keeps the last value instead; the
      two agree on well-formed tables, whose keys are distinct. */
  function Lookup(entries: seq<(string, CropInfo)>, key: string): (r: Option<CropInfo>)
    ensures r.Some? <==> exists i :: 0 <= i < |entries| && entries[i].0 == key
    ensures r.Some? ==> exists i :: (0 <= i < |entries| && entries[i] == (key, r.value) &&
      forall j :: 0 <= j < i ==> entries[j].0 != key)
  {
    if |entries| == 0 then None
    else if entries[0].0 == key then Some(entries[0].1)
    else
      var r := Lookup(entries[1..], key);
      assert forall i :: 0 < i < |entries| ==> entries[i] == entries[1..][i - 1];
      r
  }

  /** `crop_info.get(key)` (and `key in crop_info`). */
  function CropInfoFor(key: string): Option<CropInfo>
  {
    Lookup(CropInfoEntries, key)
  }

  /** `feature_names`: the column order the classifier is trained and queried with. */
  const FeatureNames: seq<string> := ["N", "P", "K", "temperature", "humidity", "ph", "rainfall"]

  /** The table lists the labels in class-index order. */
  lemma EntriesFollowLabels()
    ensures |CropInfoEntries| == |CropLabels|
    ensures forall i :: 0 <= i < |CropLabels| ==> CropInfoEntries[i].0 == CropLabels[i]
  {
  }

  /** Every label has a `crop_info` entry, the one at its class index, so `predict`
      never uses its title-cased fallback. */
  lemma EveryLabelHasInfo(i: nat)
    requires i < |CropLabels|
    ensures CropInfoFor(CropLabels[i]) == Some(CropInfoEntries[i].1)
  {
    InitialTablesWellFormed();
    LabelInfo(InitialTables, i);
  }

  lemma CropLabelsDistinct(i: nat, j: nat)
    requires i < j < |CropLabels|
    ensures CropLabels[i] != CropLabels[j]
  {
  }

  // ---------------------------------------------------------------------------
  // The feature vector
  // ---------------------------------------------------------------------------

  /** What `predict` accepts: a dict of features or a ready-made feature list. */
  datatype SoilInput = FeatureDict(fields: map<string, real>) | FeatureVector(values: seq<real>)

  /** Why `predict` raises: a dict lacks a feature (KeyError), or the classifier
      reports a class index with no label (KeyError on `crop_labels`). */
  datatype PredictError = MissingFeature(name: string) | UnknownClass(index: nat)

  /** `[fields[name] for name in names]`, raising on the first absent name. */
  function LookupAll(fields: map<string, real>, names: seq<string>): (r: Result<seq<real>, PredictError>)
    ensures r.Success? <==> forall i :: 0 <= i < |names| ==> names[i] in fields
    ensures r.Success? ==> |r.value| == |names| && forall i :: 0 <= i < |names| ==> r.value[i] == fields[names[i]]
    ensures r.Failure? ==> exists i :: (0 <= i < |names| && names[i] !in fields &&
      r.error == MissingFeature(names[i]) && forall j :: 0 <= j < i ==> names[j] in fields)
    decreases |names|
  {
    if |names| == 0 then Success([])
    else if names[0] !in fields then Failure(MissingFeature(names[0]))
    else
      match LookupAll(fields, names[1..])
      case Failure(e) =>
        assert forall i :: 1 <= i < |names| ==> names[i] == names[1..][i - 1];
        Failure(e)
      case Success(vs) =>
        assert forall i :: 1 <= i < |names| ==> names[i] == names[1..][i - 1];
        Success([fields[names[0]]] + vs)
  }

  /** The feature vector of line 134 for a dict, the list itself otherwise. */
  function Features(input: SoilInput): Result<seq<real>, PredictError>
  {
    match input
    case FeatureDict(fields) => LookupAll(fields, FeatureNames)
    case FeatureVector(values) => Success(values)
  }

  /** A dict yields its seven values in `feature_names` order, or fails naming the
      first feature it lacks. */
  lemma FeatureOrder(fields: map<string, real>)
    ensures Features(FeatureDict(fields)).Success? <==> forall i :: 0 <= i < 7 ==> FeatureNames[i] in fields
    ensures Features(FeatureDict(fields)).Success? ==> (Features(FeatureDict(fields)).value ==
      [fields["N"], fields["P"], fields["K"], fields["temperature"], fields["humidity"], fields["ph"], fields["rainfall"]])
    ensures "N" !in fields ==> Features(FeatureDict(fields)) == Failure(MissingFeature("N"))
  {
    var r := Features(FeatureDict(fields));
    if r.Success? {
      assert FeatureNames[0] == "N" && FeatureNames[6] == "rainfall";
    }
    if "N" !in fields {
      var i :| 0 <= i < 7 && FeatureNames[i] !in fields && r.error == MissingFeature(FeatureNames[i]) &&
               forall j :: 0 <= j < i ==> FeatureNames[j] in fields;
      assert i == 0;
    }
  }

  // ---------------------------------------------------------------------------
  // Top-3 selection: np.argsort(probabilities)[-3:][::-1]
  // ---------------------------------------------------------------------------

  predicate Distinct(s: seq<nat>)
  {
    forall i, j :: 0 <= i < j < |s| ==> s[i] != s[j]
  }

  /** What `argsort(p)[-k:][::-1]` guarantees whatever order it gives tied values:
      min(k, |p|) distinct indices of `p`, by non-increasing probability, and no
      index left out has a larger probability than one chosen. */
  predicate IsTopSelection(p: seq<real>, r: seq<nat>, k: nat)
  {
    && |r| == Min(k, |p|)
    && (forall i :: 0 <= i < |r| ==> r[i] < |p|)
    && Distinct(r)
    && (forall i, j :: 0 <= i < j < |r| ==> p[r[j]] <= p[r[i]])
    && (forall c, i :: 0 <= c < |p| && c !in r && 0 <= i < |r| ==> p[c] <= p[r[i]])
  }

  /** The set of a sequence's elements. */
  function Elems(xs: seq<nat>): (r: set<nat>)
    ensures forall x :: x in r <==> x in xs
    decreases |xs|
  {
    if |xs| == 0 then {}
    else
      assert forall x :: x in xs <==> x in xs[..|xs| - 1] || x == xs[|xs| - 1];
      Elems(xs[..|xs| - 1]) + {xs[|xs| - 1]}
  }

  /** The indices below `n`. */
  function Below(n: nat): (r: set<nat>)
    ensures forall j :: j in r <==> 0 <= j < n
    decreases n
  {
    if n == 0 then {} else Below(n - 1) + {n - 1}
  }

  lemma {:induction false} ElemsSize(xs: seq<nat>)
    ensures |Elems(xs)| <= |xs|
    ensures Distinct(xs) ==> |Elems(xs)| == |xs|
    decreases |xs|
  {
    if |xs| > 0 {
      var init := xs[..|xs| - 1];
      ElemsSize(init);
      if Distinct(xs) {
        assert Distinct(init);
        assert xs[|xs| - 1] !in init;
      }
    }
  }

  lemma {:induction false} BelowSize(n: nat)
    ensures |Below(n)| == n
    decreases n
  {
    if n > 0 {
      BelowSize(n - 1);
    }
  }

  /** Pigeonhole: distinct indices below `n` number at most `n`, and `n` of them
      cover every index below `n`. */
  lemma Pigeonhole(xs: seq<nat>, n: nat)
    requires Distinct(xs)
    requires forall i :: 0 <= i < |xs| ==> xs[i] < n
    ensures |xs| <= n
    ensures |xs| == n ==> forall j :: 0 <= j < n ==> j in xs
  {
    var s, range := Elems(xs), Below(n);
    ElemsSize(xs);
    BelowSize(n);
    assert s <= range;
    assert |range| == |range - s| + |s| by {
      assert range == (range - s) + s;
      assert (range - s) !! s;
    }
    if |xs| == n {
      forall j | 0 <= j < n ensures j in xs {
        assert |range - s| == 0;
        assert j in range;
      }
    }
  }

  /** If every index below `n` is used, at least `n` indices were used. */
  lemma Covering(xs: seq<nat>, n: nat)
    requires forall j :: 0 <= j < n ==> j in xs
    ensures |xs| >= n
  {
    var s, range := Elems(xs), Below(n);
    BelowSize(n);
    ElemsSize(xs);
    assert range <= s;
    assert |s| == |s - range| + |range| by {
      assert s == (s - range) + range;
      assert (s - range) !! range;
    }
  }

  /** The index of a largest probability below `n` that is not in `used`, or -1
      when every index below `n` is used. Ties go to the lowest index. */
  function ArgMaxExcluding(p: seq<real>, used: seq<nat>, n: nat): (r: int)
    requires n <= |p|
    ensures -1 <= r < n
    ensures r == -1 <==> forall j :: 0 <= j < n ==> j in used
    ensures r >= 0 ==> r !in used && forall j :: 0 <= j < n && j !in used ==> p[j] <= p[r]
    decreases n
  {
    if n == 0 then -1
    else
      var r0 := ArgMaxExcluding(p, used, n - 1);
      if n - 1 in used then r0
      else if r0 == -1 || p[r0] < p[n - 1] then n - 1
      else r0
  }

  /** The model's `argsort(p)[-k:][::-1]`: k rounds of picking a largest unpicked
      probability. It is one of the orders argsort may produce; use only what
      `IsTopSelection` says about it. */
  function TopIndices(p: seq<real>, k: nat): (r: seq<nat>)
    ensures IsTopSelection(p, r, k)
    decreases k
  {
    if k == 0 then []
    else
      var prev := TopIndices(p, k - 1);
      var m := ArgMaxExcluding(p, prev, |p|);
      if m == -1 then
        Covering(prev, |p|);
        prev
      else
        Pigeonhole(prev, |p|);
        prev + [m]
  }

  // ---------------------------------------------------------------------------
  // Result assembly (lines 145-155)
  // ---------------------------------------------------------------------------

  /** The two tables `predict` reads, `crop_labels` and `crop_info`. */
  datatype Tables = Tables(labels: seq<string>, info: seq<(string, CropInfo)>)

  /** The tables as `__init__` sets them up. */
  const InitialTables := Tables(CropLabels, CropInfoEntries)

  /** Labels are distinct and the info table lists them, in class-index order. */
  predicate WellFormed(t: Tables)
  {
    && |t.info| == |t.labels|
    && (forall i :: 0 <= i < |t.labels| ==> t.info[i].0 == t.labels[i])
    && (forall i, j :: 0 <= i < j < |t.labels| ==> t.labels[i] != t.labels[j])
  }

  lemma InitialTablesWellFormed()
    ensures WellFormed(InitialTables)
  {
    EntriesFollowLabels();
    forall i, j | 0 <= i < j < |CropLabels| ensures CropLabels[i] != CropLabels[j] {
      CropLabelsDistinct(i, j);
    }
  }

  /** In well-formed tables the info of label i is entry i. */
  lemma LabelInfo(t: Tables, i: nat)
    requires WellFormed(t) && i < |t.labels|
    ensures Lookup(t.info, t.labels[i]) == Some(t.info[i].1)
  {
    var k :| 0 <= k < |t.info| && t.info[k] == (t.labels[i], Lookup(t.info, t.labels[i]).value) &&
      forall j :: 0 <= j < k ==> t.info[j].0 != t.labels[i];
  }

  /** One entry of `predict`'s reply. `confidence` is the class probability times
      100; the rounding to two decimals is not modelled. */
  datatype CropResult = CropResult(crop: string, cropName: string, confidence: real,
                                   season: string, harvestTime: string)

  /** The reply entry for class `idx`: its label, the label's info (or the fallback)
      and its probability as a percentage. */
  function ResultFor(t: Tables, p: seq<real>, idx: nat): CropResult
    requires idx < |p| && idx < |t.labels|
  {
    var key := t.labels[idx];
    var info := match Lookup(t.info, key)
      case Some(i) => i
      case None => CropInfo(Title(key), "N/A", "N/A");
    CropResult(key, info.name, p[idx] * 100.0, info.season, info.harvestTime)
  }

  /** The reply for the chosen indices: one entry per index, in order, or the
      KeyError of the first index that has no label. */
  function Assemble(t: Tables, p: seq<real>, top: seq<nat>): (r: Result<seq<CropResult>, PredictError>)
    requires forall i :: 0 <= i < |top| ==> top[i] < |p|
    ensures r.Success? <==> forall i :: 0 <= i < |top| ==> top[i] < |t.labels|
    ensures r.Success? ==> |r.value| == |top|
    ensures r.Success? ==> forall i :: 0 <= i < |top| ==> r.value[i] == ResultFor(t, p, top[i])
    ensures r.Failure? ==> exists i :: (0 <= i < |top| && top[i] >= |t.labels| &&
      r.error == UnknownClass(top[i]) && forall j :: 0 <= j < i ==> top[j] < |t.labels|)
    decreases |top|
  {
    if |top| == 0 then Success([])
    else
      var init, idx := top[..|top| - 1], top[|top| - 1];
      match Assemble(t, p, init)
      case Failure(e) => Failure(e)
      case Success(rs) =>
        if idx < |t.labels| then Success(rs + [ResultFor(t, p, idx)]) else Failure(UnknownClass(idx))
  }

  /** Once a prefix of the indices fails, the whole list fails the same way. */
  lemma {:induction false} AssembleFailureSticks(t: Tables, p: seq<real>, top: seq<nat>, n: nat)
    requires forall i :: 0 <= i < |top| ==> top[i] < |p|
    requires n <= |top|
    requires Assemble(t, p, top[..n]).Failure?
    ensures Assemble(t, p, top) == Assemble(t, p, top[..n])
    decreases |top| - n
  {
    if n < |top| {
      assert top[..n + 1][..n] == top[..n];
      AssembleFailureSticks(t, p, top, n + 1);
    } else {
      assert top[..n] == top;
    }
  }

  /** The loop of `predict` that turns the chosen indices into reply entries. */
  method AssembleResults(t: Tables, p: seq<real>, top: seq<nat>) returns (res: Result<seq<CropResult>, PredictError>)
    requires forall i :: 0 <= i < |top| ==> top[i] < |p|
    ensures res == Assemble(t, p, top)
  {
    var results: seq<CropResult> := [];
    var i := 0;
    while i < |top|
      invariant 0 <= i <= |top|
      invariant Assemble(t, p, top[..i]) == Success(results)
    {
      var idx := top[i];
      assert top[..i + 1][..i] == top[..i];
      if idx >= |t.labels| {
        AssembleFailureSticks(t, p, top, i + 1);
        return Failure(UnknownClass(idx));
      }
      var key := t.labels[idx];
      var info := match Lookup(t.info, key)
        case Some(i) => i
        case None => CropInfo(Title(key), "N/A", "N/A");
      results := results + [CropResult(key, info.name, p[idx] * 100.0, info.season, info.harvestTime)];
      i := i + 1;
    }
    assert top[..|top|] == top;
    res := Success(results);
  }

  /** What `predict` returns for an input, given the tables and the fitted
      pipeline's probability vector for a feature vector. */
  function PredictWith(t: Tables, input: SoilInput, proba: seq<real> -> seq<real>): Result<seq<CropResult>, PredictError>
  {
    match Features(input)
    case Failure(e) => Failure(e)
    case Success(features) =>
      var p := proba(features);
      Assemble(t, p, TopIndices(p, 3))
  }

  /** The top-three properties of a successful reply, for any well-formed tables. */
  predicate TopThree(t: Tables, p: seq<real>, rs: seq<CropResult>)
  {
    && |rs| == Min(3, |p|)
    && (forall i, j :: 0 <= i < j < |rs| ==> rs[j].confidence <= rs[i].confidence)
    && (forall i, j :: 0 <= i < j < |rs| ==> rs[i].crop != rs[j].crop)
    && (forall i :: 0 <= i < |rs| ==>
          (exists c :: 0 <= c < |p| && c < |t.labels| &&
            rs[i].crop == t.labels[c] && rs[i].confidence == p[c] * 100.0))
    && (forall c, i :: (0 <= c < |p| && c < |t.labels| && 0 <= i < |rs| &&
          forall k :: 0 <= k < |rs| ==> rs[k].crop != t.labels[c]) ==>
          p[c] * 100.0 <= rs[i].confidence)
    && (forall i :: 0 <= i < |rs| ==>
          Lookup(t.info, rs[i].crop) == Some(CropInfo(rs[i].cropName, rs[i].season, rs[i].harvestTime)))
  }

  lemma AssembledOrdered(t: Tables, p: seq<real>, top: seq<nat>, rs: seq<CropResult>)
    requires IsTopSelection(p, top, 3) && Assemble(t, p, top) == Success(rs)
    ensures |rs| == Min(3, |p|)
    ensures forall i, j :: 0 <= i < j < |rs| ==> rs[j].confidence <= rs[i].confidence
  {
    forall i, j | 0 <= i < j < |rs| ensures rs[j].confidence <= rs[i].confidence {
      assert rs[i] == ResultFor(t, p, top[i]) && rs[j] == ResultFor(t, p, top[j]);
      assert p[top[j]] <= p[top[i]];
    }
  }

  lemma AssembledDistinct(t: Tables, p: seq<real>, top: seq<nat>, rs: seq<CropResult>)
    requires WellFormed(t)
    requires IsTopSelection(p, top, 3) && Assemble(t, p, top) == Success(rs)
    ensures forall i, j :: 0 <= i < j < |rs| ==> rs[i].crop != rs[j].crop
  {
    forall i, j | 0 <= i < j < |rs| ensures rs[i].crop != rs[j].crop {
      assert rs[i] == ResultFor(t, p, top[i]) && rs[j] == ResultFor(t, p, top[j]);
      assert top[i] != top[j];
      if top[i] < top[j] {
        assert t.labels[top[i]] != t.labels[top[j]];
      } else {
        assert t.labels[top[j]] != t.labels[top[i]];
      }
    }
  }

  lemma AssembledFromClasses(t: Tables, p: seq<real>, top: seq<nat>, rs: seq<CropResult>)
    requires IsTopSelection(p, top, 3) && Assemble(t, p, top) == Success(rs)
    ensures forall i :: 0 <= i < |rs| ==>
      (exists c :: 0 <= c < |p| && c < |t.labels| &&
        rs[i].crop == t.labels[c] && rs[i].confidence == p[c] * 100.0)
  {
    forall i | 0 <= i < |rs|
      ensures exists c :: (0 <= c < |p| && c < |t.labels| &&
        rs[i].crop == t.labels[c] && rs[i].confidence == p[c] * 100.0)
    {
      assert rs[i] == ResultFor(t, p, top[i]);
    }
  }

  lemma AssembledDominant(t: Tables, p: seq<real>, top: seq<nat>, rs: seq<CropResult>)
    requires IsTopSelection(p, top, 3) && Assemble(t, p, top) == Success(rs)
    ensures forall c, i :: (0 <= c < |p| && c < |t.labels| && 0 <= i < |rs| &&
      forall k :: 0 <= k < |rs| ==> rs[k].crop != t.labels[c]) ==>
      p[c] * 100.0 <= rs[i].confidence
  {
    forall c, i | (0 <= c < |p| && c < |t.labels| && 0 <= i < |rs| &&
            forall k :: 0 <= k < |rs| ==> rs[k].crop != t.labels[c])
      ensures p[c] * 100.0 <= rs[i].confidence
    {
      assert rs[i] == ResultFor(t, p, top[i]);
      assert p[c] <= p[top[i]];
    }
  }

  lemma AssembledInfo(t: Tables, p: seq<real>, top: seq<nat>, rs: seq<CropResult>)
    requires WellFormed(t)
    requires IsTopSelection(p, top, 3) && Assemble(t, p, top) == Success(rs)
    ensures forall i :: 0 <= i < |rs| ==>
      Lookup(t.info, rs[i].crop) == Some(CropInfo(rs[i].cropName, rs[i].season, rs[i].harvestTime))
  {
    forall i | 0 <= i < |rs|
      ensures Lookup(t.info, rs[i].crop) == Some(CropInfo(rs[i].cropName, rs[i].season, rs[i].harvestTime))
    {
      assert rs[i] == ResultFor(t, p, top[i]);
      LabelInfo(t, top[i]);
    }
  }

  lemma AssembledTopThree(t: Tables, p: seq<real>, top: seq<nat>, rs: seq<CropResult>)
    requires WellFormed(t)
    requires IsTopSelection(p, top, 3) && Assemble(t, p, top) == Success(rs)
    ensures TopThree(t, p, rs)
  {
    AssembledOrdered(t, p, top, rs);
    AssembledDistinct(t, p, top, rs);
    AssembledFromClasses(t, p, top, rs);
    AssembledDominant(t, p, top, rs);
    AssembledInfo(t, p, top, rs);
  }

  lemma PredictWithTopThree(t: Tables, input: SoilInput, proba: seq<real> -> seq<real>)
    requires WellFormed(t)
    requires PredictWith(t, input, proba).Success?
    ensures Features(input).Success?
    ensures TopThree(t, proba(Features(input).value), PredictWith(t, input, proba).value)
  {
    var p := proba(Features(input).value);
    AssembledTopThree(t, p, TopIndices(p, 3), PredictWith(t, input, proba).value);
  }

  /** `predict` with the tables `__init__` sets up. */
  function PredictOutcome(input: SoilInput, proba: seq<real> -> seq<real>): Result<seq<CropResult>, PredictError>
  {
    PredictWith(InitialTables, input, proba)
  }

  /** A successful prediction lists min(3, number of classes) distinct crops by
      non-increasing confidence, each confidence 100 times its class probability,
      no unlisted class more probable than a listed one, and every name, season and
      harvest time taken from `crop_info`. */
  lemma PredictTopThree(input: SoilInput, proba: seq<real> -> seq<real>)
    requires PredictOutcome(input, proba).Success?
    ensures Features(input).Success?
    ensures TopThree(InitialTables, proba(Features(input).value), PredictOutcome(input, proba).value)
  {
    InitialTablesWellFormed();
    PredictWithTopThree(InitialTables, input, proba);
  }

  /** `predict` fails only when a dict lacks a feature, or when the classifier has
      more classes than there are labels. */
  lemma PredictFailureCauses(t: Tables, input: SoilInput, proba: seq<real> -> seq<real>)
    requires PredictWith(t, input, proba).Failure?
    ensures Features(input).Failure? ==> PredictWith(t, input, proba) == Failure(Features(input).error)
    ensures Features(input).Success? ==> |proba(Features(input).value)| > |t.labels|
  {
  }

  // ---------------------------------------------------------------------------
  // The synthetic training frame (create_synthetic_data, lines 49-82)
  // ---------------------------------------------------------------------------

  /** A closed interval `np.random.uniform` draws from. */
  datatype Interval = Interval(lo: real, hi: real)

  /** The seven intervals a crop's samples are drawn from, in feature order. */
  datatype SampleRanges = SampleRanges(n: Interval, p: Interval, k: Interval, temp: Interval,
                                       hum: Interval, ph: Interval, rain: Interval)

  /** `crop_params.get(crop_id, default)`: rice, maize and chickpea have their own
      ranges, every other crop uses the default ones. */
  function CropParams(cropId: nat): SampleRanges
  {
    if cropId == 0 then
      SampleRanges(Interval(20.0, 80.0), Interval(5.0, 40.0), Interval(5.0, 40.0), Interval(20.0, 30.0),
                   Interval(80.0, 95.0), Interval(5.5, 7.0), Interval(150.0, 300.0))
    else if cropId == 1 then
      SampleRanges(Interval(80.0, 120.0), Interval(40.0, 80.0), Interval(40.0, 80.0), Interval(18.0, 27.0),
                   Interval(55.0, 75.0), Interval(6.0, 7.5), Interval(60.0, 120.0))
    else if cropId == 2 then
      SampleRanges(Interval(40.0, 80.0), Interval(60.0, 80.0), Interval(80.0, 120.0), Interval(17.0, 25.0),
                   Interval(10.0, 40.0), Interval(6.0, 7.5), Interval(15.0, 45.0))
    else
      SampleRanges(Interval(20.0, 140.0), Interval(5.0, 145.0), Interval(5.0, 205.0), Interval(8.8, 43.7),
                   Interval(14.0, 99.0), Interval(3.5, 9.9), Interval(20.0, 298.0))
  }

  /** One row of the frame: the random feature values are not modelled, only the
      ranges they are drawn from and the label column. */
  datatype SyntheticRow = SyntheticRow(drawnFrom: SampleRanges, cropId: nat)

  /** `n_samples // len(crop_labels)` as a loop bound: a negative quotient makes
      `range` empty. */
  function PerCrop(nSamples: int): nat
  {
    if nSamples < 0 then 0 else nSamples / |CropLabels|
  }

  /** `count` rows for one crop. */
  function Block(cropId: nat, count: nat): seq<SyntheticRow>
  {
    if count == 0 then [] else Block(cropId, count - 1) + [SyntheticRow(CropParams(cropId), cropId)]
  }

  /** The blocks of crops 0 .. c-1, in that order. */
  function Blocks(c: nat, count: nat): seq<SyntheticRow>
  {
    if c == 0 then [] else Blocks(c - 1, count) + Block(c - 1, count)
  }

  /** The frame `create_synthetic_data(n_samples)` builds, row by row. */
  function SyntheticData(nSamples: int): seq<SyntheticRow>
  {
    Blocks(|CropLabels|, PerCrop(nSamples))
  }

  /** How many rows carry a label. */
  function CountLabel(rows: seq<SyntheticRow>, l: nat): nat
  {
    if |rows| == 0 then 0
    else CountLabel(rows[..|rows| - 1], l) + (if rows[|rows| - 1].cropId == l then 1 else 0)
  }

  lemma {:induction false} CountLabelConcat(a: seq<SyntheticRow>, b: seq<SyntheticRow>, l: nat)
    ensures CountLabel(a + b, l) == CountLabel(a, l) + CountLabel(b, l)
    decreases |b|
  {
    if |b| == 0 {
      assert a + b == a;
    } else {
      assert (a + b)[..|a + b| - 1] == a + b[..|b| - 1];
      CountLabelConcat(a, b[..|b| - 1], l);
    }
  }

  lemma {:induction false} BlockShape(cropId: nat, count: nat)
    ensures |Block(cropId, count)| == count
    ensures forall i :: 0 <= i < count ==> Block(cropId, count)[i] == SyntheticRow(CropParams(cropId), cropId)
  {
    if count > 0 {
      BlockShape(cropId, count - 1);
      assert Block(cropId, count)[..count - 1] == Block(cropId, count - 1);
    }
  }

  lemma {:induction false} BlockCount(cropId: nat, count: nat, l: nat)
    ensures CountLabel(Block(cropId, count), l) == if l == cropId then count else 0
  {
    if count > 0 {
      BlockCount(cropId, count - 1, l);
      var b := Block(cropId, count);
      assert b[..|b| - 1] == Block(cropId, count - 1);
    }
  }

  lemma {:induction false} BlocksLength(c: nat, count: nat)
    ensures |Blocks(c, count)| == c * count
  {
    if c > 0 {
      BlocksLength(c - 1, count);
      BlockShape(c - 1, count);
      var n := |Blocks(c - 1, count)|;
      assert |Blocks(c, count)| == n + count;
      assert n + count == c * count by {
        assert n == (c - 1) * count;
      }
    }
  }

  /** The blocks hold `count` rows for each crop below c and none for any other label. */
  lemma {:induction false} BlocksCount(c: nat, count: nat, l: nat)
    ensures CountLabel(Blocks(c, count), l) == if l < c then count else 0
  {
    if c > 0 {
      BlocksCount(c - 1, count, l);
      BlockCount(c - 1, count, l);
      CountLabelConcat(Blocks(c - 1, count), Block(c - 1, count), l);
    }
  }

  /** Every row of the blocks has a label below c and is drawn from its crop's ranges. */
  lemma {:induction false} BlocksRows(c: nat, count: nat)
    ensures forall i :: 0 <= i < |Blocks(c, count)| ==>
      Blocks(c, count)[i].cropId < c && Blocks(c, count)[i].drawnFrom == CropParams(Blocks(c, count)[i].cropId)
  {
    if c > 0 {
      var prev: seq<SyntheticRow>, block: seq<SyntheticRow> := Blocks(c - 1, count), Block(c - 1, count);
      BlocksRows(c - 1, count);
      BlockShape(c - 1, count);
      forall i | 0 <= i < |prev + block|
        ensures (prev + block)[i].cropId < c && (prev + block)[i].drawnFrom == CropParams((prev + block)[i].cropId)
      {
        if i >= |prev| { assert (prev + block)[i] == block[i - |prev|]; }
      }
    }
  }

  /** The blocks are grouped by ascending label. */
  lemma {:induction false} BlocksSorted(c: nat, count: nat)
    ensures forall i, j :: 0 <= i < j < |Blocks(c, count)| ==> Blocks(c, count)[i].cropId <= Blocks(c, count)[j].cropId
  {
    if c > 0 {
      var prev: seq<SyntheticRow>, block: seq<SyntheticRow> := Blocks(c - 1, count), Block(c - 1, count);
      BlocksSorted(c - 1, count);
      BlocksRows(c - 1, count);
      BlockShape(c - 1, count);
      forall i, j | 0 <= i < j < |prev + block| ensures (prev + block)[i].cropId <= (prev + block)[j].cropId {
        if j >= |prev| {
          assert (prev + block)[j] == block[j - |prev|];
          if i >= |prev| { assert (prev + block)[i] == block[i - |prev|]; }
        }
      }
    }
  }

  /** The frame has `n_samples // 22` rows for each of the 22 labels and no
      others, grouped by ascending label, each drawn from its crop's ranges. */
  lemma SyntheticDataShape(nSamples: int, l: nat)
    ensures |SyntheticData(nSamples)| == |CropLabels| * PerCrop(nSamples)
    ensures CountLabel(SyntheticData(nSamples), l) == if l < |CropLabels| then PerCrop(nSamples) else 0
    ensures forall i :: 0 <= i < |SyntheticData(nSamples)| ==>
      SyntheticData(nSamples)[i].cropId < |CropLabels| &&
      SyntheticData(nSamples)[i].drawnFrom == CropParams(SyntheticData(nSamples)[i].cropId)
    ensures forall i, j :: 0 <= i < j < |SyntheticData(nSamples)| ==>
      SyntheticData(nSamples)[i].cropId <= SyntheticData(nSamples)[j].cropId
  {
    BlocksLength(|CropLabels|, PerCrop(nSamples));
    BlocksCount(|CropLabels|, PerCrop(nSamples), l);
    BlocksRows(|CropLabels|, PerCrop(nSamples));
    BlocksSorted(|CropLabels|, PerCrop(nSamples));
  }

  /** The default call builds 100 rows per crop, 2200 in all. */
  lemma DefaultFrameSize()
    ensures PerCrop(2200) == 100
    ensures |SyntheticData(2200)| == 2200
  {
    SyntheticDataShape(2200, 0);
  }

  // ---------------------------------------------------------------------------
  // The model object
  // ---------------------------------------------------------------------------

  /** A fitted scaler or classifier: loaded from the pickles on disk, or fitted
      here on a synthetic frame. */
  datatype Artefact = Loaded | Fitted(frame: seq<SyntheticRow>)

  /** The artefact `train_model(retrain)` leaves behind: the pickles when both
      exist and no retrain was asked for, a fresh fit on the default frame
      otherwise. */
  function TrainedArtefact(retrain: bool, filesExist: bool): Artefact
  {
    if !retrain && filesExist then Loaded else Fitted(SyntheticData(2200))
  }

  /** The (model, scaler) pair after `predict`: trained by `train_model()` when
      either was unset, untouched otherwise. */
  function PairAfterPredict(model: Option<Artefact>, scaler: Option<Artefact>, filesExist: bool): (Option<Artefact>, Option<Artefact>)
  {
    if model.None? || scaler.None? then (Some(TrainedArtefact(false, filesExist)), Some(TrainedArtefact(false, filesExist)))
    else (model, scaler)
  }

  /** Once one `predict` has run, later calls never train again: the pair is set
      and stays as it is. */
  lemma TrainsAtMostOnce(model: Option<Artefact>, scaler: Option<Artefact>, filesExist: bool, laterFilesExist: bool)
    ensures var (m, s) := PairAfterPredict(model, scaler, filesExist);
      m.Some? && s.Some? && PairAfterPredict(m, s, laterFilesExist) == (m, s)
  {
  }

  /** `CropPredictionModel`. `__init__` sets the label and info tables, which
      nothing changes later; what changes is the fitted pair.
      `filesExist` says whether both pickle files are on disk. */
  class CropPredictionModel {
    var model: Option<Artefact>
    var scaler: Option<Artefact>
    /** `crop_labels` and `crop_info`. */
    var tables: Tables

    /** The labels name distinct crops, each with its `crop_info` entry. */
    predicate Valid()
      reads this
    {
      WellFormed(tables)
    }

    constructor()
      ensures Valid()
      ensures model == None && scaler == None && tables == InitialTables
    {
      model := None;
      scaler := None;
      tables := InitialTables;
      InitialTablesWellFormed();
    }

    /** The row loop of `create_synthetic_data`. */
    method CreateSyntheticData(nSamples: int) returns (data: seq<SyntheticRow>)
      ensures data == SyntheticData(nSamples)
    {
      data := [];
      var samplesPerCrop := nSamples / |CropLabels|;
      for cropId := 0 to |CropLabels|
        invariant data == Blocks(cropId, PerCrop(nSamples))
      {
        var params := CropParams(cropId);
        var j := 0;
        while j < samplesPerCrop
          invariant 0 <= j <= PerCrop(nSamples)
          invariant data == Blocks(cropId, PerCrop(nSamples)) + Block(cropId, j)
        {
          data := data + [SyntheticRow(params, cropId)];
          j := j + 1;
        }
        assert j == PerCrop(nSamples);
      }
    }

    /** `train_model(retrain)`; `wroteFiles` says whether the pickles were dumped. */
    method TrainModel(retrain: bool, filesExist: bool) returns (wroteFiles: bool)
      modifies this
      ensures old(Valid()) ==> Valid()
      ensures model == Some(TrainedArtefact(retrain, filesExist))
      ensures scaler == Some(TrainedArtefact(retrain, filesExist))
      ensures wroteFiles <==> retrain || !filesExist
      ensures tables == old(tables)
    {
      if !retrain && filesExist {
        model := Some(Loaded);
        scaler := Some(Loaded);
        return false;
      }
      var frame := CreateSyntheticData(2200);
      scaler := Some(Fitted(frame));
      model := Some(Fitted(frame));
      wroteFiles := true;
    }

    /** `predict(soil_data)`: trains first when either artefact is missing, then
        answers as `PredictWith` its tables; `proba` is the fitted pair's
        probability vector for a feature vector. */
    method Predict(input: SoilInput, filesExist: bool, proba: seq<real> -> seq<real>)
      returns (res: Result<seq<CropResult>, PredictError>)
      modifies this
      ensures old(Valid()) ==> Valid()
      ensures res == PredictWith(tables, input, proba)
      ensures (model, scaler) == PairAfterPredict(old(model), old(scaler), filesExist)
      ensures tables == old(tables)
    {
      if model.None? || scaler.None? {
        var _ := TrainModel(false, filesExist);
      }
      var features := Features(input);
      if features.Failure? {
        return Failure(features.error);
      }
      var p := proba(features.value);
      var top := TopIndices(p, 3);
      res := AssembleResults(tables, p, top);
    }
  }
}
