/**
 * The demand predictor: a holder of four trained artifacts (classifier,
 * categorical encoders, target encoder, metadata) and a trained flag, which
 * encodes one week's observation into the classifier's feature row and
 * decodes the classifier's answer.
 *
 * The artifact files are given as a value (`ModelDirectory`) saying, for each
 * of the four files, whether it is absent, present but unreadable, or present
 * with its deserialized content. The classifier and the encoders are abstract:
 * the classifier is a pair of functions of the feature row, each of which may
 * fail; an encoder is a finite map of its fitted vocabulary.
 */
module ModelLoader {
  import opened Wrappers

  /** A fitted label encoder: the codes of the labels seen in training. */
  type Vocabulary = map<string, int>

  /** The categorical encoders, keyed by column name. */
  type CategoricalEncoders = map<string, Vocabulary>

  /** The target encoder, read backwards: class index to demand label. */
  type TargetEncoder = map<int, string>

  /** The metadata record; a key the file does not hold is `None`. */
  datatype Metadata = Metadata(
    accuracy: Option<real>,
    trainingDate: Option<string>,
    features: Option<seq<string>>,
    target: Option<string>)

  /** The trained classifier: its predicted class index and its per-class
      probabilities for one feature row, `None` where the library raises. */
  datatype Classifier = Classifier(
    predictClass: seq<real> -> Option<int>,
    predictProba: seq<real> -> Option<seq<real>>)

  /** One artifact file on disk. */
  datatype Artifact<T> = Absent | Unreadable | Stored(content: T)

  /** The four artifact files of the models directory. */
  datatype ModelDirectory = ModelDirectory(
    model: Artifact<Classifier>,
    categoricalEncoders: Artifact<CategoricalEncoders>,
    targetEncoder: Artifact<TargetEncoder>,
    metadata: Artifact<Metadata>)

  predicate AllExist(dir: ModelDirectory) {
    && !dir.model.Absent?
    && !dir.categoricalEncoders.Absent?
    && !dir.targetEncoder.Absent?
    && !dir.metadata.Absent?
  }

  /** All four files exist and the first `n` of them, in reading order
      (model, categorical encoders, target encoder, metadata), deserialize. */
  predicate ReadThrough(dir: ModelDirectory, n: nat) {
    && AllExist(dir)
    && (n >= 1 ==> dir.model.Stored?)
    && (n >= 2 ==> dir.categoricalEncoders.Stored?)
    && (n >= 3 ==> dir.targetEncoder.Stored?)
    && (n >= 4 ==> dir.metadata.Stored?)
  }

  /** The raw inputs of one prediction. */
  datatype Observation = Observation(
    rainfall: real,
    temperature: real,
    marketDay: bool,
    schoolOpen: bool,
    diseaseAlert: string,
    lastWeekDemand: string,
    week: int,
    month: string)

  /** The three errors: the untrained guard, and the two wrapped failures. */
  datatype LoaderError = NotLoaded | EncodingFailed | PredictionFailed

  /** The decoded class and the classifier's top probability. */
  datatype PredictionResult = PredictionResult(demand: string, confidence: real)

  /** The column order the classifier was trained on. */
  const FeatureColumns: seq<string> := [
    "Rainfall_mm", "Temperature_C", "Market_Day", "School_Open",
    "Disease_Alert", "Last_Week_Demand", "Month", "Year"]

  /** The year column is always this constant, whatever the observation. */
  const DefaultYear: int := 2024

  /** Both categorical look-ups succeed: each encoder is present and knows
      the observation's label. */
  predicate Encodable(encoders: CategoricalEncoders, obs: Observation) {
    && "Last_Week_Demand" in encoders && obs.lastWeekDemand in encoders["Last_Week_Demand"]
    && "Month" in encoders && obs.month in encoders["Month"]
  }

  function Indicator(b: bool): real {
    if b then 1.0 else 0.0
  }

  /** The encoding step: the observation as the classifier's feature row. */
  function EncodeWith(encoders: CategoricalEncoders, obs: Observation): (r: Result<seq<real>, LoaderError>)
    ensures r.Ok? <==> Encodable(encoders, obs)
    ensures r.Err? ==> r.error == EncodingFailed
    ensures r.Ok? ==> && |r.value| == |FeatureColumns| == 8
                      && r.value[0] == obs.rainfall
                      && r.value[1] == obs.temperature
                      && (r.value[2] == 1.0 <==> obs.marketDay) && r.value[2] in {0.0, 1.0}
                      && (r.value[3] == 1.0 <==> obs.schoolOpen) && r.value[3] in {0.0, 1.0}
                      && (r.value[4] == 1.0 <==> obs.diseaseAlert == "Presence") && r.value[4] in {0.0, 1.0}
                      && r.value[5] == encoders["Last_Week_Demand"][obs.lastWeekDemand] as real
                      && r.value[6] == encoders["Month"][obs.month] as real
                      && r.value[7] == DefaultYear as real
  {
    if "Last_Week_Demand" !in encoders || obs.lastWeekDemand !in encoders["Last_Week_Demand"] then
      Err(EncodingFailed)
    else if "Month" !in encoders || obs.month !in encoders["Month"] then
      Err(EncodingFailed)
    else
      var lastWeekCode := encoders["Last_Week_Demand"][obs.lastWeekDemand];
      var monthCode := encoders["Month"][obs.month];
      Ok([obs.rainfall, obs.temperature, Indicator(obs.marketDay), Indicator(obs.schoolOpen),
          Indicator(obs.diseaseAlert == "Presence"), lastWeekCode as real, monthCode as real,
          DefaultYear as real])
  }

  /** The week number plays no part in the encoding. */
  lemma EncodeIgnoresWeek(encoders: CategoricalEncoders, obs: Observation, week: int)
    ensures EncodeWith(encoders, obs.(week := week)) == EncodeWith(encoders, obs)
  {
  }

  /** A month outside the trained vocabulary is rejected. */
  lemma UnknownMonthRejected(encoders: CategoricalEncoders, obs: Observation)
    requires "Month" in encoders && obs.month !in encoders["Month"]
    ensures EncodeWith(encoders, obs) == Err(EncodingFailed)
  {
  }

  /** The worked example: Medium codes to 1 and January to 0. */
  lemma EncodeExample(encoders: CategoricalEncoders)
    requires "Last_Week_Demand" in encoders && encoders["Last_Week_Demand"] == map["Low" := 0, "Medium" := 1, "High" := 2]
    requires "Month" in encoders && "January" in encoders["Month"] && encoders["Month"]["January"] == 0
    ensures EncodeWith(encoders, Observation(75.0, 23.0, true, true, "Absence", "Medium", 10, "January"))
            == Ok([75.0, 23.0, 1.0, 1.0, 0.0, 1.0, 0.0, 2024.0])
  {
  }

  /** The largest entry of a non-empty probability vector. */
  function MaxOf(s: seq<real>): (m: real)
    requires |s| > 0
    ensures m in s
    ensures forall i :: 0 <= i < |s| ==> s[i] <= m
  {
    if |s| == 1 then s[0]
    else
      var rest := MaxOf(s[1..]);
      if s[0] >= rest then s[0] else rest
  }

  /** Every step of scoring succeeds: encoding, both classifier calls, the
      maximum (a non-empty vector) and the target decoding. */
  predicate Scorable(clf: Classifier, encoders: CategoricalEncoders, target: TargetEncoder, obs: Observation) {
    && EncodeWith(encoders, obs).Ok?
    && var x := EncodeWith(encoders, obs).value;
    && clf.predictClass(x).Some?
    && clf.predictProba(x).Some?
    && |clf.predictProba(x).value| > 0
    && clf.predictClass(x).value in target
  }

  /** Scoring with loaded artifacts: the decoded class and the maximum
      probability; any failure on the way becomes `PredictionFailed`. */
  function PredictWith(clf: Classifier, encoders: CategoricalEncoders, target: TargetEncoder, obs: Observation)
    : (r: Result<PredictionResult, LoaderError>)
    ensures r.Ok? <==> Scorable(clf, encoders, target, obs)
    ensures r.Err? ==> r.error == PredictionFailed
    ensures r.Ok? ==>
              var x := EncodeWith(encoders, obs).value;
              var p := clf.predictProba(x).value;
              && r.value.demand == target[clf.predictClass(x).value]
              && r.value.confidence in p
              && forall i :: 0 <= i < |p| ==> p[i] <= r.value.confidence
  {
    match EncodeWith(encoders, obs)
    case Err(_) => Err(PredictionFailed)
    case Ok(x) =>
      match (clf.predictClass(x), clf.predictProba(x))
      case (Some(c), Some(p)) =>
        if |p| == 0 || c !in target then Err(PredictionFailed)
        else Ok(PredictionResult(target[c], MaxOf(p)))
      case _ => Err(PredictionFailed)
  }

  /** With a proper probability vector the confidence is a probability. */
  lemma ConfidenceBounds(clf: Classifier, encoders: CategoricalEncoders, target: TargetEncoder, obs: Observation)
    requires Scorable(clf, encoders, target, obs)
    requires var p := clf.predictProba(EncodeWith(encoders, obs).value).value;
             forall i :: 0 <= i < |p| ==> 0.0 <= p[i] <= 1.0
    ensures var r := PredictWith(clf, encoders, target, obs);
            r.Ok? && 0.0 <= r.value.confidence <= 1.0
  {
    var p := clf.predictProba(EncodeWith(encoders, obs).value).value;
    var r := PredictWith(clf, encoders, target, obs);
    var k :| 0 <= k < |p| && p[k] == r.value.confidence;
  }

  /** What `get_model_info` reports. */
  datatype ModelInfo =
    | Untrained(message: string)
    | Trained(modelType: string, accuracy: real, trainingDate: string, features: seq<string>, target: string)

  function GetOr<T>(o: Option<T>, default: T): T {
    match o
    case Some(v) => v
    case None => default
  }

  /** The predictor object. Its fields are assigned one at a time while the
      files are read, and `isTrained` is raised only once all four are in. */
  class TomatoModelLoader {
    var model: Option<Classifier>
    var categoricalEncoders: Option<CategoricalEncoders>
    var targetEncoder: Option<TargetEncoder>
    var metadata: Option<Metadata>
    var isTrained: bool

    /** A trained predictor holds all four artifacts. */
    ghost predicate Valid()
      reads this
    {
      isTrained ==> model.Some? && categoricalEncoders.Some? && targetEncoder.Some? && metadata.Some?
    }

    /** Starts empty and untrained, then loads once. */
    constructor (dir: ModelDirectory)
      ensures Valid()
      ensures isTrained <==> ReadThrough(dir, 4)
      ensures model == (if ReadThrough(dir, 1) then Some(dir.model.content) else None)
      ensures categoricalEncoders == (if ReadThrough(dir, 2) then Some(dir.categoricalEncoders.content) else None)
      ensures targetEncoder == (if ReadThrough(dir, 3) then Some(dir.targetEncoder.content) else None)
      ensures metadata == (if ReadThrough(dir, 4) then Some(dir.metadata.content) else None)
    {
      model := None;
      categoricalEncoders := None;
      targetEncoder := None;
      metadata := None;
      isTrained := false;
      new;
      var _ := LoadModel(dir);
    }

    /** Checks that all four files exist, then reads them in order. A missing
        file changes nothing but the flag; a file that fails to read leaves the
        fields read before it in place; only a complete read trains. */
    method LoadModel(dir: ModelDirectory) returns (ok: bool)
      modifies this
      ensures Valid()
      ensures ok == isTrained
      ensures ok <==> ReadThrough(dir, 4)
      ensures model == (if ReadThrough(dir, 1) then Some(dir.model.content) else old(model))
      ensures categoricalEncoders ==
                (if ReadThrough(dir, 2) then Some(dir.categoricalEncoders.content) else old(categoricalEncoders))
      ensures targetEncoder == (if ReadThrough(dir, 3) then Some(dir.targetEncoder.content) else old(targetEncoder))
      ensures metadata == (if ReadThrough(dir, 4) then Some(dir.metadata.content) else old(metadata))
    {
      if !AllExist(dir) {
        isTrained := false;
        return false;
      }
      if !dir.model.Stored? {
        isTrained := false;
        return false;
      }
      model := Some(dir.model.content);
      if !dir.categoricalEncoders.Stored? {
        isTrained := false;
        return false;
      }
      categoricalEncoders := Some(dir.categoricalEncoders.content);
      if !dir.targetEncoder.Stored? {
        isTrained := false;
        return false;
      }
      targetEncoder := Some(dir.targetEncoder.content);
      if !dir.metadata.Stored? {
        isTrained := false;
        return false;
      }
      metadata := Some(dir.metadata.content);
      isTrained := true;
      return true;
    }

    /** Clears the flag and all four artifacts, then loads again. */
    method ReloadModel(dir: ModelDirectory) returns (ok: bool)
      modifies this
      ensures Valid()
      ensures ok == isTrained
      ensures ok <==> ReadThrough(dir, 4)
      ensures model == (if ReadThrough(dir, 1) then Some(dir.model.content) else None)
      ensures categoricalEncoders == (if ReadThrough(dir, 2) then Some(dir.categoricalEncoders.content) else None)
      ensures targetEncoder == (if ReadThrough(dir, 3) then Some(dir.targetEncoder.content) else None)
      ensures metadata == (if ReadThrough(dir, 4) then Some(dir.metadata.content) else None)
    {
      isTrained := false;
      model := None;
      categoricalEncoders := None;
      targetEncoder := None;
      metadata := None;
      ok := LoadModel(dir);
    }

    /** `encode_features`: refuses when untrained, otherwise encodes. */
    function EncodeFeatures(obs: Observation): (r: Result<seq<real>, LoaderError>)
      reads this
      ensures !isTrained ==> r == Err(NotLoaded)
      ensures isTrained && r.Err? ==> r.error == EncodingFailed
      ensures r.Ok? <==> isTrained && categoricalEncoders.Some? && Encodable(categoricalEncoders.value, obs)
      ensures r.Ok? ==> r == EncodeWith(categoricalEncoders.value, obs)
    {
      if !isTrained then Err(NotLoaded)
      else match categoricalEncoders
        case None => Err(EncodingFailed)
        case Some(encoders) => EncodeWith(encoders, obs)
    }

    /** `predict`: refuses when untrained, otherwise scores with the held
        artifacts; every other failure is `PredictionFailed`. */
    function Predict(obs: Observation): (r: Result<PredictionResult, LoaderError>)
      reads this
      ensures !isTrained ==> r == Err(NotLoaded)
      ensures isTrained && r.Err? ==> r.error == PredictionFailed
      ensures r.Ok? <==>
                && isTrained && model.Some? && categoricalEncoders.Some? && targetEncoder.Some?
                && Scorable(model.value, categoricalEncoders.value, targetEncoder.value, obs)
      ensures r.Ok? ==> r == PredictWith(model.value, categoricalEncoders.value, targetEncoder.value, obs)
    {
      if !isTrained then Err(NotLoaded)
      else match (model, categoricalEncoders, targetEncoder)
        case (Some(clf), Some(encoders), Some(target)) => PredictWith(clf, encoders, target, obs)
        case _ => Err(PredictionFailed)
    }

    /** `get_model_info`: a short notice when untrained, otherwise the
        metadata with a default for each missing key. */
    function GetModelInfo(): (r: ModelInfo)
      reads this
      requires Valid()
      ensures r.Untrained? <==> !isTrained
      ensures r.Untrained? ==> r.message == "Model not loaded."
      ensures r.Trained? ==>
                var m := metadata.value;
                && r.modelType == "Random Forest Classifier"
                && (m.accuracy.Some? ==> r.accuracy == m.accuracy.value)
                && (m.accuracy.None? ==> r.accuracy == 0.0)
                && (m.trainingDate.Some? ==> r.trainingDate == m.trainingDate.value)
                && (m.trainingDate.None? ==> r.trainingDate == "Unknown")
                && (m.features.Some? ==> r.features == m.features.value)
                && (m.features.None? ==> r.features == [])
                && (m.target.Some? ==> r.target == m.target.value)
                && (m.target.None? ==> r.target == "Market_Demand")
    {
      if !isTrained then Untrained("Model not loaded.")
      else
        var m := metadata.value;
        Trained("Random Forest Classifier", GetOr(m.accuracy, 0.0), GetOr(m.trainingDate, "Unknown"),
                GetOr(m.features, []), GetOr(m.target, "Market_Demand"))
    }
  }

  /** Reloading a predictor from the very files it was loaded from keeps it
      trained and leaves every prediction as it was. */
  method ReloadKeepsPredictions(loader: TomatoModelLoader, dir: ModelDirectory, obs: Observation)
    returns (before: Result<PredictionResult, LoaderError>, after: Result<PredictionResult, LoaderError>)
    requires ReadThrough(dir, 4) && loader.isTrained
    requires loader.model == Some(dir.model.content)
    requires loader.categoricalEncoders == Some(dir.categoricalEncoders.content)
    requires loader.targetEncoder == Some(dir.targetEncoder.content)
    modifies loader
    ensures loader.isTrained
    ensures before == old(loader.Predict(obs)) && after == loader.Predict(obs)
    ensures after == before
  {
    before := loader.Predict(obs);
    var ok := loader.ReloadModel(dir);
    after := loader.Predict(obs);
  }
}
