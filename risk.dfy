/**
 * model/risk_predictor.py: the risk predictor's argument checks, the
 * encoding of a profile as a feature vector, and the demo predictor's
 * reserved user ids.
 *
 * A predictor holds one model, chosen once when it is built and never
 * changed, so it is a value here.  The model's `predict_proba`, the
 * `joblib.load` of a model file and the demo model's seeded random draw are
 * uninterpreted functions; a missing feature (`np.nan`) is `None`.
 */
module Risk {
  import opened Wrappers
  import opened Text
  import opened Dto

  /** The feature vector; `None` is the missing-value sentinel. */
  type Features = seq<Option<real>>

  /** An object with `predict_proba`. */
  datatype ProbaModel = ProbaModel(predictProba: Features -> real)

  /** `RiskPredictor` scores with its model; `DemoRiskPredictor` checks reserved ids first. */
  datatype PredictorKind = Standard | Demo

  datatype RiskPredictor = RiskPredictor(kind: PredictorKind, model: ProbaModel)

  /** The `ValueError`s of the constructor, and a load that raises. */
  datatype InitError =
    | PathOrModelRequired         // neither a path nor a model was given
    | NotAJoblibFile(path: string) // the path does not end in ".joblib"
    | LoadFailed(path: string)     // `joblib.load(path)` raised

  const JoblibSuffix: string := ".joblib"

  /** Python truthiness of an optional string: `None` and `""` are false. */
  predicate Truthy(path: Option<string>)
  {
    path.Some? && path.value != ""
  }

  /**
   * `RiskPredictor.__init__`: a given model wins over any path; without one,
   * the path must end in ".joblib" before it is loaded.
   */
  function NewRiskPredictor(
    kind: PredictorKind, path: Option<string>, model: Option<ProbaModel>, load: string -> Option<ProbaModel>
  ): (r: Result<RiskPredictor, InitError>)
    ensures r == Failure(PathOrModelRequired) <==> !Truthy(path) && model.None?
    ensures model.Some? ==> r == Success(RiskPredictor(kind, model.value))
    ensures r.Failure? && r.error.NotAJoblibFile? <==>
      model.None? && Truthy(path) && !EndsWith(path.value, JoblibSuffix)
    ensures r.Success? ==> r.value.kind == kind
    ensures r.Success? && model.None? ==>
      Truthy(path) && EndsWith(path.value, JoblibSuffix) && load(path.value) == Some(r.value.model)
    ensures r.Failure? && r.error.LoadFailed? <==>
      model.None? && Truthy(path) && EndsWith(path.value, JoblibSuffix) && load(path.value).None?
  {
    if !Truthy(path) && model.None? then Failure(PathOrModelRequired)
    else if model.Some? then Success(RiskPredictor(kind, model.value))
    else if !EndsWith(path.value, JoblibSuffix) then Failure(NotAJoblibFile(path.value))
    else match load(path.value)
      case None => Failure(LoadFailed(path.value))
      case Some(m) => Success(RiskPredictor(kind, m))
  }

  /** A path with the wrong suffix is rejected whatever the loader would have done: it is never loaded. */
  lemma WrongSuffixNeverLoaded(
    kind: PredictorKind, path: string, load1: string -> Option<ProbaModel>, load2: string -> Option<ProbaModel>
  )
    requires path != "" && !EndsWith(path, JoblibSuffix)
    ensures NewRiskPredictor(kind, Some(path), None, load1) == Failure(NotAJoblibFile(path))
    ensures NewRiskPredictor(kind, Some(path), None, load1) == NewRiskPredictor(kind, Some(path), None, load2)
  {
  }

  /** `DemoRiskPredictor.__init__` passes a model, so it always succeeds. */
  function NewDemoRiskPredictor(demoModel: ProbaModel, load: string -> Option<ProbaModel>): (r: Result<RiskPredictor, InitError>)
    ensures r == Success(RiskPredictor(Demo, demoModel))
  {
    NewRiskPredictor(Demo, None, Some(demoModel), load)
  }

  /** The XGBoost predictors load a fixed ".joblib" file: only the load itself can fail. */
  lemma FixedModelFileOnlyFailsOnLoad(kind: PredictorKind, load: string -> Option<ProbaModel>)
    ensures NewRiskPredictor(kind, Some("xgb_risk_model.joblib"), None, load).Failure?
        <==> load("xgb_risk_model.joblib").None?
    ensures NewRiskPredictor(kind, Some("xgb_synthetic_risk_model.joblib"), None, load).Failure?
        <==> load("xgb_synthetic_risk_model.joblib").None?
  {
    assert EndsWith("xgb_risk_model.joblib", JoblibSuffix);
    assert EndsWith("xgb_synthetic_risk_model.joblib", JoblibSuffix);
  }

  // ---------------------------------------------------------------------
  // Features

  /** `1.0` for "female" in any letter case, `0.0` for any other string, missing when absent. */
  function SexCode(sex: Option<string>): Option<real>
  {
    match sex
    case None => None
    case Some(s) => if Lower(s) == "female" then Some(1.0) else Some(0.0)
  }

  /** The female code is exactly the strings that spell "female" up to letter case. */
  lemma FemaleInAnyCase(s: string)
    ensures SexCode(Some(s)) == Some(1.0)
        <==> |s| == 6 && forall i :: 0 <= i < 6 ==> LowerChar(s[i]) == "female"[i]
  {
    if |s| == 6 && forall i :: 0 <= i < 6 ==> LowerChar(s[i]) == "female"[i] {
      assert forall i :: 0 <= i < 6 ==> Lower(s)[i] == "female"[i];
      assert Lower(s) == "female";
    }
  }

  /** `convert_user_profile_to_data`: `[age, height, weight, sex]`. */
  function ConvertUserProfileToData(profile: UserProfile): (f: Features)
    ensures |f| == 4
    ensures f[0] == Some(profile.age as real)
    ensures f[1] == profile.heightCm && f[2] == profile.weightKg
    ensures f[3].Some? <==> profile.sex.Some?
    ensures f[3].Some? ==> f[3].value == 0.0 || f[3].value == 1.0
  {
    [Some(profile.age as real), profile.heightCm, profile.weightKg, SexCode(profile.sex)]
  }

  /** The encoding keeps age, height and weight, and whether the sex is given and female. */
  lemma EncodingDeterminesFields(p1: UserProfile, p2: UserProfile)
    requires ConvertUserProfileToData(p1) == ConvertUserProfileToData(p2)
    ensures p1.age == p2.age && p1.heightCm == p2.heightCm && p1.weightKg == p2.weightKg
    ensures p1.sex.None? <==> p2.sex.None?
    ensures SexCode(p1.sex) == SexCode(p2.sex)
  {
    assert ConvertUserProfileToData(p1)[0] == ConvertUserProfileToData(p2)[0];
    assert ConvertUserProfileToData(p1)[3] == ConvertUserProfileToData(p2)[3];
  }

  // ---------------------------------------------------------------------
  // Scores

  const DemoHighRiskIds: set<string> := {"high_risk_user_1", "high_risk_user_2"}
  const DemoMedRiskIds: set<string> := {"med_risk_user_1", "med_risk_user_2"}
  const DemoLowRiskIds: set<string> := {"low_risk_user_1", "low_risk_user_2"}

  /** `RiskPredictor.score`: the model's probability for the encoded profile. */
  function BaseScore(model: ProbaModel, profile: UserProfile): real
  {
    model.predictProba(ConvertUserProfileToData(profile))
  }

  /** `DemoRiskPredictor.score`: the reserved ids get fixed scores, anyone else the base score. */
  function DemoScore(model: ProbaModel, profile: UserProfile): (r: real)
    ensures profile.userId in DemoHighRiskIds ==> r == 1.0
    ensures profile.userId in DemoMedRiskIds ==> r == 0.5
    ensures profile.userId in DemoLowRiskIds ==> r == 0.0
    ensures profile.userId !in DemoHighRiskIds + DemoMedRiskIds + DemoLowRiskIds ==> r == BaseScore(model, profile)
  {
    if profile.userId in DemoHighRiskIds then 1.0
    else if profile.userId in DemoMedRiskIds then 0.5
    else if profile.userId in DemoLowRiskIds then 0.0
    else BaseScore(model, profile)
  }

  /** The base score reads the profile only through its four encoded features. */
  lemma BaseScoreSeesOnlyFeatures(model: ProbaModel, p1: UserProfile, p2: UserProfile)
    requires ConvertUserProfileToData(p1) == ConvertUserProfileToData(p2)
    ensures BaseScore(model, p1) == BaseScore(model, p2)
  {
  }

  /**
   * `score` on either kind of predictor: the demo predictor's reserved-id
   * checks, and otherwise the model's probability for the encoded profile.
   */
  function Score(predictor: RiskPredictor, profile: UserProfile): (r: real)
    ensures predictor.kind == Demo ==> r == DemoScore(predictor.model, profile)
    ensures predictor.kind == Standard || profile.userId !in DemoHighRiskIds + DemoMedRiskIds + DemoLowRiskIds
      ==> r == BaseScore(predictor.model, profile)
  {
    match predictor.kind
    case Standard => BaseScore(predictor.model, profile)
    case Demo => DemoScore(predictor.model, profile)
  }

  /** A reserved id fixes the demo score: neither the model nor any other field matters. */
  lemma ReservedIdsIgnoreProfile(m1: ProbaModel, m2: ProbaModel, p1: UserProfile, p2: UserProfile)
    requires p1.userId == p2.userId
    requires p1.userId in DemoHighRiskIds + DemoMedRiskIds + DemoLowRiskIds
    ensures DemoScore(m1, p1) == DemoScore(m2, p2)
    ensures 0.0 <= DemoScore(m1, p1) <= 1.0
  {
  }

  /** Off the reserved ids the two kinds of predictor agree on the same model. */
  lemma KindsAgreeOffReservedIds(model: ProbaModel, profile: UserProfile)
    requires profile.userId !in DemoHighRiskIds + DemoMedRiskIds + DemoLowRiskIds
    ensures Score(RiskPredictor(Standard, model), profile) == Score(RiskPredictor(Demo, model), profile)
  {
  }

  /** The reserved sets are disjoint, so the order of the checks does not matter. */
  lemma ReservedSetsDisjoint()
    ensures DemoHighRiskIds !! DemoMedRiskIds
    ensures DemoHighRiskIds !! DemoLowRiskIds
    ensures DemoMedRiskIds !! DemoLowRiskIds
  {
  }
}
