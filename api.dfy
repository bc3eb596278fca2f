/**
 * The model-selection table of the HTTP API (src/api/index.py) and the
 * hand-off of the chosen configuration to `YoloModel`.
 */
module Api {
  import opened Wrappers
  import Yolo
  import Defaults

  /** `ModelChoices`: the two selections the endpoint accepts. */
  datatype ModelChoices = Yolov5 | Yolov8 {
    /** The enum member's string value. */
    function Value(): (v: string)
      ensures v in Yolo.AcceptedModelFamilies
      ensures Yolov5? <==> v == Defaults.ModelFamily
    {
      match this
      case Yolov5 => "yolov5"
      case Yolov8 => "yolov8"
    }
  }

  /** Distinct choices have distinct values, so a value names exactly one choice. */
  lemma ValueInjective(a: ModelChoices, b: ModelChoices)
    ensures a.Value() == b.Value() <==> a == b
  {
  }

  /** The dict `{"model_family": ..., "model_version": ...}`. */
  datatype ModelConfig = ModelConfig(modelFamily: string, modelVersion: string)

  /**
   * `get_model_attributes`: the family and version for a selection string;
   * any other string falls through the `if`/`elif` and yields `None`.
   */
  function GetModelAttributes(modelSelection: string): (r: Option<ModelConfig>)
    ensures modelSelection == "yolov5" ==> r == Some(ModelConfig("yolov5", "yolov5s"))
    ensures modelSelection == "yolov8" ==> r == Some(ModelConfig("yolov8", "yolov8n.pt"))
    ensures r.Some? <==> modelSelection == "yolov5" || modelSelection == "yolov8"
    ensures r.Some? ==> r.value.modelFamily == modelSelection
  {
    if modelSelection == "yolov5" then Some(ModelConfig("yolov5", "yolov5s"))
    else if modelSelection == "yolov8" then Some(ModelConfig("yolov8", "yolov8n.pt"))
    else None
  }

  /** Every `ModelChoices` value has a configuration whose family is that value. */
  lemma EveryChoiceConfigured(choice: ModelChoices)
    ensures GetModelAttributes(choice.Value()).Some?
    ensures GetModelAttributes(choice.Value()).value.modelFamily == choice.Value()
  {
  }

  /** Every configured family is one `YoloModel` accepts, so only the version check can reject it. */
  lemma ConfiguredFamiliesAccepted(modelSelection: string, hubVersions: seq<string>)
    requires GetModelAttributes(modelSelection).Some?
    ensures GetModelAttributes(modelSelection).value.modelFamily in Yolo.AcceptedModelFamilies
    ensures !Yolo.CheckModel(GetModelAttributes(modelSelection).value.modelFamily,
                             GetModelAttributes(modelSelection).value.modelVersion, hubVersions).Fail?
            || Yolo.CheckModel(GetModelAttributes(modelSelection).value.modelFamily,
                               GetModelAttributes(modelSelection).value.modelVersion, hubVersions)
               == Fail(Yolo.InvalidModelVersion(GetModelAttributes(modelSelection).value.modelVersion))
  {
  }

  /** The yolov8 configuration passes `YoloModel`'s checks whatever the hub lists. */
  lemma Yolov8ConfigAccepted(hubVersions: seq<string>)
    ensures Yolo.CheckModel(GetModelAttributes("yolov8").value.modelFamily,
                            GetModelAttributes("yolov8").value.modelVersion, hubVersions) == Pass
  {
    assert GetModelAttributes("yolov8").value.modelVersion == Yolo.Yolov8ModelVersions[0];
  }

  /** The yolov5 configuration passes exactly when the hub lists `yolov5s`; it is the default configuration. */
  lemma Yolov5ConfigAccepted(hubVersions: seq<string>)
    ensures Yolo.CheckModel(GetModelAttributes("yolov5").value.modelFamily,
                            GetModelAttributes("yolov5").value.modelVersion, hubVersions) == Pass
            <==> "yolov5s" in hubVersions
    ensures GetModelAttributes("yolov5") == Some(ModelConfig(Defaults.ModelFamily, Defaults.ModelVersion))
  {
  }

  /** Why `load_model_service` can fail. */
  datatype ServiceError =
    | NoConfiguration                     // subscripting the `None` configuration raises `TypeError`
    | ModelRejected(error: Yolo.ModelError)

  /**
   * `load_model_service`: builds a `YoloModel` from the configured family and
   * version, unchanged.  `hubVersions` and `table` stand for what the model
   * hub reports and what the loaded detector's class table holds.
   */
  method LoadModelService(modelSelection: string, hubVersions: seq<string>, table: Yolo.ClassTable)
    returns (r: Result<Yolo.YoloModel, ServiceError>)
    requires Yolo.DistinctIds(table)
    ensures GetModelAttributes(modelSelection).None? ==> r == Failure(NoConfiguration)
    ensures GetModelAttributes(modelSelection).Some? ==>
              var config := GetModelAttributes(modelSelection).value;
              var check := Yolo.CheckModel(config.modelFamily, config.modelVersion, hubVersions);
              && (check.Fail? ==> r == Failure(ModelRejected(check.error)))
              && (check.Pass? ==>
                    && r.Success? && fresh(r.value) && r.value.Valid()
                    && r.value.modelFamily == config.modelFamily
                    && r.value.modelVersion == config.modelVersion)
  {
    var config := GetModelAttributes(modelSelection);
    if config.None? {
      return Failure(NoConfiguration);
    }
    var loaded := Yolo.YoloModel.Load(config.value.modelFamily, config.value.modelVersion, hubVersions, table);
    match loaded
    case Failure(e) => r := Failure(ModelRejected(e));
    case Success(model) => r := Success(model);
  }
}
