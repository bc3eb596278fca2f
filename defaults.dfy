/** The process-wide default values of `src/utils/default_variables.py` that the core uses. */
module Defaults {

  /** Confidence used when the caller's value is missing or out of range. */
  const ModelConfidenceValue: real := 0.45

  /** Default model family and version of `YoloModel`. */
  const ModelFamily: string := "yolov5"
  const ModelVersion: string := "yolov5s"

  /** Default class filter of `YoloModel.predict`. */
  const ModelTargetClass: string := "person"
}
