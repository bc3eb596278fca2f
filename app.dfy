/**
 * The counting logic of the Streamlit dashboard (src/streamlit_app/app.py):
 * input validation, the per-frame count of the target item and the running
 * total of `handle_analysis`.  The per-frame results shapes follow their use
 * in the app (src/classes/analysis_results.py is not part of this model).
 */
module StreamlitApp {
  import opened Wrappers

  datatype DetectedObject = DetectedObject(name: string)

  /** A missing `detected_objects` list is `None`. */
  datatype InferenceResults = InferenceResults(detectedObjects: Option<seq<DetectedObject>>)

  /** One frame's analysis; only the inference results take part in the counting. */
  datatype AnalysisResults = AnalysisResults(inferenceResults: Option<InferenceResults>)

  // ---------------------------------------------------------------------------
  // validate_input
  // ---------------------------------------------------------------------------

  /** The warnings `validate_input` shows. */
  datatype InputWarning = MissingUrl | MissingTarget

  /** The warning shown for the inputs, if any: the URL is checked before the target. */
  function InputWarningFor(url: string, targetItem: string): (w: Option<InputWarning>)
    ensures url == "" ==> w == Some(MissingUrl)
    ensures url != "" && targetItem == "" ==> w == Some(MissingTarget)
    ensures w == None <==> url != "" && targetItem != ""
  {
    if url == "" then Some(MissingUrl)
    else if targetItem == "" then Some(MissingTarget)
    else None
  }

  /** `validate_input`: true exactly when neither the URL nor the target item is empty. */
  function ValidateInput(url: string, targetItem: string): (ok: bool)
    ensures ok <==> url != "" && targetItem != ""
  {
    InputWarningFor(url, targetItem).None?
  }

  // ---------------------------------------------------------------------------
  // get_count_of_target_item
  // ---------------------------------------------------------------------------

  /** Number of objects in `objects` whose name is exactly `targetItem`. */
  function CountNamed(objects: seq<DetectedObject>, targetItem: string): (n: nat)
    ensures n <= |objects|
    ensures n == 0 <==> forall i :: 0 <= i < |objects| ==> objects[i].name != targetItem
    ensures n == |objects| <==> forall i :: 0 <= i < |objects| ==> objects[i].name == targetItem
  {
    if objects == [] then 0
    else
      var rest := CountNamed(objects[1..], targetItem);
      assert forall i :: 1 <= i < |objects| ==> objects[i] == objects[1..][i - 1];
      (if objects[0].name == targetItem then 1 else 0) + rest
  }

  /** The names of the detected objects, in order. */
  function NamesOf(objects: seq<DetectedObject>): seq<string>
  {
    seq(|objects|, i requires 0 <= i < |objects| => objects[i].name)
  }

  /** The filtered count is the multiplicity of the target among the detected names. */
  lemma {:induction false} CountNamedIsMultiplicity(objects: seq<DetectedObject>, targetItem: string)
    ensures CountNamed(objects, targetItem) == multiset(NamesOf(objects))[targetItem]
  {
    if objects != [] {
      CountNamedIsMultiplicity(objects[1..], targetItem);
      assert NamesOf(objects) == [objects[0].name] + NamesOf(objects[1..]);
    }
  }

  /** Number of detected objects a frame reports (0 when anything is missing). */
  function DetectionsIn(frame: Option<AnalysisResults>): nat
  {
    match frame
    case Some(AnalysisResults(Some(InferenceResults(Some(objects))))) => |objects|
    case _ => 0
  }

  /**
   * `get_count_of_target_item`: 0 when the frame, its inference results or
   * its list of detected objects is missing or empty; otherwise the number of
   * objects named exactly `targetItem` (case-sensitive, no substring match).
   */
  function GetCountOfTargetItem(targetItem: string, frame: Option<AnalysisResults>): (n: nat)
    ensures n <= DetectionsIn(frame)
    ensures DetectionsIn(frame) == 0 ==> n == 0
    ensures frame.Some? && frame.value.inferenceResults.Some?
            && frame.value.inferenceResults.value.detectedObjects.Some? ==>
              n == CountNamed(frame.value.inferenceResults.value.detectedObjects.value, targetItem)
  {
    match frame
    case Some(AnalysisResults(Some(InferenceResults(Some(objects))))) =>
      if objects != [] then CountNamed(objects, targetItem) else 0
    case _ => 0
  }

  // ---------------------------------------------------------------------------
  // handle_analysis
  // ---------------------------------------------------------------------------

  /** Sum of the per-frame counts over `frames`, in order. */
  function TotalCount(targetItem: string, frames: seq<AnalysisResults>): (n: nat)
    ensures n <= TotalDetections(frames)
  {
    if frames == [] then 0
    else TotalCount(targetItem, frames[..|frames| - 1]) + GetCountOfTargetItem(targetItem, Some(frames[|frames| - 1]))
  }

  /** Total number of detected objects over `frames`. */
  function TotalDetections(frames: seq<AnalysisResults>): nat
  {
    if frames == [] then 0
    else TotalDetections(frames[..|frames| - 1]) + DetectionsIn(Some(frames[|frames| - 1]))
  }

  /** Totals over consecutive runs of frames add up. */
  lemma {:induction false} TotalCountAppend(targetItem: string, a: seq<AnalysisResults>, b: seq<AnalysisResults>)
    ensures TotalCount(targetItem, a + b) == TotalCount(targetItem, a) + TotalCount(targetItem, b)
    decreases |b|
  {
    if b == [] {
      assert a + b == a;
    } else {
      var b' := b[..|b| - 1];
      assert (a + b)[..|a + b| - 1] == a + b';
      assert (a + b)[|a + b| - 1] == b[|b| - 1];
      TotalCountAppend(targetItem, a, b');
    }
  }

  /** What `handle_analysis` ends with. */
  datatype AnalysisOutcome =
    | InputRejected(warning: InputWarning)          // validate_input failed: nothing analysed
    | UrlRejected                                   // VideoData(url) raised: warning, nothing analysed
    | Summary(targetItem: string, url: string, foundTargetItemCount: nat)

  /**
   * `handle_analysis`: validates the inputs, builds the video object
   * (`urlAccepted` is the URL validator's verdict) and sums the per-frame
   * target counts over the analysis results `frames`.
   */
  method HandleAnalysis(url: string, targetItem: string, urlAccepted: bool, frames: seq<AnalysisResults>)
    returns (outcome: AnalysisOutcome)
    ensures !ValidateInput(url, targetItem) ==> outcome == InputRejected(InputWarningFor(url, targetItem).value)
    ensures ValidateInput(url, targetItem) && !urlAccepted ==> outcome == UrlRejected
    ensures ValidateInput(url, targetItem) && urlAccepted ==>
              outcome == Summary(targetItem, url, TotalCount(targetItem, frames))
    ensures outcome.Summary? ==> outcome.foundTargetItemCount <= TotalDetections(frames)
  {
    if !ValidateInput(url, targetItem) {
      return InputRejected(InputWarningFor(url, targetItem).value);
    }
    if !urlAccepted {
      return UrlRejected;
    }
    var foundTargetItemCount := 0;
    for i := 0 to |frames|
      invariant foundTargetItemCount == TotalCount(targetItem, frames[..i])
    {
      foundTargetItemCount := foundTargetItemCount + GetCountOfTargetItem(targetItem, Some(frames[i]));
      assert frames[..i + 1][..i] == frames[..i];
    }
    assert frames[..|frames|] == frames;
    outcome := Summary(targetItem, url, foundTargetItemCount);
  }
}
