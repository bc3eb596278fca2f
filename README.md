# Video analyzer core, modelled in Dafny

This project models the deterministic layer of the video-analysis service: a
video is downloaded, up to 500 of its frames are stored, an object detector (YOLO v5
or v8) is run per frame, and the class counts are reported. The downloader,
the video decoder and the detector are foreign libraries. Here each of them is
an input: a flag saying whether the downloaded file exists, a sequence of read results, and
the detector's raw report for an image. What remains is modelled and proved:

- `Yolo` (yolo_model.py). Confidence normalisation. Family and version whitelists. The class tables
  the constructor builds. Dispatch to the yolov8 or yolov5 path. The two per-image
  summary builders, which keep the names that occur in `target_name.lower()`.
  `YoloModel` is a class. Its constructor assigns the class tables, and `Predict` sets
  the detector's confidence threshold.
- `PrepService` (prep_service.py). The frame-extraction loop of
  `DataPreparationService.extraction_of_video_frames`. It reads from
  a `VideoReader` object until a read fails or 500 frames are stored, stores them under
  indices 0, 1, …, and releases the reader.
- `StreamlitApp` (app.py). The dashboard's input validation, the
  exact-name count of the target item per frame, and the loop that adds those counts up.
- `Api` (index.py). The selection → (family, version) table and the
  hand-off of that configuration to `YoloModel`.
- `Defaults` holds the default values the core uses (default_variables.py). `Wrappers` holds
  the Option/Result/Outcome datatypes.

Facts about the code that shape the model:

- The frame cap is the constant 500.
- A video with no readable frame yields an empty frame dictionary.
- Family and version errors are the two `ValueError`s of `_load_model`.
- `target_name` always filters. With an empty target only the name "" can match.

Python dicts are ordered, so `model.names` is modelled as its ordered items (`ClassTable`).
That way the inversion `{v: k for k, v in names.items()}` keeps the later key for a
repeated name, exactly as the comprehension does. `class_names` is in first-insertion
order. `Counter` is a multiset, and its iteration order is first occurrence.
A table read from `model.names` has distinct ids (`DistinctIds`), and the members that take
one from the loaded detector (`YoloModel.FromLoaded`, `YoloModel.Load`, `Api.LoadModelService`) require that.

## Model

| member | source | states |
|---|---|---|
| `Yolo.LowerChar` | src/classes/yolo_model.py:255 | An ASCII capital becomes its lower-case letter (code point + 32). Every other character is unchanged. No result is an ASCII capital. |
| `Yolo.Lower` | src/classes/yolo_model.py:255 | `target_name.lower()` keeps the length, lower-cases position by position, and leaves no ASCII capital. |
| `Yolo.LowerFixesLowercase` | src/classes/yolo_model.py:255 | A string without ASCII capitals is its own lower-case form, e.g. the default target "person". |
| `Yolo.LowerIdempotent` | src/classes/yolo_model.py:255 | Lower-casing twice equals lower-casing once. |
| `Yolo.IsSubstring` | src/classes/yolo_model.py:255 | `key in target_name.lower()` holds iff `key` equals some contiguous slice of the target, so it is never longer than the target. |
| `Yolo.SliceIsSubstring` | src/classes/yolo_model.py:337 | "A prefix of some suffix" and "some slice" are the same notion of substring. |
| `Yolo.NormalizeConfidence` | src/classes/yolo_model.py:385-391 | The confidence handed on lies in (0, 1]. It equals the caller's value when that is in range. It is the default 0.45 when the value is missing, zero, negative or above 1. |
| `Yolo.NormalizeConfidenceIdempotent` | src/classes/yolo_model.py:385-391 | Normalising a normalised confidence leaves it unchanged. |
| `Yolo.CheckModel` | src/classes/yolo_model.py:106-148 | A family outside ["yolov5", "yolov8"] fails with InvalidModelFamily, whatever the version. yolov5 passes iff the version is in the hub list. yolov8 passes iff the version is "yolov8n.pt" or "yolov8n-seg.pt". Any other failure of an accepted family is InvalidModelVersion. |
| `Yolo.CheckModelIgnoresHubUnlessYolov5` | src/classes/yolo_model.py:118-122 | The hub's version list affects the verdict only for family yolov5. |
| `Yolo.FirstOccurrences` | src/classes/yolo_model.py:190-191 | The keys of a dict filled in order: the same elements as the input, each exactly once, no more of them than the input. |
| `Yolo.FirstOccurrencesOrder` | src/classes/yolo_model.py:190-191 | The keys come in order of first occurrence: an earlier key occurs in the input before every occurrence of a later key. |
| `Yolo.ItemsToMap` | src/classes/yolo_model.py:171 | A dict built from items (`names.copy()`, the `{value: key ...}` comprehension) has exactly the items' keys as keys. Every entry is one of the items. |
| `Yolo.ItemsToMapLastWins` | src/classes/yolo_model.py:187-189 | In a dict built from items, an item that no later item overwrites is the value stored for its key. |
| `Yolo.GetModelClasses` | src/classes/yolo_model.py:171 | The class-id list follows the table order. The mapping's keys are exactly those ids. With distinct ids, as in every dict, each id maps to its name. |
| `Yolo.MapModelClasses` | src/classes/yolo_model.py:186-193 | `class_names` is exactly the key set of the inverted dict, without repeats. It is the first-occurrence list of the table's names, whose order `FirstOccurrencesOrder` states. Every table name is a key. Every entry name → id comes from a table pair (id, name). |
| `Yolo.SwappedKeys` | src/classes/yolo_model.py:187-189 | The keys of the inverted dict are exactly the class names of the table. |
| `Yolo.SwappedEntries` | src/classes/yolo_model.py:187-189 | Every entry name → id of the inverted dict is some table item (id, name). |
| `Yolo.InvertedClassesExact` | src/classes/yolo_model.py:187-189 | With distinct names, `inv[names[k]] == k` for every class id k. |
| `Yolo.InvertedClassesRoundTrip` | src/classes/yolo_model.py:171-191 | With distinct ids, looking a key of the inverted dict up in the id → name mapping gives that name back. |
| `Yolo.MappedNamesListed` | src/classes/yolo_model.py:171-191 | Every name the id → name mapping yields is in `class_names`. |
| `Yolo.FirstUnknownId` | src/classes/yolo_model.py:334-337 | None exactly when every detected id has a name. Otherwise it is a detected id without a name, and it is the first one in detection order: every detection before it has a name. That is the key of the `KeyError` the comprehension raises, since `Counter` visits ids in first-occurrence order. |
| `Yolo.Yolov8Entries` | src/classes/yolo_model.py:334-338 | A name is a key iff some visited id has it and it is a substring of the target. Its value is the Counter count of the last visited id with that name: the dict's last write wins. |
| `Yolo.SummaryYolov8` | src/classes/yolo_model.py:329-338 | Fails iff some detected id has no name. On success every key is a substring of `target.lower()` with a count between 1 and the number of detections. Every detected id whose name qualifies is represented. Each count is the number of detections of some id with that name. A failure carries `FirstUnknownId`'s id. |
| `Yolo.SummaryYolov8IsEntries` | src/classes/yolo_model.py:330-338 | With every detected id named, the summary is `Yolov8Entries` over the Counter in first-occurrence order, so each count is that of the last id in that order with the name. |
| `Yolo.DetectionsNamedSingleId` | src/classes/yolo_model.py:330-332 | When only one id carries a name, the number of detections with that name is that id's Counter count. |
| `Yolo.SummaryYolov8CountsDetections` | src/classes/yolo_model.py:330-338 | When no two detected ids share a name, each count is exactly the number of detections with that name. |
| `Yolo.MultiplicityBound` | src/classes/yolo_model.py:330-332 | No Counter value exceeds the number of detections. |
| `Yolo.TotalUpdateBound` | src/classes/yolo_model.py:334-338 | Overwriting one entry of a name → count table with `c` raises its total by at most `c`. |
| `Yolo.EntriesTotal` | src/classes/yolo_model.py:334-338 | The comprehension's entries add up to no more than the Counter values of the ids it visits. |
| `Yolo.SumOverAdd` | src/classes/yolo_model.py:330-332 | One more detection of `x` raises the sum of Counter values over a repeat-free id list by one exactly when `x` is in the list. |
| `Yolo.SumOverCounter` | src/classes/yolo_model.py:330-334 | Summed over the distinct ids in Counter order, the Counter values add up to the number of detections. |
| `Yolo.SummaryYolov8Total` | src/classes/yolo_model.py:329-338 | On the yolov8 path the filtered counts of a successful summary add up to no more than the number of detections. |
| `Yolo.SummaryYolov5` | src/classes/yolo_model.py:248-256 | The output is the input name → count table restricted to the names that are substrings of `target.lower()`, counts unchanged. |
| `Yolo.TotalRemove` | src/classes/yolo_model.py:248-256 | A table's total is any one entry's count plus the total of the rest. |
| `Yolo.TotalOfSubTable` | src/classes/yolo_model.py:252-256 | A table with fewer names and the same counts has no larger total. |
| `Yolo.SummaryYolov5Total` | src/classes/yolo_model.py:248-256 | The yolov5 summary's total count is at most the total of the detector's table. |
| `Yolo.PredictSummary` | src/classes/yolo_model.py:393-404 | Family "yolov8" uses the yolov8 summary of the box class ids. Every other family uses the yolov5 summary of the name counts. |
| `Yolo.PredictSummaryMatchesTarget` | src/classes/yolo_model.py:393-404 | On either path every name in a successful summary is a substring of `target.lower()`. |
| `Yolo.YoloModel.FromLoaded` | src/classes/yolo_model.py:62-77 | After loading `model.names` (a dict, so its ids are distinct), the object holds the family, the version, both class tables built from it, and no confidence yet. The tables fit together: every mapped name is in `class_names`. |
| `Yolo.YoloModel.Load` | src/classes/yolo_model.py:48-77 | With a rejected family or version, `CheckModel`'s error and no object. Otherwise a fresh valid model with the requested family and version and its class tables. |
| `Yolo.YoloModel.Predict` | src/classes/yolo_model.py:384-404 | Installs the normalised confidence on the model and changes nothing else. Returns the family's summary of what the detector reports at that confidence. On the yolov8 path every reported name is one of the model's `class_names`. |
| `Yolo.YoloModel.PredictWithDefaults` | src/classes/yolo_model.py:342-347 | `predict` with the default arguments installs confidence 0.45 and filters on "person". Every reported name is a substring of "person". |
| `PrepService.VideoReader.Read` | src/services/prep_service.py:112 | Hands out the next read result. A reader with nothing left keeps returning a failed read. |
| `PrepService.VideoReader.Release` | src/services/prep_service.py:125 | Marks the reader released. |
| `PrepService.LeadingFrames` | src/services/prep_service.py:110-116 | The frames of the successful reads before the first failed one, in read order. The read that follows them, if any, failed. |
| `PrepService.ExtractedFrames` | src/services/prep_service.py:110-120 | The stored frames are a prefix of the leading successful reads, at most 500 of them. Fewer than 500 are stored only when a read failed or the capture ran out, and then all leading frames are stored. |
| `PrepService.FrameDict` | src/services/prep_service.py:118 | `video_frames_dict` has exactly the keys 0 … n-1, and key i holds `{"frame": frame_i}`. |
| `PrepService.FrameDictKeys` | src/services/prep_service.py:118-120 | The frame dictionary holds exactly one entry per frame: its size is the number of stored frames. |
| `PrepService.ExtractedFramesBounded` | src/services/prep_service.py:115 | At most 500 frames are stored, and the dictionary holds at most 500 entries. |
| `PrepService.ExtractedFramesInOrder` | src/services/prep_service.py:112-118 | The frame stored under index i is the i-th read, which succeeded. |
| `PrepService.ExtractedFramesStopAtFailure` | src/services/prep_service.py:110-116 | A failed read after k < 500 successful reads leaves exactly k frames. |
| `PrepService.ExtractedFramesAtCap` | src/services/prep_service.py:115-116 | With 500 or more successful reads in a row, exactly 500 frames are stored. |
| `PrepService.ExtractionOfVideoFrames` | src/services/prep_service.py:91-127 | A missing file gives FileNotFound and leaves the reader untouched. Otherwise the result is the dictionary of the extracted frames. The reader is released, and exactly one read more than the stored frames was consumed when that many were available. |
| `StreamlitApp.InputWarningFor` | src/streamlit_app/app.py:166-175 | An empty URL warns about the URL, whatever the target. A non-empty URL with an empty target warns about the target. There is no warning iff both are non-empty. |
| `StreamlitApp.ValidateInput` | src/streamlit_app/app.py:166-175 | True exactly when neither the URL nor the target item is empty. |
| `StreamlitApp.CountNamed` | src/streamlit_app/app.py:191-198 | The count is at most the number of objects. It is 0 iff no object is named exactly the target. It equals the number of objects iff all are. |
| `StreamlitApp.CountNamedIsMultiplicity` | src/streamlit_app/app.py:191-198 | The count equals the multiplicity of the target among the detected names: an exact, case-sensitive match. |
| `StreamlitApp.GetCountOfTargetItem` | src/streamlit_app/app.py:178-200 | The result is 0 when the frame, its inference results or its object list is missing or empty. Otherwise it is the exact-name count. It never exceeds the frame's number of detections. |
| `StreamlitApp.TotalCount` | src/streamlit_app/app.py:149-157 | The total over the frames never exceeds their total number of detections. |
| `StreamlitApp.TotalCountAppend` | src/streamlit_app/app.py:149-157 | The total over two consecutive runs of frames is the sum of their totals. |
| `StreamlitApp.HandleAnalysis` | src/streamlit_app/app.py:115-163 | Failed validation gives that warning and no count. A rejected URL gives no count. Otherwise the summary echoes the target and URL, and its count is the in-order sum of the per-frame counts, no larger than the number of detections. |
| `Api.ModelChoices.Value` | src/api/index.py:39-41 | Each enum value is a model family `YoloModel` accepts. The member `yolov5` is the one whose value is the default family. |
| `Api.ValueInjective` | src/api/index.py:39-41 | Two choices have the same value iff they are the same choice. |
| `Api.GetModelAttributes` | src/api/index.py:60-63 | "yolov5" ↦ (yolov5, yolov5s). "yolov8" ↦ (yolov8, yolov8n.pt). Any other string gets no configuration. A configuration's family is the selection string. |
| `Api.EveryChoiceConfigured` | src/api/index.py:39-63 | Every `ModelChoices` value has a configuration whose family is that value. |
| `Api.ConfiguredFamiliesAccepted` | src/api/index.py:60-63 | Every configured family passes `YoloModel`'s family whitelist, so only the version check can reject it. |
| `Api.Yolov8ConfigAccepted` | src/api/index.py:63 | The yolov8 configuration passes `YoloModel`'s checks, whatever the hub lists. |
| `Api.Yolov5ConfigAccepted` | src/api/index.py:61 | The yolov5 configuration passes iff the hub lists "yolov5s". It equals the default family and version. |
| `Api.LoadModelService` | src/api/index.py:81-86 | For a dict-shaped class table: without a configuration the call fails with NoConfiguration (the `TypeError` of subscripting `None`). Otherwise the configured family and version go to `YoloModel` unchanged, and its error, if any, is passed on. |

## Left out

- Model loading and inference are left out. That covers `torch.hub.load`, `ultralytics.YOLO`, `model.to(device)`, rendering, plotting and the pandas `value_counts` extraction, all foreign library calls. The detector's report (`Inference`), the hub's version list and `model.names` are inputs.
- Device selection (CUDA/CPU) and `show_params` are left out: they only choose hardware or log.
- Yolo.Lower: models `str.lower()` for ASCII letters only. Dafny strings carry no Unicode case tables.
- Yolo.LowerChar: lower-cases the ASCII capitals only. A non-ASCII capital, which Python would lower-case, is left unchanged. The same reason applies: no Unicode case tables.
- Yolo.NormalizeConfidence: confidence is a `real`, so the float NaN does not exist here. In Python a NaN passes the range check unchanged.
- `target_name` as a list, which the type hints allow, is not modelled: `list.lower()` would raise. Only strings are.
- Yolo.SummaryYolov8: when two detected ids share a name, the comprehension keeps the count of the one inserted last. The model keeps exactly that. Its own contract says only "the count of some id with that name". The last-write-wins value is stated on `Yolov8Entries` and carried over by `SummaryYolov8IsEntries`. The count equals the number of detections of the name only under the distinct-names hypothesis of `SummaryYolov8CountsDetections`.
- OpenCV is left out: `VideoCapture`, the size and frame-count metadata, the timing calls and the `ret % 10` log line are decoding or logging. The capture is an abstract sequence of read results.
- The download (`VideoData.download_stream`) is left out. Only whether the resulting path exists is an input. URL validation in `VideoData` delegates to the `validators` library and is the input `urlAccepted`.
- The stubs `download_stream`, `VideoService.process_video`, `download_video` and `run_image_analysis` are left out. The per-frame analysis results are an input of `HandleAnalysis`.
- Streamlit layout and widgets (`build_page`, `get_media_url`, `get_target_item`, `display_summary`, the column and markdown updates) are left out: they are UI only.
- The FastAPI route `analyze_video` is left out. Its mapping of exceptions to HTTP 500 is routing. It passes `number_frames` to `DataPreparationService`, whose constructor takes only `video_obj` (src/services/prep_service.py:49). It imports `AnalyzerService` and calls its `consolidate_results`, but src/services/image_analysis_service.py defines no such class. Neither call is part of this model.
- src/classes/analysis_results.py is not part of this model. The shapes of `AnalysisResults`, `InferenceResults` and `DetectedObject` follow their use in app.py and image_analysis_service.py. Fields unused by the counting (`output_image`, `fps`) are omitted.
