/**
 * The frame-extraction loop of `DataPreparationService.extraction_of_video_frames`
 * (src/services/prep_service.py).  The downloaded file's existence is an
 * input, and the OpenCV capture is a `VideoReader` that hands out a given
 * sequence of read results, one per `read()`.
 */
module PrepService {
  import opened Wrappers

  /** The extraction stops once this many frames are stored. */
  const MaxFrames: nat := 500

  /** The result of one `video_cv.read()`: `(True, frame)` or `(False, None)`. */
  datatype ReadResult<F> = Grabbed(frame: F) | Failed

  /** The entry `{"frame": frame}` stored per frame index. */
  datatype FrameRecord<F> = FrameRecord(frame: F)

  /** `FileNotFoundError` for a downloaded path that does not exist. */
  datatype PrepError = FileNotFound

  /** An opened video capture: the read results it still has to deliver, and whether it was released. */
  class VideoReader<F> {
    var pending: seq<ReadResult<F>>
    var released: bool

    constructor (results: seq<ReadResult<F>>)
      ensures pending == results && !released
    {
      pending := results;
      released := false;
    }

    /** `read()`: the next result; a capture with nothing left keeps failing. */
    method Read() returns (r: ReadResult<F>)
      modifies this`pending
      ensures old(pending) == [] ==> r == Failed && pending == []
      ensures old(pending) != [] ==> r == old(pending)[0] && pending == old(pending)[1..]
    {
      if pending == [] {
        r := Failed;
      } else {
        r := pending[0];
        pending := pending[1..];
      }
    }

    /** `release()`. */
    method Release()
      modifies this`released
      ensures released
    {
      released := true;
    }
  }

  /**
   * The frames of the successful reads before the first failed one, in read
   * order: what an uncapped loop would store.
   */
  function LeadingFrames<F>(results: seq<ReadResult<F>>): (frames: seq<F>)
    ensures |frames| <= |results|
    ensures forall i :: 0 <= i < |frames| ==> results[i] == Grabbed(frames[i])
    ensures |frames| < |results| ==> results[|frames|].Failed?
  {
    if results == [] || results[0].Failed? then []
    else [results[0].frame] + LeadingFrames(results[1..])
  }

  /** The frames the extraction stores: the leading successful reads, at most `MaxFrames` of them. */
  function ExtractedFrames<F>(results: seq<ReadResult<F>>): (frames: seq<F>)
    ensures |frames| <= MaxFrames
    ensures frames <= LeadingFrames(results)
    ensures |frames| < MaxFrames ==> frames == LeadingFrames(results)
  {
    var leading := LeadingFrames(results);
    if |leading| <= MaxFrames then leading else leading[..MaxFrames]
  }

  /** The dictionary `{i: {"frame": frames[i]}}` of the stored frames. */
  function FrameDict<F>(frames: seq<F>): (m: map<int, FrameRecord<F>>)
    ensures forall i :: i in m <==> 0 <= i < |frames|
    ensures forall i :: 0 <= i < |frames| ==> m[i] == FrameRecord(frames[i])
  {
    map i | 0 <= i < |frames| :: FrameRecord(frames[i])
  }

  /** The dictionary holds exactly one entry per frame. */
  lemma {:induction false} FrameDictKeys<F>(frames: seq<F>)
    ensures |FrameDict(frames)| == |frames|
  {
    if frames != [] {
      var n := |frames| - 1;
      var prefix := frames[..n];
      FrameDictKeys(prefix);
      assert FrameDict(frames) == FrameDict(prefix)[n := FrameRecord(frames[n])];
      assert n !in FrameDict(prefix);
    }
  }

  /** Never more than `MaxFrames` frames are stored. */
  lemma ExtractedFramesBounded<F>(results: seq<ReadResult<F>>)
    ensures |ExtractedFrames(results)| <= MaxFrames
    ensures |FrameDict(ExtractedFrames(results))| <= MaxFrames
  {
    FrameDictKeys(ExtractedFrames(results));
  }

  /** The frames stored are the first successful reads, in read order, with none skipped. */
  lemma ExtractedFramesInOrder<F>(results: seq<ReadResult<F>>)
    ensures forall i :: 0 <= i < |ExtractedFrames(results)| ==> results[i] == Grabbed(ExtractedFrames(results)[i])
  {
  }

  /** A failed read after `k < MaxFrames` successful ones leaves exactly `k` frames. */
  lemma ExtractedFramesStopAtFailure<F>(results: seq<ReadResult<F>>, k: nat)
    requires k < |results| && k < MaxFrames
    requires forall i :: 0 <= i < k ==> results[i].Grabbed?
    requires results[k].Failed?
    ensures |ExtractedFrames(results)| == k
  {
  }

  /** With at least `MaxFrames` successful reads in a row, exactly `MaxFrames` frames are stored. */
  lemma ExtractedFramesAtCap<F>(results: seq<ReadResult<F>>)
    requires MaxFrames <= |results|
    requires forall i :: 0 <= i < MaxFrames ==> results[i].Grabbed?
    ensures |ExtractedFrames(results)| == MaxFrames
  {
  }

  /**
   * `extraction_of_video_frames` after the download: fails with
   * `FileNotFound` without touching the capture when the file is missing;
   * otherwise reads until a read fails or `MaxFrames` frames are stored,
   * storing the frames under indices 0, 1, ..., and releases the capture.
   * Every iteration reads before testing the cap, so one read more than the
   * number of stored frames is consumed.
   */
  method ExtractionOfVideoFrames<F>(fileExists: bool, reader: VideoReader<F>)
    returns (r: Result<map<int, FrameRecord<F>>, PrepError>)
    modifies reader
    ensures !fileExists ==> r == Failure(FileNotFound) && unchanged(reader)
    ensures fileExists ==>
              && r == Success(FrameDict(ExtractedFrames(old(reader.pending))))
              && reader.released
              && var consumed := |ExtractedFrames(old(reader.pending))| + 1;
                 reader.pending == if consumed <= |old(reader.pending)| then old(reader.pending)[consumed..] else []
  {
    if !fileExists {
      return Failure(FileNotFound);
    }
    ghost var results := reader.pending;
    var videoFramesDict: map<int, FrameRecord<F>> := map[];
    var frameIdx := 0;
    while true
      invariant 0 <= frameIdx <= MaxFrames && frameIdx <= |results|
      invariant forall i :: 0 <= i < frameIdx ==> results[i].Grabbed?
      invariant reader.pending == results[frameIdx..]
      invariant forall i :: i in videoFramesDict ==> 0 <= i < frameIdx
      invariant forall i :: 0 <= i < frameIdx ==> i in videoFramesDict && videoFramesDict[i] == FrameRecord(results[i].frame)
      decreases MaxFrames - frameIdx
    {
      var result := reader.Read();
      if result.Failed? || frameIdx == MaxFrames {
        break;
      }
      videoFramesDict := videoFramesDict[frameIdx := FrameRecord(result.frame)];
      frameIdx := frameIdx + 1;
    }
    reader.Release();
    // the loop stopped at a failed read or at the cap
    if frameIdx < MaxFrames {
      if frameIdx < |results| {
        assert results[frameIdx].Failed?;
        ExtractedFramesStopAtFailure(results, frameIdx);
      } else {
        assert LeadingFrames(results) == ExtractedFrames(results);
      }
    } else {
      ExtractedFramesAtCap(results);
    }
    ghost var frames := ExtractedFrames(results);
    assert |frames| == frameIdx;
    assert forall i :: 0 <= i < frameIdx ==> results[i] == Grabbed(frames[i]) by {
      ExtractedFramesInOrder(results);
    }
    FrameDictKeys(frames);
    assert videoFramesDict == FrameDict(frames);
    r := Success(videoFramesDict);
  }
}
