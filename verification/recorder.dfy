/**
 * The canvas capture controller of recorder.js: a `CanvasRecorder` owns at most
 * one browser media encoder, buffers the encoded chunks the encoder delivers,
 * and packages them into a single `animation.webm` download on request.
 *
 * The browser is abstract here: `MediaEncoder` stands for the `MediaRecorder`
 * object (only its state and the options it was opened with), the encoder's
 * `ondataavailable` callback is the method `OnDataAvailable`, and the faults the
 * browser may raise while starting or saving are parameters of the operations.
 */
module Recorder {
  import opened Wrappers

  /** One encoded piece of video, as the encoder hands it over. */
  type Chunk = seq<bv8>

  /** Frame rate requested from `canvas.captureStream`. */
  const CaptureFrameRate: nat := 30
  /** Container and codec the encoder is opened with. */
  const EncoderMimeType: string := "video/webm;codecs=vp8"
  /** Target bitrate the encoder is opened with. */
  const VideoBitsPerSecond: nat := 2500000
  /** Interval, in milliseconds, at which the encoder is asked to emit chunks. */
  const TimesliceMs: nat := 100
  /** Type and name of the downloaded file. */
  const DownloadType: string := "video/webm"
  const DownloadName: string := "animation.webm"

  /** The two states the encoder takes in this program (it is never paused). */
  datatype EncoderState = Inactive | Recording

  /** The browser's media encoder, reduced to its state and its options. */
  class MediaEncoder {
    const frameRate: nat
    const mimeType: string
    const bitsPerSecond: nat
    var state: EncoderState
    var timeslice: nat

    constructor (frameRate: nat, mimeType: string, bitsPerSecond: nat)
      ensures this.frameRate == frameRate && this.mimeType == mimeType
      ensures this.bitsPerSecond == bitsPerSecond
      ensures state == Inactive && timeslice == 0
    {
      this.frameRate := frameRate;
      this.mimeType := mimeType;
      this.bitsPerSecond := bitsPerSecond;
      state := Inactive;
      timeslice := 0;
    }

    /** Begins encoding with the requested chunk interval `timeslice`, in milliseconds. */
    method Start(timeslice: nat)
      requires state == Inactive
      modifies this
      ensures state == Recording && this.timeslice == timeslice
    {
      state := Recording;
      this.timeslice := timeslice;
    }

    /** Ends encoding; the final chunk arrives later as a separate data event. */
    method Stop()
      requires state == Recording
      modifies this
      ensures state == Inactive && timeslice == old(timeslice)
    {
      state := Inactive;
    }

    /**
     * The encoder ends on its own: the captured track ended or encoding
     * failed. Nobody in the program listens for this, so no one else's state
     * changes. An encoder that is already inactive stays so.
     */
    method Halt()
      modifies this
      ensures state == Inactive && timeslice == old(timeslice)
    {
      state := Inactive;
    }
  }

  /** The step of the start sequence at which the browser throws. */
  datatype StartStep = CaptureStream | CreateEncoder | StartEncoder

  /** What `startRecording` rejects with. */
  datatype StartError =
    | CanvasRequired          // no canvas given: thrown before the try block
    | StartFailed(at: StartStep)  // re-raised from the try block

  /** `stopRecording` before any encoder exists dereferences null. */
  datatype StopError = NoEncoder

  /** The file handed to the browser's save primitive. */
  datatype Artifact = Artifact(content: seq<bv8>, mimeType: string, filename: string)

  /** The three ways `downloadVideo` can end. */
  datatype Download = NothingToSave | Saved(artifact: Artifact) | SaveFailed

  /** The bytes of a blob built from `chunks`, in order. */
  function Concat(chunks: seq<Chunk>): seq<bv8>
  {
    if chunks == [] then [] else chunks[0] + Concat(chunks[1..])
  }

  /** The summed sizes of `chunks`. */
  function TotalSize(chunks: seq<Chunk>): nat
  {
    if chunks == [] then 0 else |chunks[0]| + TotalSize(chunks[1..])
  }

  /** Whether every buffered chunk has a positive size. */
  predicate NoEmptyChunk(chunks: seq<Chunk>)
  {
    forall k :: 0 <= k < |chunks| ==> |chunks[k]| > 0
  }

  /** Concatenating two runs of chunks is concatenating their blobs. */
  lemma {:induction false} ConcatAppend(a: seq<Chunk>, b: seq<Chunk>)
    ensures Concat(a + b) == Concat(a) + Concat(b)
  {
    if a != [] {
      assert (a + b)[1..] == a[1..] + b;
      ConcatAppend(a[1..], b);
    } else {
      assert a + b == b;
    }
  }

  /** The blob is exactly as long as the chunks' sizes add up to. */
  lemma {:induction false} ConcatLength(chunks: seq<Chunk>)
    ensures |Concat(chunks)| == TotalSize(chunks)
  {
    if chunks != [] {
      ConcatLength(chunks[1..]);
    }
  }

  /**
   * Chunk k occupies the blob right after the bytes of the chunks before it:
   * nothing is reordered, dropped or duplicated.
   */
  lemma ChunkPlacement(chunks: seq<Chunk>, k: nat)
    requires k < |chunks|
    ensures TotalSize(chunks[..k]) + |chunks[k]| <= |Concat(chunks)|
    ensures Concat(chunks)[TotalSize(chunks[..k]) .. TotalSize(chunks[..k]) + |chunks[k]|] == chunks[k]
  {
    var before, after := chunks[..k], chunks[k + 1..];
    assert chunks == before + ([chunks[k]] + after);
    ConcatAppend(before, [chunks[k]] + after);
    ConcatAppend([chunks[k]], after);
    assert Concat([chunks[k]]) == chunks[k] by {
      assert [chunks[k]][1..] == [];
    }
    ConcatLength(before);
  }

  /** Chunks of size zero add nothing to the blob. */
  lemma {:induction false} ConcatSkipsEmpty(chunks: seq<Chunk>, empty: Chunk)
    requires |empty| == 0
    ensures Concat(chunks + [empty]) == Concat(chunks)
  {
    ConcatAppend(chunks, [empty]);
    assert [empty][1..] == [];
  }

  /** The capture controller: one optional encoder, the chunk buffer, a flag. */
  class CanvasRecorder {
    var mediaRecorder: MediaEncoder?
    var recordedChunks: seq<Chunk>
    var isRecording: bool

    /**
     * The flag is only set while an encoder is held, and only non-empty chunks
     * are buffered. The held encoder may have ended on its own while the flag
     * is still set: nothing clears the flag then.
     */
    ghost predicate Valid()
      reads this, mediaRecorder
    {
      && (isRecording ==> mediaRecorder != null)
      && NoEmptyChunk(recordedChunks)
    }

    /** A new recorder holds no encoder, no chunks, and is not recording. */
    constructor ()
      ensures Valid()
      ensures mediaRecorder == null && recordedChunks == [] && !isRecording
    {
      mediaRecorder := null;
      recordedChunks := [];
      isRecording := false;
    }

    /**
     * Starts a capture of the canvas. `hasCanvas` is whether a canvas was passed;
     * `failsAt` is the step, if any, at which the browser throws. The previous
     * encoder, if any, is replaced without being stopped.
     */
    method StartRecording(hasCanvas: bool, failsAt: Option<StartStep>) returns (r: Outcome<StartError>)
      requires Valid()
      modifies this
      ensures Valid()
      ensures !hasCanvas ==> r == Fail(CanvasRequired) && unchanged(this)
      ensures hasCanvas && failsAt.Some? ==> r == Fail(StartFailed(failsAt.value)) && !isRecording
      // the buffer is emptied once the stream is captured
      ensures hasCanvas ==>
        recordedChunks == if failsAt == Some(CaptureStream) then old(recordedChunks) else []
      // the encoder is replaced, unstopped, once the new one is created
      ensures hasCanvas && failsAt.Some? && failsAt.value != StartEncoder ==>
        mediaRecorder == old(mediaRecorder)
      ensures hasCanvas && failsAt == Some(StartEncoder) ==>
        mediaRecorder != null && fresh(mediaRecorder) && mediaRecorder.state == Inactive
      ensures hasCanvas && failsAt == None ==>
        && r == Pass && isRecording
        && mediaRecorder != null && fresh(mediaRecorder) && mediaRecorder.state == Recording
        && mediaRecorder.frameRate == CaptureFrameRate && mediaRecorder.mimeType == EncoderMimeType
        && mediaRecorder.bitsPerSecond == VideoBitsPerSecond && mediaRecorder.timeslice == TimesliceMs
    {
      if !hasCanvas {
        return Fail(CanvasRequired);
      }
      if failsAt == Some(CaptureStream) {
        isRecording := false;
        return Fail(StartFailed(CaptureStream));
      }
      recordedChunks := [];
      if failsAt == Some(CreateEncoder) {
        isRecording := false;
        return Fail(StartFailed(CreateEncoder));
      }
      var encoder := new MediaEncoder(CaptureFrameRate, EncoderMimeType, VideoBitsPerSecond);
      mediaRecorder := encoder;
      if failsAt == Some(StartEncoder) {
        isRecording := false;
        return Fail(StartFailed(StartEncoder));
      }
      assert failsAt == None by {
        if failsAt.Some? {
          match failsAt.value
          case CaptureStream =>
          case CreateEncoder =>
          case StartEncoder =>
        }
      }
      encoder.Start(TimesliceMs);
      isRecording := true;
      r := Pass;
    }

    /**
     * The encoder's data-available callback: a chunk of positive size is
     * appended to the buffer, an empty one is dropped. Events only come from an
     * encoder, and every encoder this recorder held had the callback attached.
     */
    method OnDataAvailable(chunk: Chunk)
      requires Valid() && mediaRecorder != null
      modifies this
      ensures Valid()
      ensures recordedChunks == if |chunk| > 0 then old(recordedChunks) + [chunk] else old(recordedChunks)
      ensures mediaRecorder == old(mediaRecorder) && isRecording == old(isRecording)
    {
      if |chunk| > 0 {
        recordedChunks := recordedChunks + [chunk];
      }
    }

    /**
     * Stops the held encoder unless it is already inactive. With no encoder
     * at all, the optional chain yields `undefined`, which passes the guard,
     * and the call on null throws.
     */
    method StopRecording() returns (r: Outcome<StopError>)
      requires Valid()
      modifies this, mediaRecorder
      ensures Valid()
      ensures old(mediaRecorder) == null ==> r == Fail(NoEncoder) && unchanged(this)
      ensures old(mediaRecorder) != null && old(mediaRecorder.state) == Inactive ==>
        r == Pass && unchanged(this) && unchanged(mediaRecorder)
      ensures old(mediaRecorder) != null && old(mediaRecorder.state) == Recording ==>
        && r == Pass && mediaRecorder == old(mediaRecorder) && mediaRecorder.state == Inactive
        && recordedChunks == old(recordedChunks) && !isRecording
    {
      if mediaRecorder == null {
        return Fail(NoEncoder);
      }
      if mediaRecorder.state != Inactive {
        mediaRecorder.Stop();
        isRecording := false;
      }
      r := Pass;
    }

    /**
     * Packages the buffered chunks, in order, into one `video/webm` file named
     * `animation.webm` and hands it to the save primitive; with no chunks it
     * does nothing. `saveFails` is whether building the blob or saving throws.
     * The buffer is only read, so a failed download can be retried.
     */
    method DownloadVideo(saveFails: bool) returns (d: Download)
      ensures recordedChunks == [] ==> d == NothingToSave
      ensures recordedChunks != [] && saveFails ==> d == SaveFailed
      ensures recordedChunks != [] && !saveFails ==>
        && d.Saved? && d.artifact.mimeType == DownloadType && d.artifact.filename == DownloadName
        && d.artifact.content == Concat(recordedChunks)
        && |d.artifact.content| == TotalSize(recordedChunks)
    {
      if |recordedChunks| == 0 {
        return NothingToSave;
      }
      if saveFails {
        return SaveFailed;
      }
      ConcatLength(recordedChunks);
      d := Saved(Artifact(Concat(recordedChunks), DownloadType, DownloadName));
    }
  }
}
