/**
 * The page script of main.js, reduced to its state machine: the module-level
 * reveal variables, the one recorder the page owns, the per-frame text update
 * and the two button handlers. Each handler call is one atomic step; the
 * current time is a parameter, and the browser's faults are parameters as in
 * the recorder.
 */
module Page {
  import opened Wrappers
  import opened Recorder
  import opened TextReveal

  /** The page's module-level variables and its recorder. */
  class PageState {
    var currentText1: string
    var currentText2: string
    var lastCharTime: nat
    var textAnimationStarted: bool
    const recorder: CanvasRecorder

    /** The reveal variables, as a value. */
    function Text(): TextState
      reads this
    {
      TextState(currentText1, currentText2, lastCharTime, textAnimationStarted)
    }

    /**
     * The reveal runs only while the recorder's flag is set, the flag is set
     * whenever the recorder's current encoder runs, and the lines are prefixes
     * of their texts. Encoders the recorder no longer holds are not covered
     * here; that none of them still runs is `OnRecordClick`'s promise. The
     * flag may outlive the encoder: an encoder that ends on its own leaves it
     * set.
     */
    ghost predicate Valid()
      reads this, recorder, recorder.mediaRecorder
    {
      && recorder.Valid()
      && Revealing(Text())
      && (textAnimationStarted ==> recorder.isRecording)
      && (recorder.mediaRecorder != null && recorder.mediaRecorder.state == Recording ==>
            recorder.isRecording)
    }

    /** The page at load: empty lines, time zero, reveal stopped, a new recorder. */
    constructor ()
      ensures Valid() && fresh(recorder)
      ensures Text() == TextState("", "", 0, false)
      ensures recorder.mediaRecorder == null && recorder.recordedChunks == [] && !recorder.isRecording
    {
      currentText1 := "";
      currentText2 := "";
      lastCharTime := 0;
      textAnimationStarted := false;
      recorder := new CanvasRecorder();
    }

    /** The per-frame text update at time `now`. */
    method UpdateText(now: nat)
      requires Valid()
      modifies this
      ensures Valid()
      ensures Text() == Tick(old(Text()), now)
    {
      TickKeepsRevealing(Text(), now);
      if !textAnimationStarted {
        return;
      }
      if now - lastCharTime < CharDelay {
        return;
      }
      if |currentText1| < |FinalText1| {
        currentText1 := currentText1 + [FinalText1[|currentText1|]];
        lastCharTime := now;
      } else if |currentText1| == |FinalText1| && |currentText2| == 0 && now - lastCharTime < LineDelay {
        return;
      } else if |currentText2| < |FinalText2| {
        currentText2 := currentText2 + [FinalText2[|currentText2|]];
        lastCharTime := now;
      }
    }

    /**
     * The record button. When not recording: clear both lines, stamp `now`,
     * start the recorder, and start the reveal only if the recorder started
     * (a failure is logged and swallowed). When recording: stop the recorder
     * and the reveal. If the encoder has already ended on its own, the stop
     * does nothing and the recorder's flag stays set.
     */
    method OnRecordClick(now: nat, hasCanvas: bool, failsAt: Option<StartStep>)
      requires Valid()
      modifies this, recorder, recorder.mediaRecorder
      ensures Valid()
      ensures !old(recorder.isRecording) ==>
        && Text() == TextState("", "", now, hasCanvas && failsAt == None)
        && (old(recorder.mediaRecorder) != null ==> old(recorder.mediaRecorder).state == Inactive)
      // a failed start: nothing, the old buffer, or an empty buffer, and the old or a fresh idle encoder
      ensures !old(recorder.isRecording) && !hasCanvas ==> unchanged(recorder)
      ensures !old(recorder.isRecording) && hasCanvas ==>
        recorder.recordedChunks
          == if failsAt == Some(CaptureStream) then old(recorder.recordedChunks) else []
      ensures !old(recorder.isRecording) && hasCanvas && failsAt.Some? ==>
        && !recorder.isRecording
        && (failsAt.value != StartEncoder ==> recorder.mediaRecorder == old(recorder.mediaRecorder))
        && (failsAt.value == StartEncoder ==>
              && recorder.mediaRecorder != null && fresh(recorder.mediaRecorder)
              && recorder.mediaRecorder.state == Inactive)
      ensures !old(recorder.isRecording) && hasCanvas && failsAt == None ==>
        && recorder.isRecording && recorder.recordedChunks == []
        && recorder.mediaRecorder != null && fresh(recorder.mediaRecorder)
        && recorder.mediaRecorder.state == Recording && recorder.mediaRecorder.timeslice == TimesliceMs
      ensures old(recorder.isRecording) ==>
        && Text() == old(Text()).(started := false)
        && recorder.mediaRecorder == old(recorder.mediaRecorder) && recorder.mediaRecorder != null
        && recorder.mediaRecorder.state == Inactive
        && recorder.recordedChunks == old(recorder.recordedChunks)
      // the flag is cleared only if the encoder was still running
      ensures old(recorder.isRecording) ==>
        recorder.isRecording == (old(recorder.mediaRecorder.state) == Inactive)
    {
      if !recorder.isRecording {
        currentText1 := "";
        currentText2 := "";
        lastCharTime := now;
        var r := recorder.StartRecording(hasCanvas, failsAt);
        if r.Pass? {
          textAnimationStarted := true;
        }
      } else {
        var r := recorder.StopRecording();
        assert r.Pass?;
        textAnimationStarted := false;
      }
    }

    /** The download button: a failed download is logged and swallowed. */
    method OnDownloadClick(saveFails: bool) returns (saved: Option<Artifact>)
      ensures saved.Some? <==> recorder.recordedChunks != [] && !saveFails
      ensures saved.Some? ==>
        && saved.value.content == Concat(recorder.recordedChunks)
        && saved.value.mimeType == DownloadType && saved.value.filename == DownloadName
    {
      var d := recorder.DownloadVideo(saveFails);
      saved := if d.Saved? then Some(d.artifact) else None;
    }
  }

  /** The non-empty chunks of `chunks`, in order. */
  function NonEmpty(chunks: seq<Chunk>): seq<Chunk>
  {
    if chunks == [] then []
    else if |chunks[|chunks| - 1]| > 0 then NonEmpty(chunks[..|chunks| - 1]) + [chunks[|chunks| - 1]]
    else NonEmpty(chunks[..|chunks| - 1])
  }

  /** Dropping empty chunks leaves the blob as it is. */
  lemma {:induction false} ConcatNonEmpty(chunks: seq<Chunk>)
    ensures Concat(NonEmpty(chunks)) == Concat(chunks)
    decreases |chunks|
  {
    if chunks != [] {
      var init, last := chunks[..|chunks| - 1], chunks[|chunks| - 1];
      assert chunks == init + [last];
      ConcatNonEmpty(init);
      if |last| > 0 {
        ConcatAppend(init, [last]);
        ConcatAppend(NonEmpty(init), [last]);
      } else {
        ConcatSkipsEmpty(init, last);
      }
    }
  }

  /**
   * One capture session from page load: the record button is pressed at
   * `start`, the encoder delivers `chunks`, the record button is pressed
   * again, the encoder delivers its final `tail` after the stop, then the
   * download button is pressed. The file holds every delivered byte, in
   * delivery order; with no byte delivered there is no file.
   */
  method CaptureSession(start: nat, chunks: seq<Chunk>, tail: seq<Chunk>)
    returns (saved: Option<Artifact>)
    ensures Concat(chunks + tail) == [] ==> saved == None
    ensures Concat(chunks + tail) != [] ==>
      saved == Some(Artifact(Concat(chunks + tail), DownloadType, DownloadName))
  {
    var page := new PageState();
    page.OnRecordClick(start, true, None);
    var all := chunks + tail;
    var i := 0;
    while i < |chunks|
      invariant 0 <= i <= |chunks|
      invariant page.Valid() && page.recorder.isRecording
      invariant page.recorder.recordedChunks == NonEmpty(all[..i])
      invariant fresh(page.recorder) && fresh(page.recorder.mediaRecorder)
      invariant page.recorder.mediaRecorder != null && page.recorder.mediaRecorder.state == Recording
    {
      assert all[..i + 1] == all[..i] + [all[i]];
      page.recorder.OnDataAvailable(chunks[i]);
      i := i + 1;
    }
    page.OnRecordClick(start, true, None);
    while i < |all|
      invariant |chunks| <= i <= |all|
      invariant page.recorder.Valid() && page.recorder.mediaRecorder != null
      invariant page.recorder.recordedChunks == NonEmpty(all[..i])
    {
      assert all[..i + 1] == all[..i] + [all[i]];
      page.recorder.OnDataAvailable(all[i]);
      i := i + 1;
    }
    assert all[..i] == all;
    saved := page.OnDownloadClick(false);
    ConcatNonEmpty(all);
    assert NonEmpty(all) == [] ==> Concat(NonEmpty(all)) == [];
  }

  /**
   * The encoder ends on its own during a recording started at `start`, and the
   * record button is then pressed `clicks` more times. Every press takes the
   * stop branch, which finds the encoder inactive and does nothing: the
   * recorder's flag stays set, no new recording is ever started, and the
   * reveal stays stopped once the first press has cleared it.
   */
  method EncoderHaltsMidRecording(start: nat, clicks: nat)
    returns (flagSet: bool, revealing: bool, encoderRuns: bool)
    ensures flagSet && !encoderRuns
    ensures revealing <==> clicks == 0
  {
    var page := new PageState();
    page.OnRecordClick(start, true, None);
    page.recorder.mediaRecorder.Halt();
    var n := 0;
    while n < clicks
      invariant 0 <= n <= clicks
      invariant page.Valid() && page.recorder.isRecording
      invariant page.recorder.mediaRecorder != null && page.recorder.mediaRecorder.state == Inactive
      invariant page.textAnimationStarted <==> n == 0
      invariant fresh(page.recorder) && fresh(page.recorder.mediaRecorder)
    {
      page.OnRecordClick(start, true, None);
      n := n + 1;
    }
    flagSet := page.recorder.isRecording;
    revealing := page.textAnimationStarted;
    encoderRuns := page.recorder.mediaRecorder.state == Recording;
  }
}
