/**
 * The recording session of the recorder screen: five states, the record and
 * play buttons, the player's end-of-playback callback, and the helpers that
 * start and stop the engine tap, the player and the duration timer.
 * Source: AudioRecorder/Controller/RecorderViewController.swift.
 *
 * What the platform decides (record permission, whether the audio engine
 * starts, whether the file can be created, whether each frame can be
 * written, whether the player accepts the file, the clock and the length of
 * the recorded file) is passed in as a parameter.
 */
module RecorderViewController {
  import opened Wrappers
  import opened RecorderViewModel

  datatype RecordingState = NotInitiated | Recording | RecordingStopped | Playing | PlayingStopped

  /** The messages the screen shows in an alert. */
  datatype ErrorMessage =
    | StorageFileUrl
    | AudioFileNotCreated
    | WritingAudioToFileFail
    | AudioEngineNotStarted
    | AudioPlayerError
    | NoRecordingPlayTapped
    | InRecordingPlayTapped
    | PermissionDenied

  /** One PCM buffer delivered by the engine tap; its samples are not interpreted. */
  datatype Frame = Frame(samples: seq<real>)

  // ---- The file written from the buffer ----

  /**
   * What the write loop leaves in the file: the frames of `frames`, in order,
   * whose write succeeds; `writeOk(i)` says whether writing frame `i` succeeds.
   */
  function Written(frames: seq<Frame>, writeOk: nat -> bool): (r: seq<Frame>)
    ensures |r| <= |frames|
  {
    if frames == [] then []
    else
      var last := |frames| - 1;
      Written(frames[..last], writeOk) + (if writeOk(last) then [frames[last]] else [])
  }

  /** The positions below `n` whose write succeeds, in increasing order. */
  function OkPositions(n: nat, writeOk: nat -> bool): seq<nat>
  {
    if n == 0 then [] else OkPositions(n - 1, writeOk) + (if writeOk(n - 1) then [n - 1] else [])
  }

  /** The positions are exactly those below `n` whose write succeeds, each once and in order. */
  lemma {:induction false} OkPositionsExact(n: nat, writeOk: nat -> bool)
    ensures forall i: nat :: i in OkPositions(n, writeOk) <==> i < n && writeOk(i)
    ensures forall j, k :: 0 <= j < k < |OkPositions(n, writeOk)| ==>
      OkPositions(n, writeOk)[j] < OkPositions(n, writeOk)[k]
  {
    if n > 0 {
      OkPositionsExact(n - 1, writeOk);
      var p := OkPositions(n - 1, writeOk);
      assert forall j :: 0 <= j < |p| ==> p[j] in p;
    }
  }

  /** Frame `k` of the file is the buffer frame at the `k`-th position whose write succeeds. */
  lemma {:induction false} WrittenAtOkPositions(frames: seq<Frame>, writeOk: nat -> bool)
    ensures |Written(frames, writeOk)| == |OkPositions(|frames|, writeOk)|
    ensures forall k :: 0 <= k < |Written(frames, writeOk)| ==>
      OkPositions(|frames|, writeOk)[k] < |frames| &&
      Written(frames, writeOk)[k] == frames[OkPositions(|frames|, writeOk)[k]]
  {
    if frames != [] {
      var last := |frames| - 1;
      var init := frames[..last];
      WrittenAtOkPositions(init, writeOk);
      assert forall k :: 0 <= k < |init| ==> init[k] == frames[k];
    }
  }

  /** When every write succeeds the file holds the buffer exactly. */
  lemma {:induction false} WrittenAllOk(frames: seq<Frame>, writeOk: nat -> bool)
    requires forall i: nat :: i < |frames| ==> writeOk(i)
    ensures Written(frames, writeOk) == frames
  {
    if frames != [] {
      var last := |frames| - 1;
      WrittenAllOk(frames[..last], writeOk);
      assert frames[..last] + [frames[last]] == frames;
    }
  }

  /** When every write fails the file is empty. */
  lemma {:induction false} WrittenNoneOk(frames: seq<Frame>, writeOk: nat -> bool)
    requires forall i: nat :: i < |frames| ==> !writeOk(i)
    ensures Written(frames, writeOk) == []
  {
    if frames != [] {
      WrittenNoneOk(frames[..|frames| - 1], writeOk);
    }
  }

  // ---- The duration timer's label ----

  /** The states whose label counts up from the start; the other three count down. */
  predicate ShowsElapsed(state: RecordingState)
  {
    state == NotInitiated || state == Recording
  }

  /** The text the duration timer puts in the label in `state`. */
  function TimerLabel(state: RecordingState, start: Option<int>, duration: Option<int>, now: int): (text: Option<string>)
    ensures text.None? <==> start.None? || (!ShowsElapsed(state) && duration.None?)
  {
    if ShowsElapsed(state) then ElapsedTime(start, now) else RemainingTime(start, duration, now)
  }

  /**
   * The label reads back as the seconds since the start while recording (or
   * before the first recording), and as the seconds left of the recording's
   * duration in the other states.
   */
  lemma TimerLabelReadsBack(state: RecordingState, start: Option<int>, duration: Option<int>, now: int)
    requires start.Some?
    ensures ShowsElapsed(state) && start.value <= now ==>
      LabelSeconds(TimerLabel(state, start, duration, now).value) == Some(now - start.value)
    ensures !ShowsElapsed(state) && duration.Some? && now <= start.value + duration.value ==>
      LabelSeconds(TimerLabel(state, start, duration, now).value) == Some(start.value + duration.value - now)
  {
    if ShowsElapsed(state) {
      if start.value <= now {
        ElapsedTimeReadsBack(start, now);
      }
    } else if duration.Some? && now <= start.value + duration.value {
      RemainingTimeReadsBack(start, duration, now);
    }
  }

  /**
   * A timer started now shows "00:00" when it counts up, and the whole
   * duration of the recording when it counts down.
   */
  lemma FreshTimerLabel(state: RecordingState, duration: Option<int>, now: int)
    ensures ShowsElapsed(state) ==> TimerLabel(state, Some(now), duration, now) == Some("00:00")
    ensures !ShowsElapsed(state) && duration.Some? && duration.value >= 0 ==>
      LabelSeconds(TimerLabel(state, Some(now), duration, now).value) == Some(duration.value)
  {
    if ShowsElapsed(state) {
      FreshTimerShowsZero(now);
    } else if duration.Some? && duration.value >= 0 {
      TimerLabelReadsBack(state, Some(now), duration, now);
    }
  }

  // ---- The screen's state ----

  /** Every field of a recorder, so that a contract can say what did not change. */
  datatype Snapshot = Snapshot(
    state: RecordingState,
    buffer: seq<Frame>,
    tapInstalled: bool,
    engineRunning: bool,
    playerPlaying: bool,
    playerContents: Option<seq<Frame>>,
    displayLinkActive: bool,
    timerRunning: bool,
    timerStart: Option<int>,
    labelVisible: bool,
    labelText: Option<string>,
    amplitude: real,
    file: Option<seq<Frame>>,
    alerts: seq<ErrorMessage>)

  /** The fields after the player is stopped: no playback, no display link, no timer, a flat waveform. */
  function PlaybackStopped(v: Snapshot): (w: Snapshot)
  {
    v.(playerPlaying := false, displayLinkActive := false, timerRunning := false,
       timerStart := None, labelVisible := false, amplitude := 0.0)
  }

  class Recorder {
    var state: RecordingState
    /** The frames captured since the last record tap, in arrival order. */
    var buffer: seq<Frame>
    var tapInstalled: bool
    var engineRunning: bool
    var playerPlaying: bool
    /** The recording the player was last loaded with; None for the initial empty player. */
    var playerContents: Option<seq<Frame>>
    var displayLinkActive: bool
    /** Whether the repeating one-second duration timer is scheduled. */
    var timerRunning: bool
    var timerStart: Option<int>
    var labelVisible: bool
    var labelText: Option<string>
    var amplitude: real
    /** The single recording file; None while nothing has been written to it. */
    var file: Option<seq<Frame>>
    /** Every alert shown, oldest first. */
    var alerts: seq<ErrorMessage>

    ghost function View(): Snapshot
      reads this
    {
      Snapshot(state, buffer, tapInstalled, engineRunning, playerPlaying, playerContents,
               displayLinkActive, timerRunning, timerStart, labelVisible, labelText,
               amplitude, file, alerts)
    }

    /**
     * What holds between events: capture runs only while recording, playback
     * only while playing (a player that ended without success leaves the
     * screen playing with a silent player), the display link and the timer
     * run while playing, the timer runs while recording (and possibly before
     * the first recording), and a player that is playing or has finished
     * holds the file. So capture and playback never run together.
     */
    ghost function Valid(): (ok: bool)
      reads this
      ensures ok ==> !(engineRunning && playerPlaying) && !(tapInstalled && displayLinkActive)
      ensures ok && playerPlaying ==> playerContents.Some? && playerContents == file
    {
      (engineRunning ==> state == Recording && tapInstalled) &&
      (playerPlaying ==> state == Playing) &&
      (displayLinkActive <==> state == Playing) &&
      (state == Recording ==> tapInstalled) &&
      (tapInstalled ==> state == NotInitiated || state == Recording) &&
      (timerRunning <==> timerStart.Some?) &&
      labelVisible == timerRunning &&
      (state == Recording || state == Playing ==> timerRunning) &&
      (state == RecordingStopped || state == PlayingStopped ==> !timerRunning) &&
      (state == Playing || state == PlayingStopped ==> file.Some? && playerContents == file)
    }

    /** The screen as it is loaded, with whatever a previous session left in the file. */
    constructor (existingFile: Option<seq<Frame>>)
      ensures Valid()
      ensures View() == Snapshot(NotInitiated, [], false, false, false, None, false, false, None,
                                 false, None, 0.0, existingFile, [])
    {
      state := NotInitiated;
      buffer := [];
      tapInstalled := false;
      engineRunning := false;
      playerPlaying := false;
      playerContents := None;
      displayLinkActive := false;
      timerRunning := false;
      timerStart := None;
      labelVisible := false;
      labelText := None;
      amplitude := 0.0;
      file := existingFile;
      alerts := [];
    }

    // ---- Timer helpers ----

    /** Shows the label, starts the timer now and fills the label at once. */
    method InitTimer(now: int, duration: Option<int>)
      requires !timerRunning
      modifies this`labelVisible, this`timerStart, this`timerRunning, this`labelText
      ensures View() == old(View()).(labelVisible := true, timerStart := Some(now), timerRunning := true,
                                     labelText := TimerLabel(state, Some(now), duration, now))
    {
      labelVisible := true;
      timerStart := Some(now);
      timerRunning := true;
      RunDurationTimerCode(now, duration);
    }

    /** Hides the label and cancels the timer; the label keeps its last text. */
    method InvalidateTimer()
      modifies this`labelVisible, this`timerStart, this`timerRunning
      ensures View() == old(View()).(labelVisible := false, timerStart := None, timerRunning := false)
    {
      labelVisible := false;
      timerStart := None;
      timerRunning := false;
    }

    /** One tick of the timer: elapsed or remaining time, by state. */
    method RunDurationTimerCode(now: int, duration: Option<int>)
      requires timerRunning
      modifies this`labelText
      ensures View() == old(View()).(labelText := TimerLabel(state, timerStart, duration, now))
    {
      labelText := TimerLabel(state, timerStart, duration, now);
    }

    /** The scheduled timer firing between taps: the label is refreshed and nothing else changes. */
    method DurationTimerFired(now: int, duration: Option<int>)
      requires Valid() && timerRunning
      modifies this`labelText
      ensures Valid()
      ensures View() == old(View()).(labelText := TimerLabel(state, timerStart, duration, now))
    {
      RunDurationTimerCode(now, duration);
    }

    // ---- Player helpers ----

    method StartAudioPlayer(now: int, duration: Option<int>)
      requires !timerRunning
      modifies this`playerPlaying, this`state, this`displayLinkActive, this`labelVisible, this`timerStart, this`timerRunning, this`labelText
      ensures View() == old(View()).(playerPlaying := true, state := Playing, displayLinkActive := true,
                                     labelVisible := true, timerStart := Some(now), timerRunning := true,
                                     labelText := RemainingTime(Some(now), duration, now))
    {
      playerPlaying := true;
      state := Playing;
      InitTimer(now, duration);
      displayLinkActive := true;
    }

    method StopAudioPlayer()
      modifies this`playerPlaying, this`displayLinkActive, this`amplitude, this`labelVisible, this`timerStart, this`timerRunning
      ensures View() == PlaybackStopped(old(View()))
    {
      playerPlaying := false;
      displayLinkActive := false;
      InvalidateTimer();
      amplitude := 0.0;
    }

    /**
     * Writes the buffer to the file: nothing when there is no file location
     * or the file cannot be created (an alert says which); otherwise the file
     * is recreated and holds the frames whose write succeeds.
     */
    method WriteToFile(urlAvailable: bool, createOk: bool, writeOk: nat -> bool) returns (written: bool)
      modifies this`file, this`alerts
      ensures written <==> urlAvailable && createOk
      ensures !urlAvailable ==> View() == old(View()).(alerts := old(alerts) + [StorageFileUrl])
      ensures urlAvailable && !createOk ==> View() == old(View()).(alerts := old(alerts) + [AudioFileNotCreated])
      ensures written ==> View() == old(View()).(file := Some(Written(buffer, writeOk)))
    {
      if !urlAvailable {
        alerts := alerts + [StorageFileUrl];
        return false;
      }
      if !createOk {
        alerts := alerts + [AudioFileNotCreated];
        return false;
      }
      var frames := buffer;
      file := Some([]);
      for i := 0 to |frames|
        invariant file == Some(Written(frames[..i], writeOk))
        invariant alerts == old(alerts)
      {
        assert frames[..i + 1][..i] == frames[..i];
        assert Written(frames[..i + 1], writeOk) ==
          Written(frames[..i], writeOk) + (if writeOk(i) then [frames[i]] else []);
        if writeOk(i) {
          file := Some(file.value + [frames[i]]);
          assert file == Some(Written(frames[..i + 1], writeOk));
        } else {
          assert Written(frames[..i], writeOk) + [] == Written(frames[..i], writeOk);
        }
      }
      assert frames[..|frames|] == frames;
      return true;
    }

    // ---- Recorder helpers ----

    /** Installs the tap and starts the engine; only a started engine moves to recording. */
    method StartAudioRecorder(engineStarts: bool)
      requires !engineRunning
      modifies this`tapInstalled, this`engineRunning, this`state, this`alerts
      ensures View() == old(View()).(tapInstalled := true, engineRunning := engineStarts,
                                     state := if engineStarts then Recording else old(state),
                                     alerts := if engineStarts then old(alerts) else old(alerts) + [AudioEngineNotStarted])
    {
      tapInstalled := true;
      if engineStarts {
        engineRunning := true;
        state := Recording;
      } else {
        alerts := alerts + [AudioEngineNotStarted];
      }
    }

    method StopAudioRecorder()
      modifies this`tapInstalled, this`engineRunning, this`state
      ensures View() == old(View()).(tapInstalled := false, engineRunning := false, state := RecordingStopped)
    {
      tapInstalled := false;
      engineRunning := false;
      state := RecordingStopped;
    }

    /** The tap's callback: a delivered frame goes to the end of the buffer. */
    method OnFrame(f: Frame)
      requires Valid() && tapInstalled
      modifies this`buffer
      ensures Valid()
      ensures View() == old(View()).(buffer := old(buffer) + [f])
    {
      buffer := buffer + [f];
    }

    // ---- Events ----

    /**
     * The record button. Playback is stopped first in every state; then
     * before the first recording the permission decides, while recording
     * the capture stops, and otherwise a new recording starts.
     */
    method DidTapRecord(granted: bool, engineStarts: bool, now: int, duration: Option<int>)
      requires Valid()
      modifies this`state, this`buffer, this`tapInstalled, this`engineRunning, this`playerPlaying, this`displayLinkActive, this`timerRunning, this`timerStart, this`labelVisible, this`labelText, this`amplitude, this`alerts
      ensures Valid()
      ensures !playerPlaying && !displayLinkActive && amplitude == 0.0
      ensures old(state) == NotInitiated && !granted ==>
        View() == PlaybackStopped(old(View())).(alerts := old(alerts) + [PermissionDenied])
      ensures old(state) == NotInitiated && granted ==>
        View() == PlaybackStopped(old(View())).(
          labelVisible := true, timerStart := Some(now), timerRunning := true, labelText := Some("00:00"),
          buffer := [], tapInstalled := true, engineRunning := engineStarts,
          state := if engineStarts then Recording else NotInitiated,
          alerts := if engineStarts then old(alerts) else old(alerts) + [AudioEngineNotStarted])
      ensures old(state) == Recording ==>
        View() == PlaybackStopped(old(View())).(state := RecordingStopped, tapInstalled := false, engineRunning := false)
      ensures old(state) in {RecordingStopped, Playing, PlayingStopped} ==>
        View() == PlaybackStopped(old(View())).(
          buffer := [], tapInstalled := true, engineRunning := engineStarts,
          labelVisible := true, timerStart := Some(now), timerRunning := true,
          labelText := TimerLabel(if engineStarts then Recording else old(state), Some(now), duration, now),
          state := Recording,
          alerts := if engineStarts then old(alerts) else old(alerts) + [AudioEngineNotStarted])
    {
      StopAudioPlayer();
      ghost var stopped := View();
      assert stopped == PlaybackStopped(old(View()));
      match state
      case NotInitiated =>
        RecordPermissionChecked(granted, engineStarts, now, duration);
      case Recording =>
        InvalidateTimer();
        state := RecordingStopped;
        StopAudioRecorder();
      case _ =>
        StartNewRecording(engineStarts, now, duration);
    }

    /**
     * A record tap after a recording or a playback: the buffer is emptied,
     * the recorder and the timer start, and the screen moves to recording
     * even when the engine did not start.
     */
    method StartNewRecording(engineStarts: bool, now: int, duration: Option<int>)
      requires !engineRunning && !timerRunning
      modifies this`buffer, this`tapInstalled, this`engineRunning, this`state, this`alerts, this`labelVisible, this`timerStart, this`timerRunning, this`labelText
      ensures View() == old(View()).(
        buffer := [], tapInstalled := true, engineRunning := engineStarts,
        labelVisible := true, timerStart := Some(now), timerRunning := true,
        labelText := TimerLabel(if engineStarts then Recording else old(state), Some(now), duration, now),
        state := Recording,
        alerts := if engineStarts then old(alerts) else old(alerts) + [AudioEngineNotStarted])
    {
      buffer := [];
      StartAudioRecorder(engineStarts);
      InitTimer(now, duration);
      state := Recording;
    }

    /**
     * The permission callback of a record tap before the first recording: a
     * grant starts the timer, empties the buffer and starts the recorder; a
     * refusal only reports it.
     */
    method RecordPermissionChecked(granted: bool, engineStarts: bool, now: int, duration: Option<int>)
      requires state == NotInitiated && !timerRunning && !engineRunning
      modifies this`labelVisible, this`timerStart, this`timerRunning, this`labelText, this`buffer, this`tapInstalled, this`engineRunning, this`state, this`alerts
      ensures !granted ==> View() == old(View()).(alerts := old(alerts) + [PermissionDenied])
      ensures granted ==>
        View() == old(View()).(
          labelVisible := true, timerStart := Some(now), timerRunning := true, labelText := Some("00:00"),
          buffer := [], tapInstalled := true, engineRunning := engineStarts,
          state := if engineStarts then Recording else NotInitiated,
          alerts := if engineStarts then old(alerts) else old(alerts) + [AudioEngineNotStarted])
    {
      if granted {
        InitTimer(now, duration);
        FreshTimerShowsZero(now);
        buffer := [];
        StartAudioRecorder(engineStarts);
      } else {
        alerts := alerts + [PermissionDenied];
      }
    }

    /**
     * The play button. It is refused before a recording exists and during
     * one; after a recording the buffer is written to the file and played;
     * after a playback the same file is played again without rewriting it.
     */
    method DidTapPlay(urlAvailable: bool, createOk: bool, writeOk: nat -> bool, playerOk: bool,
                      now: int, duration: Option<int>)
      requires Valid()
      modifies this
      ensures Valid()
      ensures buffer == old(buffer)
      ensures old(state) == NotInitiated ==> View() == old(View()).(alerts := old(alerts) + [NoRecordingPlayTapped])
      ensures old(state) == Recording ==> View() == old(View()).(alerts := old(alerts) + [InRecordingPlayTapped])
      ensures old(state) == Playing ==> View() == old(View())
      ensures old(state) == PlayingStopped ==>
        View() == old(View()).(playerPlaying := true, state := Playing, displayLinkActive := true,
                               labelVisible := true, timerStart := Some(now), timerRunning := true,
                               labelText := RemainingTime(Some(now), duration, now))
      ensures old(state) == RecordingStopped && !urlAvailable ==>
        View() == old(View()).(alerts := old(alerts) + [StorageFileUrl, WritingAudioToFileFail])
      ensures old(state) == RecordingStopped && urlAvailable && !createOk ==>
        View() == old(View()).(alerts := old(alerts) + [AudioFileNotCreated, WritingAudioToFileFail])
      ensures old(state) == RecordingStopped && urlAvailable && createOk && !playerOk ==>
        View() == old(View()).(file := Some(Written(old(buffer), writeOk)),
                               alerts := old(alerts) + [AudioPlayerError])
      ensures old(state) == RecordingStopped && urlAvailable && createOk && playerOk ==>
        View() == old(View()).(file := Some(Written(old(buffer), writeOk)),
                               playerContents := Some(Written(old(buffer), writeOk)),
                               playerPlaying := true, state := Playing, displayLinkActive := true,
                               labelVisible := true, timerStart := Some(now), timerRunning := true,
                               labelText := RemainingTime(Some(now), duration, now))
    {
      match state
      case NotInitiated =>
        alerts := alerts + [NoRecordingPlayTapped];
      case Recording =>
        alerts := alerts + [InRecordingPlayTapped];
      case RecordingStopped =>
        var written := WriteToFile(urlAvailable, createOk, writeOk);
        if !written {
          alerts := alerts + [WritingAudioToFileFail];
        } else if playerOk {
          playerContents := file;
          StartAudioPlayer(now, duration);
        } else {
          alerts := alerts + [AudioPlayerError];
        }
      case Playing =>
      case PlayingStopped =>
        StartAudioPlayer(now, duration);
    }

    /**
     * The player's callback at the end of a playback: a successful end stops
     * everything and keeps the recording; after an unsuccessful end the player
     * has stopped by itself but the screen stays in playing, its display link
     * and timer still running.
     */
    method AudioPlayerDidFinishPlaying(flag: bool)
      requires Valid() && playerPlaying
      modifies this
      ensures Valid()
      ensures flag ==> View() == PlaybackStopped(old(View())).(state := PlayingStopped)
      ensures !flag ==> View() == old(View()).(playerPlaying := false)
      ensures !flag ==> state == Playing && displayLinkActive && timerRunning
    {
      if flag {
        StopAudioPlayer();
        state := PlayingStopped;
      } else {
        playerPlaying := false;
      }
    }

    /** The player's callback for a file it cannot decode: an alert and nothing else. */
    method AudioPlayerDecodeErrorDidOccur()
      requires Valid()
      modifies this
      ensures Valid()
      ensures View() == old(View()).(alerts := old(alerts) + [AudioPlayerError])
    {
      alerts := alerts + [AudioPlayerError];
    }
  }

  /**
   * A whole take: a record tap that starts the engine, the frames the tap
   * delivers, a second record tap, then a play tap with every write and the
   * player succeeding. What is played is exactly what was captured.
   */
  method RecordThenPlay(r: Recorder, frames: seq<Frame>, now: int, duration: Option<int>)
    requires r.Valid() && r.state != Recording
    modifies r
    ensures r.Valid()
    ensures r.state == Playing && r.playerPlaying
    ensures r.buffer == frames && r.file == Some(frames) && r.playerContents == Some(frames)
  {
    r.DidTapRecord(true, true, now, duration);
    for i := 0 to |frames|
      invariant r.Valid() && r.state == Recording && r.tapInstalled
      invariant r.buffer == frames[..i]
    {
      r.OnFrame(frames[i]);
      assert frames[..i] + [frames[i]] == frames[..i + 1];
    }
    assert frames[..|frames|] == frames;
    r.DidTapRecord(true, true, now, duration);
    var allWritten: nat -> bool := _ => true;
    r.DidTapPlay(true, true, allWritten, true, now, duration);
    WrittenAllOk(frames, allWritten);
  }
}
