# AudioRecorder session and timer label, in Dafny

This project models the core of the AudioRecorder iOS app: the recording
session of its one screen and the text of its duration timer.

- `recorder.dfy`, module `RecorderViewController`: the screen as a class
  `Recorder` whose fields are the ones the view controller updates in place.
  - The fields cover the session state (`NotInitiated`, `Recording`,
    `RecordingStopped`, `Playing`, `PlayingStopped`) and the buffer of
    captured frames.
  - They also cover the engine tap and engine, the player and its display
    link, the duration timer and its label, the waveform amplitude, the
    single recording file, and the alerts shown.
  - The record and play buttons, the player's delegate callbacks, the tap
    callback and the tick of the duration timer are methods. Each one states
    the whole new state in terms of the old one.
  - All of them keep `Valid()`: capture runs only while recording, playback
    only while playing, the display link runs exactly while playing, the
    timer runs when the state needs it, and a player that is playing or has
    finished holds the file. So capture and playback never run together.
  - The loop that writes the buffer to the file is proved against the
    function `Written`, and lemmas characterise `Written` by the positions
    whose write succeeds.
- `timer_label.dfy`, module `RecorderViewModel`: the label text `[H:]MM:SS`
  for a whole-second interval. Lemmas prove:
  - the shape of the label;
  - that it reads back as the interval (`LabelSeconds` splits it at its
    colons and reads the digits);
  - that the elapsed and remaining variants are nil exactly when their
    inputs are missing.
- `wrappers.dfy`: `Option`, standing in for Swift optionals.

What the platform decides becomes a parameter of the method that depends on
it:
- the record permission (`granted`);
- whether the audio engine starts (`engineStarts`);
- whether a file location exists (`urlAvailable`);
- whether the file can be created (`createOk`);
- whether writing frame `i` succeeds (`writeOk(i)`);
- whether the player accepts the file (`playerOk`);
- the current time in whole seconds (`now`);
- the recorded file's duration in whole seconds (`duration`).

Four points of behaviour are stated as the code has them:
- A tap on record before the first recording reaches `Recording` only when
  the engine starts. A tap on record after a recording sets `Recording` even
  when the engine does not start. In that case the label is first filled in
  the old state's count-down mode, because the timer is started before the
  state is set.
- A play tap after a recording writes the file, but one after a playback
  does not.
- For a nonnegative interval, minutes are always written with two digits. So
  75 seconds reads "01:15" and 3661 seconds reads "1:01:01".
- A playback that ends without success stops the player, but the screen
  stays in `Playing` with its display link and timer running. Only a tap on
  record clears that.

## Model

| member | source | states |
|---|---|---|
| `RecorderViewModel.DateComponents` | AudioRecorder/ViewModel/RecorderViewModel.swift:35 | the hour, minute and second fields add up to the interval; they are in range for a nonnegative interval and carry its sign, truncated toward zero, for a negative one |
| `RecorderViewModel.ComponentsUnique` | AudioRecorder/ViewModel/RecorderViewModel.swift:35 | for a nonnegative interval, those are the only in-range fields that add up to it |
| `RecorderViewModel.NaturalNumeral` | AudioRecorder/ViewModel/RecorderViewModel.swift:39 | the decimal text of a natural number is nonempty digits, one digit exactly below ten, with a leading '0' only for zero |
| `RecorderViewModel.Numeral` | AudioRecorder/ViewModel/RecorderViewModel.swift:43-52 | the interpolated text of an integer has no ':', is the natural numeral for a nonnegative value, and starts with '-' otherwise |
| `RecorderViewModel.NumeralRoundTrip` | AudioRecorder/ViewModel/RecorderViewModel.swift:39 | reading the digits of a numeral gives back the number |
| `RecorderViewModel.HourSegment` | AudioRecorder/ViewModel/RecorderViewModel.swift:38-40 | the hour segment is empty exactly when the hour is not positive; otherwise it is the unpadded hour followed by ':' |
| `RecorderViewModel.PaddedField` | AudioRecorder/ViewModel/RecorderViewModel.swift:41-54 | a minute or second field never holds ':'; a value in 0..99 is exactly two digits, with a leading '0' exactly below ten |
| `RecorderViewModel.TimerLabelText` | AudioRecorder/ViewModel/RecorderViewModel.swift:37-56 | with minutes and seconds in 0..99 the text is the hour segment and five more characters, a ':' third from the end |
| `RecorderViewModel.IntervalLabel` | AudioRecorder/ViewModel/RecorderViewModel.swift:34-57 | the label of an interval under one hour is five characters with ':' in the middle; from one hour on it is at least seven |
| `RecorderViewModel.LabelFields` | AudioRecorder/ViewModel/RecorderViewModel.swift:37-56 | the label splits at its colons into the hour (only when positive), the minutes and the seconds, in that order, with no separator after the seconds |
| `RecorderViewModel.HourSegmentPresent` | AudioRecorder/ViewModel/RecorderViewModel.swift:38-40 | the label has an hour segment exactly when the hour is positive, and that segment is the unpadded hour |
| `RecorderViewModel.PaddedFieldShape` | AudioRecorder/ViewModel/RecorderViewModel.swift:41-54 | the two digits of a minute or second in 0..99 read back as its value |
| `RecorderViewModel.LabelRoundTrip` | AudioRecorder/ViewModel/RecorderViewModel.swift:34-57 | the label of any nonnegative interval reads back as that interval |
| `RecorderViewModel.LabelUnderAnHour` | AudioRecorder/ViewModel/RecorderViewModel.swift:34-57 | under one hour the label is five characters `MM:SS` |
| `RecorderViewModel.TimerLabelExamples` | AudioRecorder/ViewModel/RecorderViewModel.swift:34-57 | 75 seconds gives "01:15" and 3661 seconds gives "1:01:01" |
| `RecorderViewModel.NegativeIntervalLabel` | AudioRecorder/ViewModel/RecorderViewModel.swift:41-54 | 75 seconds past the end reads "0-1:0-15": each negative field gets its own '0' and minus sign |
| `RecorderViewModel.ElapsedTime` | AudioRecorder/ViewModel/RecorderViewModel.swift:20-24 | the elapsed-time text is nil exactly when there is no start date |
| `RecorderViewModel.ElapsedTimeReadsBack` | AudioRecorder/ViewModel/RecorderViewModel.swift:20-24 | otherwise it reads back as the seconds from the start date to now |
| `RecorderViewModel.FreshTimerShowsZero` | AudioRecorder/ViewModel/RecorderViewModel.swift:20-24 | a start date of now gives "00:00" |
| `RecorderViewModel.RemainingTime` | AudioRecorder/ViewModel/RecorderViewModel.swift:26-32 | the remaining-time text is nil exactly when the duration or the start date is missing |
| `RecorderViewModel.RemainingTimeReadsBack` | AudioRecorder/ViewModel/RecorderViewModel.swift:26-32 | otherwise, before the end, it reads back as the seconds from now to start plus duration |
| `RecorderViewController.Written` | AudioRecorder/Controller/RecorderViewController.swift:294-300 | the write loop never puts more frames in the file than the buffer holds |
| `RecorderViewController.OkPositionsExact` | AudioRecorder/Controller/RecorderViewController.swift:294-300 | the reference list of positions holds exactly the positions whose write succeeds, each once, in increasing order |
| `RecorderViewController.WrittenAtOkPositions` | AudioRecorder/Controller/RecorderViewController.swift:294-300 | frame k of the file is the buffer frame at the k-th position whose write succeeds, so the file keeps buffer order and skips failed frames |
| `RecorderViewController.WrittenAllOk` | AudioRecorder/Controller/RecorderViewController.swift:294-300 | when every write succeeds the file is the buffer |
| `RecorderViewController.WrittenNoneOk` | AudioRecorder/Controller/RecorderViewController.swift:294-300 | when every write fails the file is empty |
| `RecorderViewController.TimerLabel` | AudioRecorder/Controller/RecorderViewController.swift:126-133 | the label is nil exactly when there is no start, or the state counts down and the duration is unknown |
| `RecorderViewController.TimerLabelReadsBack` | AudioRecorder/Controller/RecorderViewController.swift:126-133 | before the first recording and while recording the label reads back as the seconds since the start; in the other three states as the seconds left |
| `RecorderViewController.FreshTimerLabel` | AudioRecorder/Controller/RecorderViewController.swift:107-117 | a timer started now shows "00:00" when counting up and the whole duration when counting down |
| `RecorderViewController.Recorder.Valid` | AudioRecorder/Controller/RecorderViewController.swift:153-218 | the invariant every event keeps implies that the engine never runs while the player plays, the tap is never installed while the display link runs, and a playing player holds the file |
| `RecorderViewController.Recorder.constructor` | AudioRecorder/Controller/RecorderViewController.swift:53-67 | the screen starts in `NotInitiated` with an empty buffer, nothing running, a hidden label, a flat waveform and no alerts |
| `RecorderViewController.Recorder.InitTimer` | AudioRecorder/Controller/RecorderViewController.swift:107-117 | the label is shown, the start is now, the timer runs and the label is filled at once for the current state; nothing else changes |
| `RecorderViewController.Recorder.InvalidateTimer` | AudioRecorder/Controller/RecorderViewController.swift:119-124 | the label is hidden, the start is cleared and the timer stops; the label text and everything else stay |
| `RecorderViewController.Recorder.RunDurationTimerCode` | AudioRecorder/Controller/RecorderViewController.swift:126-133 | a timer tick sets the label to the elapsed or remaining text for the current state and changes nothing else |
| `RecorderViewController.Recorder.DurationTimerFired` | AudioRecorder/Controller/RecorderViewController.swift:111-115 | the repeating timer firing between events refreshes the label for the current state, changes nothing else and keeps `Valid()` |
| `RecorderViewController.Recorder.StartAudioPlayer` | AudioRecorder/Controller/RecorderViewController.swift:255-267 | the player plays, the state is `Playing`, the display link runs, and the timer starts counting down the duration |
| `RecorderViewController.Recorder.StopAudioPlayer` | AudioRecorder/Controller/RecorderViewController.swift:269-275 | the player and display link stop, the timer is cleared and the amplitude is 0; the state and everything else stay |
| `RecorderViewController.Recorder.WriteToFile` | AudioRecorder/Controller/RecorderViewController.swift:277-303 | without a location or a created file only the matching alert is added and nothing is written; otherwise the file becomes `Written(buffer, writeOk)` and nothing else changes |
| `RecorderViewController.Recorder.StartAudioRecorder` | AudioRecorder/Controller/RecorderViewController.swift:309-327 | the tap is installed; the state becomes `Recording` only if the engine starts, otherwise `audioEngineNotStarted` is reported |
| `RecorderViewController.Recorder.StopAudioRecorder` | AudioRecorder/Controller/RecorderViewController.swift:329-333 | the tap is removed, the engine stops and the state is `RecordingStopped`; the buffer stays |
| `RecorderViewController.Recorder.OnFrame` | AudioRecorder/Controller/RecorderViewController.swift:313-317 | a delivered frame is appended at the end of the buffer; nothing else changes |
| `RecorderViewController.Recorder.DidTapRecord` | AudioRecorder/Controller/RecorderViewController.swift:153-187 | playback is stopped first in every state. Before the first recording the permission decides: a refusal only reports `permissionDenied`, and a grant reaches `Recording` only if the engine starts. While recording, the capture stops with the buffer untouched. After a recording or a playback the buffer is emptied, the tap installed, the timer started, and the state set to `Recording` whether or not the engine starts |
| `RecorderViewController.Recorder.StartNewRecording` | AudioRecorder/Controller/RecorderViewController.swift:180-184 | after a recording or a playback the buffer is emptied, the tap installed, the timer started counting up when the engine starts and in the old state's count-down mode when it does not, and the state set to `Recording` whether or not the engine starts |
| `RecorderViewController.Recorder.RecordPermissionChecked` | AudioRecorder/Controller/RecorderViewController.swift:158-172 | a refusal reports `permissionDenied` and changes nothing else; a grant starts the timer at "00:00", empties the buffer, and reaches `Recording` only if the engine starts |
| `RecorderViewController.Recorder.DidTapPlay` | AudioRecorder/Controller/RecorderViewController.swift:189-218 | before a recording and during one only the matching alert is added; while playing nothing changes; after a playback the same file is played again unwritten; after a recording the file is rewritten and played, or the failures are reported in order with the state kept |
| `RecorderViewController.Recorder.AudioPlayerDidFinishPlaying` | AudioRecorder/Controller/RecorderViewController.swift:339-344 | a successful end stops the player, display link and timer and sets `PlayingStopped`; after an unsuccessful one only the player has stopped, and the state stays `Playing` with the display link and timer running |
| `RecorderViewController.Recorder.AudioPlayerDecodeErrorDidOccur` | AudioRecorder/Controller/RecorderViewController.swift:346-348 | a decode error adds `audioPlayerError` and changes nothing else |
| `RecorderViewController.RecordThenPlay` | AudioRecorder/Controller/RecorderViewController.swift:153-218 | record, the delivered frames, stop, then play with every write succeeding: the file and the player hold exactly the delivered frames |

## Left out

- Audio session and engine wiring (`initAudioSession`, `initAudioEngine` and
  `makeConnections`, RecorderViewController.swift:224-249) is platform setup
  with no decisions. Whether the engine starts is a parameter.
- Level metering (`audioPlayerUpdate`, `getAudioPlayerPower` and
  `getMeteredValue`) is floating-point averaging over a lookup table that is
  not part of this model. The amplitude is modelled only where it is reset to
  0.
- The permission request is asynchronous. Its answer is the `granted`
  parameter, and the callback runs at once as `RecordPermissionChecked`. The
  `default: break` for permission values beyond the three known ones is not
  modelled.
- The tap callback runs on the audio thread. It is modelled as the sequential
  method `OnFrame`, callable whenever the tap is installed.
- `Date()`, `Calendar.dateComponents` and the `Float64` file duration are
  whole seconds (`int`). Sub-second precision is not modelled. For a negative
  interval (the remaining time after the end), the fields are assumed to be
  truncated toward zero. Only one example of that text is stated
  (`NegativeIntervalLabel`); it does not read back as a number.
- `audioDuration` reads the file's length through an asset. It is the
  `duration` parameter, not derived from `file`.
- `getAudioFileURL`, `getAudioFile` and `writeToAudioFile` are file-system
  calls. They are the `urlAvailable`, `createOk` and `writeOk` parameters.
  The `print(error)` on a failed frame write is not modelled.
- Alerts are an append-only log. UIKit presentation and the settings button
  handler are not modelled, nor the fact that a second alert is dropped while
  one is shown.
- Record-button images are not modelled. Label visibility is a boolean.
- `AVAudioPlayer(contentsOf:)` is the `playerOk` parameter, and the player is
  reduced to whether it plays and which recording it holds.
- AVFoundation allows only one tap per bus. After an engine failure before the
  first recording the tap stays installed, and the model lets a later record
  tap install it again.
- RecorderViewController.Recorder.AudioPlayerDidFinishPlaying requires a playing player, because the
  delegate is called only at the end of a playback. That the player stops
  on an unsuccessful end is the platform's behaviour, not the callback's.
