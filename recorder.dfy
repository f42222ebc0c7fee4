/** The voice-sample recorder widget (my-app/src/components/audio.tsx): the
    `MM:SS` duration label and the state flags its handlers update. */
module Recorder {
  import opened Decimal

  datatype Option<T> = None | Some(value: T)

  // ---------------------------------------------------------------------------
  // formatDuration

  /** `padStart(2, "0")`: left-pad with '0' to at least two characters. */
  function PadTwo(s: string): (r: string)
    ensures |r| == if |s| >= 2 then |s| else 2
    ensures r[|r| - |s|..] == s
    ensures forall i :: 0 <= i < |r| - |s| ==> r[i] == '0'
  {
    if |s| >= 2 then s else seq(2 - |s|, _ => '0') + s
  }

  /** formatDuration(seconds): whole minutes and the remaining seconds, each
      padded to two digits, joined by ':'. */
  function FormatDuration(seconds: nat): string {
    PadTwo(NatToString(seconds / 60)) + ":" + PadTwo(NatToString(seconds % 60))
  }

  /** A label of the form `MM:SS` with two digits on each side. */
  predicate IsClockLabel(t: string) {
    |t| == 5 && t[2] == ':' && AllDigits(t[..2]) && AllDigits(t[3..])
  }

  /** Reads a `MM:SS` label back as a number of seconds. */
  function ParseDuration(t: string): nat
    requires IsClockLabel(t)
  {
    Value(t[..2]) * 60 + Value(t[3..])
  }

  /** Padding a one- or two-digit rendering of n to two characters keeps its value. */
  lemma PadTwoValue(n: nat)
    requires n < 100
    ensures |PadTwo(NatToString(n))| == 2
    ensures AllDigits(PadTwo(NatToString(n)))
    ensures Value(PadTwo(NatToString(n))) == n
  {
    var s := NatToString(n);
    ValueOfNatToString(n);
    if |s| == 1 {
      assert PadTwo(s) == "0" + s;
      ValueLeadingZero(s);
    } else {
      assert s == NatToString(n / 10) + [DigitChar(n % 10)];
    }
  }

  /** Below 100 minutes the label is `MM:SS` and reads back as the same duration. */
  lemma FormatDurationRoundTrip(seconds: nat)
    requires seconds < 6000
    ensures IsClockLabel(FormatDuration(seconds))
    ensures ParseDuration(FormatDuration(seconds)) == seconds
  {
    var m, s := PadTwo(NatToString(seconds / 60)), PadTwo(NatToString(seconds % 60));
    PadTwoValue(seconds / 60);
    PadTwoValue(seconds % 60);
    var t := FormatDuration(seconds);
    assert t == m + ":" + s;
    assert t[..2] == m && t[3..] == s;
  }

  /** Two digits that denote n render back to themselves once padded. */
  lemma PadTwoOfValue(d: string)
    requires |d| == 2 && AllDigits(d)
    ensures PadTwo(NatToString(Value(d))) == d
  {
    if d[0] == '0' {
      var tail := d[1..];
      assert d == "0" + tail;
      ValueLeadingZero(tail);
      NatToStringOfValue(tail);
    } else {
      NatToStringOfValue(d);
    }
  }

  /** Every `MM:SS` label whose seconds are below 60 is the label of exactly
      the duration it reads as. */
  lemma {:induction false} ParseDurationRoundTrip(t: string)
    requires IsClockLabel(t) && Value(t[3..]) < 60
    ensures FormatDuration(ParseDuration(t)) == t
  {
    var mm, ss := t[..2], t[3..];
    var n := ParseDuration(t);
    assert n / 60 == Value(mm) && n % 60 == Value(ss);
    PadTwoOfValue(mm);
    PadTwoOfValue(ss);
    assert t == mm + ":" + ss;
  }

  // ---------------------------------------------------------------------------
  // The recorder's state

  datatype MatchStatus = NoMatch | MatchSuccess | MatchFailure

  /** Which of the four control groups is shown. */
  datatype Controls = Controls(record: bool, stop: bool, playback: bool, playing: bool)

  class AudioRecorder {
    var isRecording: bool
    var audioUrl: Option<string>
    var audioData: Option<seq<real>>
    var isPlaying: bool
    var audioBase64: Option<string>
    var recordingDuration: nat
    var matchStatus: MatchStatus
    /** mediaRecorderRef.current is set. */
    var hasRecorder: bool
    /** The interval held by recordingIntervalRef is still running. */
    var intervalLive: bool
    /** Intervals whose handle was overwritten by a later start: nothing clears them. */
    var leakedIntervals: nat
    /** A playback animation frame is pending. */
    var frameScheduled: bool

    /** The state every handler keeps: no handler ever assigns a match status
        other than "none" or a base64 string, and the interval the ref holds
        runs exactly while recording, so starting from the Record button
        (shown only when not recording) never leaks an interval. */
    predicate Valid()
      reads this
    {
      && matchStatus == NoMatch
      && audioBase64 == None
      && (isRecording ==> hasRecorder)
      && intervalLive == isRecording
    }

    constructor ()
      ensures Valid()
      ensures !isRecording && audioUrl == None && audioData == None && !isPlaying
      ensures recordingDuration == 0 && !hasRecorder && !intervalLive
      ensures leakedIntervals == 0 && !frameScheduled
    {
      isRecording, audioUrl, audioData, isPlaying := false, None, None, false;
      audioBase64, recordingDuration, matchStatus := None, 0, NoMatch;
      hasRecorder, intervalLive, leakedIntervals, frameScheduled := false, false, 0, false;
    }

    /** The button groups rendered at lines 208, 222, 236 and 255: Record only
        with nothing recorded, Stop while recording, Play/Re-record with a
        recording that is not playing, Stop-playback while playing. */
    function Shown(): (c: Controls)
      reads this
      ensures c.record ==> !c.stop && !c.playback && !c.playing
      ensures !(c.playback && c.playing)
      ensures (c.stop && (c.playback || c.playing)) <==> (isRecording && audioUrl.Some?)
      ensures c.record || c.stop || c.playback || c.playing
    {
      Controls(!isRecording && audioUrl.None?, isRecording,
               audioUrl.Some? && !isPlaying, audioUrl.Some? && isPlaying)
    }

    /** The match panel and the base64 note are rendered only for a match
        status other than "none" and a non-null base64 string. */
    function ShowsMatchPanelOrBase64(): (shown: bool)
      reads this
      requires Valid()
      ensures !shown
    {
      matchStatus != NoMatch || audioBase64.Some?
    }

    /** startRecording. `granted` is whether the microphone request succeeds;
        when it fails the error is only logged. */
    method StartRecording(granted: bool)
      requires Valid()
      modifies this
      ensures Valid()
      ensures if granted then
          && isRecording && recordingDuration == 0 && matchStatus == NoMatch
          && hasRecorder && intervalLive
          && leakedIntervals == old(leakedIntervals) + (if old(intervalLive) then 1 else 0)
        else
          && isRecording == old(isRecording) && recordingDuration == old(recordingDuration)
          && hasRecorder == old(hasRecorder) && intervalLive == old(intervalLive)
          && leakedIntervals == old(leakedIntervals)
      ensures audioUrl == old(audioUrl) && audioData == old(audioData)
      ensures isPlaying == old(isPlaying) && frameScheduled == old(frameScheduled)
    {
      if granted {
        hasRecorder := true;
        isRecording := true;
        recordingDuration := 0;
        matchStatus := NoMatch;
        if intervalLive {
          leakedIntervals := leakedIntervals + 1;
        }
        intervalLive := true;
      }
    }

    /** One firing of a running one-second interval. */
    method Tick()
      requires Valid()
      modifies this
      ensures Valid()
      ensures recordingDuration ==
        old(recordingDuration) + (if old(intervalLive) || old(leakedIntervals) > 0 then 1 else 0)
      ensures isRecording == old(isRecording) && audioUrl == old(audioUrl)
      ensures audioData == old(audioData) && isPlaying == old(isPlaying)
      ensures hasRecorder == old(hasRecorder) && intervalLive == old(intervalLive)
      ensures leakedIntervals == old(leakedIntervals) && frameScheduled == old(frameScheduled)
    {
      if intervalLive || leakedIntervals > 0 {
        recordingDuration := recordingDuration + 1;
      }
    }

    /** stopRecording: nothing happens without a recorder; otherwise recording
        stops and the interval the ref holds is cleared. */
    method StopRecording()
      requires Valid()
      modifies this
      ensures Valid()
      ensures if old(hasRecorder) then !isRecording && !intervalLive
              else isRecording == old(isRecording) && intervalLive == old(intervalLive)
      ensures hasRecorder == old(hasRecorder) && recordingDuration == old(recordingDuration)
      ensures audioUrl == old(audioUrl) && audioData == old(audioData)
      ensures isPlaying == old(isPlaying) && leakedIntervals == old(leakedIntervals)
      ensures frameScheduled == old(frameScheduled)
    {
      if hasRecorder {
        isRecording := false;
        intervalLive := false;
      }
    }

    /** The recorder's onstop callback: the recording becomes playable. */
    method RecorderStopped(url: string, samples: seq<real>)
      requires Valid()
      modifies this
      ensures Valid()
      ensures audioUrl == Some(url) && audioData == Some(samples)
      ensures isRecording == old(isRecording) && isPlaying == old(isPlaying)
      ensures recordingDuration == old(recordingDuration) && hasRecorder == old(hasRecorder)
      ensures intervalLive == old(intervalLive) && leakedIntervals == old(leakedIntervals)
      ensures frameScheduled == old(frameScheduled)
    {
      audioUrl := Some(url);
      audioData := Some(samples);
    }

    /** playAudio: starts playback when the audio element (rendered while a
        URL is set) and the decoded samples are both present. */
    method PlayAudio()
      requires Valid()
      modifies this
      ensures Valid()
      ensures if old(audioUrl).Some? && old(audioData).Some? then isPlaying && frameScheduled
              else isPlaying == old(isPlaying) && frameScheduled == old(frameScheduled)
      ensures isRecording == old(isRecording) && audioUrl == old(audioUrl)
      ensures audioData == old(audioData) && recordingDuration == old(recordingDuration)
      ensures hasRecorder == old(hasRecorder) && intervalLive == old(intervalLive)
      ensures leakedIntervals == old(leakedIntervals)
    {
      if audioUrl.Some? && audioData.Some? {
        isPlaying := true;
        frameScheduled := true;
      }
    }

    /** The pending animation frame runs with the element's playback
        progress (currentTime / duration): playback goes on while progress is
        below 1 and ends once it reaches 1. */
    method PlaybackFrame(progress: real)
      requires Valid()
      modifies this
      ensures Valid()
      ensures !old(frameScheduled) ==> isPlaying == old(isPlaying) && !frameScheduled
      ensures old(frameScheduled) && old(audioUrl).Some? && progress < 1.0 ==>
        isPlaying == old(isPlaying) && frameScheduled
      ensures old(frameScheduled) && old(audioUrl).Some? && progress >= 1.0 ==>
        !isPlaying && !frameScheduled
      ensures old(frameScheduled) && old(audioUrl).None? ==>
        isPlaying == old(isPlaying) && !frameScheduled
      ensures isRecording == old(isRecording) && audioUrl == old(audioUrl)
      ensures audioData == old(audioData) && recordingDuration == old(recordingDuration)
      ensures hasRecorder == old(hasRecorder) && intervalLive == old(intervalLive)
      ensures leakedIntervals == old(leakedIntervals)
    {
      if frameScheduled {
        if audioUrl.Some? {
          if progress >= 1.0 {
            isPlaying := false;
            frameScheduled := false;
          }
        } else {
          frameScheduled := false;
        }
      }
    }

    /** stopAudio: with the audio element present, playback always stops and
        the pending frame is cancelled. */
    method StopAudio()
      requires Valid()
      modifies this
      ensures Valid()
      ensures if old(audioUrl).Some? then !isPlaying && !frameScheduled
              else isPlaying == old(isPlaying) && frameScheduled == old(frameScheduled)
      ensures isRecording == old(isRecording) && audioUrl == old(audioUrl)
      ensures audioData == old(audioData) && recordingDuration == old(recordingDuration)
      ensures hasRecorder == old(hasRecorder) && intervalLive == old(intervalLive)
      ensures leakedIntervals == old(leakedIntervals)
    {
      if audioUrl.Some? {
        isPlaying := false;
        frameScheduled := false;
      }
    }

    /** reRecord: discards the recording and resets the duration and the match status. */
    method ReRecord()
      requires Valid()
      modifies this
      ensures Valid()
      ensures audioUrl == None && audioData == None && audioBase64 == None
      ensures recordingDuration == 0 && matchStatus == NoMatch
      ensures isRecording == old(isRecording) && isPlaying == old(isPlaying)
      ensures hasRecorder == old(hasRecorder) && intervalLive == old(intervalLive)
      ensures leakedIntervals == old(leakedIntervals) && frameScheduled == old(frameScheduled)
    {
      audioUrl := None;
      audioData := None;
      audioBase64 := None;
      recordingDuration := 0;
      matchStatus := NoMatch;
    }
  }
}
