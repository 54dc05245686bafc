/**
 * The emotion scan: with camera and microphone enabled, a scan advances a
 * progress counter by 2 every tick; on reaching 100 it stops, and a face
 * reading and a voice reading (simulated by random draws) are shown together
 * with the one of higher confidence.
 */
module EmotionScan {
  import opened Wrappers

  datatype Emotion = Neutral | Happy | Sad | Angry | Surprised | Fearful
  {
    function Name(): string {
      match this
      case Neutral => "neutral"
      case Happy => "happy"
      case Sad => "sad"
      case Angry => "angry"
      case Surprised => "surprised"
      case Fearful => "fearful"
    }

    /** `getEmotionColor` */
    function Color(): string {
      match this
      case Happy => "emotionGreen"
      case Sad => "emotionBlue"
      case Angry => "emotionRed"
      case Surprised => "emotionYellow"
      case Fearful => "emotionOrange"
      case Neutral => "gray"
    }

    /** `getEmotionEmoji`. The page's strings are the UTF-8 bytes of the
        emoji read as Windows-1252 text and encoded again, so the card shows
        them as these Latin characters; neutral lost the last byte, 0x90,
        which Windows-1252 leaves unassigned. */
    function Emoji(): string {
      match this
      case Happy => "\U{F0}\U{178}\U{2DC}\U{160}"
      case Sad => "\U{F0}\U{178}\U{2DC}\U{201D}"
      case Angry => "\U{F0}\U{178}\U{2DC}\U{A1}"
      case Surprised => "\U{F0}\U{178}\U{2DC}\U{B2}"
      case Fearful => "\U{F0}\U{178}\U{2DC}\U{A8}"
      case Neutral => "\U{F0}\U{178}\U{2DC}"
    }
  }

  /** The order of the emotion list the simulations draw from. */
  const Emotions: seq<Emotion> := [Neutral, Happy, Sad, Angry, Surprised, Fearful]

  /** Each emotion gets a colour and an emoji of its own; only neutral is grey. */
  lemma TablesDistinguishEmotions(a: Emotion, b: Emotion)
    ensures a.Color() == b.Color() <==> a == b
    ensures a.Emoji() == b.Emoji() <==> a == b
    ensures a.Color() == "gray" <==> a == Neutral
  {
    if a != b {
      assert a.Color()[|a.Color()| - 2] != b.Color()[|b.Color()| - 2] || |a.Color()| != |b.Color()|;
      assert |a.Emoji()| != |b.Emoji()| || a.Emoji()[3] != b.Emoji()[3];
    }
  }

  /** A reading; the confidence is kept in hundredths, as the two decimals the
      simulation rounds to. */
  datatype EmotionResult = EmotionResult(emotion: Emotion, confidence: int)

  /** A simulated reading: confidence between 0.50 and 1.00. */
  predicate ValidResult(r: EmotionResult) {
    50 <= r.confidence <= 100
  }

  /** A simulation from its two random draws in [0, 1): the emotion at
      `floor(draw * 6)` and `0.5 + draw * 0.5` rounded to two decimals. */
  function Simulate(emotionDraw: real, confidenceDraw: real): (r: EmotionResult)
    requires 0.0 <= emotionDraw < 1.0 && 0.0 <= confidenceDraw < 1.0
    ensures ValidResult(r)
    ensures r.emotion in Emotions
    ensures (r.confidence as real - 0.5) / 100.0 <= 0.5 + confidenceDraw * 0.5 < (r.confidence as real + 0.5) / 100.0
  {
    EmotionResult(Emotions[(emotionDraw * 6.0).Floor], (50.0 + confidenceDraw * 50.0 + 0.5).Floor)
  }

  /** `getCombinedEmotion`: nothing until both readings exist; then the face
      reading when strictly more confident, otherwise the voice reading. */
  function CombinedEmotion(face: Option<EmotionResult>, voice: Option<EmotionResult>): (r: Option<EmotionResult>)
    ensures r.Some? <==> face.Some? && voice.Some?
    ensures r.Some? ==> r == face || r == voice
    ensures r.Some? ==> r.value.confidence >= face.value.confidence && r.value.confidence >= voice.value.confidence
    ensures r.Some? && r != voice ==> face.value.confidence > voice.value.confidence
  {
    if face.None? || voice.None? then None
    else if face.value.confidence > voice.value.confidence then face
    else voice
  }

  /** One tick of the timer: two more percent, stopping at 100. */
  function NextProgress(progress: int): (next: int)
    ensures progress < 98 ==> next == progress + 2
    ensures progress >= 98 ==> next == 100
  {
    if progress + 2 >= 100 then 100 else progress + 2
  }

  /** The progress after `k` ticks from the start of a scan. */
  function ProgressAfter(k: nat): int {
    if k == 0 then 0 else NextProgress(ProgressAfter(k - 1))
  }

  /** A scan takes exactly 50 ticks: before that the progress is 2 per tick
      and below 100, and the 50th tick brings it to 100. */
  lemma {:induction false} ScanTakesFiftyTicks(k: nat)
    requires k <= 50
    ensures ProgressAfter(k) == 2 * k
    ensures ProgressAfter(k) >= 100 <==> k == 50
  {
    if k > 0 {
      ScanTakesFiftyTicks(k - 1);
    }
  }

  // ---------------------------------------------------------------------
  // The component state
  // ---------------------------------------------------------------------

  class EmotionScan {
    var cameraActive: bool
    var micActive: bool
    var recording: bool
    var scanComplete: bool
    var faceResult: Option<EmotionResult>
    var voiceResult: Option<EmotionResult>
    var progress: int

    /** What every handler keeps: progress on the even steps 0..100; a running
        scan has no readings yet and is below 100; a finished scan has both
        readings at 100; the two readings come and go together. */
    ghost predicate Valid()
      reads this
    {
      && 0 <= progress <= 100 && progress % 2 == 0
      && (recording ==> !scanComplete && faceResult.None? && progress < 100)
      && (scanComplete ==> faceResult.Some? && progress == 100)
      && (faceResult.Some? <==> voiceResult.Some?)
      && (faceResult.Some? ==> ValidResult(faceResult.value) && ValidResult(voiceResult.value))
    }

    constructor ()
      ensures Valid()
      ensures !cameraActive && !micActive && !recording && !scanComplete
      ensures faceResult.None? && voiceResult.None? && progress == 0
    {
      cameraActive := false;
      micActive := false;
      recording := false;
      scanComplete := false;
      faceResult := None;
      voiceResult := None;
      progress := 0;
    }

    /** `toggleCamera`: switching off always succeeds; switching on needs the
        permission (`granted`) and a mounted video element (`videoMounted`).
        The result says whether the permission alert is shown. */
    method ToggleCamera(granted: bool, videoMounted: bool) returns (alerted: bool)
      requires Valid()
      modifies this
      ensures Valid()
      ensures cameraActive == (!old(cameraActive) && granted && videoMounted)
      ensures alerted <==> !old(cameraActive) && !granted
      ensures micActive == old(micActive) && recording == old(recording) && scanComplete == old(scanComplete)
      ensures faceResult == old(faceResult) && voiceResult == old(voiceResult) && progress == old(progress)
    {
      alerted := false;
      if cameraActive {
        cameraActive := false;
      } else if !granted {
        alerted := true;
      } else if videoMounted {
        cameraActive := true;
      }
    }

    /** `toggleMic`: switching on needs the permission. */
    method ToggleMic(granted: bool) returns (alerted: bool)
      requires Valid()
      modifies this
      ensures Valid()
      ensures micActive == (!old(micActive) && granted)
      ensures alerted <==> !old(micActive) && !granted
      ensures cameraActive == old(cameraActive) && recording == old(recording) && scanComplete == old(scanComplete)
      ensures faceResult == old(faceResult) && voiceResult == old(voiceResult) && progress == old(progress)
    {
      alerted := false;
      if micActive {
        micActive := false;
      } else if granted {
        micActive := true;
      } else {
        alerted := true;
      }
    }

    /** The start button is enabled only when no scan runs and both devices are on. */
    predicate StartEnabled()
      reads this
    {
      !(recording || !cameraActive || !micActive)
    }

    /** `startScan`, pressed through its button (so never during a scan):
        with both devices on, a fresh scan starts from 0; otherwise an alert
        is shown and nothing changes. */
    method StartScan() returns (alerted: bool)
      requires Valid() && !recording
      modifies this
      ensures Valid()
      ensures alerted <==> !old(cameraActive) || !old(micActive)
      ensures alerted <==> !old(StartEnabled())
      ensures alerted ==>
        && recording == old(recording) && scanComplete == old(scanComplete) && progress == old(progress)
        && faceResult == old(faceResult) && voiceResult == old(voiceResult)
      ensures !alerted ==>
        && recording && !scanComplete && progress == 0 && faceResult.None? && voiceResult.None?
      ensures cameraActive == old(cameraActive) && micActive == old(micActive)
    {
      if !cameraActive || !micActive {
        return true;
      }
      alerted := false;
      recording := true;
      progress := 0;
      faceResult := None;
      voiceResult := None;
      scanComplete := false;
    }

    /** One timer tick of a running scan. `face` and `voice` are the readings
        the two simulations produce if this tick finishes the scan. */
    method Tick(face: EmotionResult, voice: EmotionResult)
      requires Valid() && recording
      requires ValidResult(face) && ValidResult(voice)
      modifies this
      ensures Valid()
      ensures progress == NextProgress(old(progress))
      ensures progress < 100 ==>
        recording && !scanComplete && faceResult.None? && voiceResult.None?
      ensures progress == 100 ==>
        !recording && scanComplete && faceResult == Some(face) && voiceResult == Some(voice)
      ensures cameraActive == old(cameraActive) && micActive == old(micActive)
    {
      var next := progress + 2;
      if next >= 100 {
        faceResult := Some(face);
        voiceResult := Some(voice);
        recording := false;
        scanComplete := true;
        progress := 100;
      } else {
        progress := next;
      }
    }

    /** `resetScan`: back to an empty, unfinished scan; the devices stay as they are. */
    method ResetScan()
      requires Valid()
      modifies this
      ensures Valid()
      ensures !scanComplete && faceResult.None? && voiceResult.None? && progress == 0
      ensures cameraActive == old(cameraActive) && micActive == old(micActive) && recording == old(recording)
    {
      scanComplete := false;
      faceResult := None;
      voiceResult := None;
      progress := 0;
    }

    /** The overlays: the camera prompt, the progress ring, the results. */
    predicate ShowsPrompt() reads this { !cameraActive && !scanComplete }
    predicate ShowsProgress() reads this { cameraActive && !scanComplete && recording }
    predicate ShowsResults() reads this { scanComplete }

    /** At most one overlay shows at a time, and finished results always come
        with both readings and a combined emotion. */
    lemma OverlaysExclusive()
      requires Valid()
      ensures !(ShowsPrompt() && ShowsProgress())
      ensures !(ShowsPrompt() && ShowsResults()) && !(ShowsProgress() && ShowsResults())
      ensures ShowsResults() ==> CombinedEmotion(faceResult, voiceResult).Some?
    {
    }
  }
}
