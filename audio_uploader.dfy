/**
 * The audio library of a voice room: recordings and uploaded files are put
 * at the front of a list, one of them may be playing, and a recording's
 * length is counted in seconds by an interval timer.
 *
 * The microphone, the `MediaRecorder`, the `Audio` player and the upload
 * request are outside the model: whether the microphone was granted, what
 * the upload answered and what the player read as the file's length enter
 * as parameters; ids, names and sizes of new entries likewise.
 */
module AudioUploader {
  import opened Basics
  import opened Text

  datatype Kind = Upload | Recording

  /** An entry of the library (its object URL and creation date are not modelled). */
  datatype AudioFile = AudioFile(id: String, name: String, duration: nat, size: nat, kind: Kind)

  // ---------------------------------------------------------------------------
  // formatTime
  // ---------------------------------------------------------------------------

  /** `s.padStart(2, '0')`. */
  function PadTwo(s: String): (r: String)
    ensures |s| >= 2 ==> r == s
    ensures |s| < 2 ==> |r| == 2 && r[2 - |s|..] == s && forall i :: 0 <= i < 2 - |s| ==> r[i] == '0'
  {
    if |s| >= 2 then s else seq(2 - |s|, _ => '0') + s
  }

  /** `formatTime`: whole minutes, a colon, and the remaining seconds in two digits. */
  function FormatTime(seconds: nat): String
  {
    NatToString(seconds / 60) + ":" + PadTwo(NatToString(seconds % 60))
  }

  predicate AllDigits(s: String)
  {
    forall i :: 0 <= i < |s| ==> '0' <= s[i] <= '9'
  }

  /** Reads "m:ss" back as a number of seconds; None for anything else. */
  function ParseTime(t: String): Option<nat>
  {
    ParseFieldList(SplitOn(t, ":"))
  }

  function ParseFieldList(fields: seq<String>): Option<nat>
  {
    if |fields| == 2 && AllDigits(fields[0]) && |fields[1]| == 2 && AllDigits(fields[1])
    then Some(60 * ParseDigits(fields[0]) + ParseDigits(fields[1]))
    else None
  }

  /** The seconds field holds exactly two digits, and its value is below 60. */
  lemma SecondsField(seconds: nat)
    ensures var ss := PadTwo(NatToString(seconds % 60));
      |ss| == 2 && AllDigits(ss) && ParseDigits(ss) == seconds % 60
  {
    var d := NatToString(seconds % 60);
    ParseNatToString(seconds % 60);
    NatToStringShape(seconds % 60);
    if seconds % 60 >= 10 {
      assert |d| >= 2 by {
        assert !(|d| == 1);
      }
      assert |d| == 2 by {
        assert d == NatToString(seconds % 60 / 10) + [DigitChar(seconds % 60 % 10)];
        NatToStringShape(seconds % 60 / 10);
      }
    } else {
      var ss := PadTwo(d);
      assert ss == ['0'] + d;
      assert ss[..1] == ['0'];
    }
  }

  /** Reading the display back gives the number of seconds: nothing is lost by the format. */
  lemma FormatTimeRoundTrip(seconds: nat)
    ensures ParseTime(FormatTime(seconds)) == Some(seconds)
  {
    SecondsField(seconds);
    ParseNatToString(seconds / 60);
    ParseFields(NatToString(seconds / 60), PadTwo(NatToString(seconds % 60)));
  }

  /** A digit field, a colon and a two-digit field read back as minutes and seconds. */
  lemma ParseFields(m: String, ss: String)
    requires AllDigits(m) && |ss| == 2 && AllDigits(ss)
    ensures ParseTime(m + ":" + ss) == Some(60 * ParseDigits(m) + ParseDigits(ss))
  {
    SplitFields(m, ss);
    ParseOfParts(m + ":" + ss, m, ss);
  }

  lemma SplitFields(m: String, ss: String)
    requires AllDigits(m) && AllDigits(ss)
    ensures SplitOn(m + ":" + ss, ":") == [m, ss]
  {
    NoColonInDigits(m);
    NoColonInDigits(ss);
    SplitOnCharFirst(m, ':', ss);
    SplitOnCharAbsent(ss, ':');
  }

  lemma ParseOfParts(t: String, m: String, ss: String)
    requires SplitOn(t, ":") == [m, ss]
    requires AllDigits(m) && |ss| == 2 && AllDigits(ss)
    ensures ParseTime(t) == Some(60 * ParseDigits(m) + ParseDigits(ss))
  {
    var fields := [m, ss];
    assert fields[0] == m && fields[1] == ss;
    assert ParseFieldList(fields) == Some(60 * ParseDigits(m) + ParseDigits(ss));
  }

  lemma NoColonInDigits(s: String)
    requires AllDigits(s)
    ensures ':' !in s
  {
    assert forall i :: 0 <= i < |s| ==> s[i] != ':';
  }

  // ---------------------------------------------------------------------------
  // The file checks of handleFileUpload
  // ---------------------------------------------------------------------------

  const MaxAudioSize: nat := 100 * 1024 * 1024

  /** The alert a chosen file is turned away with before any upload, if any: first the type, then the size. */
  function FileRefusal(contentType: String, size: nat): (r: Option<String>)
    ensures r.None? <==> StartsWith(contentType, "audio/") && size <= MaxAudioSize
  {
    if !StartsWith(contentType, "audio/") then Some("Por favor, selecione apenas arquivos de áudio")
    else if size > MaxAudioSize then Some("Arquivo muito grande! Máximo: 100MB")
    else None
  }

  /** The steps of the simulated progress bar: 0, 10, ..., 100. */
  const ProgressStep: nat := 10

  /** The alerts that end an accepted upload: the server took the file, or it did not. */
  const UploadedAlert: String := "✅ Áudio enviado com sucesso!"
  const FailedAlert: String := "❌ Erro ao enviar áudio"

  // ---------------------------------------------------------------------------
  // The library
  // ---------------------------------------------------------------------------

  function OtherThan(id: String): AudioFile -> bool
  {
    (a: AudioFile) => a.id != id
  }

  /** `prev.filter(a => a.id !== id)`. */
  function Without(library: seq<AudioFile>, id: String): seq<AudioFile>
  {
    Filter(library, OtherThan(id))
  }

  /** Deleting drops every entry with the id and keeps the others, in order. */
  lemma WithoutExactly(library: seq<AudioFile>, id: String)
    ensures forall a :: a in Without(library, id) <==> a in library && a.id != id
    ensures |Without(library, id)| <= |library|
    ensures (forall a :: a in library ==> a.id != id) ==> Without(library, id) == library
  {
    FilterMembers(library, OtherThan(id));
    if forall a :: a in library ==> a.id != id {
      FilterKeepsAll(library, OtherThan(id));
    }
  }

  /** Deleting after putting a new entry in front takes it out again when the id was not in use. */
  lemma WithoutUndoesPrepend(library: seq<AudioFile>, a: AudioFile)
    requires forall b :: b in library ==> b.id != a.id
    ensures Without([a] + library, a.id) == library
  {
    FilterAppend([a], library, OtherThan(a.id));
    FilterKeepsAll(library, OtherThan(a.id));
  }

  /** The component's state. */
  class Uploader {
    var library: seq<AudioFile>
    var isRecording: bool
    var recordingTime: nat
    var playingId: Option<String>
    var uploadProgress: nat
    var isUploading: bool
    /** Whether `mediaRecorderRef.current` holds a recorder (it is never cleared). */
    var hasRecorder: bool
    /** Whether the one-second interval is running. */
    var ticking: bool
    /**
     * The `recordingTime` the `onstop` handler sees: the value of the render
     * in which `startRecording` ran.
     */
    var timeSeenByOnStop: nat

    /**
     * The interval runs exactly while recording; outside a recording the
     * counter is at zero, and a recording has a recorder. The `onstop`
     * handler's view of the counter is that zero.
     */
    ghost predicate Valid()
      reads this
    {
      ticking == isRecording
      && (!isRecording ==> recordingTime == 0)
      && (isRecording ==> hasRecorder && timeSeenByOnStop == 0)
      && uploadProgress <= 100
    }

    constructor ()
      ensures Valid()
      ensures library == [] && !isRecording && recordingTime == 0 && playingId == None
      ensures uploadProgress == 0 && !isUploading && !hasRecorder
    {
      library := [];
      isRecording := false;
      recordingTime := 0;
      playingId := None;
      uploadProgress := 0;
      isUploading := false;
      hasRecorder := false;
      ticking := false;
      timeSeenByOnStop := 0;
    }

    /**
     * `startRecording`, reachable from the button only while not recording:
     * with the microphone granted, a recorder and the interval start.
     */
    method StartRecording(microphoneGranted: bool)
      requires Valid() && !isRecording
      modifies this
      ensures Valid()
      ensures microphoneGranted ==> isRecording && hasRecorder && recordingTime == 0
      ensures !microphoneGranted ==> unchanged(this)
      ensures library == old(library) && playingId == old(playingId)
      ensures isUploading == old(isUploading) && uploadProgress == old(uploadProgress)
    {
      if microphoneGranted {
        hasRecorder := true;
        timeSeenByOnStop := recordingTime;
        isRecording := true;
        ticking := true;
      }
    }

    /** One second of the interval: counts only while it runs. */
    method Tick()
      requires Valid()
      modifies this
      ensures Valid()
      ensures recordingTime == if old(ticking) then old(recordingTime) + 1 else old(recordingTime)
      ensures isRecording == old(isRecording) && library == old(library) && playingId == old(playingId)
      ensures isUploading == old(isUploading) && uploadProgress == old(uploadProgress)
      ensures hasRecorder == old(hasRecorder) && ticking == old(ticking) && timeSeenByOnStop == old(timeSeenByOnStop)
    {
      if ticking {
        recordingTime := recordingTime + 1;
      }
    }

    /**
     * `stopRecording` followed by the recorder's `onstop`: only a running
     * recording with a recorder stops; the recording goes in front of the
     * library with the seconds counted, and the counter returns to zero.
     */
    method StopRecording(id: String, name: String, size: nat)
      requires Valid()
      modifies this
      ensures Valid()
      ensures old(hasRecorder && isRecording) ==>
        !isRecording && recordingTime == 0
        && library == [AudioFile(id, name, old(recordingTime), size, Recording)] + old(library)
      ensures !old(hasRecorder && isRecording) ==> unchanged(this)
      ensures playingId == old(playingId) && hasRecorder == old(hasRecorder)
      ensures isUploading == old(isUploading) && uploadProgress == old(uploadProgress)
    {
      if hasRecorder && isRecording {
        isRecording := false;
        ticking := false;
        library := [AudioFile(id, name, recordingTime, size, Recording)] + library;
        recordingTime := 0;
      }
    }

    /** `stopRecording` and `onstop` as written: the duration is the counter the `onstop` closure captured. */
    method StopRecordingAsWritten(id: String, name: String, size: nat)
      requires Valid()
      modifies this
      ensures Valid()
      ensures old(hasRecorder && isRecording) ==>
        !isRecording && recordingTime == 0
        && library == [AudioFile(id, name, 0, size, Recording)] + old(library)
      ensures !old(hasRecorder && isRecording) ==> unchanged(this)
      ensures playingId == old(playingId) && hasRecorder == old(hasRecorder)
      ensures isUploading == old(isUploading) && uploadProgress == old(uploadProgress)
    {
      if hasRecorder && isRecording {
        isRecording := false;
        ticking := false;
        library := [AudioFile(id, name, timeSeenByOnStop, size, Recording)] + library;
        recordingTime := 0;
      }
    }

    /**
     * `handleFileUpload` for a chosen file: a refused file changes nothing;
     * otherwise the progress bar runs to 100, the upload is made, and if it
     * succeeded the file goes in front of the library under the id the
     * server gave (or the fallback id). Either way the upload ends with the
     * bar back at zero.
     */
    method UploadFile(contentType: String, name: String, size: nat,
                      uploaded: bool, serverId: Option<String>, fallbackId: String, duration: nat)
      returns (alert: Option<String>)
      requires Valid()
      modifies this
      ensures Valid()
      ensures FileRefusal(contentType, size).Some? ==> alert == FileRefusal(contentType, size) && unchanged(this)
      ensures FileRefusal(contentType, size).None? ==>
        alert == Some(if uploaded then UploadedAlert else FailedAlert) && !isUploading && uploadProgress == 0
        && library == (if uploaded then [AudioFile(if serverId.Some? && serverId.value != [] then serverId.value else fallbackId,
                                                   name, duration, size, Upload)] else []) + old(library)
      ensures isRecording == old(isRecording) && recordingTime == old(recordingTime) && playingId == old(playingId)
      ensures hasRecorder == old(hasRecorder) && ticking == old(ticking) && timeSeenByOnStop == old(timeSeenByOnStop)
    {
      alert := FileRefusal(contentType, size);
      if alert.Some? {
        return;
      }
      isUploading := true;
      uploadProgress := 0;
      var i := 0;
      while i <= 100
        invariant 0 <= i <= 100 + ProgressStep && i % ProgressStep == 0
        invariant uploadProgress == if i == 0 then 0 else i - ProgressStep
        invariant Valid() && isUploading
        invariant library == old(library) && isRecording == old(isRecording)
        invariant recordingTime == old(recordingTime) && playingId == old(playingId)
        invariant hasRecorder == old(hasRecorder) && ticking == old(ticking) && timeSeenByOnStop == old(timeSeenByOnStop)
      {
        uploadProgress := i;
        i := i + ProgressStep;
      }
      if uploaded {
        var fileId := if serverId.Some? && serverId.value != [] then serverId.value else fallbackId;
        library := [AudioFile(fileId, name, duration, size, Upload)] + library;
        alert := Some(UploadedAlert);
      } else {
        alert := Some(FailedAlert);
      }
      isUploading := false;
      uploadProgress := 0;
    }

    /** `togglePlay`: the playing entry pauses; any other starts, replacing the one playing. */
    method TogglePlay(id: String)
      requires Valid()
      modifies this
      ensures Valid()
      ensures playingId == if old(playingId) == Some(id) then None else Some(id)
      ensures library == old(library) && isRecording == old(isRecording) && recordingTime == old(recordingTime)
      ensures isUploading == old(isUploading) && uploadProgress == old(uploadProgress)
      ensures hasRecorder == old(hasRecorder) && ticking == old(ticking) && timeSeenByOnStop == old(timeSeenByOnStop)
    {
      if playingId == Some(id) {
        playingId := None;
      } else {
        playingId := Some(id);
      }
    }

    /** The player's `onended`. */
    method PlaybackEnded()
      requires Valid()
      modifies this
      ensures Valid()
      ensures playingId == None
      ensures library == old(library) && isRecording == old(isRecording) && recordingTime == old(recordingTime)
      ensures isUploading == old(isUploading) && uploadProgress == old(uploadProgress)
      ensures hasRecorder == old(hasRecorder) && ticking == old(ticking) && timeSeenByOnStop == old(timeSeenByOnStop)
    {
      playingId := None;
    }

    /** `deleteAudio`: every entry with the id goes, and playback stops exactly when it was that id's. */
    method DeleteAudio(id: String)
      requires Valid()
      modifies this
      ensures Valid()
      ensures library == Without(old(library), id)
      ensures playingId == if old(playingId) == Some(id) then None else old(playingId)
      ensures isRecording == old(isRecording) && recordingTime == old(recordingTime)
      ensures isUploading == old(isUploading) && uploadProgress == old(uploadProgress)
      ensures hasRecorder == old(hasRecorder) && ticking == old(ticking) && timeSeenByOnStop == old(timeSeenByOnStop)
    {
      if playingId == Some(id) {
        playingId := None;
      }
      library := Filter(library, OtherThan(id));
    }
  }

  /** Three seconds of recording, as the code is written: the entry says zero seconds. */
  method ThreeSecondsAsWritten() returns (recorded: AudioFile)
    ensures recorded.duration == 0
  {
    var u := new Uploader();
    u.StartRecording(true);
    u.Tick();
    u.Tick();
    u.Tick();
    u.StopRecordingAsWritten("1", "Gravação", 0);
    recorded := u.library[0];
  }

  /** Three seconds of recording with the duration read when the recording stops: three seconds. */
  method ThreeSeconds() returns (recorded: AudioFile)
    ensures recorded.duration == 3
  {
    var u := new Uploader();
    u.StartRecording(true);
    u.Tick();
    u.Tick();
    u.Tick();
    u.StopRecording("1", "Gravação", 0);
    recorded := u.library[0];
  }
}
