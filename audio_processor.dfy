/** The audio capture component: a recording state machine over the
    statuses idle, recording, paused and stopped, fed by the platform's
    recorder events, with a second entry point that accepts an uploaded
    audio file. The platform callbacks (data available, recorder stopped,
    timer tick, microphone granted or refused) are explicit methods and
    parameters; object URLs are opaque values naming the blob they show. */
module AudioCapture {
  import opened Outcomes
  import opened Text

  newtype Byte = b: int | 0 <= b < 256

  /** A binary object: its bytes and its MIME type. A recorder chunk and a
      user-selected file are blobs too. */
  datatype Blob = Blob(data: seq<Byte>, mimeType: string)

  /** The result of `URL.createObjectURL(blob)`. */
  datatype ObjectUrl = ObjectUrl(of: Blob)

  datatype Status = Idle | Recording | Paused | Stopped

  /** The state of the platform recorder object. */
  datatype RecorderState = Capturing | Suspended | Inactive

  /** How the attempt to start capturing ends: the microphone is refused,
      the microphone is granted but no recorder for `audio/webm` can be
      built, or both succeed. */
  datatype MicOutcome = MicRefused | RecorderUnsupported | MicGranted

  /** The buttons the component renders. */
  datatype Control = ProcessingSpinner | Record | Pause | Resume | Stop | RecordAgain | ProcessMeeting

  /** The MIME type the recorder produces and the assembled blob carries. */
  const RecordingMimeType: string := "audio/webm"

  /** A snapshot of every field of the component. */
  datatype Session = Session(
    status: Status,
    audioPreview: Option<ObjectUrl>,
    recordedBlob: Option<Blob>,
    realtimeTranscript: string,
    elapsedTime: nat,
    mediaRecorder: Option<RecorderState>,
    audioChunks: seq<Blob>,
    timerActive: bool,
    streamOpen: bool)

  /** The bytes of the chunks laid end to end, in arrival order. */
  function ChunkBytes(chunks: seq<Blob>): seq<Byte> {
    if |chunks| == 0 then [] else chunks[0].data + ChunkBytes(chunks[1..])
  }

  /** `new Blob(chunks, { type: 'audio/webm' })`. */
  function Assemble(chunks: seq<Blob>): Blob {
    Blob(ChunkBytes(chunks), RecordingMimeType)
  }

  /** Appending a chunk appends its bytes to the assembled blob. */
  lemma {:induction false} ChunkBytesAppend(chunks: seq<Blob>, c: Blob)
    ensures ChunkBytes(chunks + [c]) == ChunkBytes(chunks) + c.data
    decreases |chunks|
  {
    if |chunks| == 0 {
      assert chunks + [c] == [c];
    } else {
      assert (chunks + [c])[1..] == chunks[1..] + [c];
      ChunkBytesAppend(chunks[1..], c);
    }
  }

  /** The elapsed-time label: minutes and seconds, each zero-padded to two
      digits. */
  function FormatTime(seconds: nat): string {
    PadStart(NatToDecimal(seconds / 60), 2, '0') + ":" + PadStart(NatToDecimal(seconds % 60), 2, '0')
  }

  /** `FormatTime(s)` reads as `MM:SS`: at least two minute digits, exactly
      two second digits below 60, and the two fields together give back
      `s`. */
  lemma FormatTimeFields(s: nat)
    ensures var r := FormatTime(s);
      |r| >= 5 && r[|r| - 3] == ':'
      && IsDigits(r[..|r| - 3]) && |r[..|r| - 3]| >= 2
      && IsDigits(r[|r| - 2..]) && DecimalValue(r[|r| - 2..]) < 60
      && DecimalValue(r[..|r| - 3]) * 60 + DecimalValue(r[|r| - 2..]) == s
  {
    var m, sec := s / 60, s % 60;
    var mm := PadStart(NatToDecimal(m), 2, '0');
    var ss := PadStart(NatToDecimal(sec), 2, '0');
    NumeralWidth(sec);
    assert |ss| == 2;
    ZeroPadValue(NatToDecimal(m), 2);
    ZeroPadValue(NatToDecimal(sec), 2);
    DecimalRoundTrip(m);
    DecimalRoundTrip(sec);
    assert DecimalValue(mm) == m && DecimalValue(ss) == sec;
    assert m * 60 + sec == s;
    ColonFields(mm, ss);
  }

  /** Which buttons are rendered, for the processing flag of the page and
      the current status. */
  function Controls(isProcessing: bool, status: Status): seq<Control> {
    if isProcessing then [ProcessingSpinner]
    else match status
      case Idle => [Record]
      case Recording => [Pause, Stop]
      case Paused => [Resume, Stop]
      case Stopped => [RecordAgain, ProcessMeeting]
  }

  class AudioProcessor {
    var status: Status
    var audioPreview: Option<ObjectUrl>
    var recordedBlob: Option<Blob>
    var realtimeTranscript: string
    var elapsedTime: nat
    /** The recorder reference; `None` when there is none. */
    var mediaRecorder: Option<RecorderState>
    /** The chunk buffer the data-available callback pushes onto. */
    var audioChunks: seq<Blob>
    /** Whether an interval timer is registered. */
    var timerActive: bool
    /** Whether the microphone stream's tracks are still running. */
    var streamOpen: bool

    function State(): Session
      reads this
    {
      Session(status, audioPreview, recordedBlob, realtimeTranscript, elapsedTime,
              mediaRecorder, audioChunks, timerActive, streamOpen)
    }

    /** The component's invariant: a blob and its preview exist exactly in
        `stopped`; while recording or paused a recorder exists; when paused
        the timer is off; in `idle` there is no recorder and no timer. */
    ghost predicate Valid()
      reads this
    {
      (recordedBlob.Some? <==> status == Stopped)
      && audioPreview == (if recordedBlob.Some? then Some(ObjectUrl(recordedBlob.value)) else None)
      && (status == Recording || status == Paused ==> mediaRecorder.Some?)
      && (status == Paused ==> !timerActive)
      && (status == Idle ==> mediaRecorder.None? && !timerActive)
    }

    constructor ()
      ensures Valid()
      ensures State() == Session(Idle, None, None, "", 0, None, [], false, false)
    {
      status := Idle;
      audioPreview := None;
      recordedBlob := None;
      realtimeTranscript := "";
      elapsedTime := 0;
      mediaRecorder := None;
      audioChunks := [];
      timerActive := false;
      streamOpen := false;
    }

    /** Replaces any registered interval timer by a fresh one. */
    method StartTimer()
      modifies this
      ensures State() == old(State()).(timerActive := true)
    {
      timerActive := true;
    }

    /** Clears the interval timer, if any. */
    method StopTimer()
      modifies this
      ensures State() == old(State()).(timerActive := false)
    {
      if timerActive {
        timerActive := false;
      }
    }

    /** The interval callback, fired once a second while a timer is
        registered. */
    method Tick()
      requires timerActive
      modifies this
      ensures State() == old(State()).(elapsedTime := old(elapsedTime) + 1)
    {
      elapsedTime := elapsedTime + 1;
    }

    /** Asks for the microphone and, on success, clears the previous take
        and starts a new recorder and the timer. A refused microphone
        changes nothing. When the recorder cannot be built the clearing has
        already happened, the status is kept and the stream stays open. */
    method StartRecording(mic: MicOutcome) returns (toast: Option<Toast>)
      requires Valid()
      modifies this
      ensures mic == MicGranted ==>
        toast == None
        && State() == old(State()).(status := Recording, audioPreview := None, recordedBlob := None,
                                    realtimeTranscript := "", elapsedTime := 0,
                                    mediaRecorder := Some(Capturing), audioChunks := [],
                                    timerActive := true, streamOpen := true)
      ensures mic == MicRefused ==> toast == Some(MicrophoneError) && State() == old(State())
      ensures mic == RecorderUnsupported ==>
        toast == Some(MicrophoneError)
        && State() == old(State()).(audioPreview := None, recordedBlob := None,
                                    realtimeTranscript := "", elapsedTime := 0,
                                    audioChunks := [], streamOpen := true)
      ensures mic != RecorderUnsupported || old(status) != Stopped ==> Valid()
    {
      if mic == MicRefused {
        return Some(MicrophoneError);
      }
      streamOpen := true;
      audioChunks := [];
      audioPreview := None;
      recordedBlob := None;
      realtimeTranscript := "";
      elapsedTime := 0;
      if mic == RecorderUnsupported {
        return Some(MicrophoneError);
      }
      mediaRecorder := Some(Capturing);
      status := Recording;
      StartTimer();
      toast := None;
    }

    /** The recorder's data-available callback: a non-empty chunk is
        appended to the buffer, an empty one is dropped. */
    method DataAvailable(chunk: Blob)
      modifies this
      ensures |chunk.data| > 0 ==> State() == old(State()).(audioChunks := old(audioChunks) + [chunk])
      ensures |chunk.data| == 0 ==> State() == old(State())
      ensures ChunkBytes(audioChunks) == ChunkBytes(old(audioChunks)) + chunk.data
      ensures old(Valid()) ==> Valid()
    {
      ChunkBytesAppend(audioChunks, chunk);
      if |chunk.data| > 0 {
        audioChunks := audioChunks + [chunk];
      } else {
        assert chunk.data == [];
      }
    }

    /** The recorder's stop callback: assembles the buffered chunks, in
        order, into the recorded blob, shows it, moves to `stopped`, closes
        the stream and clears the timer. */
    method OnStop()
      requires Valid()
      modifies this
      ensures State() == old(State()).(status := Stopped,
                                       recordedBlob := Some(Assemble(old(audioChunks))),
                                       audioPreview := Some(ObjectUrl(Assemble(old(audioChunks)))),
                                       streamOpen := false, timerActive := false)
      ensures Valid()
    {
      var audioBlob := Assemble(audioChunks);
      recordedBlob := Some(audioBlob);
      audioPreview := Some(ObjectUrl(audioBlob));
      status := Stopped;
      streamOpen := false;
      StopTimer();
    }

    /** Pauses a recording: only from `recording` with a recorder; the
        elapsed time is kept. A recorder already asked to stop (its stop
        callback not yet run) is inactive, and pausing it throws an
        `InvalidStateError` before the handler changes anything; `threw`
        reports that. */
    method PauseRecording() returns (threw: bool)
      requires Valid()
      modifies this
      ensures threw <==> old(status) == Recording && old(mediaRecorder) == Some(Inactive)
      ensures old(status) == Recording && !threw ==>
        State() == old(State()).(status := Paused, mediaRecorder := Some(Suspended), timerActive := false)
      ensures old(status) != Recording || threw ==> State() == old(State())
      ensures Valid()
    {
      threw := false;
      if mediaRecorder.Some? && status == Recording {
        if mediaRecorder == Some(Inactive) {
          return true;
        }
        mediaRecorder := Some(Suspended);
        status := Paused;
        StopTimer();
      }
    }

    /** Resumes a paused recording: only from `paused` with a recorder; the
        timer restarts without resetting the elapsed time. Resuming an
        inactive recorder throws an `InvalidStateError` before the handler
        changes anything; `threw` reports that. */
    method ResumeRecording() returns (threw: bool)
      requires Valid()
      modifies this
      ensures threw <==> old(status) == Paused && old(mediaRecorder) == Some(Inactive)
      ensures old(status) == Paused && !threw ==>
        State() == old(State()).(status := Recording, mediaRecorder := Some(Capturing), timerActive := true)
      ensures old(status) != Paused || threw ==> State() == old(State())
      ensures Valid()
    {
      threw := false;
      if mediaRecorder.Some? && status == Paused {
        if mediaRecorder == Some(Inactive) {
          return true;
        }
        mediaRecorder := Some(Capturing);
        status := Recording;
        StartTimer();
      }
    }

    /** Asks the recorder to stop, only from `recording` or `paused`. The
        status changes when the recorder's stop callback (`OnStop`) runs. */
    method StopRecording() returns (requested: bool)
      requires Valid()
      modifies this
      ensures requested <==> old(status) == Recording || old(status) == Paused
      ensures requested ==> State() == old(State()).(mediaRecorder := Some(Inactive))
      ensures !requested ==> State() == old(State())
      ensures Valid()
    {
      requested := mediaRecorder.Some? && (status == Recording || status == Paused);
      if requested {
        mediaRecorder := Some(Inactive);
      }
    }

    /** Discards the take from any status: back to `idle` with nothing
        buffered, no blob, no recorder, no timer and a zero counter. */
    method ResetRecording()
      modifies this
      ensures State() == Session(Idle, None, None, "", 0, None, [], false,
                                 if old(mediaRecorder).Some? then false else old(streamOpen))
      ensures Valid()
    {
      status := Idle;
      audioPreview := None;
      recordedBlob := None;
      realtimeTranscript := "";
      audioChunks := [];
      StopTimer();
      elapsedTime := 0;
      if mediaRecorder.Some? {
        streamOpen := false;
        mediaRecorder := None;
      }
    }

    /** The "Process Meeting" button: forwards the recorded blob, if there
        is one, to the page. */
    method HandleProcessAudio() returns (forwarded: Option<Blob>)
      requires Valid()
      ensures forwarded.Some? <==> status == Stopped
      ensures forwarded == recordedBlob
    {
      forwarded := recordedBlob;
    }

    /** The file input: a file whose type starts with `audio/` becomes the
        recorded blob, the status jumps to `stopped` and the file is
        forwarded once; any other file is refused with a toast and changes
        nothing; no file does nothing. */
    method HandleFileChange(file: Option<Blob>) returns (forwarded: Option<Blob>, toast: Option<Toast>)
      requires Valid()
      modifies this
      ensures file.Some? && StartsWith(file.value.mimeType, "audio/") ==>
        forwarded == file && toast == None
        && State() == old(State()).(recordedBlob := file, audioPreview := Some(ObjectUrl(file.value)),
                                    status := Stopped)
      ensures file.Some? && !StartsWith(file.value.mimeType, "audio/") ==>
        forwarded == None && toast == Some(InvalidFileType) && State() == old(State())
      ensures file.None? ==> forwarded == None && toast == None && State() == old(State())
      ensures Valid()
    {
      forwarded, toast := None, None;
      if file.Some? {
        var f := file.value;
        if StartsWith(f.mimeType, "audio/") {
          var fileBlob := Blob(f.data, f.mimeType);
          recordedBlob := Some(fileBlob);
          audioPreview := Some(ObjectUrl(fileBlob));
          status := Stopped;
          forwarded := Some(f);
        } else {
          toast := Some(InvalidFileType);
        }
      }
    }

    /** The timer label: shown, as `FormatTime` of the elapsed seconds,
        only while recording or paused. */
    function TimerLabel(): (shown: Option<string>)
      reads this
      ensures shown.Some? <==> status == Recording || status == Paused
      ensures shown.Some? ==> shown.value == FormatTime(elapsedTime)
    {
      if status == Recording || status == Paused then Some(FormatTime(elapsedTime)) else None
    }
  }

  const MicrophoneError: Toast :=
    Toast(true, "Microphone Error", "Could not access the microphone. Please check your browser permissions.")

  const InvalidFileType: Toast :=
    Toast(true, "Invalid File Type", "Please upload a valid audio file.")

  /** Every button the component offers, when not processing, is one whose
      handler takes effect in the current state: pause and resume find a
      recorder in the status they expect, stop finds a recording to stop,
      and process finds a blob. */
  lemma OfferedControlsTakeEffect(p: AudioProcessor)
    requires p.Valid()
    ensures Pause in Controls(false, p.status) ==> p.status == Recording && p.mediaRecorder.Some?
    ensures Resume in Controls(false, p.status) ==> p.status == Paused && p.mediaRecorder.Some?
    ensures Stop in Controls(false, p.status) ==>
      (p.status == Recording || p.status == Paused) && p.mediaRecorder.Some?
    ensures ProcessMeeting in Controls(false, p.status) ==> p.recordedBlob.Some?
    ensures Record in Controls(false, p.status) ==> p.mediaRecorder.None? && !p.timerActive
  {
  }
}
