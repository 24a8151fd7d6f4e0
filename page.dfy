/** The home page: owns the transcript, summary, action items, loading
    flags and error, and runs the processing pipeline when the capture
    component hands over a blob: encode it as a data URI, upload it,
    transcribe it, then summarize and extract action items side by side.
    Each collaborator is a function from its input to an outcome (a value
    or the message of the error it threw); the network is not modelled. */
module Home {
  import opened Outcomes
  import opened MeetingResults
  import opened AudioCapture

  /** A call made to a collaborator, with its argument. */
  datatype Call =
    | EncodeCall(audio: Blob)
    | UploadCall(dataUri: string)
    | TranscribeCall(dataUri: string)
    | SummarizeCall(transcript: string)
    | ExtractCall(transcript: string)

  /** The collaborators of one run. When both analysis calls fail, the
      joined promise rejects with whichever failed first;
      `summarizeRejectsFirst` says which. */
  datatype Collaborators = Collaborators(
    encode: Blob -> Result<string>,
    upload: string -> Result<()>,
    transcribe: string -> Result<string>,
    summarize: string -> Result<Summary>,
    extract: string -> Result<seq<ActionItem>>,
    summarizeRejectsFirst: bool)

  /** The state the page holds. */
  datatype PageState = PageState(
    transcript: Option<string>,
    summary: Option<Summary>,
    actionItems: Option<seq<ActionItem>>,
    isLoading: Loading,
    error: Option<string>)

  /** What one run does: the calls it makes, in order, every value the
      loading flags are set to, in order, and the final state. */
  datatype Trace = Trace(calls: seq<Call>, loadingSteps: seq<Loading>, final: PageState)

  const NotLoading: Loading := Loading(false, false, false)
  const UploadLoading: Loading := Loading(false, false, true)
  const TranscriptionLoading: Loading := Loading(true, false, false)
  const AnalysisLoading: Loading := Loading(false, true, false)

  const EmptyTranscriptError: string := "Transcription failed to produce a result."
  const UnknownError: string := "An unknown error occurred."

  /** The value handed to the capture component as `isProcessing`. */
  predicate IsProcessing(l: Loading) {
    l.transcription || l.upload || l.analysis
  }

  /** At most one loading flag is on. */
  predicate AtMostOneLoading(l: Loading) {
    (l.upload ==> !l.transcription && !l.analysis) && (l.transcription ==> !l.analysis)
  }

  /** The error state after a thrown error with message `m`. */
  function ErrorState(transcript: Option<string>, m: string): PageState {
    PageState(transcript, None, None, NotLoading, Some(MessageOr(m, UnknownError)))
  }

  /** The message the joined analysis promise rejects with, if it
      rejects. */
  function AnalysisFailure(s: Result<Summary>, e: Result<seq<ActionItem>>, summarizeFirst: bool): Option<string> {
    if s.Failed? && (e.Ok? || summarizeFirst) then Some(s.message)
    else if e.Failed? then Some(e.message)
    else None
  }

  /** What the handler does for `audio`, step by step. */
  function Run(audio: Blob, env: Collaborators): Trace {
    var started := [NotLoading, UploadLoading];
    match env.encode(audio)
    case Failed(m) =>
      Trace([EncodeCall(audio)], started + [NotLoading], ErrorState(None, m))
    case Ok(uri) =>
      match env.upload(uri)
      case Failed(m) =>
        Trace([EncodeCall(audio), UploadCall(uri)], started + [NotLoading], ErrorState(None, m))
      case Ok(_) =>
        var uploaded := started + [TranscriptionLoading];
        var calls := [EncodeCall(audio), UploadCall(uri), TranscribeCall(uri)];
        match env.transcribe(uri)
        case Failed(m) =>
          Trace(calls, uploaded + [NotLoading], ErrorState(None, m))
        case Ok(t) =>
          if t == "" then
            Trace(calls, uploaded + [NotLoading], ErrorState(None, EmptyTranscriptError))
          else
            var s, e := env.summarize(t), env.extract(t);
            var allCalls := calls + [SummarizeCall(t), ExtractCall(t)];
            var steps := uploaded + [AnalysisLoading, NotLoading];
            match AnalysisFailure(s, e, env.summarizeRejectsFirst)
            case Some(m) => Trace(allCalls, steps, ErrorState(Some(t), m))
            case None => Trace(allCalls, steps, PageState(Some(t), Some(s.value), Some(e.value), NotLoading, None))
  }

  // ---------------------------------------------------------------------
  // Properties of a run
  // ---------------------------------------------------------------------

  /** A run starts by clearing every flag and then raising the upload flag
      alone; at every step at most one flag is on; it ends with all flags
      off, and the page reports processing exactly between the first and
      the last step. */
  lemma LoadingDiscipline(audio: Blob, env: Collaborators)
    ensures var steps := Run(audio, env).loadingSteps;
      |steps| >= 3 && steps[0] == NotLoading && steps[1] == UploadLoading
      && steps[|steps| - 1] == NotLoading
      && Run(audio, env).final.isLoading == NotLoading
      && (forall i :: 0 <= i < |steps| ==> AtMostOneLoading(steps[i]))
      && (forall i :: 1 <= i < |steps| - 1 ==> IsProcessing(steps[i]))
  {
  }

  /** Transcription is called only after the upload of the same data URI
      succeeded, and the upload only after the encoding gave that URI. */
  lemma TranscribeOnlyAfterUpload(audio: Blob, env: Collaborators)
    ensures var calls := Run(audio, env).calls;
      1 <= |calls| && calls[0] == EncodeCall(audio)
      && (forall i :: 0 <= i < |calls| && calls[i].UploadCall? ==>
            i == 1 && env.encode(audio) == Ok(calls[i].dataUri))
      && (forall i :: 0 <= i < |calls| && calls[i].TranscribeCall? ==>
            i == 2 && calls[1] == UploadCall(calls[i].dataUri) && env.upload(calls[i].dataUri).Ok?)
  {
  }

  /** A failed encoding or upload, with message `m`, sets the error to
    `m` (or the fallback when `m` is empty), calls nothing further and
    leaves no transcript, summary or action items. */
  lemma UploadFailureStops(audio: Blob, env: Collaborators, m: string)
    requires env.encode(audio) == Failed(m)
      || (env.encode(audio).Ok? && env.upload(env.encode(audio).value) == Failed(m))
    ensures var r := Run(audio, env);
      r.final.error == Some(MessageOr(m, UnknownError)) && r.final.error.value != ""
      && r.final.transcript == None && r.final.summary == None && r.final.actionItems == None
      && (forall i :: 0 <= i < |r.calls| ==>
            !r.calls[i].TranscribeCall? && !r.calls[i].SummarizeCall? && !r.calls[i].ExtractCall?)
  {
  }

  /** A failed transcription, with message `m`, sets the error to `m` (or
      the fallback when `m` is empty), keeps no transcript and makes no
      analysis call. */
  lemma TranscriptionFailureStops(audio: Blob, env: Collaborators, m: string)
    requires env.encode(audio).Ok?
    requires env.upload(env.encode(audio).value).Ok?
    requires env.transcribe(env.encode(audio).value) == Failed(m)
    ensures var r := Run(audio, env);
      r.final.error == Some(MessageOr(m, UnknownError)) && r.final.error.value != ""
      && r.final.transcript == None && r.final.summary == None && r.final.actionItems == None
      && (forall i :: 0 <= i < |r.calls| ==> !r.calls[i].SummarizeCall? && !r.calls[i].ExtractCall?)
  {
  }

  /** An empty transcript is an error with its own message: no analysis
      call is made and no transcript is kept. */
  lemma EmptyTranscriptStops(audio: Blob, env: Collaborators)
    requires env.encode(audio).Ok?
    requires env.upload(env.encode(audio).value).Ok?
    requires env.transcribe(env.encode(audio).value) == Ok("")
    ensures var r := Run(audio, env);
      r.final.error == Some(EmptyTranscriptError) && r.final.transcript == None
      && (forall i :: 0 <= i < |r.calls| ==> !r.calls[i].SummarizeCall? && !r.calls[i].ExtractCall?)
  {
  }

  /** After a non-empty transcript both analysis calls get it. The
      summary and the action items are set together, exactly when both
      calls succeed, and then there is no error; if either fails neither
      is set, the error holds the message of a failed call, and the
      transcript stays. */
  lemma AnalysisAllOrNothing(audio: Blob, env: Collaborators, t: string)
    requires env.encode(audio).Ok?
    requires env.upload(env.encode(audio).value).Ok?
    requires env.transcribe(env.encode(audio).value) == Ok(t) && t != ""
    ensures var r := Run(audio, env);
      var s, e := env.summarize(t), env.extract(t);
      r.final.transcript == Some(t)
      && r.calls[|r.calls| - 2..] == [SummarizeCall(t), ExtractCall(t)]
      && (r.final.summary.Some? <==> s.Ok? && e.Ok?)
      && (r.final.actionItems.Some? <==> s.Ok? && e.Ok?)
      && (s.Ok? && e.Ok? ==> r.final.summary == Some(s.value) && r.final.actionItems == Some(e.value)
                             && r.final.error == None)
      && (s.Failed? || e.Failed? ==>
            r.final.error.Some?
            && ((s.Failed? && r.final.error.value == MessageOr(s.message, UnknownError))
                || (e.Failed? && r.final.error.value == MessageOr(e.message, UnknownError))))
  {
  }

  /** Every run ends either complete (transcript, summary and items, no
      error) or with a non-empty error and neither summary nor items. */
  lemma RunEndsCompleteOrFailed(audio: Blob, env: Collaborators)
    ensures var f := Run(audio, env).final;
      (f.error == None && f.transcript.Some? && f.summary.Some? && f.actionItems.Some?)
      || (f.error.Some? && f.error.value != "" && f.summary == None && f.actionItems == None)
  {
  }

  /** What the results component shows after a run: the failure card when
      the run stopped before a transcript, the results otherwise (a failed
      analysis shows the results view, its error only in the toast). */
  lemma ViewAfterRun(audio: Blob, env: Collaborators)
    ensures var f := Run(audio, env).final;
      var v := SelectView(f.isLoading, f.transcript, f.error);
      (f.transcript == None ==> v == FailedView(f.error.value))
      && (f.transcript.Some? ==> v == ResultsView)
  {
    var f := Run(audio, env).final;
    assert f.transcript.Some? ==> f.transcript.value != "";
    assert f.transcript == None ==> f.error.Some? && f.error.value != "";
  }

  /** While a run is in progress the capture component shows only the
      processing spinner, so no recording control can be used. */
  lemma CaptureLockedWhileProcessing(audio: Blob, env: Collaborators, i: nat, status: Status)
    requires 1 <= i < |Run(audio, env).loadingSteps| - 1
    ensures Controls(IsProcessing(Run(audio, env).loadingSteps[i]), status) == [ProcessingSpinner]
  {
    LoadingDiscipline(audio, env);
  }

  /** A log extended by the first two steps, the middle ones and the last
      one is the log extended by all the steps. */
  lemma Reassemble<T>(log: seq<T>, steps: seq<T>)
    requires |steps| >= 3
    ensures log + [steps[0]] + [steps[1]] + steps[2..|steps| - 1] + [steps[|steps| - 1]] == log + steps
  {
    assert steps == [steps[0]] + [steps[1]] + steps[2..|steps| - 1] + [steps[|steps| - 1]];
  }

  // ---------------------------------------------------------------------
  // The page component
  // ---------------------------------------------------------------------

  class HomePage {
    var transcript: Option<string>
    var summary: Option<Summary>
    var actionItems: Option<seq<ActionItem>>
    var isLoading: Loading
    var error: Option<string>
    /** The collaborator calls made so far, in order. */
    ghost var calls: seq<Call>
    /** Every value the loading flags were set to, in order. */
    ghost var loadingLog: seq<Loading>

    function State(): PageState
      reads this
    {
      PageState(transcript, summary, actionItems, isLoading, error)
    }

    constructor ()
      ensures State() == PageState(None, None, None, NotLoading, None)
      ensures calls == [] && loadingLog == []
    {
      transcript, summary, actionItems, isLoading, error := None, None, None, NotLoading, None;
      calls, loadingLog := [], [];
    }

    /** Clears the results, the error and the loading flags. */
    method ResetState()
      modifies this
      ensures State() == PageState(None, None, None, NotLoading, None)
      ensures calls == old(calls) && loadingLog == old(loadingLog) + [NotLoading]
    {
      transcript := None;
      summary := None;
      actionItems := None;
      error := None;
      SetLoading(NotLoading);
    }

    method SetLoading(l: Loading)
      modifies this
      ensures State() == old(State()).(isLoading := l)
      ensures calls == old(calls) && loadingLog == old(loadingLog) + [l]
    {
      isLoading := l;
      loadingLog := loadingLog + [l];
    }

    /** The processing handler: step by step as `Run` describes; a failed
        run also shows a destructive toast carrying the error. */
    method HandleAudioProcessing(audio: Blob, env: Collaborators) returns (toast: Option<Toast>)
      modifies this
      ensures State() == Run(audio, env).final
      ensures toast == if error.Some? then Some(Toast(true, "Error", error.value)) else None
      ensures calls == old(calls) + Run(audio, env).calls
      ensures loadingLog == old(loadingLog) + Run(audio, env).loadingSteps
    {
      ResetState();
      SetLoading(UploadLoading);
      error := None;
      ghost var started := loadingLog;
      var thrown := TryPipeline(audio, env);
      toast := None;
      if thrown.Some? {
        var errorMessage := MessageOr(thrown.value, UnknownError);
        error := Some(errorMessage);
        toast := Some(Toast(true, "Error", errorMessage));
      }
      SetLoading(NotLoading);
      ghost var steps := Run(audio, env).loadingSteps;
      assert steps[0] == NotLoading && steps[1] == UploadLoading && steps[|steps| - 1] == NotLoading by {
        LoadingDiscipline(audio, env);
      }
      Reassemble(old(loadingLog), steps);
    }

    /** The `try` block of the handler, entered with the results cleared
        and the upload flag raised: it makes the calls of `Run`, sets the
        flags `Run` sets between the first two and the last, and leaves the
        state that, with the error set from what it threw and the flags
        cleared, is the final state of `Run`. */
    method TryPipeline(audio: Blob, env: Collaborators) returns (thrown: Option<string>)
      requires transcript == None && summary == None && actionItems == None && error == None
      modifies this
      ensures error == None
      ensures calls == old(calls) + Run(audio, env).calls
      ensures var steps := Run(audio, env).loadingSteps;
        |steps| >= 3 && loadingLog == old(loadingLog) + steps[2..|steps| - 1]
      ensures thrown.Some? ==> summary == None && actionItems == None
      ensures thrown.Some? ==> Run(audio, env).final == ErrorState(transcript, thrown.value)
      ensures thrown.None? ==> Run(audio, env).final == State().(isLoading := NotLoading)
    {
      thrown := None;
      calls := calls + [EncodeCall(audio)];
      var encoded := env.encode(audio);
      if encoded.Failed? {
        return Some(encoded.message);
      }
      var uri := encoded.value;
      calls := calls + [UploadCall(uri)];
      var uploaded := env.upload(uri);
      if uploaded.Failed? {
        return Some(uploaded.message);
      }
      SetLoading(TranscriptionLoading);
      calls := calls + [TranscribeCall(uri)];
      var transcribed := env.transcribe(uri);
      if transcribed.Failed? {
        return Some(transcribed.message);
      }
      var currentTranscript := transcribed.value;
      if currentTranscript == "" {
        return Some(EmptyTranscriptError);
      }
      transcript := Some(currentTranscript);
      SetLoading(AnalysisLoading);
      calls := calls + [SummarizeCall(currentTranscript), ExtractCall(currentTranscript)];
      var s, e := env.summarize(currentTranscript), env.extract(currentTranscript);
      thrown := AnalysisFailure(s, e, env.summarizeRejectsFirst);
      if thrown.None? {
        summary := Some(s.value);
        actionItems := Some(e.value);
      }
    }
  }
}
