/** The results component: turns the transcript, the summary and the action
    items into what is shown and copied, picks the view for the loading and
    error state, and runs the export to one of the two document services
    while keeping one in-flight flag per service. */
module MeetingResults {
  import opened Outcomes
  import opened Text

  /** An extracted action item; owner and deadline may be absent. */
  datatype ActionItem = ActionItem(task: string, owner: Option<string>, deadline: Option<string>)

  /** The summarizer's output. */
  datatype Summary = Summary(title: string, summary: string)

  /** The three loading flags of the page. */
  datatype Loading = Loading(transcription: bool, analysis: bool, upload: bool)

  /** `field || fallback` for an optional string field. */
  function FieldOr(field: Option<string>, fallback: string): string {
    if Truthy(field) then field.value else fallback
  }

  // ---------------------------------------------------------------------
  // Action items as text
  // ---------------------------------------------------------------------

  /** One action item as a line of the copied text. */
  function FormatActionItem(item: ActionItem): string {
    "- " + item.task + " (Owner: " + FieldOr(item.owner, "Unassigned")
      + ", Deadline: " + FieldOr(item.deadline, "None") + ")"
  }

  /** The line of every item, in input order. */
  function ActionItemLines(items: seq<ActionItem>): (lines: seq<string>)
    ensures |lines| == |items|
    ensures forall i :: 0 <= i < |items| ==> lines[i] == FormatActionItem(items[i])
  {
    if |items| == 0 then [] else [FormatActionItem(items[0])] + ActionItemLines(items[1..])
  }

  /** The copied text of the action items: their lines joined by newlines. */
  function FormatActionItemsForCopy(items: seq<ActionItem>): string {
    Join(ActionItemLines(items), '\n')
  }

  /** No items give the empty text; otherwise splitting the text on
      newlines gives back one line per item, in order, as long as no field
      of an item contains a newline. */
  lemma ActionItemsCopyLines(items: seq<ActionItem>)
    requires forall i :: 0 <= i < |items| ==>
      '\n' !in items[i].task && (items[i].owner.Some? ==> '\n' !in items[i].owner.value)
      && (items[i].deadline.Some? ==> '\n' !in items[i].deadline.value)
    ensures items == [] ==> FormatActionItemsForCopy(items) == ""
    ensures items != [] ==>
      Split(FormatActionItemsForCopy(items), '\n') == ActionItemLines(items)
  {
    var lines := ActionItemLines(items);
    forall i | 0 <= i < |lines| ensures '\n' !in lines[i] {
      ItemLineHasNoNewline(items[i]);
    }
    if items != [] {
      SplitJoin(lines, '\n');
    }
  }

  /** An item whose fields hold no newline gives a line without one. */
  lemma ItemLineHasNoNewline(item: ActionItem)
    requires '\n' !in item.task
    requires item.owner.Some? ==> '\n' !in item.owner.value
    requires item.deadline.Some? ==> '\n' !in item.deadline.value
    ensures '\n' !in FormatActionItem(item)
  {
    var o, d := FieldOr(item.owner, "Unassigned"), FieldOr(item.deadline, "None");
    assert '\n' !in o && '\n' !in d;
    var s1 := "- " + item.task;
    assert '\n' !in s1;
    var s2 := s1 + " (Owner: " + o;
    assert '\n' !in s2;
    var s3 := s2 + ", Deadline: " + d;
    assert '\n' !in s3;
    assert FormatActionItem(item) == s3 + ")";
  }

  /** A non-empty item list gives text starting with "- ", so it is never
      the text "None". */
  lemma {:induction false} ActionItemsTextStart(items: seq<ActionItem>)
    requires items != []
    ensures StartsWith(FormatActionItemsForCopy(items), "- ")
  {
    var lines := ActionItemLines(items);
    JoinStartsWithFirst(lines, '\n');
    assert lines[0][..2] == "- ";
  }

  /** A join starts with its first piece. */
  lemma JoinStartsWithFirst(parts: seq<string>, sep: char)
    requires |parts| >= 1
    ensures StartsWith(Join(parts, sep), parts[0])
  {
    if |parts| > 1 {
      assert Join(parts, sep) == parts[0] + ([sep] + Join(parts[1..], sep));
    }
  }

  // ---------------------------------------------------------------------
  // Transcript entries
  // ---------------------------------------------------------------------

  /** A rendered transcript line: a speaker label with its text, or a
      plain line. */
  datatype Entry = SpeakerLine(speaker: string, text: string) | PlainLine(line: string)

  /** A line starting with "Speaker" is cut at its first colon: the part
      before is the speaker, the rest, later colons included, the text. */
  function EntryOf(line: string): Entry {
    if StartsWith(line, "Speaker") then
      var parts := Split(line, ':');
      SpeakerLine(parts[0], Join(parts[1..], ':'))
    else PlainLine(line)
  }

  /** The speaker label holds no colon; when the line has a colon, speaker,
      colon and text give the line back, and otherwise the whole line is
      the speaker with empty text. Other lines stay whole. */
  lemma EntryOfParts(line: string)
    ensures !StartsWith(line, "Speaker") ==> EntryOf(line) == PlainLine(line)
    ensures StartsWith(line, "Speaker") ==>
      var e := EntryOf(line);
      e.SpeakerLine? && ':' !in e.speaker
      && (':' in line ==> e.speaker + ":" + e.text == line)
      && (':' !in line ==> e.speaker == line && e.text == "")
  {
    if StartsWith(line, "Speaker") {
      var parts := Split(line, ':');
      SplitPiecesFree(line, ':');
      JoinSplit(line, ':');
      if ':' in line {
        SplitWithSep(line, ':');
        assert Join(parts, ':') == parts[0] + [':'] + Join(parts[1..], ':');
      } else {
        SplitWithoutSep(line, ':');
      }
    }
  }

  /** The entry of every line, in order. */
  function Entries(lines: seq<string>): (es: seq<Entry>)
    ensures |es| == |lines|
    ensures forall i :: 0 <= i < |lines| ==> es[i] == EntryOf(lines[i])
  {
    if |lines| == 0 then [] else [EntryOf(lines[0])] + Entries(lines[1..])
  }

  /** Nothing for a missing or empty transcript; otherwise one entry per
      non-blank line, in order. */
  function FormatTranscript(transcript: Option<string>): (r: Option<seq<Entry>>)
    ensures r.None? <==> !Truthy(transcript)
    ensures r.Some? ==> |r.value| <= |Split(transcript.value, '\n')|
  {
    if !Truthy(transcript) then None
    else Some(Entries(NonBlankLines(Split(transcript.value, '\n'))))
  }

  /** The two-speaker transcript gives two speaker entries in order. */
  lemma TwoSpeakerTranscript()
    ensures FormatTranscript(Some("Speaker 1: Hello\nSpeaker 2: Hi"))
      == Some([SpeakerLine("Speaker 1", " Hello"), SpeakerLine("Speaker 2", " Hi")])
  {
    assert "Speaker 1: Hello\nSpeaker 2: Hi" == "Speaker 1" + ":" + " Hello" + "\n" + "Speaker 2" + ":" + " Hi";
    TwoSpeakerLines("Speaker 1", " Hello", "Speaker 2", " Hi");
  }

  /** Two speaker lines, each with one colon, give their two entries in
      order. */
  lemma TwoSpeakerLines(s1: string, x1: string, s2: string, x2: string)
    requires StartsWith(s1, "Speaker") && ':' !in s1 && ':' !in x1 && '\n' !in s1 && '\n' !in x1
    requires StartsWith(s2, "Speaker") && ':' !in s2 && ':' !in x2 && '\n' !in s2 && '\n' !in x2
    ensures FormatTranscript(Some(s1 + ":" + x1 + "\n" + s2 + ":" + x2))
      == Some([SpeakerLine(s1, x1), SpeakerLine(s2, x2)])
  {
    var a, b := s1 + ":" + x1, s2 + ":" + x2;
    assert s1 + ":" + x1 + "\n" + s2 + ":" + x2 == a + "\n" + b;
    SplitTwoLines(a, b);
    SpeakerEntry(s1, x1);
    SpeakerEntry(s2, x2);
    assert a[0] == 'S' && b[0] == 'S';
    KeepsTwoLines(a, b);
    assert Entries([a, b]) == [EntryOf(a), EntryOf(b)];
  }

  /** Two lines starting with a non-space character are both kept. */
  lemma KeepsTwoLines(a: string, b: string)
    requires |a| > 0 && !IsWhitespace(a[0]) && |b| > 0 && !IsWhitespace(b[0])
    ensures NonBlankLines([a, b]) == [a, b]
  {
    assert [a, b][1..] == [b];
  }

  /** Two newline-free lines joined by a newline split back into both. */
  lemma SplitTwoLines(a: string, b: string)
    requires '\n' !in a && '\n' !in b
    ensures Split(a + "\n" + b, '\n') == [a, b]
  {
    SplitAtFirstSep(a, '\n', b);
    SplitWithoutSep(b, '\n');
  }

  /** A "Speaker" line with one colon becomes the speaker and the text. */
  lemma SpeakerEntry(speaker: string, text: string)
    requires StartsWith(speaker, "Speaker") && ':' !in speaker && ':' !in text
    ensures EntryOf(speaker + ":" + text) == SpeakerLine(speaker, text)
  {
    var line := speaker + ":" + text;
    assert line[..7] == speaker[..7];
    SplitAtFirstSep(speaker, ':', text);
    SplitWithoutSep(text, ':');
  }

  // ---------------------------------------------------------------------
  // View selection
  // ---------------------------------------------------------------------

  datatype View = UploadingView | TranscribingView | FailedView(message: string) | NoView | ResultsView

  /** The view for the current state, by strict priority: uploading,
      transcribing, an error without a transcript, nothing without a
      transcript, then the results. */
  function SelectView(loading: Loading, transcript: Option<string>, error: Option<string>): (v: View)
    ensures loading.upload ==> v == UploadingView
    ensures v == TranscribingView <==> !loading.upload && loading.transcription
    ensures v.FailedView? <==>
      !loading.upload && !loading.transcription && Truthy(error) && !Truthy(transcript)
    ensures v.FailedView? ==> v.message == error.value && v.message != ""
    ensures v == NoView <==>
      !loading.upload && !loading.transcription && !Truthy(error) && !Truthy(transcript)
    ensures v == ResultsView <==> !loading.upload && !loading.transcription && Truthy(transcript)
  {
    if loading.upload then UploadingView
    else if loading.transcription then TranscribingView
    else if Truthy(error) && !Truthy(transcript) then FailedView(error.value)
    else if !Truthy(transcript) then NoView
    else ResultsView
  }

  // ---------------------------------------------------------------------
  // Export
  // ---------------------------------------------------------------------

  datatype Service = Notion | Google {
    /** The name used in messages. */
    function Name(): string {
      match this
      case Notion => "notion"
      case Google => "google"
    }
  }

  /** The per-service in-flight flags. */
  datatype ExportFlags = ExportFlags(notion: bool, google: bool) {
    function Of(s: Service): bool {
      match s
      case Notion => notion
      case Google => google
    }

    /** The flags with the one of `s` set to `v`. */
    function With(s: Service, v: bool): (f: ExportFlags)
      ensures f.Of(s) == v
      ensures forall t :: t != s ==> f.Of(t) == Of(t)
    {
      match s
      case Notion => this.(notion := v)
      case Google => this.(google := v)
    }
  }

  /** Both export buttons share this condition. */
  predicate ExportButtonDisabled(analysisLoading: bool, flags: ExportFlags) {
    analysisLoading || flags.google || flags.notion
  }

  /** An enabled button finds no export in flight; the export it starts
      sets only its own flag, which disables both buttons for as long as
      it runs. */
  lemma ExportOneAtATime(analysisLoading: bool, flags: ExportFlags, s: Service)
    requires !ExportButtonDisabled(analysisLoading, flags)
    ensures !flags.Of(Notion) && !flags.Of(Google)
    ensures forall t :: flags.With(s, true).Of(t) <==> t == s
    ensures ExportButtonDisabled(false, flags.With(s, true))
  {
  }

  /** A summary can be exported only with a non-empty title and body. */
  predicate CanExport(summary: Option<Summary>) {
    summary.Some? && summary.value.summary != "" && summary.value.title != ""
  }

  const ActionItemsHeading: string := "\n\nAction Items:\n"

  /** The exported content: the summary, a heading, then the formatted
      items, or "None" when there are no items at all. */
  function ExportContent(summary: Summary, items: Option<seq<ActionItem>>): string {
    summary.summary + ActionItemsHeading
      + (if items.Some? then FormatActionItemsForCopy(items.value) else "None")
  }

  /** The content starts with the summary and the heading; what follows is
      "None" exactly when the items are absent, is empty for an empty list,
      and is the copied text of the items otherwise. */
  lemma ExportContentTail(summary: Summary, items: Option<seq<ActionItem>>)
    ensures var c := ExportContent(summary, items);
      var head := summary.summary + ActionItemsHeading;
      StartsWith(c, head)
      && (c[|head|..] == "None" <==> items.None?)
      && (items == Some([]) ==> c == head)
      && (items.Some? ==> c[|head|..] == FormatActionItemsForCopy(items.value))
  {
    var head := summary.summary + ActionItemsHeading;
    var c := ExportContent(summary, items);
    if items.Some? {
      assert c == head + FormatActionItemsForCopy(items.value);
      assert c[|head|..] == FormatActionItemsForCopy(items.value);
      if items.value != [] {
        ActionItemsTextStart(items.value);
        assert FormatActionItemsForCopy(items.value)[0] == '-';
      }
    } else {
      assert c == head + "None";
    }
  }

  /** What is handed to a document service. */
  datatype ExportRequest = ExportRequest(service: Service, title: string, content: string)

  const NoSummaryToast: Toast := Toast(true, "Error", "No summary available to export.")

  /** The toast after an export call: a link on success, the error message
      (or a per-service fallback) on failure. */
  function ExportToast(s: Service, reply: Result<string>): (t: Toast)
    ensures t.destructive <==> reply.Failed?
    ensures reply.Ok? ==> t.description == reply.value
    ensures reply.Failed? ==> t.description != ""
    ensures reply.Failed? && reply.message != "" ==> t.description == reply.message
    ensures reply.Failed? && reply.message == "" ==> t.description == "Failed to export to " + s.Name() + "."
    ensures t.title == if reply.Ok? then "Export Successful!" else "Export Failed"
  {
    match reply
    case Ok(url) => Toast(false, "Export Successful!", url)
    case Failed(m) => Toast(true, "Export Failed", MessageOr(m, "Failed to export to " + s.Name() + "."))
  }

  /** The in-flight state of the results component. */
  class ExportControls {
    var isExporting: ExportFlags
    /** Every value the flags were set to, in order. */
    ghost var flagHistory: seq<ExportFlags>

    constructor ()
      ensures isExporting == ExportFlags(false, false) && flagHistory == []
    {
      isExporting := ExportFlags(false, false);
      flagHistory := [];
    }

    /** Exports the summary and the action items to `s`. Without a title or
        a summary body nothing is called and no flag changes. Otherwise the
        flag of `s` is on while the call runs (`reply` is its outcome) and
        off afterwards, whatever the outcome; the other flag is untouched. */
    method HandleExport(s: Service, summary: Option<Summary>, actionItems: Option<seq<ActionItem>>,
                        reply: Result<string>)
      returns (request: Option<ExportRequest>, toast: Toast)
      modifies this
      ensures !CanExport(summary) ==>
        request == None && toast == NoSummaryToast
        && isExporting == old(isExporting) && flagHistory == old(flagHistory)
      ensures CanExport(summary) ==>
        request == Some(ExportRequest(s, summary.value.title, ExportContent(summary.value, actionItems)))
        && toast == ExportToast(s, reply)
        && flagHistory == old(flagHistory) + [old(isExporting).With(s, true), old(isExporting).With(s, false)]
        && isExporting == old(isExporting).With(s, false)
    {
      if !CanExport(summary) {
        return None, NoSummaryToast;
      }
      isExporting := isExporting.With(s, true);
      flagHistory := flagHistory + [isExporting];
      var content := ExportContent(summary.value, actionItems);
      request := Some(ExportRequest(s, summary.value.title, content));
      toast := ExportToast(s, reply);
      isExporting := isExporting.With(s, false);
      flagHistory := flagHistory + [isExporting];
      assert isExporting == old(isExporting).With(s, false);
    }
  }
}
