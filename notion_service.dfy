/** The page-export service: cuts text into paragraph blocks of at most
    2000 characters, checks the two configuration values before any client
    exists, and maps the API's errors to messages. The environment and the
    API are parameters. */
module NotionService {
  import opened Outcomes
  import opened Text

  /** The most characters one rich-text block may hold. */
  const NotionCharLimit: nat := 2000

  /** A paragraph block with one text run holding `content`. */
  datatype Block = Paragraph(content: string)

  // ---------------------------------------------------------------------
  // Splitting text into blocks
  // ---------------------------------------------------------------------

  /** `line` cut into consecutive pieces of `NotionCharLimit` characters,
      the last one possibly shorter. */
  function Pieces(line: string): seq<string>
    decreases |line|
  {
    if |line| == 0 then []
    else if |line| <= NotionCharLimit then [line]
    else [line[..NotionCharLimit]] + Pieces(line[NotionCharLimit..])
  }

  /** The blocks of one paragraph: none for a blank one (one whose trim is
      empty, see `Text.TrimEmptyIffBlank`), one per piece otherwise. */
  function LineBlocks(line: string): seq<Block> {
    if IsBlank(line) then [] else ToBlocks(Pieces(line))
  }

  function ToBlocks(pieces: seq<string>): (bs: seq<Block>)
    ensures |bs| == |pieces|
    ensures forall i :: 0 <= i < |pieces| ==> bs[i] == Paragraph(pieces[i])
  {
    if |pieces| == 0 then [] else [Paragraph(pieces[0])] + ToBlocks(pieces[1..])
  }

  function Contents(bs: seq<Block>): (cs: seq<string>)
    ensures |cs| == |bs|
    ensures forall i :: 0 <= i < |bs| ==> cs[i] == bs[i].content
  {
    if |bs| == 0 then [] else [bs[0].content] + Contents(bs[1..])
  }

  /** The blocks of each paragraph. */
  function BlocksPerLine(paragraphs: seq<string>): (r: seq<seq<Block>>)
    ensures |r| == |paragraphs|
    ensures forall i :: 0 <= i < |paragraphs| ==> r[i] == LineBlocks(paragraphs[i])
  {
    if |paragraphs| == 0 then [] else [LineBlocks(paragraphs[0])] + BlocksPerLine(paragraphs[1..])
  }

  /** The blocks of the paragraphs, in paragraph order. */
  function ParagraphBlocks(paragraphs: seq<string>): seq<Block> {
    Concat(BlocksPerLine(paragraphs))
  }

  /** The blocks for a text: none for the empty text, otherwise those of
      its newline-separated paragraphs. */
  function NotionBlocks(text: string): seq<Block> {
    if text == "" then [] else ParagraphBlocks(Split(text, '\n'))
  }

  /** Every piece holds between 1 and 2000 characters; all but the last
      hold exactly 2000; laid end to end they give the line back; and there
      are ceil(n / 2000) of them for a line of length n. */
  lemma {:induction false} PiecesProperties(line: string)
    ensures var ps := Pieces(line);
      (forall i :: 0 <= i < |ps| ==> 1 <= |ps[i]| <= NotionCharLimit)
      && (forall i :: 0 <= i < |ps| - 1 ==> |ps[i]| == NotionCharLimit)
      && Concat(ps) == line
      && |ps| == (|line| + NotionCharLimit - 1) / NotionCharLimit
    decreases |line|
  {
    if |line| > NotionCharLimit {
      var rest := line[NotionCharLimit..];
      PiecesProperties(rest);
      assert line == line[..NotionCharLimit] + rest;
      assert Pieces(line)[1..] == Pieces(rest);
    }
  }

  /** The blocks of a list of paragraphs are those of a first part
      followed by those of the rest. */
  lemma {:induction false} ParagraphBlocksAppend(a: seq<string>, b: seq<string>)
    ensures ParagraphBlocks(a + b) == ParagraphBlocks(a) + ParagraphBlocks(b)
    decreases |a|
  {
    BlocksPerLineAppend(a, b);
    ConcatAppend(BlocksPerLine(a), BlocksPerLine(b));
  }

  lemma {:induction false} BlocksPerLineAppend(a: seq<string>, b: seq<string>)
    ensures BlocksPerLine(a + b) == BlocksPerLine(a) + BlocksPerLine(b)
    decreases |a|
  {
    if |a| == 0 {
      assert a + b == b;
    } else {
      assert (a + b)[0] == a[0];
      assert (a + b)[1..] == a[1..] + b;
      BlocksPerLineAppend(a[1..], b);
    }
  }

  /** Every block holds between 1 and 2000 characters, and the blocks'
      contents laid end to end are the non-blank paragraphs laid end to
      end: blank paragraphs contribute nothing and the rest appear whole,
      in order. */
  lemma {:induction false} ParagraphBlocksProperties(paragraphs: seq<string>)
    ensures var bs := ParagraphBlocks(paragraphs);
      (forall i :: 0 <= i < |bs| ==> 1 <= |bs[i].content| <= NotionCharLimit)
      && Concat(Contents(bs)) == Concat(NonBlankLines(paragraphs))
    decreases |paragraphs|
  {
    if |paragraphs| > 0 {
      var p, rest := paragraphs[0], paragraphs[1..];
      ParagraphBlocksProperties(rest);
      var lb, rb := LineBlocks(p), ParagraphBlocks(rest);
      ContentsAppend(lb, rb);
      ConcatAppend(Contents(lb), Contents(rb));
      if !IsBlank(p) {
        PiecesProperties(p);
        assert Contents(lb) == Pieces(p);
        assert NonBlankLines(paragraphs) == [p] + NonBlankLines(rest);
        assert Concat([p] + NonBlankLines(rest)) == p + Concat(NonBlankLines(rest));
      } else {
        assert Contents(lb) == [];
      }
      assert ParagraphBlocks(paragraphs) == lb + rb;
    }
  }

  lemma {:induction false} ContentsAppend(a: seq<Block>, b: seq<Block>)
    ensures Contents(a + b) == Contents(a) + Contents(b)
    decreases |a|
  {
    if |a| == 0 {
      assert a + b == b;
    } else {
      assert (a + b)[1..] == a[1..] + b;
      ContentsAppend(a[1..], b);
    }
  }

  /** The empty text gives no blocks, a blank paragraph gives none
      wherever it stands, and a non-blank one of length n gives
      ceil(n / 2000) blocks. */
  lemma BlankAndNonBlankParagraphs(before: seq<string>, p: string, after: seq<string>)
    ensures NotionBlocks("") == []
    ensures Trim(p) == "" ==> ParagraphBlocks(before + [p] + after) == ParagraphBlocks(before + after)
    ensures Trim(p) != "" ==> |ParagraphBlocks([p])| == (|p| + NotionCharLimit - 1) / NotionCharLimit
  {
    ParagraphBlocksAppend(before + [p], after);
    ParagraphBlocksAppend(before, [p]);
    ParagraphBlocksAppend(before, after);
    TrimEmptyIffBlank(p);
    assert ParagraphBlocks([p]) == LineBlocks(p) + ParagraphBlocks([]);
    PiecesProperties(p);
  }

  /** `textToNotionBlocks`: walks the paragraphs and, within each
      non-blank one, the offsets 0, 2000, 4000, ... below its length,
      pushing one block per piece. */
  method TextToNotionBlocks(text: string) returns (blocks: seq<Block>)
    ensures blocks == NotionBlocks(text)
  {
    blocks := [];
    if text == "" {
      return;
    }
    var paragraphs := Split(text, '\n');
    var k := 0;
    while k < |paragraphs|
      invariant 0 <= k <= |paragraphs|
      invariant blocks == ParagraphBlocks(paragraphs[..k])
    {
      var paragraph := paragraphs[k];
      ParagraphBlocksStep(paragraphs, k);
      var skip := TrimIsEmpty(paragraph);
      if skip {
        k := k + 1;
        continue;
      }
      blocks := PushChunks(blocks, paragraph);
      k := k + 1;
    }
    assert paragraphs[..k] == paragraphs;
  }

  /** The inner loop of `textToNotionBlocks`: pushes one block for each
      slice of `paragraph` starting at 0, 2000, 4000, ... below its
      length. */
  method PushChunks(blocks: seq<Block>, paragraph: string) returns (pushed: seq<Block>)
    ensures pushed == blocks + ToBlocks(Pieces(paragraph))
  {
    pushed := blocks;
    var i := 0;
    ghost var chunks: seq<string> := [];
    while i < |paragraph|
      invariant Pieces(paragraph) == chunks + PiecesFrom(paragraph, i)
      invariant pushed == blocks + ToBlocks(chunks)
      decreases |paragraph| - i
    {
      var end := if i + NotionCharLimit <= |paragraph| then i + NotionCharLimit else |paragraph|;
      var chunk := paragraph[i..end];
      assert Pieces(paragraph) == (chunks + [chunk]) + PiecesFrom(paragraph, i + NotionCharLimit) by {
        PiecesStep(paragraph, i);
      }
      assert pushed + [Paragraph(chunk)] == blocks + ToBlocks(chunks + [chunk]) by {
        ToBlocksAppend(chunks, [chunk]);
      }
      pushed := pushed + [Paragraph(chunk)];
      chunks := chunks + [chunk];
      i := i + NotionCharLimit;
    }
    assert chunks + PiecesFrom(paragraph, i) == chunks;
  }

  lemma ToBlocksAppend(a: seq<string>, b: seq<string>)
    ensures ToBlocks(a + b) == ToBlocks(a) + ToBlocks(b)
  {
    var l, r := ToBlocks(a + b), ToBlocks(a) + ToBlocks(b);
    forall i | 0 <= i < |l|
      ensures l[i] == r[i]
    {
      if i < |a| {
        assert (a + b)[i] == a[i];
      } else {
        assert (a + b)[i] == b[i - |a|];
      }
    }
  }

  /** One step of the outer loop: the next paragraph's blocks follow those
      of the paragraphs before it. */
  lemma ParagraphBlocksStep(paragraphs: seq<string>, k: nat)
    requires k < |paragraphs|
    ensures ParagraphBlocks(paragraphs[..k + 1]) == ParagraphBlocks(paragraphs[..k]) + LineBlocks(paragraphs[k])
  {
    ParagraphBlocksAppend(paragraphs[..k], [paragraphs[k]]);
    assert paragraphs[..k + 1] == paragraphs[..k] + [paragraphs[k]];
    assert ParagraphBlocks([paragraphs[k]]) == LineBlocks(paragraphs[k]) + ParagraphBlocks([]);
  }

  /** The pieces of `line` from offset `i` on; none past its end. */
  function PiecesFrom(line: string, i: nat): seq<string> {
    if i < |line| then Pieces(line[i..]) else []
  }

  /** One step of the inner loop: the pieces from offset `i` are the piece
      at `i` followed by the pieces from `i + 2000`. */
  lemma PiecesStep(line: string, i: nat)
    requires i < |line|
    ensures var end := if i + NotionCharLimit <= |line| then i + NotionCharLimit else |line|;
      PiecesFrom(line, i) == [line[i..end]] + PiecesFrom(line, i + NotionCharLimit)
  {
    var end := if i + NotionCharLimit <= |line| then i + NotionCharLimit else |line|;
    var s := line[i..];
    if |s| > NotionCharLimit {
      assert s[NotionCharLimit..] == line[end..];
      assert s[..NotionCharLimit] == line[i..end];
    } else {
      assert end == |line| && s == line[i..end];
    }
  }

  // ---------------------------------------------------------------------
  // Creating the page
  // ---------------------------------------------------------------------

  /** The two configuration values read from the environment. */
  datatype Config = Config(apiKey: Option<string>, pageId: Option<string>)

  /** What is sent to create the page. */
  datatype PageRequest = PageRequest(auth: string, parentPageId: string, title: string, children: seq<Block>)

  datatype CreatedPage = CreatedPage(pageId: string, url: string)

  /** An API error: the message of its response body, if any, and its own
      message. */
  datatype ApiError = ApiError(bodyMessage: Option<string>, message: string)

  datatype ApiReply = Created(page: CreatedPage) | Rejected(err: ApiError)

  const ApiKeyPlaceholder: string := "YOUR_NOTION_API_KEY"
  const PageIdPlaceholder: string := "YOUR_NOTION_PAGE_ID"
  const MissingApiKeyError: string :=
    "Notion API Key is missing. Please add your Internal Integration Token as `NOTION_API_KEY` to your .env file."
  const MissingPageIdError: string :=
    "Notion Page ID is missing. Please add the ID of the page you want to export to as `NOTION_PAGE_ID` in your .env file."
  const PageNotFoundMarker: string := "Could not find page with ID"
  const FailurePrefix: string := "Failed to create Notion page: "
  const ParentPageError: string :=
    FailurePrefix + "Could not find the parent page. Please ensure the 'NOTION_PAGE_ID' in your .env file is correct and that you have shared that page with your Notion integration."

  /** A configuration value counts as set when present, non-empty and not
      the placeholder. */
  predicate IsConfigured(v: Option<string>, placeholder: string) {
    Truthy(v) && v.value != placeholder
  }

  /** The message an API error is reported with: the body's message, or
      else the error's own; a missing parent page gets its own message. */
  function ApiErrorMessage(e: ApiError): (m: string)
    ensures StartsWith(m, FailurePrefix)
    ensures var raw := if Truthy(e.bodyMessage) then e.bodyMessage.value else e.message;
      (Contains(raw, PageNotFoundMarker) ==> m == ParentPageError)
      && (!Contains(raw, PageNotFoundMarker) ==> m == FailurePrefix + raw)
  {
    var raw := if Truthy(e.bodyMessage) then e.bodyMessage.value else e.message;
    if Contains(raw, PageNotFoundMarker) then ParentPageError else FailurePrefix + raw
  }

  /** `createNotionPage`: a missing or placeholder API key, then a missing
      or placeholder page id, is refused with its own message before any
      request exists; otherwise one request carrying the content's blocks
      goes to `api` and its reply becomes the result. */
  method CreateNotionPage(title: string, content: string, config: Config, api: PageRequest -> ApiReply)
    returns (request: Option<PageRequest>, result: Result<CreatedPage>)
    ensures !IsConfigured(config.apiKey, ApiKeyPlaceholder) ==>
      request == None && result == Failed(MissingApiKeyError)
    ensures IsConfigured(config.apiKey, ApiKeyPlaceholder) && !IsConfigured(config.pageId, PageIdPlaceholder) ==>
      request == None && result == Failed(MissingPageIdError)
    ensures IsConfigured(config.apiKey, ApiKeyPlaceholder) && IsConfigured(config.pageId, PageIdPlaceholder) ==>
      request == Some(PageRequest(config.apiKey.value, config.pageId.value, title, NotionBlocks(content)))
      && result == match api(request.value)
                   case Created(p) => Ok(p)
                   case Rejected(e) => Failed(ApiErrorMessage(e))
  {
    if !IsConfigured(config.apiKey, ApiKeyPlaceholder) {
      return None, Failed(MissingApiKeyError);
    }
    if !IsConfigured(config.pageId, PageIdPlaceholder) {
      return None, Failed(MissingPageIdError);
    }
    var children := TextToNotionBlocks(content);
    var req := PageRequest(config.apiKey.value, config.pageId.value, title, children);
    request := Some(req);
    match api(req)
    case Created(p) =>
      result := Ok(p);
    case Rejected(e) =>
      result := Failed(ApiErrorMessage(e));
  }

  /** A message mentioning the missing page anywhere is reported as the
      parent-page error. */
  lemma PageNotFoundAnywhere(before: string, after: string, body: Option<string>)
    ensures ApiErrorMessage(ApiError(body, before + PageNotFoundMarker + after)) == ParentPageError
      || Truthy(body)
    ensures ApiErrorMessage(ApiError(Some(before + PageNotFoundMarker + after), "")) == ParentPageError
  {
    ContainsInfix(before, PageNotFoundMarker, after);
  }
}
