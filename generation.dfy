/**
 * Quiz generation (src/anthropic-api.ts): the prompt built from a webpage, the
 * check on the model's reply, the removal of a Markdown code fence around the
 * reply text, and the insert record assembled from the parsed JSON. The language
 * model and `JSON.parse` are oracles passed in as functions.
 */
module Generation {
  import opened Base
  import opened Schema

  /** The prompt text before the title, ending in the `Title: ` label. */
  const PromptHead: string :=
    "Create a BuzzFeed-style multiple-choice " +
    "quiz with exactly 10 questions based " +
    "on the following webpage content:\n" +
    "\n" +
    "Title: "

  /** The prompt text between the title and the page text, ending in the `Content: ` label. */
  const PromptMiddle: string := "\nContent: "

  /** The instructions and the JSON format that follow the page text. */
  const PromptTail: string :=
    "\n\nYour quiz should be engaging, fun, and test knowledge about the content. Each question should have 4 multiple choice options (A, B, C, D) with exactly one correct answer.\n\nReturn your response as valid JSON in this exact format:\n{\n  \"title\": \"Quiz title here\"\n  \"items\": [\n    {\n      \"stem\": \"Question text here?\",\n      \"options\": [\"Option A\", \"Option B\", \"Option C\", \"Option D\"],\n      \"correctOption\": 0,\n      \"sourceSnippet\": \"Relevant snippet from the source content that supports this question\"\n    }\n  ]\n}\n\nImportant requirements:\n- Exactly 10 questions in the quizItems array\n- correctOption should be the index (0-3) of the correct answer\n- Each question should be based on actual content from the webpage\n- Include a relevant sourceSnippet for each question, copied exactly from the webpage\n- Make the quiz title catchy and BuzzFeed-style\n- Return ONLY the JSON, no other text"

  /**
   * A template filled with a title and a page text: each is embedded verbatim right
   * after the piece before it, and the pieces keep their places around them.
   */
  function FillTemplate(head: string, title: string, middle: string, text: string, tail: string): (p: string)
    ensures |p| == |head| + |title| + |middle| + |text| + |tail|
    ensures p[..|head|] == head
    ensures p[|head|..|head| + |title|] == title
    ensures p[|head| + |title|..|head| + |title| + |middle|] == middle
    ensures p[|head| + |title| + |middle|..|p| - |tail|] == text
    ensures p[|p| - |tail|..] == tail
  {
    head + title + middle + text + tail
  }

  /** The prompt for a page: only its title and its text are used. */
  function Prompt(title: string, text: string): string {
    FillTemplate(PromptHead, title, PromptMiddle, text, PromptTail)
  }

  // ---------------------------------------------------------------------------
  // Code-fence removal: the global replace of /^```(?:json)?\n?|\n?```$/ .
  // Without the multiline flag `^` matches only at position 0 and `$` only at the
  // end, so the replace removes at most one leading fence and then, from what is
  // left after it, at most one trailing fence.
  // ---------------------------------------------------------------------------

  /** Three backticks start at position k. */
  predicate FenceAt(s: string, k: nat) {
    k + 3 <= |s| && s[k] == '`' && s[k + 1] == '`' && s[k + 2] == '`'
  }

  /** The language tag `json` starts at position k. */
  predicate JsonTagAt(s: string, k: nat) {
    k + 4 <= |s| && s[k] == 'j' && s[k + 1] == 's' && s[k + 2] == 'o' && s[k + 3] == 'n'
  }

  /** The length of the match of ^```(?:json)?\n? at the start (both optional parts greedy), or 0. */
  function LeadingFenceLength(s: string): (n: nat)
    ensures n <= |s| && n <= 8
    ensures n == 0 <==> !FenceAt(s, 0)
    // The cut is exactly three backticks, then `json` whenever it follows, then a newline whenever it follows.
    ensures n == 0 || n == 3 || n == 4 || n == 7 || n == 8
    ensures n >= 7 <==> FenceAt(s, 0) && JsonTagAt(s, 3)
    ensures n == 4 || n == 8 ==> s[n - 1] == '\n'
    ensures n == 3 || n == 7 ==> n == |s| || s[n] != '\n'
  {
    if !FenceAt(s, 0) then 0
    else
      var t := if JsonTagAt(s, 3) then 7 else 3;
      if t < |s| && s[t] == '\n' then t + 1 else t
  }

  /** The length of the match of \n?```$ at the end, or 0. */
  function TrailingFenceLength(s: string): (n: nat)
    ensures n <= |s| && n <= 4
    ensures n == 0 <==> !(|s| >= 3 && FenceAt(s, |s| - 3))
    // The cut is exactly three backticks, with the newline before them whenever there is one.
    ensures n == 0 || n == 3 || n == 4
    ensures n == 4 <==> |s| >= 4 && FenceAt(s, |s| - 3) && s[|s| - 4] == '\n'
  {
    if |s| < 3 || !FenceAt(s, |s| - 3) then 0
    else if |s| >= 4 && s[|s| - 4] == '\n' then 4
    else 3
  }

  function DropLeadingFence(s: string): string {
    s[LeadingFenceLength(s)..]
  }

  function DropTrailingFence(s: string): string {
    s[..|s| - TrailingFenceLength(s)]
  }

  /** The reply text with a surrounding code fence removed. */
  function StripCodeFence(s: string): string {
    DropTrailingFence(DropLeadingFence(s))
  }

  /** Text that neither starts nor ends with three backticks comes back unchanged. */
  lemma StripLeavesUnfencedText(s: string)
    requires !FenceAt(s, 0)
    requires !(|s| >= 3 && FenceAt(s, |s| - 3))
    ensures StripCodeFence(s) == s
  {
  }

  /** Wrapping any text in a ```json fence or a bare ``` fence and stripping gives it back exactly. */
  lemma StripRoundTrip(body: string)
    ensures StripCodeFence("```json\n" + body + "\n```") == body
    ensures StripCodeFence("```\n" + body + "\n```") == body
  {
    ClosingFence(body);
    var r := body + "\n```";
    OpeningFences(r);
    var tagged := "```json\n" + r;
    assert "```json\n" + body + "\n```" == tagged;
    assert DropLeadingFence(tagged) == tagged[8..] == r;
    var bare := "```\n" + r;
    assert "```\n" + body + "\n```" == bare;
    assert DropLeadingFence(bare) == bare[4..] == r;
  }

  /** A text closed by a newline and a fence loses exactly those four characters at the end. */
  lemma ClosingFence(body: string)
    ensures TrailingFenceLength(body + "\n```") == 4
    ensures DropTrailingFence(body + "\n```") == body
  {
    var r := body + "\n```";
    assert r[|r| - 4] == '\n' && FenceAt(r, |r| - 3);
    assert r[..|r| - 4] == body;
  }

  /** The two opening forms a reply is usually wrapped in, and how much of each is cut. */
  lemma OpeningFences(r: string)
    ensures LeadingFenceLength("```json\n" + r) == 8
    ensures LeadingFenceLength("```\n" + r) == 4
  {
    var tagged := "```json\n" + r;
    assert FenceAt(tagged, 0) && JsonTagAt(tagged, 3) && tagged[7] == '\n';
    var bare := "```\n" + r;
    assert FenceAt(bare, 0) && !JsonTagAt(bare, 3) && bare[3] == '\n';
  }

  /**
   * Only the two ends are touched: the result is the contiguous slice s[i..j] of the
   * input; a non-empty cut at the front starts with three backticks and is at most
   * eight characters long, and a non-empty cut at the back ends with three backticks
   * and is at most four long.
   */
  lemma StripRemovesOnlyTheEnds(s: string)
    ensures var i := LeadingFenceLength(s);
            var j := |s| - TrailingFenceLength(s[i..]);
            i <= j && StripCodeFence(s) == s[i..j] &&
            i <= 8 && (i > 0 ==> FenceAt(s, 0)) &&
            |s| - j <= 4 && (j < |s| ==> FenceAt(s, |s| - 3))
  {
    var i := LeadingFenceLength(s);
    var rest := s[i..];
    var t := TrailingFenceLength(rest);
    assert StripCodeFence(s) == rest[..|rest| - t];
    assert rest[..|rest| - t] == s[i..|s| - t];
    if t > 0 {
      assert FenceAt(rest, |rest| - 3);
      assert rest[|rest| - 3] == s[|s| - 3] && rest[|rest| - 2] == s[|s| - 2] && rest[|rest| - 1] == s[|s| - 1];
    }
  }

  /** The fence stripper as a concrete check: a reply fenced the way models usually fence JSON. */
  lemma StripExample()
    ensures StripCodeFence("```json\n{\"a\":1}\n```") == "{\"a\":1}"
    ensures StripCodeFence("````") == "`"
  {
    StripRoundTrip("{\"a\":1}");
    assert "```json\n{\"a\":1}\n```" == "```json\n" + "{\"a\":1}" + "\n```";
    var s := "````";
    assert FenceAt(s, 0) && !JsonTagAt(s, 3) && s[3] != '\n';
    assert DropLeadingFence(s) == "`";
  }

  // ---------------------------------------------------------------------------
  // The reply and the insert record.
  // ---------------------------------------------------------------------------

  /** One content block of the model's reply; only text blocks carry usable text. */
  datatype ContentBlock = TextBlock(text: string) | OtherBlock(kind: string)

  /** The outcome of the API call: a transport failure or a message with its content blocks. */
  datatype ApiReply = ApiFailure | ApiMessage(content: seq<ContentBlock>)

  /**
   * The keys of the parsed reply that the quiz insert can use. A key missing from
   * the object is Absent; a parsed value that is not an object spreads nothing, which
   * is the all-Absent value.
   */
  datatype ParsedQuiz = ParsedQuiz(
    id: Field<Id>, title: Field<string>, slug: Field<string>, items: Field<seq<QuizItem>>,
    deletedItems: Field<seq<QuizItem>>, sourceId: Field<Id>, parentId: Field<Id>,
    createdAt: Field<Timestamp>, publishedAt: Field<Timestamp>)

  /** Why generation produced no record; the caller turns each into the same generic failure. */
  datatype GenerationError = ApiCallFailed | EmptyContent | UnexpectedResponse | InvalidJson

  /**
   * The record `{ sourceId: webpage.id, ...parsed }`: keys of the parsed object win,
   * `sourceId` included, and nothing is checked.
   */
  function InsertRecord(webpage: Webpage, parsed: ParsedQuiz): (r: QuizInsert)
    ensures parsed.sourceId.Absent? ==> r.sourceId == Present(webpage.id)
    ensures !parsed.sourceId.Absent? ==> r.sourceId == parsed.sourceId
    ensures r.id == parsed.id && r.title == parsed.title && r.slug == parsed.slug
    ensures r.items == parsed.items && r.deletedItems == parsed.deletedItems
    ensures r.parentId == parsed.parentId && r.createdAt == parsed.createdAt && r.publishedAt == parsed.publishedAt
  {
    QuizInsert(parsed.id, parsed.title, parsed.slug, parsed.items, parsed.deletedItems,
               if parsed.sourceId.Absent? then Present(webpage.id) else parsed.sourceId,
               parsed.parentId, parsed.createdAt, parsed.publishedAt)
  }

  /** `createQuiz(webpage)`: one call to the model, then strip, parse and assemble. */
  function CreateQuiz(webpage: Webpage, generate: string -> ApiReply, parse: string -> Option<ParsedQuiz>)
    : (r: Result<QuizInsert, GenerationError>)
  {
    match generate(Prompt(webpage.title, webpage.text))
    case ApiFailure => Err(ApiCallFailed)
    case ApiMessage(content) =>
      if |content| == 0 then Err(EmptyContent)
      else if !content[0].TextBlock? then Err(UnexpectedResponse)
      else
        match parse(StripCodeFence(content[0].text))
        case None => Err(InvalidJson)
        case Some(parsed) => Ok(InsertRecord(webpage, parsed))
  }

  /** The reply's first text block, fence stripped, is what gets parsed, and its fields land in the record. */
  lemma CreateQuizSucceeds(webpage: Webpage, generate: string -> ApiReply, parse: string -> Option<ParsedQuiz>, text: string, parsed: ParsedQuiz)
    requires generate(Prompt(webpage.title, webpage.text)).ApiMessage?
    requires var c := generate(Prompt(webpage.title, webpage.text)).content; |c| > 0 && c[0] == TextBlock(text)
    requires parse(StripCodeFence(text)) == Some(parsed)
    ensures var r := CreateQuiz(webpage, generate, parse);
            r.Ok? && r.value.items == parsed.items && r.value.title == parsed.title && r.value.slug == parsed.slug &&
            (parsed.sourceId.Absent? ==> r.value.sourceId == Present(webpage.id))
  {
  }

  /** A first content block that is not text is rejected whatever the rest of the reply holds. */
  lemma CreateQuizRejectsNonText(webpage: Webpage, generate: string -> ApiReply, parse: string -> Option<ParsedQuiz>)
    requires generate(Prompt(webpage.title, webpage.text)).ApiMessage?
    requires var c := generate(Prompt(webpage.title, webpage.text)).content; |c| > 0 && c[0].OtherBlock?
    ensures CreateQuiz(webpage, generate, parse) == Err(UnexpectedResponse)
  {
  }

  /** Two pages with the same id, title and text get the same outcome: no other field reaches the model. */
  lemma CreateQuizReadsOnlyTitleAndText(w1: Webpage, w2: Webpage, generate: string -> ApiReply, parse: string -> Option<ParsedQuiz>)
    requires w1.id == w2.id && w1.title == w2.title && w1.text == w2.text
    ensures CreateQuiz(w1, generate, parse) == CreateQuiz(w2, generate, parse)
  {
  }

  /**
   * A reply in exactly the requested format carries a title and items but no slug,
   * and the slug column is NOT NULL without a default: such a record cannot be inserted.
   */
  lemma PromptedFormatLacksSlug(db: Db, webpage: Webpage, parsed: ParsedQuiz, now: Timestamp)
    requires parsed.slug.Absent?
    ensures InsertQuiz(db, InsertRecord(webpage, parsed), now) == Err(NotNullViolation("slug")) ||
            InsertQuiz(db, InsertRecord(webpage, parsed), now) == Err(NotNullViolation("title"))
  {
  }
}
