/**
 * The two HTTP handlers of src/server.ts. `POST /api/create_quiz` finds or inserts
 * the webpage for a url, then finds or generates the quiz for that webpage;
 * `GET /api/quiz/:quizId` reads one quiz joined with its source page. Both tables
 * live in a `QuizServer` object; the page fetcher, the language model and
 * `JSON.parse` are the `Services` oracles. Requests are handled one at a time.
 */
module Server {
  import opened Base
  import opened Schema
  import Generation

  /** One result of the page fetcher: the title may be missing or null, the favicon too. */
  datatype PageContent = PageContent(title: Field<string>, text: string, favicon: Field<string>)

  /** The fetcher's answer: a failure, or its list of results (possibly empty). */
  datatype FetchReply = FetchFailed | Fetched(results: seq<PageContent>)

  /** The outside collaborators of the create handler. */
  datatype Services = Services(
    fetch: string -> FetchReply,
    generate: string -> Generation.ApiReply,
    parse: string -> Option<Generation.ParsedQuiz>)

  datatype CreateReply = CreateOk(quizId: Id) | CreateError(status: nat, error: string)

  /** The part of the source page a GET returns with the quiz. */
  datatype SourceInfo = SourceInfo(url: string, title: string, favicon: Option<string>)

  datatype GetReply = QuizWithSource(quiz: Quiz, source: SourceInfo) | GetError(status: nat, error: string)

  const UrlRequired := "URL is required"
  const CreateFailed := "Failed to create quiz"
  const QuizIdRequired := "Quiz ID is required"
  const QuizNotFound := "Quiz not found"
  const FetchQuizFailed := "Failed to fetch quiz"

  /** The first element satisfying p, the way a `select ... where ... limit 1` returns one row. */
  function First<T>(s: seq<T>, p: T -> bool): (r: Option<T>)
    ensures r.Some? ==> r.value in s && p(r.value)
    ensures r.None? <==> forall x :: x in s ==> !p(x)
  {
    if s == [] then None else if p(s[0]) then Some(s[0]) else First(s[1..], p)
  }

  lemma {:induction false} FirstAppend<T>(s: seq<T>, x: T, p: T -> bool)
    ensures First(s + [x], p) == if First(s, p).Some? then First(s, p) else if p(x) then Some(x) else None
  {
    if s != [] {
      assert (s + [x])[1..] == s[1..] + [x];
      FirstAppend(s[1..], x, p);
    }
  }

  function FindWebpageByUrl(ws: seq<Webpage>, url: string): Option<Webpage> {
    First(ws, (w: Webpage) => w.url == url)
  }

  function FindWebpageById(ws: seq<Webpage>, id: Id): Option<Webpage> {
    First(ws, (w: Webpage) => w.id == id)
  }

  function FindQuizBySource(qs: seq<Quiz>, sourceId: Id): Option<Quiz> {
    First(qs, (q: Quiz) => q.sourceId == sourceId)
  }

  function FindQuizById(qs: seq<Quiz>, id: Id): Option<Quiz> {
    First(qs, (q: Quiz) => q.id == id)
  }

  /** At most one webpage row per url. */
  predicate UniqueUrls(ws: seq<Webpage>) {
    forall i, j :: 0 <= i < j < |ws| ==> ws[i].url != ws[j].url
  }

  /** At most one quiz row per source page. */
  predicate OneQuizPerSource(qs: seq<Quiz>) {
    forall i, j :: 0 <= i < j < |qs| ==> qs[i].sourceId != qs[j].sourceId
  }

  /** The parser never yields an object with its own `sourceId` key. */
  ghost predicate KeepsSourceId(parse: string -> Option<Generation.ParsedQuiz>) {
    forall t :: parse(t).Some? ==> parse(t).value.sourceId.Absent?
  }

  /** A database step that either produced a value or failed (and then changed nothing itself). */
  datatype Step<T> = Step(db: Db, out: Option<T>)

  /** The insert values built from the first fetch result: the url as requested, the rest as fetched. */
  function PageInsert(url: string, page: PageContent): WebpageInsert {
    WebpageInsert(url, page.title, page.text, page.favicon)
  }

  /**
   * The webpage half of the create handler: reuse the first row with this url, or
   * fetch the page and insert it. An empty result list fails (the first result is
   * undefined and reading its title throws).
   */
  function FindOrInsertWebpage(db: Db, url: string, fetch: string -> FetchReply, now: Timestamp): (st: Step<Webpage>)
    ensures st.db.quizzes == db.quizzes
    ensures st.out.Some? ==> st.out.value.url == url && st.out.value in st.db.webpages
    ensures FindWebpageByUrl(db.webpages, url).Some? ==> st == Step(db, FindWebpageByUrl(db.webpages, url))
    ensures st.db.webpages == db.webpages ||
            (FindWebpageByUrl(db.webpages, url).None? && st.out.Some? && st.db.webpages == db.webpages + [st.out.value])
    ensures st.out.None? ==> st.db == db
    ensures WellFormed(db) ==> WellFormed(st.db)
    ensures UniqueUrls(db.webpages) ==> UniqueUrls(st.db.webpages)
  {
    match FindWebpageByUrl(db.webpages, url)
    case Some(w) => Step(db, Some(w))
    case None =>
      match fetch(url)
      case FetchFailed => Step(db, None)
      case Fetched(results) =>
        if |results| == 0 then Step(db, None)
        else
          match InsertWebpage(db, PageInsert(url, results[0]), now)
          case Err(_) => Step(db, None)
          case Ok(ins) =>
            assert UniqueUrls(db.webpages) ==> UniqueUrls(ins.db.webpages) by {
              if UniqueUrls(db.webpages) {
                forall i, j | 0 <= i < j < |ins.db.webpages| ensures ins.db.webpages[i].url != ins.db.webpages[j].url {
                  if j == |db.webpages| { assert ins.db.webpages[i] in db.webpages; }
                }
              }
            }
            Step(ins.db, Some(ins.row))
  }

  /**
   * The quiz half: reuse the id of the first quiz whose `sourceId` is the webpage's,
   * or generate a record and insert it.
   */
  function FindOrInsertQuiz(db: Db, webpage: Webpage, services: Services, now: Timestamp): (st: Step<Id>)
    ensures st.db.webpages == db.webpages
    ensures FindQuizBySource(db.quizzes, webpage.id).Some? ==> st == Step(db, Some(FindQuizBySource(db.quizzes, webpage.id).value.id))
    ensures st.db.quizzes == db.quizzes ||
            (FindQuizBySource(db.quizzes, webpage.id).None? && st.out.Some? &&
             |st.db.quizzes| == |db.quizzes| + 1 && st.db.quizzes[..|db.quizzes|] == db.quizzes &&
             st.db.quizzes[|db.quizzes|].id == st.out.value)
    ensures st.out.None? ==> st.db == db
    ensures st.out.Some? ==> st.out.value in QuizIds(st.db.quizzes)
    ensures WellFormed(db) ==> WellFormed(st.db)
    // Without a quiz for the page, the generated record is inserted exactly when generation and insert succeed.
    ensures FindQuizBySource(db.quizzes, webpage.id).None? ==>
              var record := Generation.CreateQuiz(webpage, services.generate, services.parse);
              if record.Ok? && InsertQuiz(db, record.value, now).Ok?
              then st == Step(InsertQuiz(db, record.value, now).value.db, Some(InsertQuiz(db, record.value, now).value.row.id))
              else st == Step(db, None)
  {
    match FindQuizBySource(db.quizzes, webpage.id)
    case Some(q) =>
      assert QuizIds(db.quizzes)[IndexOf(db.quizzes, q)] == q.id;
      Step(db, Some(q.id))
    case None =>
      match Generation.CreateQuiz(webpage, services.generate, services.parse)
      case Err(_) => Step(db, None)
      case Ok(record) =>
        match InsertQuiz(db, record, now)
        case Err(_) => Step(db, None)
        case Ok(ins) =>
          assert ins.db.quizzes[..|db.quizzes|] == db.quizzes;
          assert QuizIds(ins.db.quizzes)[|db.quizzes|] == ins.row.id;
          Step(ins.db, Some(ins.row.id))
  }

  /** The position of an element known to be in a sequence. */
  function IndexOf<T(==)>(s: seq<T>, x: T): (k: nat)
    requires x in s
    ensures k < |s| && s[k] == x
  {
    if s[0] == x then 0 else 1 + IndexOf(s[1..], x)
  }

  /**
   * The whole create handler over a database: 400 without a url, otherwise the two
   * find-or-insert steps in turn, with no transaction around them; any failure is a
   * 500 with a fixed message, and whatever an earlier step inserted stays.
   */
  function HandleCreate(db: Db, url: Option<string>, services: Services, now: Timestamp): (r: (Db, CreateReply))
    ensures url.None? || url == Some("") ==> r == (db, CreateError(400, UrlRequired))
    ensures r.1.CreateError? ==> r.1 == CreateError(400, UrlRequired) || r.1 == CreateError(500, CreateFailed)
    ensures url.Some? && url.value != "" && r.1.CreateError? ==> r.1 == CreateError(500, CreateFailed)
    ensures r.1.CreateOk? ==> r.1.quizId in QuizIds(r.0.quizzes)
    ensures db.webpages <= r.0.webpages && |r.0.webpages| <= |db.webpages| + 1
    ensures db.quizzes <= r.0.quizzes && |r.0.quizzes| <= |db.quizzes| + 1
    ensures WellFormed(db) ==> WellFormed(r.0)
    ensures UniqueUrls(db.webpages) ==> UniqueUrls(r.0.webpages)
  {
    if url.None? || url.value == "" then (db, CreateError(400, UrlRequired))
    else
      var page := FindOrInsertWebpage(db, url.value, services.fetch, now);
      if page.out.None? then (page.db, CreateError(500, CreateFailed))
      else
        var quiz := FindOrInsertQuiz(page.db, page.out.value, services, now);
        assert quiz.db.quizzes != page.db.quizzes ==> db.quizzes <= quiz.db.quizzes by {
          if quiz.db.quizzes != page.db.quizzes { assert quiz.db.quizzes[..|db.quizzes|] == db.quizzes; }
        }
        if quiz.out.None? then (quiz.db, CreateError(500, CreateFailed))
        else (quiz.db, CreateOk(quiz.out.value))
  }

  /** A quiz row together with its webpage row, as the inner join produces it. */
  datatype Joined = Joined(quiz: Quiz, webpage: Webpage)

  /** The first row of `quiz inner join webpage on quiz.sourceId = webpage.id where quiz.id = id`. */
  function JoinQuizWithSource(db: Db, id: Id): (r: Option<Joined>)
    ensures r.Some? ==> r.value.quiz in db.quizzes && r.value.quiz.id == id &&
                        r.value.webpage in db.webpages && r.value.webpage.id == r.value.quiz.sourceId
    ensures WellFormed(db) ==> (r.Some? <==> id in QuizIds(db.quizzes))
  {
    match FindQuizById(db.quizzes, id)
    case None => None
    case Some(q) =>
      assert WellFormed(db) ==> q.sourceId in WebpageIds(db.webpages);
      assert WellFormed(db) ==> FindWebpageById(db.webpages, q.sourceId).Some? by {
        if WellFormed(db) {
          var k :| 0 <= k < |db.webpages| && WebpageIds(db.webpages)[k] == q.sourceId;
          assert db.webpages[k] in db.webpages;
        }
      }
      match FindWebpageById(db.webpages, q.sourceId)
      case None => None
      case Some(w) => Some(Joined(q, w))
  }

  /** The row `GET /api/quiz/:quizId` returns: the quiz plus url, title and favicon of its webpage. */
  function SourceOf(w: Webpage): SourceInfo {
    SourceInfo(w.url, w.title, w.favicon)
  }

  class QuizServer {
    var webpages: seq<Webpage>
    var quizzes: seq<Quiz>

    /** The database constraints hold, and the create handler has kept one webpage per url. */
    predicate Valid()
      reads this
    {
      WellFormed(Db(webpages, quizzes)) && UniqueUrls(webpages)
    }

    constructor ()
      ensures Valid() && webpages == [] && quizzes == []
    {
      webpages := [];
      quizzes := [];
    }

    /** `POST /api/create_quiz` with body field `url` (None when the field is missing). */
    method PostCreateQuiz(url: Option<string>, services: Services, now: Timestamp) returns (reply: CreateReply)
      requires Valid()
      modifies this
      ensures Valid()
      ensures (Db(webpages, quizzes), reply) == HandleCreate(old(Db(webpages, quizzes)), url, services, now)
    {
      if url.None? || url.value == "" {
        return CreateError(400, UrlRequired);
      }
      ghost var db0 := Db(webpages, quizzes);
      var webpage := FindWebpageByUrl(webpages, url.value);
      if webpage.None? {
        var fetched := services.fetch(url.value);
        if fetched.FetchFailed? || |fetched.results| == 0 {
          return CreateError(500, CreateFailed);
        }
        var inserted := InsertWebpage(Db(webpages, quizzes), PageInsert(url.value, fetched.results[0]), now);
        if inserted.Err? {
          return CreateError(500, CreateFailed);
        }
        webpages := inserted.value.db.webpages;
        webpage := Some(inserted.value.row);
      }
      ghost var page := FindOrInsertWebpage(db0, url.value, services.fetch, now);
      assert page == Step(Db(webpages, quizzes), webpage);
      var existing := FindQuizBySource(quizzes, webpage.value.id);
      var quizId: Id;
      if existing.Some? {
        quizId := existing.value.id;
      } else {
        var record := Generation.CreateQuiz(webpage.value, services.generate, services.parse);
        if record.Err? {
          assert FindOrInsertQuiz(page.db, webpage.value, services, now) == Step(page.db, None);
          return CreateError(500, CreateFailed);
        }
        var inserted := InsertQuiz(Db(webpages, quizzes), record.value, now);
        if inserted.Err? {
          assert FindOrInsertQuiz(page.db, webpage.value, services, now) == Step(page.db, None);
          return CreateError(500, CreateFailed);
        }
        quizzes := inserted.value.db.quizzes;
        quizId := inserted.value.row.id;
      }
      assert FindOrInsertQuiz(page.db, webpage.value, services, now) == Step(Db(webpages, quizzes), Some(quizId));
      reply := CreateOk(quizId);
    }

    /**
     * `GET /api/quiz/:quizId`. The path segment is turned into a UUID by the database;
     * `uuidOf` stands for that conversion, and a segment that is not a UUID makes the
     * query throw.
     */
    method GetQuiz(quizId: string, uuidOf: string -> Option<Id>) returns (reply: GetReply)
      requires Valid()
      ensures quizId == "" ==> reply == GetError(400, QuizIdRequired)
      ensures quizId != "" && uuidOf(quizId).None? ==> reply == GetError(500, FetchQuizFailed)
      ensures reply.QuizWithSource? ==>
                reply.quiz in quizzes && Some(reply.quiz.id) == uuidOf(quizId) &&
                exists w :: w in webpages && w.id == reply.quiz.sourceId && reply.source == SourceOf(w)
      ensures quizId != "" && uuidOf(quizId).Some? ==>
                (reply.QuizWithSource? <==> uuidOf(quizId).value in QuizIds(quizzes))
      ensures reply.GetError? && reply.status == 404 ==> reply.error == QuizNotFound
      ensures quizId != "" && uuidOf(quizId).Some? && uuidOf(quizId).value !in QuizIds(quizzes) ==>
                reply == GetError(404, QuizNotFound)
    {
      if quizId == "" {
        return GetError(400, QuizIdRequired);
      }
      var id := uuidOf(quizId);
      if id.None? {
        return GetError(500, FetchQuizFailed);
      }
      var row := JoinQuizWithSource(Db(webpages, quizzes), id.value);
      if row.None? {
        return GetError(404, QuizNotFound);
      }
      reply := QuizWithSource(row.value.quiz, SourceOf(row.value.webpage));
    }
  }

  // ---------------------------------------------------------------------------
  // Properties of the create handler.
  // ---------------------------------------------------------------------------

  /** Appending a quiz row only matters for the lookup when no earlier row matches. */
  lemma FindQuizBySourceAppend(qs: seq<Quiz>, q: Quiz, sourceId: Id)
    ensures FindQuizBySource(qs + [q], sourceId) ==
            if FindQuizBySource(qs, sourceId).Some? then FindQuizBySource(qs, sourceId)
            else if q.sourceId == sourceId then Some(q) else None
  {
    FirstAppend(qs, q, (q: Quiz) => q.sourceId == sourceId);
  }

  /** When a webpage with the url exists, the fetcher is not consulted and no webpage is inserted. */
  lemma NoFetchForKnownUrl(db: Db, url: string, services: Services, fetch: string -> FetchReply, now: Timestamp)
    requires url != "" && FindWebpageByUrl(db.webpages, url).Some?
    ensures HandleCreate(db, Some(url), services, now) ==
            HandleCreate(db, Some(url), Services(fetch, services.generate, services.parse), now)
    ensures HandleCreate(db, Some(url), services, now).0.webpages == db.webpages
  {
  }

  /**
   * When the url is new and the first fetch result has a title, exactly one webpage is
   * inserted, carrying the url and the fetched title, text and favicon; it stays even
   * when the quiz step then fails.
   */
  lemma NewUrlInsertsOneWebpage(db: Db, url: string, services: Services, now: Timestamp)
    requires url != "" && FindWebpageByUrl(db.webpages, url).None?
    requires services.fetch(url).Fetched? && |services.fetch(url).results| > 0
    requires services.fetch(url).results[0].title.Present?
    ensures var page := services.fetch(url).results[0];
            var r := HandleCreate(db, Some(url), services, now);
            |r.0.webpages| == |db.webpages| + 1 && r.0.webpages[..|db.webpages|] == db.webpages &&
            var w := r.0.webpages[|db.webpages|];
            w.id !in WebpageIds(db.webpages) && w.url == url && w.title == page.title.value &&
            w.text == page.text && w.favicon == (if page.favicon.Present? then Some(page.favicon.value) else None)
  {
  }

  /**
   * A failing quiz step after a new webpage was inserted (the model call fails, the reply
   * is empty, not text or not JSON, or the quiz insert is rejected): a 500, no quiz, and
   * the webpage row remains.
   */
  lemma GenerationFailureKeepsWebpage(db: Db, url: string, services: Services, now: Timestamp, w: Webpage)
    requires url != "" && FindWebpageByUrl(db.webpages, url).None?
    requires FindOrInsertWebpage(db, url, services.fetch, now).out == Some(w)
    requires var pdb := FindOrInsertWebpage(db, url, services.fetch, now).db;
             var record := Generation.CreateQuiz(w, services.generate, services.parse);
             FindQuizBySource(pdb.quizzes, w.id).None? && (record.Err? || InsertQuiz(pdb, record.value, now).Err?)
    ensures var r := HandleCreate(db, Some(url), services, now);
            r.1 == CreateError(500, CreateFailed) && r.0.quizzes == db.quizzes &&
            r.0.webpages == db.webpages + [w] && w.url == url
  {
  }

  /**
   * For a page without a quiz, a generated record that the database accepts is inserted
   * as the one new quiz row and its id is answered.
   */
  lemma NewSourceInsertsOneQuiz(db: Db, url: string, services: Services, now: Timestamp, w: Webpage)
    requires url != "" && FindOrInsertWebpage(db, url, services.fetch, now).out == Some(w)
    requires var pdb := FindOrInsertWebpage(db, url, services.fetch, now).db;
             var record := Generation.CreateQuiz(w, services.generate, services.parse);
             FindQuizBySource(pdb.quizzes, w.id).None? && record.Ok? && InsertQuiz(pdb, record.value, now).Ok?
    ensures var pdb := FindOrInsertWebpage(db, url, services.fetch, now).db;
            var ins := InsertQuiz(pdb, Generation.CreateQuiz(w, services.generate, services.parse).value, now).value;
            HandleCreate(db, Some(url), services, now) == (ins.db, CreateOk(ins.row.id)) &&
            ins.db.quizzes == db.quizzes + [ins.row] && ins.row.sourceId in WebpageIds(ins.db.webpages)
  {
  }

  /** When the page already has a quiz, its id is answered without calling the model or inserting. */
  lemma NoGenerationForKnownSource(db: Db, url: string, services: Services, generate: string -> Generation.ApiReply, now: Timestamp)
    requires url != "" && FindWebpageByUrl(db.webpages, url).Some?
    requires FindQuizBySource(db.quizzes, FindWebpageByUrl(db.webpages, url).value.id).Some?
    ensures var q := FindQuizBySource(db.quizzes, FindWebpageByUrl(db.webpages, url).value.id).value;
            HandleCreate(db, Some(url), services, now) == (db, CreateOk(q.id)) &&
            HandleCreate(db, Some(url), Services(services.fetch, generate, services.parse), now) == (db, CreateOk(q.id))
  {
  }

  /**
   * Sequential idempotence: after a successful create, the same url again answers the
   * same quiz id and changes nothing, whatever the collaborators would now do,
   * provided the parsed reply did not carry its own `sourceId`.
   */
  lemma {:induction false} CreateIsIdempotent(db: Db, url: string, services: Services, later: Services, now: Timestamp, now2: Timestamp)
    requires KeepsSourceId(services.parse)
    requires HandleCreate(db, Some(url), services, now).1.CreateOk?
    ensures var r := HandleCreate(db, Some(url), services, now);
            HandleCreate(r.0, Some(url), later, now2) == r
  {
    var page := FindOrInsertWebpage(db, url, services.fetch, now);
    WebpageStepRepeats(db, url, services.fetch, later.fetch, now, now2);
    var quiz := FindOrInsertQuiz(page.db, page.out.value, services, now);
    QuizStepRepeats(page.db, page.out.value, services, later, now, now2);
    assert FindOrInsertWebpage(quiz.db, url, later.fetch, now2) == Step(quiz.db, page.out) by {
      assert quiz.db.webpages == page.db.webpages;
      assert FindWebpageByUrl(quiz.db.webpages, url) == page.out;
    }
  }

  /** A successful webpage step, repeated on its own result, finds the same row and inserts nothing. */
  lemma WebpageStepRepeats(db: Db, url: string, fetch: string -> FetchReply, fetch2: string -> FetchReply, now: Timestamp, now2: Timestamp)
    requires FindOrInsertWebpage(db, url, fetch, now).out.Some?
    ensures var st := FindOrInsertWebpage(db, url, fetch, now);
            FindWebpageByUrl(st.db.webpages, url) == st.out &&
            FindOrInsertWebpage(st.db, url, fetch2, now2) == st
  {
  }

  /**
   * A successful quiz step, repeated on its own result, finds the same quiz and inserts
   * nothing, provided the inserted row kept the webpage's id as its `sourceId`.
   */
  lemma QuizStepRepeats(db: Db, w: Webpage, services: Services, later: Services, now: Timestamp, now2: Timestamp)
    requires KeepsSourceId(services.parse)
    requires FindOrInsertQuiz(db, w, services, now).out.Some?
    ensures var st := FindOrInsertQuiz(db, w, services, now);
            FindOrInsertQuiz(st.db, w, later, now2) == st
  {
    var st := FindOrInsertQuiz(db, w, services, now);
    if st.db.quizzes != db.quizzes {
      var record := Generation.CreateQuiz(w, services.generate, services.parse);
      var ins := InsertQuiz(db, record.value, now);
      var row := ins.value.row;
      assert row.sourceId == w.id;
      assert st.db.quizzes == db.quizzes + [row];
      FindQuizBySourceAppend(db.quizzes, row, w.id);
    }
  }

  /** Over any sequence of creates, one quiz per source page, given parsed replies without `sourceId`. */
  lemma {:induction false} CreateKeepsOneQuizPerSource(db: Db, url: Option<string>, services: Services, now: Timestamp)
    requires OneQuizPerSource(db.quizzes) && KeepsSourceId(services.parse)
    ensures OneQuizPerSource(HandleCreate(db, url, services, now).0.quizzes)
  {
    if url.Some? && url.value != "" {
      var page := FindOrInsertWebpage(db, url.value, services.fetch, now);
      if page.out.Some? {
        QuizStepKeepsOneQuizPerSource(page.db, page.out.value, services, now);
      }
    }
  }

  /** The quiz step only inserts for a page that has no quiz, and the row keeps that page's id. */
  lemma QuizStepKeepsOneQuizPerSource(db: Db, w: Webpage, services: Services, now: Timestamp)
    requires OneQuizPerSource(db.quizzes) && KeepsSourceId(services.parse)
    ensures OneQuizPerSource(FindOrInsertQuiz(db, w, services, now).db.quizzes)
  {
    var st := FindOrInsertQuiz(db, w, services, now);
    if st.db.quizzes != db.quizzes {
      var record := Generation.CreateQuiz(w, services.generate, services.parse);
      var row := InsertQuiz(db, record.value, now).value.row;
      assert row.sourceId == w.id;
      assert st.db.quizzes == db.quizzes + [row];
      forall i, j | 0 <= i < j < |st.db.quizzes| ensures st.db.quizzes[i].sourceId != st.db.quizzes[j].sourceId {
        if j == |db.quizzes| { assert db.quizzes[i] in db.quizzes; }
      }
    }
  }

  /**
   * Without the `KeepsSourceId` assumption the guarantee is lost: the record is
   * `{ sourceId: webpage.id, ...parsed }`, so when the parsed object carries the
   * `sourceId` of a page that already has a quiz, and the insert goes through, the
   * create succeeds with a second quiz for that page.
   */
  lemma ParsedSourceIdBreaksOneQuizPerSource(db: Db, url: string, services: Services, now: Timestamp, w: Webpage, q: Quiz, parsed: Generation.ParsedQuiz)
    requires url != "" && FindWebpageByUrl(db.webpages, url) == Some(w) && FindQuizBySource(db.quizzes, w.id).None?
    requires Generation.CreateQuiz(w, services.generate, services.parse) == Ok(Generation.InsertRecord(w, parsed))
    requires q in db.quizzes && parsed.sourceId == Present(q.sourceId)
    requires InsertQuiz(db, Generation.InsertRecord(w, parsed), now).Ok?
    ensures var r := HandleCreate(db, Some(url), services, now);
            r.1.CreateOk? && !OneQuizPerSource(r.0.quizzes)
  {
    var record := Generation.InsertRecord(w, parsed);
    var ins := InsertQuiz(db, record, now).value;
    var r := HandleCreate(db, Some(url), services, now);
    assert r.0 == ins.db;
    var i :| 0 <= i < |db.quizzes| && db.quizzes[i] == q;
    assert r.0.quizzes[i].sourceId == r.0.quizzes[|db.quizzes|].sourceId;
  }

  /**
   * The premises above are met: a well-formed database with one quiz per page, where
   * page `a` has no quiz yet and page `b` has one, and a parsed reply naming `b`.
   */
  lemma ParsedSourceIdExample()
    ensures var a := Webpage(0, "a", "A", "", None, 0);
            var b := Webpage(1, "b", "B", "", None, 0);
            var q := Quiz(0, "T", "s", [], [], 1, None, 0, None);
            var db := Db([a, b], [q]);
            var parsed := Generation.ParsedQuiz(Absent, Present("U"), Present("u"), Present([]), Absent, Present(1), Absent, Absent, Absent);
            WellFormed(db) && OneQuizPerSource(db.quizzes) &&
            FindWebpageByUrl(db.webpages, "a") == Some(a) && FindQuizBySource(db.quizzes, a.id).None? &&
            q in db.quizzes && parsed.sourceId == Present(q.sourceId) &&
            InsertQuiz(db, Generation.InsertRecord(a, parsed), 0).Ok?
  {
    var a := Webpage(0, "a", "A", "", None, 0);
    var b := Webpage(1, "b", "B", "", None, 0);
    var q := Quiz(0, "T", "s", [], [], 1, None, 0, None);
    var db := Db([a, b], [q]);
    var parsed := Generation.ParsedQuiz(Absent, Present("U"), Present("u"), Present([]), Absent, Present(1), Absent, Absent, Absent);
    assert WebpageIds(db.webpages) == [0, 1];
    assert QuizIds(db.quizzes) == [0];
    assert FreshId([0]) == 1;
    assert !SlugTaken(db.quizzes, "u");
  }
}
