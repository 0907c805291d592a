/**
 * The two tables of the database (src/db/schema.ts): their row shapes, the
 * defaults applied on insert, and the constraints the database enforces
 * (NOT NULL, the primary keys, the unique slug and the two foreign keys).
 */
module Schema {
  import opened Base

  /**
   * One field of an insert record. The query builder omits an `undefined` field
   * (so the column default applies) but writes an explicit `null`, so the two
   * cases are kept apart.
   */
  datatype Field<T> = Absent | Null | Present(value: T)

  /** One multiple-choice question, as stored in the `items` JSON column. */
  datatype QuizItem = QuizItem(stem: string, options: seq<string>, correctOption: int, sourceSnippet: string)

  /** A row of the `webpage` table. Only `favicon` is nullable. */
  datatype Webpage = Webpage(id: Id, url: string, title: string, text: string, favicon: Option<string>, createdAt: Timestamp)

  /** The values given to an insert into `webpage`; `id` and `createdAt` are always left to their defaults. */
  datatype WebpageInsert = WebpageInsert(url: string, title: Field<string>, text: string, favicon: Field<string>)

  /** A row of the `quiz` table. */
  datatype Quiz = Quiz(
    id: Id, title: string, slug: string, items: seq<QuizItem>, deletedItems: seq<QuizItem>,
    sourceId: Id, parentId: Option<Id>, createdAt: Timestamp, publishedAt: Option<Timestamp>)

  /** The values given to an insert into `quiz`: every column may be supplied, omitted or null. */
  datatype QuizInsert = QuizInsert(
    id: Field<Id>, title: Field<string>, slug: Field<string>, items: Field<seq<QuizItem>>,
    deletedItems: Field<seq<QuizItem>>, sourceId: Field<Id>, parentId: Field<Id>,
    createdAt: Field<Timestamp>, publishedAt: Field<Timestamp>)

  /** The whole database: both tables, each in insertion order. */
  datatype Db = Db(webpages: seq<Webpage>, quizzes: seq<Quiz>)

  /** The constraint an insert violated; the statement then changes nothing. */
  datatype DbError = NotNullViolation(column: string) | UniqueViolation(column: string) | ForeignKeyViolation(column: string)

  /** A successful insert: the new database and the row as `returning()` gives it back. */
  datatype Inserted<R> = Inserted(db: Db, row: R)

  function WebpageIds(ws: seq<Webpage>): (ids: seq<Id>)
    ensures |ids| == |ws| && forall i :: 0 <= i < |ws| ==> ids[i] == ws[i].id
  {
    seq(|ws|, i requires 0 <= i < |ws| => ws[i].id)
  }

  function QuizIds(qs: seq<Quiz>): (ids: seq<Id>)
    ensures |ids| == |qs| && forall i :: 0 <= i < |qs| ==> ids[i] == qs[i].id
  {
    seq(|qs|, i requires 0 <= i < |qs| => qs[i].id)
  }

  /** The identifier a `defaultRandom()` column hands out: one that no row carries yet. */
  function FreshId(ids: seq<Id>): (r: Id)
    ensures forall i :: 0 <= i < |ids| ==> ids[i] < r
    ensures r !in ids
  {
    if ids == [] then 0
    else
      var rest := FreshId(ids[1..]);
      assert forall i :: 1 <= i < |ids| ==> ids[i] == ids[1..][i - 1];
      if ids[0] < rest then rest else ids[0] + 1
  }

  /** Distinct primary keys, distinct slugs, and both foreign keys resolve. */
  predicate WellFormed(db: Db) {
    (forall i, j :: 0 <= i < j < |db.webpages| ==> db.webpages[i].id != db.webpages[j].id) &&
    (forall i, j :: 0 <= i < j < |db.quizzes| ==> db.quizzes[i].id != db.quizzes[j].id) &&
    (forall i, j :: 0 <= i < j < |db.quizzes| ==> db.quizzes[i].slug != db.quizzes[j].slug) &&
    (forall q :: q in db.quizzes ==> q.sourceId in WebpageIds(db.webpages)) &&
    (forall q :: q in db.quizzes && q.parentId.Some? ==> q.parentId.value in QuizIds(db.quizzes))
  }

  /** True iff some quiz row already uses `slug`. */
  predicate SlugTaken(qs: seq<Quiz>, slug: string) {
    exists q :: q in qs && q.slug == slug
  }

  /** The `url`, `title` and `text` columns are NOT NULL without a default; `favicon` is nullable. */
  function InsertWebpage(db: Db, ins: WebpageInsert, now: Timestamp): (r: Result<Inserted<Webpage>, DbError>)
    ensures r.Err? <==> !ins.title.Present?
    ensures r.Ok? ==> r.value.db == Db(db.webpages + [r.value.row], db.quizzes)
    ensures r.Ok? ==> r.value.row.id !in WebpageIds(db.webpages)
    ensures r.Ok? ==> r.value.row.url == ins.url && r.value.row.title == ins.title.value && r.value.row.text == ins.text
    ensures r.Ok? ==> r.value.row.favicon == (if ins.favicon.Present? then Some(ins.favicon.value) else None)
    ensures r.Ok? && WellFormed(db) ==> WellFormed(r.value.db)
  {
    if !ins.title.Present? then Err(NotNullViolation("title"))
    else
      var row := Webpage(FreshId(WebpageIds(db.webpages)), ins.url, ins.title.value, ins.text,
                         if ins.favicon.Present? then Some(ins.favicon.value) else None, now);
      var db' := Db(db.webpages + [row], db.quizzes);
      assert WellFormed(db) ==> WellFormed(db') by {
        if WellFormed(db) {
          forall q | q in db'.quizzes ensures q.sourceId in WebpageIds(db'.webpages) {
            var k :| 0 <= k < |db.webpages| && WebpageIds(db.webpages)[k] == q.sourceId;
            assert WebpageIds(db'.webpages)[k] == q.sourceId;
          }
        }
      }
      Ok(Inserted(db', row))
  }

  /** The new quiz row an insert produces once the NOT NULL checks have passed, defaults applied. */
  function QuizRow(qs: seq<Quiz>, ins: QuizInsert, now: Timestamp): (q: Quiz)
    requires ins.title.Present? && ins.slug.Present? && ins.items.Present? && ins.sourceId.Present?
    requires !ins.id.Null? && !ins.deletedItems.Null? && !ins.createdAt.Null?
  {
    Quiz(
      if ins.id.Present? then ins.id.value else FreshId(QuizIds(qs)),
      ins.title.value, ins.slug.value, ins.items.value,
      if ins.deletedItems.Present? then ins.deletedItems.value else [],
      ins.sourceId.value,
      if ins.parentId.Present? then Some(ins.parentId.value) else None,
      if ins.createdAt.Present? then ins.createdAt.value else now,
      if ins.publishedAt.Present? then Some(ins.publishedAt.value) else None)
  }

  /**
   * Insert into `quiz`. NOT NULL columns without a default (`title`, `slug`, `items`,
   * `sourceId`) must be supplied; those with one (`id`, `deletedItems`, `createdAt`)
   * must not be null. Then the primary key and the slug must be new, `sourceId` must
   * name a webpage and `parentId`, when given, a quiz (the new row itself included,
   * since the database checks a self-reference after the row is in place).
   */
  function InsertQuiz(db: Db, ins: QuizInsert, now: Timestamp): (r: Result<Inserted<Quiz>, DbError>)
    ensures r.Ok? ==> db.webpages == r.value.db.webpages && r.value.db.quizzes == db.quizzes + [r.value.row]
    ensures r.Ok? ==> r.value.row.id !in QuizIds(db.quizzes) && !SlugTaken(db.quizzes, r.value.row.slug)
    ensures r.Ok? ==> r.value.row.sourceId in WebpageIds(db.webpages)
    ensures r.Ok? && WellFormed(db) ==> WellFormed(r.value.db)
    ensures ins.slug.Present? && SlugTaken(db.quizzes, ins.slug.value) ==> r.Err?
    ensures !ins.title.Present? || !ins.slug.Present? || !ins.items.Present? || !ins.sourceId.Present? ==> r.Err?
    ensures ins.id.Null? || ins.deletedItems.Null? || ins.createdAt.Null? ==> r.Err?
    // The stored row carries the record's values, and the column defaults where a key is omitted.
    ensures r.Ok? ==> var row := r.value.row;
            row.title == ins.title.value && row.slug == ins.slug.value && row.items == ins.items.value &&
            row.sourceId == ins.sourceId.value &&
            (ins.id.Present? ==> row.id == ins.id.value) &&
            row.deletedItems == (if ins.deletedItems.Present? then ins.deletedItems.value else []) &&
            row.parentId == (if ins.parentId.Present? then Some(ins.parentId.value) else None) &&
            row.createdAt == (if ins.createdAt.Present? then ins.createdAt.value else now) &&
            row.publishedAt == (if ins.publishedAt.Present? then Some(ins.publishedAt.value) else None)
    // A record meeting every constraint is accepted.
    ensures ins.title.Present? && ins.slug.Present? && ins.items.Present? && ins.sourceId.Present? &&
            !ins.id.Null? && !ins.deletedItems.Null? && !ins.createdAt.Null? &&
            (ins.id.Present? ==> ins.id.value !in QuizIds(db.quizzes)) &&
            !SlugTaken(db.quizzes, ins.slug.value) && ins.sourceId.value in WebpageIds(db.webpages) &&
            (ins.parentId.Present? ==> ins.parentId.value in QuizIds(db.quizzes))
            ==> r.Ok?
  {
    if !ins.title.Present? then Err(NotNullViolation("title"))
    else if !ins.slug.Present? then Err(NotNullViolation("slug"))
    else if !ins.items.Present? then Err(NotNullViolation("items"))
    else if !ins.sourceId.Present? then Err(NotNullViolation("sourceId"))
    else if ins.id.Null? then Err(NotNullViolation("id"))
    else if ins.deletedItems.Null? then Err(NotNullViolation("deletedItems"))
    else if ins.createdAt.Null? then Err(NotNullViolation("createdAt"))
    else
      var row := QuizRow(db.quizzes, ins, now);
      if row.id in QuizIds(db.quizzes) then Err(UniqueViolation("id"))
      else if SlugTaken(db.quizzes, row.slug) then Err(UniqueViolation("slug"))
      else if row.sourceId !in WebpageIds(db.webpages) then Err(ForeignKeyViolation("sourceId"))
      else if row.parentId.Some? && row.parentId.value !in QuizIds(db.quizzes) && row.parentId.value != row.id
      then Err(ForeignKeyViolation("parentId"))
      else
        var db' := Db(db.webpages, db.quizzes + [row]);
        assert WellFormed(db) ==> WellFormed(db') by {
          if WellFormed(db) {
            forall i, j | 0 <= i < j < |db'.quizzes| ensures db'.quizzes[i].slug != db'.quizzes[j].slug {
              if j == |db.quizzes| { assert db.quizzes[i] in db.quizzes; }
            }
            forall i, j | 0 <= i < j < |db'.quizzes| ensures db'.quizzes[i].id != db'.quizzes[j].id {
              if j == |db.quizzes| { assert QuizIds(db.quizzes)[i] == db'.quizzes[i].id; }
            }
            forall q | q in db'.quizzes && q.parentId.Some? ensures q.parentId.value in QuizIds(db'.quizzes) {
              if q == row && row.parentId.value == row.id {
                assert QuizIds(db'.quizzes)[|db.quizzes|] == row.id;
              } else if q != row || row.parentId.value in QuizIds(db.quizzes) {
                var pid := q.parentId.value;
                assert pid in QuizIds(db.quizzes);
                var k :| 0 <= k < |db.quizzes| && QuizIds(db.quizzes)[k] == pid;
                assert QuizIds(db'.quizzes)[k] == pid;
              }
            }
          }
        }
        Ok(Inserted(db', row))
  }

  /** Two webpage rows may share a url: the `url` index is not a unique one. */
  lemma UrlIndexIsNotUnique(db: Db, url: string, title: string, now: Timestamp)
    requires WellFormed(db)
    ensures var ins := WebpageInsert(url, Present(title), "", Absent);
            var first := InsertWebpage(db, ins, now);
            first.Ok? && InsertWebpage(first.value.db, ins, now).Ok? &&
            var ws := InsertWebpage(first.value.db, ins, now).value.db.webpages;
            ws[|ws| - 2].url == ws[|ws| - 1].url == url
  {
  }
}
