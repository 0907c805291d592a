# quiz-feed core, modelled in Dafny

quiz-feed turns a web page into a multiple-choice quiz. A client posts a url;
the server reuses the stored webpage for that url or fetches and stores it, then
reuses the quiz already generated for that webpage or asks a language model for
one and stores it. The quiz page shows one question at a time with its options
shuffled, records answers, scores them, and lets the reader schedule questions for
deletion and reveal answers.

This project models that core:

- `schema.dfy` (module `Schema`): the `webpage` and `quiz` rows, insert records
  whose fields may be supplied, omitted or null, the defaults (`deletedItems = []`,
  `publishedAt` null, fresh ids, `createdAt`), and the constraints (NOT NULL,
  primary keys, unique slug, the `sourceId` and `parentId` foreign keys). The
  invariant `WellFormed` is preserved by both inserts. The `url` index is not
  unique, so the table alone admits two rows with one url.
- `generation.dfy` (module `Generation`): the prompt template, the check on the
  model's first content block, the code-fence strip (the global replace of
  `^```(?:json)?\n?|\n?```$` without the multiline flag: at most one leading
  fence, then at most one trailing fence of what is left), and the insert record
  `{ sourceId: webpage.id, ...parsed }`.
- `server.dfy` (module `Server`): the `POST /api/create_quiz` and
  `GET /api/quiz/:quizId` handlers, as a `QuizServer` class whose two sequence
  fields are the tables, and the function `HandleCreate` that specifies the create
  handler. The create handler keeps one webpage per url, is idempotent for a
  repeated url, and leaves an inserted webpage in place when a later step fails.
  Two properties rest on the parsed reply having no `sourceId` key of its own:
  the record spreads the parsed object after `sourceId`, so such a key wins.
  `ParsedSourceIdBreaksOneQuizPerSource` shows that such a key can insert a
  second quiz for a page that already has one, and `ParsedSourceIdExample` gives
  a concrete database where its premises hold.
- `quiz_page.dfy` (module `QuizPage`): the in-place option shuffle over an array,
  given the permutation the random shuffle picked; a `QuizView` class holding the
  page state; the URL-sync decision, the next-question parameters, the score, and
  the deletion and reveal sets.

Two behaviours of the code are worth knowing. The prompt asks only for `title`
and `items`. `slug` is NOT NULL with no default. So a reply in exactly the
requested format cannot be inserted (`PromptedFormatLacksSlug`). Also, the quiz
page does not reset `currentQuestion` when it loads a quiz. So the index is in
range after each assignment, not at every moment.

The quiz page calls `/api/edit_quiz` and `/api/toggle_publish_quiz`, and fetches
`/api/quiz/` with a slug, but the server defines only the create and the
lookup-by-id handlers. The model follows the server as it stands.

## Model

| member | source | states |
|---|---|---|
| `Schema.FreshId` | src/db/schema.ts:6 | a defaulted id differs from every id already in the table |
| `Schema.InsertWebpage` | src/db/schema.ts:5-14 | fails exactly when the NOT NULL title is missing or null; otherwise appends one row carrying the given url, title and text, a fresh id, and the given favicon or null when none is given; preserves `WellFormed` |
| `Schema.InsertQuiz` | src/db/schema.ts:20-30 | a missing title, slug, items or sourceId, a null id, deletedItems or createdAt, or a taken slug, is rejected; a record meeting every constraint is accepted; a success appends exactly one row with a new id and slug, carrying the record's title, slug, items, sourceId, parentId and id when given, with `deletedItems` defaulting to `[]`, `publishedAt` to null and `createdAt` to now, and whose `sourceId` names a webpage; preserves `WellFormed` (unique ids and slugs, both foreign keys) |
| `Schema.UrlIndexIsNotUnique` | src/db/schema.ts:12-14 | two inserts with the same url both succeed, leaving two rows with that url |
| `Generation.FillTemplate` | src/anthropic-api.ts:7-33 | the template that `Prompt` fills with the fixed head, `\nContent: ` and tail texts: the title sits right after the head (ending in `Title: `) and the text right after `\nContent: `, verbatim, with the fixed texts in place around them |
| `Generation.LeadingFenceLength` | src/anthropic-api.ts:45 | a leading cut happens exactly when the text starts with three backticks; it is exactly those backticks, then `json` whenever `json` follows them, then a newline whenever one follows (3, 4, 7 or 8 characters) |
| `Generation.TrailingFenceLength` | src/anthropic-api.ts:45 | a trailing cut happens exactly when the text ends with three backticks; it is those backticks plus the newline before them exactly when there is one (3 or 4 characters) |
| `Generation.StripLeavesUnfencedText` | src/anthropic-api.ts:44-45 | text that neither starts nor ends with three backticks is returned unchanged |
| `Generation.StripRoundTrip` | src/anthropic-api.ts:44-45 | stripping a ```` ```json ```` or a bare ```` ``` ```` fence wrapped around any text gives that text back |
| `Generation.StripRemovesOnlyTheEnds` | src/anthropic-api.ts:45 | the result is one contiguous slice of the input; only a fence at position 0 and a fence at the very end are cut, so interior backticks stay |
| `Generation.StripExample` | src/anthropic-api.ts:45 | a fenced JSON reply loses its fence; in four backticks the leading fence takes three and the trailing one no longer matches |
| `Generation.InsertRecord` | src/anthropic-api.ts:49-52 | `sourceId` is the webpage id unless the parsed object has its own `sourceId`, which wins; every other parsed field is copied unchanged and unchecked |
| `Generation.CreateQuizSucceeds` | src/anthropic-api.ts:35-53 | when the first content block is text whose fence-stripped form parses, the record carries the parsed title, slug and items, and the webpage id when no `sourceId` was parsed |
| `Generation.CreateQuizRejectsNonText` | src/anthropic-api.ts:40-42 | a first content block that is not text is an error, and no record is produced |
| `Generation.CreateQuizReadsOnlyTitleAndText` | src/anthropic-api.ts:7-39 | pages that agree on id, title and text get the same outcome: no other webpage field reaches the model |
| `Generation.PromptedFormatLacksSlug` | src/anthropic-api.ts:14-25 | a parsed reply without `slug` (the format the prompt asks for) is rejected by the quiz insert |
| `Server.First` | src/server.ts:73-78 | a found row is in the table and matches; nothing is found only when no row matches |
| `Server.FindOrInsertWebpage` | src/server.ts:73-91 | an existing row for the url is reused with nothing inserted; otherwise at most one webpage, carrying the url, is appended; a failure changes nothing; keeps `WellFormed` and one webpage per url |
| `Server.FindOrInsertQuiz` | src/server.ts:93-110 | an existing quiz for the webpage is answered by id with nothing inserted; otherwise the record `createQuiz` builds is inserted as the one new row and its id answered exactly when generation and the insert both succeed, and nothing changes when either fails; keeps `WellFormed` |
| `Server.HandleCreate` | src/server.ts:65-115 | a missing or empty url gives 400 and no change; for a non-empty url every failure is the 500 with a fixed message; an answered id names a stored quiz; both tables only grow, by at most one row each; `WellFormed` and one webpage per url are preserved |
| `Server.JoinQuizWithSource` | src/server.ts:36-45 | a joined row pairs the quiz with that id and the webpage its `sourceId` names; in a well-formed database a row exists exactly when a quiz with that id exists |
| `Server.QuizServer.PostCreateQuiz` | src/server.ts:65-115 | updates the two tables and answers exactly as `HandleCreate` specifies, keeping the class invariant |
| `Server.QuizServer.GetQuiz` | src/server.ts:28-63 | an empty id gives 400; an id that is not a UUID makes the query fail (500); otherwise the quiz with that id comes back with url, title and favicon of its webpage, and a valid id with no stored quiz gives 404 |
| `Server.NoFetchForKnownUrl` | src/server.ts:73-91 | for a known url the outcome does not depend on the fetcher and no webpage is inserted |
| `Server.NewUrlInsertsOneWebpage` | src/server.ts:79-91 | for a new url with a fetched title, exactly one webpage with a new id is appended, carrying the url and the fetched title, text and favicon (null when none was fetched) |
| `Server.NewSourceInsertsOneQuiz` | src/server.ts:93-110 | for a page without a quiz, a generated record that the database accepts becomes the one new quiz row, and the create answers its id |
| `Server.GenerationFailureKeepsWebpage` | src/server.ts:79-113 | when generation fails (any of its errors) or the quiz insert is rejected after a new webpage was inserted, the answer is the fixed 500, the webpage row stays and no quiz is added |
| `Server.NoGenerationForKnownSource` | src/server.ts:93-108 | when the page already has a quiz, its id is answered with no change, whatever the model would do |
| `Server.CreateIsIdempotent` | src/server.ts:73-110 | after a successful create, the same url answers the same quiz id and changes neither table |
| `Server.WebpageStepRepeats` | src/server.ts:73-91 | repeating a successful webpage step finds the same row and inserts nothing |
| `Server.QuizStepRepeats` | src/server.ts:93-108 | provided the parsed reply carries no `sourceId` of its own, repeating a successful quiz step finds the same quiz and inserts nothing |
| `Server.CreateKeepsOneQuizPerSource` | src/server.ts:93-108 | a create never gives a page a second quiz |
| `Server.ParsedSourceIdBreaksOneQuizPerSource` | src/anthropic-api.ts:49-52 | for a known page without a quiz, a parsed `sourceId` naming a page that already has a quiz, with an insert that goes through, makes the create succeed with two quizzes for one page |
| `Server.ParsedSourceIdExample` | src/server.ts:65-115 | the premises of the lemma above hold for a well-formed two-page database with one quiz per page |
| `QuizPage.FindIndex` | src/frontend/Quiz.tsx:17 | the first position holding the value, or -1 exactly when it is absent |
| `QuizPage.PermutedSameMultiset` | src/frontend/Quiz.tsx:14-16 | reordering the options by a permutation keeps the same options with the same multiplicities |
| `QuizPage.ShuffleKeepsTheAnswer` | src/frontend/Quiz.tsx:12-19 | after the shuffle the options are a permutation of the old ones, a valid correct index points at the same option text, an out-of-range one becomes -1, and stem and snippet are unchanged |
| `QuizPage.RandomizeOptions` | src/frontend/Quiz.tsx:12-19 | every question of the array, and only those, is replaced in place by its shuffled form |
| `QuizPage.UnansweredResponses` | src/frontend/Quiz.tsx:46 | one unanswered response per question |
| `QuizPage.CorrectResponses` | src/frontend/Quiz.tsx:223 | keeps only responses marked correct, and every one of them as often as it occurs in the input |
| `QuizPage.Score` | src/frontend/Quiz.tsx:223 | the score never exceeds the number of responses; it is zero exactly when no response is correct and the number of responses exactly when all are |
| `QuizPage.NoneCorrect` | src/frontend/Quiz.tsx:223 | the filter keeps nothing exactly when no response is correct |
| `QuizPage.AllCorrect` | src/frontend/Quiz.tsx:223 | the filter keeps every response exactly when all are correct |
| `QuizPage.UnansweredScoresZero` | src/frontend/Quiz.tsx:130-136 | freshly reset responses score zero |
| `QuizPage.ScoreAfterAnswer` | src/frontend/Quiz.tsx:93-99 | recording one answer changes the score only by what the old and new responses at that position contribute |
| `QuizPage.SyncDecision` | src/frontend/Quiz.tsx:75-85 | `results=true` shows results; a `q` in 1..n selects question q-1, the only index ever selected; any other present `q` resets to `q=1`; a missing `q` changes nothing |
| `QuizPage.NextThenSync` | src/frontend/Quiz.tsx:121-128 | the next-question parameters, once synced, select the following question, or the results after the last one |
| `QuizPage.Toggled` | src/frontend/Quiz.tsx:139-147 | flips membership of the given index and of no other |
| `QuizPage.ToggleTwiceRestores` | src/frontend/Quiz.tsx:139-147 | toggling the same index twice restores the set |
| `QuizPage.Revealed` | src/frontend/Quiz.tsx:149-153 | the index is added and nothing is removed |
| `QuizPage.RevealIsIdempotent` | src/frontend/Quiz.tsx:149-153 | revealing the same index again changes nothing |
| `QuizPage.QuizView.constructor` | src/frontend/Quiz.tsx:26-35 | the initial state: question 0, no responses, results hidden, both sets and the instructions empty |
| `QuizPage.QuizView.ResultScore` | src/frontend/Quiz.tsx:223-231 | the score shown never exceeds the number of questions |
| `QuizPage.QuizView.Reload` | src/frontend/Quiz.tsx:37-55 | the fetched questions are shuffled and installed; one unanswered response each; both sets and the instructions emptied; `q=1` requested when neither parameter is set |
| `QuizPage.QuizView.SyncWithUrl` | src/frontend/Quiz.tsx:69-86 | applies the sync decision once a quiz is loaded; any new question index is within the quiz |
| `QuizPage.QuizView.SelectOption` | src/frontend/Quiz.tsx:93-99 | ignored before loading and on the results page; otherwise only the current question's response changes, to the chosen option and whether it equals the correct one |
| `QuizPage.QuizView.NextQuestion` | src/frontend/Quiz.tsx:121-128 | sets the parameters to the next 1-based question number, or to the results after the last question |
| `QuizPage.QuizView.Restart` | src/frontend/Quiz.tsx:130-137 | reshuffles the questions in place, resets responses, both sets and the instructions, and requests `q=1` |
| `QuizPage.QuizView.ToggleDeletion` | src/frontend/Quiz.tsx:139-147 | the scheduled set becomes its toggle at the index |
| `QuizPage.QuizView.RevealAnswer` | src/frontend/Quiz.tsx:149-153 | the revealed set gains the index |

## Left out

- The page fetcher, the language-model call and `JSON.parse` are oracle parameters
  (`Services`). Parsed JSON is taken as already typed fields. A parsed value that
  is not an object is the all-absent record.
- A JSON value of the wrong type for its column (a number as `items`, say) is not
  modelled.
- Concurrency: the read-then-insert sequences race when requests overlap. Requests
  here run one at a time.
- Express, morgan and ViteExpress setup, `server.listen`, argument parsing and
  environment variables.
- Random UUIDs are replaced by `FreshId`: 0 for an empty table, otherwise one more
  than the largest id in it.
- Both inserts of one request use the same `now` timestamp.
- Converting the path segment to a UUID is the oracle `uuidOf`.
- A `select ... limit 1` without an order may return any matching row. The model
  returns the first in insertion order.
- The particular database error (which constraint failed) cannot be seen in the
  model's answers, as in the handlers, which answer with a fixed message.
- Server.CreateIsIdempotent: assumes the parsed reply has no `sourceId` key of its
  own, because the record's spread lets such a key replace the webpage id.
  `ParsedSourceIdBreaksOneQuizPerSource` shows what happens without the assumption.
- Server.CreateKeepsOneQuizPerSource: same assumption, for the same reason.
- Server.QuizStepRepeats: same assumption, for the same reason.
- Logging is left out: the reply text printed in `createQuiz` and the errors both
  handlers print before answering.
- Quiz page rendering, scrolling, `setTimeout`, `fetch` and `navigate` are left out.
  So are the calls to the edit and publish endpoints, the loading and error flags,
  the instructions text box setter and the rounded percentage (floating point).
- The failed branch of `reloadQuiz` and the effect that decides when to reload (a
  slug comparison) are left out.
- `parseInt` is not modelled. `q` arrives already read as a number, as missing or
  empty, or as not a number.
- The random choice of `_.shuffle` is the permutation argument.
- The home page, routing, database configuration and shared type declarations hold
  no logic to model.
