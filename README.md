# AIWriteCheck submission pages, modelled in Dafny

AIWriteCheck lets a signed-in user paste a text, get an AI-influence and
quality assessment of it, and keep every assessed text as a submission in a
Firestore collection. Two pages hold all of its logic:

- **The text-analysis page** (`src/pages/TextAnalysis.jsx`) is a form with
  five state fields: `title`, `text`, `analyzing`, `error` and `results`. Its
  submit handler refuses texts under 100 characters, counted as JavaScript
  counts them (UTF-16 code units). Otherwise it clears the
  error, marks the page as analysing, obtains an analysis, writes one
  submission document and shows the result, or shows a retry message. It
  always ends with `analyzing` false.
- **The progress page** (`src/pages/Progress.jsx`) loads the user's
  documents into records. A missing `createdAt` becomes "now" and a missing
  `updatedAt` becomes null. The page offers five filters over the records
  (`all`, `high-ai`, `low-ai`, `high-score`, `updated`), two averages in which
  a missing number counts as 0, and threshold bands for display.

The model has five modules:

- `Wrappers` holds `Option`, which stands for `undefined`/`null` and for
  external steps that fail.
- `Records` holds the document shapes the two pages exchange, plus the
  store's create step.
- `Progress` holds the progress page: pure functions for the filters,
  averages and bands, and a `ProgressPage` class whose `FetchSubmissions`
  updates `submissions`, `loading` and `error`.
- `TextAnalysis` holds the analysis page as a `TextAnalysisPage` class, whose
  handlers update its fields step by step, plus the pure record, title,
  enablement and label functions.
- `Lifecycle` connects the two pages. It shows that a written submission
  reads back as an unrevised record with the same text and scores, and that
  both pages band AI influence at the same thresholds.

JavaScript numbers are Dafny `real`s, so the averages are exact. External
steps are parameters of the handlers: the Firestore query, the scorer, the
store write and the signed-in user. Each may fail, and a failure is `None`.

The source contains no usage metering, plan tiers or quota gate, and no
revision operation. The model follows the code, so it has none of them. The
default title is `'Untitled Analysis'`, as the code writes it.

## Model

| member | source | states |
|---|---|---|
| Progress.ToSubmission | src/pages/Progress.jsx:29-34 | the record keeps the document's id and every other field, including readability score, suggestions and strengths; `createdAt` is the document's own when present and `now` otherwise; `updatedAt` is absent exactly when the document has none |
| Progress.CollectSubmissions | src/pages/Progress.jsx:27-35 | the push loop yields one record per document, same length, same order, record i built from document i |
| Progress.ProgressPage.constructor | src/pages/Progress.jsx:11-14 | initial state: no submissions, loading, no error, filter `all` |
| Progress.ProgressPage.FetchSubmissions | src/pages/Progress.jsx:17-44 | on a successful query the list is the mapped snapshot and the error is untouched; on failure the list is kept and the load-failure message is set; loading is false either way; the filter is unchanged |
| Progress.ProgressPage.SetFilter | src/pages/Progress.jsx:160 | only the filter key changes |
| Progress.FilteredSubmissions | src/pages/Progress.jsx:49-56 | `all` and any unrecognised key return the list unchanged |
| Progress.WhereKeepsOrder | src/pages/Progress.jsx:51-54 | array filtering yields a subsequence of the input whose every element passes the test |
| Progress.WhereCounts | src/pages/Progress.jsx:51-54 | array filtering keeps each passing element exactly as often as the input has it and drops every failing one |
| Progress.FilterSelectsExactlyMatching | src/pages/Progress.jsx:51-54 | each of `high-ai` (> 50), `low-ai` (<= 20), `high-score` (>= 8) and `updated` (updatedAt present) keeps the input order and holds exactly the passing submissions, with their multiplicities |
| Progress.HighAndLowAiDisjoint | src/pages/Progress.jsx:51-52 | no submission is in both the `high-ai` and `low-ai` lists; one without an AI-influence value is in neither |
| Progress.UpdatedFilterSelectsRevisedDocs | src/pages/Progress.jsx:28-54 | after loading, the `updated` filter shows exactly the records of the documents that carry `updatedAt`, in snapshot order |
| Progress.AverageOf | src/pages/Progress.jsx:59-66 | an empty list averages to 0; otherwise the average times the length is the left-to-right sum with missing values counted as 0 |
| Progress.AverageScores | src/pages/Progress.jsx:58-68 | an empty list gives `avgScore = 0` and `avgAiInfluence = 0`; otherwise each average is its metric's average |
| Progress.AveragesOfThree | src/pages/Progress.jsx:61-66 | scores 6, 8, 10 with AI influence 10, 30, 80 average to 8 and 40 |
| Progress.MinMetric | src/pages/Progress.jsx:61-62 | the smallest per-item value (missing as 0) is attained and bounds every item from below |
| Progress.MaxMetric | src/pages/Progress.jsx:61-62 | the largest per-item value (missing as 0) is attained and bounds every item from above |
| Progress.TotalBounded | src/pages/Progress.jsx:61-62 | if every item lies in [lo, hi], the sum lies in [lo·n, hi·n] |
| Progress.AverageBounded | src/pages/Progress.jsx:61-66 | if every item of a non-empty list lies in [lo, hi], so does its average |
| Progress.AverageWithinExtremes | src/pages/Progress.jsx:61-66 | each average of a non-empty list lies between the minimum and maximum per-item value |
| Progress.QualityMessage | src/pages/Progress.jsx:115-121 | quality message: Excellent iff >= 8, Good iff in [6, 8), improvement iff < 6 (total and disjoint) |
| Progress.OriginalityMessage | src/pages/Progress.jsx:136-142 | AI message: high originality iff <= 20, moderate iff in (20, 50], significant iff > 50 (total and disjoint) |
| Progress.AiBadge | src/pages/Progress.jsx:219-225 | red iff AI influence present and > 50, yellow iff present and in (20, 50], green otherwise, including when missing |
| Progress.AiBadgeText | src/pages/Progress.jsx:226 | the badge shows the percentage iff the value is present and non-zero, otherwise "N/A" |
| Progress.StatusOf | src/pages/Progress.jsx:230-238 | the status is Revised iff `updatedAt` is present, otherwise Original |
| Progress.UpdatedFilterShowsRevised | src/pages/Progress.jsx:54 | every record under the `updated` filter shows Revised, and every Revised record of the list is under it |
| TextAnalysis.PersistedTitle | src/pages/TextAnalysis.jsx:59 | the stored title is never empty: the user's title when non-empty, otherwise `Untitled Analysis` |
| TextAnalysis.PersistedRecord | src/pages/TextAnalysis.jsx:57-67 | the document carries the user's id, exactly the submitted text, the defaulted title, and the analysis' AI influence, score, readability score, suggestions and strengths unchanged |
| TextAnalysis.Utf16Length | src/pages/TextAnalysis.jsx:23 | `text.length` counts UTF-16 code units: between the number of characters and twice it, and equal to it when every character is in the Basic Multilingual Plane |
| TextAnalysis.AstralTextLength | src/pages/TextAnalysis.jsx:23 | a text made only of characters above U+FFFF has twice as many code units as characters |
| TextAnalysis.SubmitEnabled | src/pages/TextAnalysis.jsx:136 | the submit button is enabled iff not analysing and the text has at least 100 UTF-16 code units |
| TextAnalysis.SixtyEmojiEnableSubmit | src/pages/TextAnalysis.jsx:136 | a text of 60 emoji (120 code units) enables the submit button |
| TextAnalysis.AiInfluenceLevel | src/pages/TextAnalysis.jsx:172-188 | the result is High iff > 50, Moderate iff in (20, 50], Low iff <= 20 |
| TextAnalysis.TextAnalysisPage.constructor | src/pages/TextAnalysis.jsx:12-16 | the form starts empty, not analysing, with no error and no results |
| TextAnalysis.TextAnalysisPage.SetTitle | src/pages/TextAnalysis.jsx:110 | only the title changes |
| TextAnalysis.TextAnalysisPage.SetText | src/pages/TextAnalysis.jsx:124 | only the text changes |
| TextAnalysis.TextAnalysisPage.HandleSubmit | src/pages/TextAnalysis.jsx:20-80 | under 100 UTF-16 code units, only the error changes (to the length message): nothing is scored or written, and `analyzing` and `results` keep their values. Otherwise the page is error-free and analysing while the scorer runs. One document is handed to the store exactly when a score and a signed-in user exist. On a stored write, `results` is the store's id plus the analysis. On any failure, the error is the retry message and `results` is untouched. `analyzing` ends false. Title and text never change |
| TextAnalysis.TextAnalysisPage.HandleNewAnalysis | src/pages/TextAnalysis.jsx:82-86 | title and text become empty and results unset; error and analysing are untouched |
| TextAnalysis.TextAnalysisPage.ClearText | src/pages/TextAnalysis.jsx:152 | only the text becomes empty |
| TextAnalysis.SubmitScenario | src/pages/TextAnalysis.jsx:57-72 | on a fresh form with a long enough text and an untitled submission, the button is enabled. The written document has the default title, and the results show the store's id and the analysis |
| Lifecycle.LevelMatchesBadge | src/pages/TextAnalysis.jsx:173-188 | the analysis page's High/Moderate/Low label and the progress page's red/yellow/green badge band every AI-influence value alike |
| Lifecycle.WrittenSubmissionReadsBack | src/pages/TextAnalysis.jsx:57-67 | a written document, created by the store at time `at`, loads back with `createdAt = at`. It is Original and outside the `updated` filter. It keeps the user, the text, the defaulted title and both scores, and it is banded as on the analysis page |
| Lifecycle.FreshSnapshotHasNoRevisions | src/pages/Progress.jsx:33 | a snapshot whose documents have no `updatedAt` shows nothing under the `updated` filter |

## Left out

- Firestore I/O is left out: the query, its `where`/`orderBy`, `getDocs` and `addDoc`. The query's outcome and the store's id are parameters, and `None` means the call threw. The newest-first order is the database's work, not the page's, so it is not modelled.
- `serverTimestamp()` is left out: the store's create step (`Records.Created`) receives the creation time as a parameter.
- The placeholder scorer is left out: `Math.random`, the 1.5-second delay and the fixed suggestion and strength lists. The scorer's outcome is a parameter and may be a failure.
- The signed-in user is a parameter. A missing user makes building the document throw, which is modelled as a failure after scoring.
- Progress.ToSubmission: a stored field named `id` would replace the document id, because the source spreads the document data after `id`. The modelled document data has no such field, so the record always carries the document id.
- Progress.ToSubmissions: every document without `createdAt` gets the same `now`. The source reads the clock separately for each such document, so their times may differ by the moments between reads.
- Floating point is left out: averages are exact `real`s, and `toFixed` and `toLocaleDateString` formatting is not modelled.
- JavaScript truthiness corner cases are left out. `|| 0` also maps NaN to 0; the model has no NaN.
- A field stored as `null` is modelled the same as a missing one. In JavaScript, `null <= 20` is true, so such a record would pass the `low-ai` filter; the model treats it as absent, so it does not.
- React rendering is left out: the table cells for title (`'Untitled'`), date and score, the fixed-index rendering of `suggestions[0..3]` and `strengths[0..2]`, navigation and `preventDefault`.
- React batches state updates asynchronously. The model applies each update in program order. The intermediate state while scoring is exposed as the ghost result `whileScoring`.
- The header, help page and authentication context are not part of this model: they contain navigation, static content and thin wrappers over Firebase Auth.
