# Job marketplace front end: listing, filtering and form rules

This project models the decision logic of four pages of a job-marketplace web client, then
proves properties of that model. Clients post jobs on the marketplace and workers apply for
them. Storage, authentication and queries live in a hosted backend; the pages fetch rows,
filter them in memory and write rows back. The model covers what the pages decide from those
rows:

- **Jobs page** (`jobs.dfy`, module `Jobs`):
  - the conjunctive filter: a case-insensitive search over title, description and location,
    AND the category drop-down, AND the status drop-down, with `"_all"` meaning "no filter";
  - the three tab partitions: all jobs minus the viewer's own, the viewer's jobs, and the jobs
    assigned to the viewer;
  - the page state as a class (`JobsPage`). Each event sets fields and then runs the
    filtering effect.
  - the filter reset on every tab change;
  - the status badge mapping and the job card's action button;
  - the guard order of applying for a job.
- **Workers page** (`workers.dfy`, module `Workers`): the case-insensitive search over full
  name, location, bio or any skill, and the effect that updates the shown list only once the
  workers are loaded.
- **Post-job form** (`post_job.dfy`, module `PostJob`): the authentication check, then the
  required fields. Then the single insert of an `"open"` job attributed to the user, the
  toast, the navigation and the `loading` flag.
- **Profile form** (`profile.dfy`, module `Profile`):
  - optional-row fetches, where "no row" (code `PGRST116`) means absent;
  - the prefill of the form from the fetched rows;
  - the comma-separated skills pipeline and its inverse, the `", "` join;
  - the ordered writes of a save: always the profile update first, then at most one worker
    write, an update or an insert.

Supporting modules:

- `seqs.dfy` (`Seqs`): order-preserving `filter`, `map` and the subsequence relation, with
  their lemmas. The lemmas are proved once and used by both listing pages.
- `text.dfy` (`Text`): the JavaScript string operations the pages use:
  - ASCII `toLowerCase`;
  - `includes`;
  - `trim` with the ECMAScript white-space set;
  - `split` on one character, and `join`;
  - the decimal `toString` of an integer.
- `wrappers.dfy` (`Wrappers`):
  - `Option` and `Result`;
  - JavaScript truthiness of nullable strings and numbers;
  - the "empty field becomes null" rule;
  - the toast and the single-row reply of the store.

Network effects are values. A write the page would issue is a `Write`, `NewJob` or lookup
value in the result. The store's reply to a write or lookup, and the clock, are inputs.
Navigation is a path, and a toast is its title, description and variant. Numeric columns are
kept as their decimal text.

Where the code and the intended behaviour disagree, the model follows the code:

- A worker with no joined profile is meant to render as "Anonymous". The worker search and
  card read `worker.profile.full_name` unconditionally
  (src/pages/Workers.tsx:75, src/pages/Workers.tsx:142). The model's `Worker` therefore
  always has a profile, and that profile always has a full name. The `full_name` column is
  nullable, as the profile form's own reads show (src/pages/Profile.tsx:119). For such a
  worker the source's search throws on every non-empty term, because `full_name.toLowerCase()`
  is evaluated first (src/pages/Workers.tsx:75). That crash is not part of the model.
- The visible job list is meant never to be stale. On the all-jobs tab, while the all-jobs
  query has no data (still loading, or failed), the effect leaves the previous list in place
  (src/pages/Jobs.tsx:215). This includes a list shown for another tab before the switch.
  `JobsPage.Recompute` and `Jobs.TabViewDefined` state this behaviour.
- A worker form with no category is meant to write nothing. The code has already written the
  basic profile by then (src/pages/Profile.tsx:143-165); `UpdateProfile` states this.
- The inserted job is meant to have `worker = null`. The insert does not name `worker_id` at
  all (src/pages/PostJob.tsx:97-105), so `NewJob` has no such field and the store's default
  applies.
- JavaScript truthiness is kept where the code relies on it:
  - an empty user id counts as "no user";
  - a category id of 0 counts as "not chosen";
  - an empty location never matches the job search.
- A profile or worker fetch that fails with an error other than "no row" throws, so the
  query's data stays undefined (src/pages/Profile.tsx:92, src/pages/Profile.tsx:110). The form
  then behaves exactly as if the row did not exist. A failed profile fetch leaves the basic
  fields blank, and a save writes those blanks back. A failed worker fetch makes a later save
  insert the worker row instead of updating it (`Profile.FailedWorkerFetchInserts`).

## Model

| member | source | states |
|---|---|---|
| Seqs.Filter | src/pages/Jobs.tsx:196 | `Array.prototype.filter`, kept in input order; what it keeps is stated by `Seqs.FilterMembership`, `Seqs.FilterIsSubsequence`, `Seqs.FilterKeepsAll` and `Seqs.FilterIdempotent` |
| Seqs.Map | src/pages/Profile.tsx:169 | `Array.prototype.map`: the result has the input's length, and each element is the image of the element at the same index |
| Seqs.FilterIsSubsequence | src/pages/Jobs.tsx:196-207 | the result of `filter` is a subsequence of its input: nothing added or reordered |
| Seqs.SubsequenceMultiset | src/pages/Jobs.tsx:196 | a subsequence is no longer and takes no element more often than its source, so filtering never adds copies |
| Seqs.SubsequenceTransitive | src/pages/Jobs.tsx:215-219 | two successive selections (own jobs removed, then filtered) are still a subsequence of the original list |
| Seqs.FilterMembership | src/pages/Jobs.tsx:196 | an element is kept exactly when it occurs in the input and satisfies the predicate |
| Seqs.FilterKeepsAll | src/pages/Jobs.tsx:196 | the filter returns its input unchanged exactly when every element satisfies the predicate |
| Seqs.FilterIdempotent | src/pages/Jobs.tsx:196 | filtering the filtered list again with the same predicate changes nothing |
| Seqs.FilterMonotone | src/pages/Workers.tsx:73 | a stronger predicate selects a subsequence of what a weaker predicate selects |
| Text.Lower | src/pages/Jobs.tsx:199 | `toLowerCase`, letter by letter on ASCII; its properties are `Text.LowerIdempotent` and `Text.LowerContains` |
| Text.Contains | src/pages/Jobs.tsx:199 | `includes`, the empty term occurring in every string; `Text.ContainsAt` ties it to the index-based definition |
| Text.ContainsAt | src/pages/Jobs.tsx:199 | the recursive `includes` agrees with "the term occurs at some index" |
| Text.ContainsTransitive | src/pages/Workers.tsx:75 | a block of a block of a string is a block of that string |
| Text.LowerContains | src/pages/Workers.tsx:75 | lower-casing both strings preserves occurrence |
| Text.LowerIdempotent | src/pages/Jobs.tsx:199 | lower-casing twice equals lower-casing once |
| Text.Trim | src/pages/Profile.tsx:169 | `trim` with the ECMAScript white-space and line-terminator set; what it removes is stated by `Text.TrimSlice`, `Text.TrimOfTrimmed` and `Text.TrimAfterSpace` |
| Text.TrimSlice | src/pages/Profile.tsx:169 | `trim` returns a block `s[i..j]` with only white space outside it, and the block starts and ends with non-white-space |
| Text.TrimOfTrimmed | src/pages/Profile.tsx:169 | a string without surrounding white space is its own trim |
| Text.TrimAfterSpace | src/pages/Profile.tsx:169 | the space the `", "` join puts before a clean item is removed again by `trim` |
| Text.Split | src/pages/Profile.tsx:168 | `split` on one character: always at least one piece, so `"".split(",")` is `[""]`; its inverse is `Text.JoinSplit` |
| Text.Join | src/pages/Profile.tsx:129 | `join`, with `[].join(sep)` equal to `""`; `Text.SplitJoin` inverts it for a one-character separator, `Profile.SplitJoinedPieces` for the `", "` join |
| Text.SplitPiecesSeparatorFree | src/pages/Profile.tsx:168 | no piece of `split(",")` holds a comma |
| Text.JoinSplit | src/pages/Profile.tsx:168 | joining the pieces of a split with the separator gives back the original string; the general partner of `Text.Split`, for any one-character separator |
| Text.SplitJoin | src/pages/Profile.tsx:168 | splitting after joining non-empty lists of separator-free pieces gives back the pieces; the general partner of `Text.Join` (the `", "` join the form uses is `Profile.SplitJoinedPieces`) |
| Text.NatToString | src/pages/Jobs.tsx:203 | decimal digits of a natural number: never empty, a digit first, at least two digits from 10 on |
| Text.IntToString | src/pages/Jobs.tsx:203 | `Number.prototype.toString` on an integer id: a `-` before the digits of a negative number; injective by `Text.IntToStringInjective` |
| Text.IntToStringInjective | src/pages/Jobs.tsx:203 | distinct integers print differently in decimal, so a printed id identifies its number |
| Jobs.MatchesSearch | src/pages/Jobs.tsx:197-201 | the search test: empty term, or the lower-cased term in the lower-cased title, description or non-empty location; stated by `Jobs.SearchIgnoresCase`, `Jobs.SearchWithoutLocation`, `Jobs.FilterJobsMembership` |
| Jobs.MatchesCategory | src/pages/Jobs.tsx:203 | `"_all"`, or the decimal form of the job's category id equals the drop-down value; stated by `Jobs.CategoryFilterSelectsId` |
| Jobs.MatchesStatus | src/pages/Jobs.tsx:204 | `"_all"`, or the job's status equals the drop-down value; stated by `Jobs.FilterJobsMembership` |
| Jobs.Keep | src/pages/Jobs.tsx:206 | the conjunction of the three tests; stated by `Jobs.FilterJobsMembership` |
| Jobs.FilterJobs | src/pages/Jobs.tsx:193-208 | `filterJobs`: an undefined list gives `[]`, otherwise the jobs passing `Keep`; stated by `Jobs.FilterJobsSubsequence`, `Jobs.FilterJobsMembership`, `Jobs.FilterJobsIdempotent`, `Jobs.NoFiltersIdentity` |
| Jobs.FilterJobsSubsequence | src/pages/Jobs.tsx:196-207 | `filterJobs` output is an order-preserving subsequence of its input and takes no job more often than the input does |
| Jobs.FilterJobsMembership | src/pages/Jobs.tsx:197-206 | a job is kept iff it matches the search AND the category AND the status |
| Jobs.FilterJobsIdempotent | src/pages/Jobs.tsx:196-207 | filtering twice with the same inputs equals filtering once |
| Jobs.NoFiltersIdentity | src/pages/Jobs.tsx:198-204 | empty term, category `"_all"` and status `"_all"` return the base list unchanged |
| Jobs.SearchIgnoresCase | src/pages/Jobs.tsx:199-201 | a term matches exactly when its lower-cased form matches |
| Jobs.SearchWithoutLocation | src/pages/Jobs.tsx:201 | a job with a null location is found by a non-empty term only through its title or description |
| Jobs.CategoryFilterSelectsId | src/pages/Jobs.tsx:203 | picking a category from the drop-down (its id printed in decimal) keeps exactly the jobs with that category id |
| Jobs.OtherJobs | src/pages/Jobs.tsx:216-218 | the all-jobs base: with a truthy user id the jobs posted by someone else, otherwise all jobs; stated by `Jobs.OtherJobsExcludesOwn`, `Jobs.OtherJobsInOrder`, `Jobs.OtherJobsWithoutViewer` |
| Jobs.OtherJobsExcludesOwn | src/pages/Jobs.tsx:216-217 | with a signed-in viewer, the all-jobs base holds exactly the jobs the viewer did not post |
| Jobs.OtherJobsInOrder | src/pages/Jobs.tsx:216-218 | the all-jobs base keeps the order of all jobs |
| Jobs.OtherJobsWithoutViewer | src/pages/Jobs.tsx:218 | with no user (or an empty id) the all-jobs base is every job |
| Jobs.TabView | src/pages/Jobs.tsx:210-221 | the effect's new list for the tab, or none when it leaves the list alone; stated by `Jobs.TabViewDefined`, `Jobs.TabViewSelects`, `Jobs.AllJobsTabHidesOwnJobs`, `Jobs.UndefinedListShowsNothing` |
| Jobs.Partition | src/pages/Jobs.tsx:210-219 | a tab's jobs before the three filters (undefined data counts as none); `Jobs.TabViewSelects` and `Jobs.ResetShowsPartition` relate it to `Jobs.TabView` |
| Jobs.TabViewDefined | src/pages/Jobs.tsx:210-221 | the effect leaves the list alone exactly on the all-jobs tab while `allJobs` is undefined |
| Jobs.UndefinedListShowsNothing | src/pages/Jobs.tsx:194 | on the my-jobs and assigned-jobs tabs an undefined list yields the empty list |
| Jobs.TabViewSelects | src/pages/Jobs.tsx:210-221 | on every tab a new visible list is an ordered subsequence of the tab's partition whose members are exactly its matching jobs |
| Jobs.AllJobsTabHidesOwnJobs | src/pages/Jobs.tsx:214-219 | on the all-jobs tab a signed-in viewer never sees a job they posted, and the list keeps the order of all jobs |
| Jobs.ResetShowsPartition | src/pages/Jobs.tsx:226-229 | with the filters reset, a tab whose data is there shows its whole partition |
| Jobs.JobsPage.constructor | src/pages/Jobs.tsx:55-60 | initial page state: no user, all-jobs tab, empty term, both drop-downs `"_all"`, empty list, no data |
| Jobs.JobsPage.Recompute | src/pages/Jobs.tsx:186-222 | the effect sets the list to the current view, or leaves it unchanged when the view is undefined |
| Jobs.JobsPage.HandleTabChange | src/pages/Jobs.tsx:224-234 | after a tab change the tab is the new one, the term is `""`, both drop-downs are `"_all"`, the list is the new tab's whole partition (when loaded), and that tab's query is refetched |
| Jobs.JobsPage.SetSearchTerm | src/pages/Jobs.tsx:266 | typing changes only the term, and the list follows the new view |
| Jobs.JobsPage.SetCategoryFilter | src/pages/Jobs.tsx:275 | choosing a category changes only that filter, and the list follows the new view |
| Jobs.JobsPage.SetStatusFilter | src/pages/Jobs.tsx:289 | choosing a status changes only that filter, and the list follows the new view |
| Jobs.JobsPage.SignedIn | src/pages/Jobs.tsx:62-71 | a found session sets the user id, and the list follows the new view |
| Jobs.JobsPage.JobsLoaded | src/pages/Jobs.tsx:85-184 | a query delivering data sets only that query's list, and the visible list follows the new view |
| Jobs.StatusBadgeClass | src/pages/Jobs.tsx:388-401 | `getStatusBadgeClass`; stated by `Jobs.StatusBadges` |
| Jobs.StatusBadges | src/pages/Jobs.tsx:388-401 | unknown statuses get the gray default; the four statuses get four distinct non-gray badges |
| Jobs.CardActionFor | src/pages/Jobs.tsx:471-482 | the card footer's button; stated by `Jobs.CardActionRule` |
| Jobs.CardActionRule | src/pages/Jobs.tsx:471-482 | the viewer's own job shows "Manage Job"; any other job's button is disabled iff the status is not `"open"`, and exactly then reads "Not Available" |
| Jobs.ClientName | src/pages/Jobs.tsx:107 | a failed lookup or a missing or empty name attaches null, never an empty name |
| Jobs.PostedBy | src/pages/Jobs.tsx:443 | "Posted by" shows the attached name whenever it is truthy, and "Anonymous" exactly when it is not; it is never empty |
| Jobs.ApplyForJob | src/pages/Jobs.tsx:403-434 | `applyForJob`: the auth guard, the worker-row lookup, the toast and the navigation, given the store's reply; stated by `Jobs.ApplyGuardOrder` |
| Jobs.ApplyGuardOrder | src/pages/Jobs.tsx:403-434 | no user: redirect to `/auth`, no worker lookup, independent of anything the store would say; with a user, the lookup is of that user's id; a missing row or an error redirects to `/profile`; the success toast comes exactly when a row is found, and then there is no navigation |
| Workers.SomeSkillContains | src/pages/Workers.tsx:78-80 | `skills.some(...)`: some skill, lower-cased, contains the term; used by `Workers.SearchWorkersMembership` |
| Workers.MatchesWorker | src/pages/Workers.tsx:74-80 | the worker test of the search over full name, location, bio and skills; stated by `Workers.SearchWorkersMembership`, `Workers.NoSkillsMatch`, `Workers.MatchesNarrow` |
| Workers.SearchWorkers | src/pages/Workers.tsx:72-83 | the list the effect sets: the workers themselves for the empty term, otherwise the matching ones; stated by `Workers.EmptyTermShowsAll`, `Workers.SearchWorkersSubsequence`, `Workers.SearchNarrows` |
| Workers.EmptyTermShowsAll | src/pages/Workers.tsx:72-82 | the empty term shows the fetched workers exactly |
| Workers.SearchWorkersSubsequence | src/pages/Workers.tsx:73 | the shown workers are an order-preserving subsequence of the fetched ones, and none is shown more often than it was fetched |
| Workers.SearchWorkersMembership | src/pages/Workers.tsx:73-81 | for a non-empty term a worker is shown iff the term occurs, ignoring case, in full name, location, bio or some skill |
| Workers.NoSkillsMatch | src/pages/Workers.tsx:78 | a worker with no skills matches only through name, location or bio |
| Workers.MatchesNarrow | src/pages/Workers.tsx:75-80 | a worker matching a term matches every block of that term |
| Workers.SearchNarrows | src/pages/Workers.tsx:75-80 | if t is a substring of t′, the list for t′ is a subsequence of the list for t |
| Workers.WorkersPage.constructor | src/pages/Workers.tsx:39-40 | initial state: no workers, empty term, empty list |
| Workers.WorkersPage.Refresh | src/pages/Workers.tsx:69-85 | the effect overwrites the shown list only while the workers are defined |
| Workers.WorkersPage.SetSearchTerm | src/pages/Workers.tsx:108 | typing updates the term, and the shown list follows once the workers are defined |
| Workers.WorkersPage.WorkersLoaded | src/pages/Workers.tsx:62-65 | delivered workers are stored, and the shown list becomes the search result over them |
| Wrappers.EmptyToNull | src/pages/PostJob.tsx:102 | an empty numeric field becomes null (never zero); any other text is sent on unchanged |
| Wrappers.EmptyToNullRestores | src/pages/Profile.tsx:127-128 | prefilling an optional number (`x?.toString()`, or `""` when null) and saving the text back restores the column, unless it held `""` |
| PostJob.Validate | src/pages/PostJob.tsx:72-89 | the two guards of `handleSubmit`, in order; stated by `PostJob.ValidationLadder` |
| PostJob.ValidationLadder | src/pages/PostJob.tsx:72-89 | without a user the result is `AuthRequired` whatever the fields hold; with a user the form is rejected iff title, description or category is missing |
| PostJob.NewJobRecord | src/pages/PostJob.tsx:96-105 | the inserted row; stated by `PostJob.InsertedJobRecord` |
| PostJob.InsertedJobRecord | src/pages/PostJob.tsx:96-105 | every inserted job: status `"open"`; poster is the signed-in user; chosen non-zero category; non-empty title and description; null budget exactly when the field was empty; location exactly as typed |
| PostJob.PostJobForm.constructor | src/pages/PostJob.tsx:31-41 | initial form: empty fields, no category, not loading |
| PostJob.PostJobForm.HandleSubmit | src/pages/PostJob.tsx:69-125 | no user: redirect to `/auth`, no insert; missing field: "Required fields missing", no insert; `loading` untouched in both. Otherwise exactly one insert of the record, then `/jobs` on success or the error toast and no navigation on failure, and `loading` false in both cases |
| Profile.FetchOptionalRow | src/pages/Profile.tsx:86-93 | the query function of both row fetches (also src/pages/Profile.tsx:104-111); stated by `Profile.FetchOptionalRowOutcome` |
| Profile.FetchOptionalRowOutcome | src/pages/Profile.tsx:86-93 | the fetch fails exactly on an error other than `PGRST116`; "no row" yields absent data, not an error |
| Profile.LoadedRow | src/pages/Profile.tsx:92-93 | the query's data once the fetch settled: the fetched row, or nothing when the query function threw; stated by `Profile.LoadedRowOutcome` |
| Profile.LoadedRowOutcome | src/pages/Profile.tsx:92-93 | the form sees a row exactly when the store returned one with no error other than `PGRST116`; a real error leaves no row |
| Profile.FailedWorkerFetchInserts | src/pages/Profile.tsx:110 | a worker fetch that failed with a real error makes the save's worker write an insert |
| Profile.SkillsArray | src/pages/Profile.tsx:167-170 | the skills pipeline: split on commas, trim, drop empty entries; stated by `Profile.SkillsArrayClean`, `Profile.SkillsRoundTrip`, `Profile.SkillsStable` |
| Profile.JoinSkills | src/pages/Profile.tsx:129 | the skills prefill: the skills joined with `", "`, or `""` when null; `Profile.SkillsRoundTrip` and `Profile.SkillsStable` show the pipeline inverts it |
| Profile.SkillsArrayClean | src/pages/Profile.tsx:167-170 | the pipeline output has no empty entries; every entry is trimmed and comma-free; the entries keep the input order; a string is in the output exactly when it is a non-empty trimmed piece of the input |
| Profile.SplitJoinedPieces | src/pages/Profile.tsx:168 | splitting a `", "`-joined list on commas yields one piece per item: the first item, then each later item with one space in front |
| Profile.TrimPiece | src/pages/Profile.tsx:169 | `trim` returns a clean skill unchanged, with or without the space the join put in front of it |
| Profile.TrimJoinedPieces | src/pages/Profile.tsx:129 | trimming the comma pieces of a `", "`-joined list of clean skills gives back the list |
| Profile.SkillsRoundTrip | src/pages/Profile.tsx:167-170 | non-empty, trimmed, comma-free skills joined with `", "` come back unchanged from split/trim/filter |
| Profile.SkillsStable | src/pages/Profile.tsx:129 | prefilling from a saved skill list and saving again stores the same list |
| Profile.WorkerWrite | src/pages/Profile.tsx:185-198 | the choice between update and insert; stated by `Profile.WorkerWriteChoice` |
| Profile.WorkerWriteChoice | src/pages/Profile.tsx:185-198 | the worker write is an update iff a worker row was fetched, an insert otherwise, with the same record |
| Profile.ProfileForm.WorkerData | src/pages/Profile.tsx:172-182 | the worker record built from the form's fields; stated by `Profile.WorkerRecordFields` |
| Profile.WorkerRecordFields | src/pages/Profile.tsx:172-182 | the worker record: the user's id and the category; a null rate or experience exactly when that field is empty; the pipeline's clean skills |
| Profile.ProfileForm.constructor | src/pages/Profile.tsx:33-51 | initial form: empty fields, not a worker, `available` true, and neither row fetched yet |
| Profile.ProfileForm.PrefillProfile | src/pages/Profile.tsx:118-123 | null profile columns become `""`, and a null worker flag becomes false |
| Profile.ProfileForm.PrefillWorker | src/pages/Profile.tsx:125-133 | null worker columns become `""`; skills are joined with `", "`; `available` is set to true whatever was stored |
| Profile.ProfileForm.Prefill | src/pages/Profile.tsx:117-134 | a fetched row fills its fields; an absent row leaves them alone |
| Profile.ProfileForm.RowsLoaded | src/pages/Profile.tsx:81-134 | the queries hold `LoadedRow` of their replies, and the prefill then fills the fields of each row that is there; a failed or empty fetch leaves its fields as they were |
| Profile.ProfileForm.UpdateProfile | src/pages/Profile.tsx:136-214 | no user: no write, no toast. Otherwise the profile update is the first write and `loading` ends false. A profile error stops there. Worker flag off: no worker write. Flag on with no category: no worker write and the category toast. Flag on with a category: exactly one worker write, an update or an insert by the fetched row. The profile row is stamped with the first clock reading, the worker row with the second |

## Left out

- Calls to the hosted store (Supabase) are not modelled: queries, inserts, updates and the
  session lookup. So are react-query caching, `enabled` flags and loading states. Replies,
  errors and the session's user id are inputs; writes are values.
- The per-job poster lookups (src/pages/Jobs.tsx:98-110, 132-144, 167-179) are concurrent
  fan-out. Only their result is modelled: an optional name (`Jobs.ClientName`).
- The server-side restrictions of the queries are not modelled: `client_id = user` and
  `worker_id = user` for the my-jobs and assigned-jobs tabs, and `available = true` plus the
  category scope on the workers page. The model takes the lists as delivered.
- `parseFloat`, `parseInt` and `Number.prototype.toString` on non-integers are floating-point
  and number parsing. Numeric fields are their decimal text; only "empty ⇒ null" is modelled.
- `formatDate` (src/pages/Jobs.tsx:379-386) depends on locale date formatting.
- Capitalising the status label (src/pages/Jobs.tsx:447) and the rest of the JSX are
  rendering only.
- Toasts are modelled as title/description/variant values only. Navigation is a path.
- The redirect to `/auth` on mount when there is no session
  (src/pages/PostJob.tsx:43-54, src/pages/Profile.tsx:53-64) lives in the session lookup.
- The clock is not modelled. `UpdateProfile` takes its two readings as the parameters
  `profileNow` and `workerNow`, one per `new Date()` (src/pages/Profile.tsx:150,
  src/pages/Profile.tsx:181). The model does not relate the two; in particular, it does not
  say that the second is later.
- The two row queries settle separately, and the prefill effect runs after each
  (src/pages/Profile.tsx:117-134). `ProfileForm.RowsLoaded` takes both replies at once. Both
  orders end in the same fields, because the effect re-applies both rows each time it runs.
- Superseded fetch results, the check-then-act race of the worker insert/update, and all other
  concurrency are out of scope.
- Workers.WorkerProfile: the full name is a string, never null. With a null `full_name` the
  source's search throws a TypeError for every non-empty term (src/pages/Workers.tsx:75). The
  model instead filters, so `Workers.SearchWorkers` does not capture that crash.
- `console.log` calls (src/pages/Jobs.tsx:187-191) only write to the console.
- Strings are sequences of Unicode scalar values here, while JavaScript's `includes`, `split`,
  `trim` and `toLowerCase` work on UTF-16 code units. The two agree on every string without
  characters outside the Basic Multilingual Plane. For other strings, positions and lengths
  are not those of JavaScript.
- The static pages and components (src/pages/Index.tsx, src/components/*.tsx) hold no logic.
- Text.Lower: lower-cases ASCII letters only; full Unicode case mapping is not modelled, so the
  search properties hold for that lowercase function.
- Text.Trim: removes the ECMAScript white-space and line-terminator set as of the standard;
  it does not track later Unicode changes to the space-separator category.
