# Job tracker: cache, board and form logic

This project models the decision and state logic of a kanban job-application tracker:

- the client-side job cache, with its optimistic updates and rollback (`JobStore`);
- the board's grouping of jobs into four status columns, and its drag handlers (`Board`);
- the add/edit form: how it is filled and what a submit dispatches (`JobModal`);
- the analytics counts (`Analytics`);
- the light/dark theme store and the root class list it keeps in line (`ThemeStore`).

Calls to the remote database are parameters of the methods:

- a fetch response, which is either a failure or the returned rows;
- the signed-in user, or none;
- `ok`, whether the insert, update or delete succeeded.

Generated values are parameters as well:

- `tempId` stands for the uuid, and `AddJob` requires that no cached job already has it;
- `now` stands for `Date.now()` and `nowIso` for `toISOString()`;
- the fetch takes a `toMillis` function in place of `new Date(s).getTime()`.

Each store action is one atomic method. The list transforms it uses are pure functions, and the lemmas state what those transforms keep and change.

Behaviour worth noting:

- Signed out, `addJob` returns after its optimistic insert, so the new job stays in the cache and nothing is inserted (store/useJobStore.ts:89-93). See `JobStore.JobState.AddJob`.
- `updateJob` does not require the id to be cached. An unknown id leaves the list unchanged, and the remote update is still sent (`JobStore.MapMatchingAbsent`).
- The update payload leaves out a title, company, status or priority that is present but empty. In that case the cache changes and the table does not (`JobStore.FalsyTitleNotSent`).
- `fetchJobs` keeps the rows in the order the server returns them. The client never sorts them.

## Model

| member | source | states |
|---|---|---|
| JobStore.MapRows | store/useJobStore.ts:57-71 | fetched rows map one to one onto cached jobs, in the same order, keeping ids and status, with both timestamps converted |
| JobStore.MapRow | store/useJobStore.ts:57-71 | a mapped job has the row's id and status and the converted timestamps |
| JobStore.JobState.constructor | store/useJobStore.ts:37-38 | the store starts with no jobs and `loading` false |
| JobStore.JobState.StartFetch | store/useJobStore.ts:41 | `loading` becomes true and the list is unchanged |
| JobStore.JobState.FinishFetch | store/useJobStore.ts:47-73 | `loading` becomes false on both paths; on error the list is unchanged; on success it is exactly the mapped rows |
| JobStore.JobState.FetchJobs | store/useJobStore.ts:40-74 | the whole fetch: `loading` ends false, the list is kept on error and replaced by the mapped rows on success; rows with distinct ids give a cache with distinct ids, and a failed fetch keeps the ids as distinct as they were |
| JobStore.NewJob | store/useJobStore.ts:80-87 | the optimistic job has id `tempId` and `createdAt == updatedAt == now`, whatever the argument carried, and no owner |
| JobStore.InsertRow | store/useJobStore.ts:97-111 | the insert row carries `tempId`, the user's id and `nowIso` as both timestamps |
| JobStore.InsertThenFetch | store/useJobStore.ts:95-111 | fetching back the inserted row yields the cached job plus its owner, when the clock reads back `now` |
| JobStore.JobState.AddJob | store/useJobStore.ts:76-122 | the new job is at the front and the old list follows; signed out, no insert is issued and the job stays; a failed insert gives back the old list; `loading` untouched; ids stay distinct, since the new id is fresh |
| JobStore.RollbackAddKeepsOthers | store/useJobStore.ts:115-119 | removing the fresh `tempId` drops only the added job and keeps the jobs before and after it, including ones added in the meantime, in order |
| JobStore.WithoutId | store/useJobStore.ts:160-162 | the filtered list is no longer than the input, and no remaining job has the deleted id |
| JobStore.WithoutIdMembers | store/useJobStore.ts:160-162 | a job remains exactly when it was cached and its id differs |
| JobStore.WithoutIdAppend | store/useJobStore.ts:160-162 | filtering distributes over concatenation, so remaining jobs keep their order |
| JobStore.WithoutAbsentId | store/useJobStore.ts:118 | removing an id that no job has leaves the list as it was |
| JobStore.DeleteRemovesOne | store/useJobStore.ts:159-162 | with unique ids, deleting a cached id shortens the list by exactly one |
| JobStore.JobState.DeleteJob | store/useJobStore.ts:158-173 | on success the list is the filtered snapshot; on failure it is exactly the snapshot from the start of the call; ids stay distinct |
| JobStore.MapMatching | store/useJobStore.ts:127-131 | the mapped list keeps the length, keeps every job whose id differs, and transforms every job whose id matches |
| JobStore.MapMatchingAbsent | store/useJobStore.ts:127-131 | an update or move of an id not in the cache leaves the list unchanged |
| JobStore.FetchKeepsUniqueIds | store/useJobStore.ts:57-71 | rows with distinct ids map to jobs with distinct ids |
| JobStore.DeleteKeepsUniqueIds | store/useJobStore.ts:160-162 | filtering out an id keeps the remaining ids distinct |
| JobStore.UpdateKeepsUniqueIds | store/useJobStore.ts:127-131 | an update whose patch does not set `id` keeps ids distinct |
| JobStore.MoveKeepsUniqueIds | store/useJobStore.ts:177-181 | a move keeps ids distinct |
| JobStore.Merge | store/useJobStore.ts:129 | every column of the merged job is the patch's value when the key is present and the job's own otherwise, and `updatedAt` is `now` whatever the patch says |
| JobStore.UpdateMatching | store/useJobStore.ts:127-131 | the optimistic update keeps the length and every other job, and merges the patch into each job with the id |
| JobStore.UpdateMergesPresentKeys | store/useJobStore.ts:127-131 | in the updated list, the matching job has, in every column, the patch's value when the key is present and its own value otherwise, including `id`, `createdAt` and `userId`; `updatedAt` is `now` |
| JobStore.UpdateIdempotent | store/useJobStore.ts:127-131 | applying the same update twice gives the same list as applying it once |
| JobStore.BuildPayload | store/useJobStore.ts:134-145 | `updated_at` is always sent; title, company, status and priority exactly when truthy; the five texts exactly when defined; each with the patch's value; there is no other key |
| JobStore.PayloadAgreesWithMerge | store/useJobStore.ts:127-145 | every column the update sends carries the value the cache now shows for the job |
| JobStore.FalsyTitleNotSent | store/useJobStore.ts:129-137 | an empty title changes the cache but is not sent |
| JobStore.JobState.UpdateJob | store/useJobStore.ts:124-156 | the payload is always built and sent; on success the list is the merged snapshot; on failure it is exactly the snapshot; ids stay distinct when the patch does not set `id`, as no form submit does |
| JobStore.Moved | store/useJobStore.ts:179 | a moved job has the new status and `updatedAt = now` |
| JobStore.MoveMatching | store/useJobStore.ts:177-181 | the optimistic move keeps the length and every other job, and moves each job with the id |
| JobStore.MoveChangesOnlyStatus | store/useJobStore.ts:177-181 | a move keeps length and every other job; of the matching job it changes only status and `updatedAt` |
| JobStore.MovePayload | store/useJobStore.ts:185 | the move payload has exactly the keys status and `updated_at` |
| JobStore.MoveIsStatusOnlyUpdate | store/useJobStore.ts:175-186 | for a non-empty status, a move equals the update that sets only the status, both in the cache and on the wire |
| JobStore.JobState.MoveJob | store/useJobStore.ts:175-192 | the payload is sent; on success the list is the moved snapshot; on failure it is exactly the snapshot; ids stay distinct |
| Board.FindById | components/Board.tsx:89 | returns nothing exactly when no job has the id, and otherwise the first job with that id |
| Board.IsColumnId | components/Board.tsx:113 | an id names a column exactly when it is one of the four job statuses |
| Board.ColumnIdsAreStatuses | components/Board.tsx:52-57 | the column ids are exactly the four job statuses |
| Board.WithStatus | components/Board.tsx:77-81 | a bucket is no longer than the cache, and every job in it has the bucket's status |
| Board.JobsByColumn | components/Board.tsx:70-83 | the grouping has exactly the four column keys, and each bucket is the cache's jobs of that status |
| Board.WithStatusMembers | components/Board.tsx:77-81 | a job is in a bucket exactly when it is cached with that status |
| Board.WithStatusAppend | components/Board.tsx:77-81 | grouping distributes over concatenation, so each bucket keeps cache order |
| Board.ExactlyOneBucket | components/Board.tsx:71-81 | a cached job is in the bucket of its own status and in no other; a job with any other status is in no bucket |
| Board.BucketSizesSum | components/Board.tsx:70-83 | the four bucket sizes add up to the number of jobs with a valid status |
| Board.DragEndDecision | components/Board.tsx:98-129 | no target issues no move and clears `activeJob`; an unknown dragged job issues no move and keeps `activeJob`; any move is for the dragged job and changes its status |
| Board.DropOnColumn | components/Board.tsx:113-119 | dropping onto a column moves the job to it exactly when its status differs, and clears `activeJob` |
| Board.DropOnJob | components/Board.tsx:120-126 | dropping onto another job moves to that job's status exactly when the statuses differ; an id that matches no job moves nothing |
| Board.ColumnWinsOverJob | components/Board.tsx:113-126 | an id that is both a column id and a job id is read as the column |
| Board.DropMovesBetweenBuckets | components/Board.tsx:113-125 | a successful move takes the dragged job out of its old bucket and puts it, moved, into the new one |
| Board.BoardState.constructor | components/Board.tsx:41 | no job is being dragged at first |
| Board.BoardState.HandleDragStart | components/Board.tsx:87-91 | `activeJob` becomes the cached job with the active id, and stays as it was if there is none |
| Board.BoardState.HandleDragEnd | components/Board.tsx:98-129 | the store gets exactly the move the decision chooses, or nothing; `activeJob` is cleared exactly when the decision says so |
| Analytics.CountStatus | components/Analytics.tsx:10-13 | a status count is at most the number of jobs |
| Analytics.Summarize | components/Analytics.tsx:9-15 | the total is the number of jobs; each of the four counts is the size of the board column of that status; the acceptance rate is 0 exactly when there are no jobs, and otherwise is accepted over total |
| Analytics.CountIsBucketSize | components/Analytics.tsx:10-13 | each status count equals the size of the board bucket of that status |
| Analytics.AcceptedMatchesBoard | components/Analytics.tsx:10 | the accepted count equals the size of the board's Accepted column |
| Analytics.CountsSumToTotal | components/Analytics.tsx:10-13 | when every status is one of the four, the four counts add up to the total |
| JobModal.OrElse | components/JobModal.tsx:33-38 | the value when it is truthy, else the fallback (JavaScript `or` on a string) |
| JobModal.FormOf | components/JobModal.tsx:29-38 | opening on a job copies title, company and status; the priority is the job's, or Medium when it is empty; each optional text is the job's, or empty when absent |
| JobModal.JobForm.constructor | components/JobModal.tsx:16-24 | the form starts empty, with status Applied and priority Medium |
| JobModal.JobForm.Sync | components/JobModal.tsx:27-52 | closed, the form is unchanged; open on a job, it shows that job's fields; open for a new job, it is reset to the defaults |
| JobModal.PatchOf | components/JobModal.tsx:60-70 | the update carries the nine form fields and no id, timestamp or owner |
| JobModal.DraftOf | components/JobModal.tsx:75-78 | the add carries the nine form fields, every optional text defined, and `createdAt` set to the current time |
| JobModal.HandleSubmit | components/JobModal.tsx:56-81 | with an empty title or company there is no call and no close; otherwise exactly one update of the edited job's id with the nine fields, or one add with them, and then the modal closes |
| JobModal.EditThenReopen | components/JobModal.tsx:72-73 | after an edit, reopening the modal on that job shows exactly what was submitted |
| JobModal.AddThenReopen | components/JobModal.tsx:74-79 | opening the modal on the job just added shows exactly what was submitted |
| JobModal.SaveUnchanged | components/JobModal.tsx:29-73 | saving unchanged a valid job whose optional texts are all defined only stamps `updatedAt` |
| JobModal.EditPayload | components/JobModal.tsx:60-73 | the edit payload always has title, company and the five texts, and has status and priority exactly when they are non-empty |
| ThemeStore.Toggled | store/useThemeStore.ts:17 | toggling always gives the other theme |
| ThemeStore.ThemeState.constructor | store/useThemeStore.ts:15 | the initial theme is dark |
| ThemeStore.RemoveTokens | store/useThemeStore.ts:20 | no removed name is left, and the list does not grow |
| ThemeStore.RemoveTokensMembers | store/useThemeStore.ts:20 | a class remains exactly when it was present and is not one of the removed names |
| ThemeStore.RemoveTokensAppend | store/useThemeStore.ts:20 | removal distributes over concatenation, so the remaining classes keep their order |
| ThemeStore.RemoveTokensIdempotent | store/useThemeStore.ts:20 | removing the same names twice is the same as removing them once |
| ThemeStore.AddToken | store/useThemeStore.ts:21 | the added class is present afterwards |
| ThemeStore.ClassList.Remove | store/useThemeStore.ts:20 | the class list loses the named classes |
| ThemeStore.ClassList.Add | store/useThemeStore.ts:21 | the class list gains the class if it was missing |
| ThemeStore.WithThemeClass | store/useThemeStore.ts:19-21 | after a theme change the list holds the new theme's class and not the other theme's |
| ThemeStore.OtherClassesUntouched | store/useThemeStore.ts:19-21 | a theme change keeps every non-theme class, in order |
| ThemeStore.LastThemeWins | store/useThemeStore.ts:16-32 | the class list depends only on the last theme set: setting the same theme twice is idempotent |
| ThemeStore.ThemeState.ToggleTheme | store/useThemeStore.ts:16-24 | the theme flips, and the root shows the new theme's class and not the old one |
| ThemeStore.ThemeState.SetTheme | store/useThemeStore.ts:25-32 | the theme is the given one, and the root is brought in line with it |
| ThemeStore.ToggleTwice | store/useThemeStore.ts:16-24 | toggling twice restores the theme, and the class list is then the one the original theme gives |
| ThemeStore.ThemeState.Rehydrate | store/useThemeStore.ts:36-41 | a restored theme becomes the store's theme and gets the same class update; a failed rehydration changes nothing |

## Left out

- The database client (`select`, `insert`, `update`, `delete`, `auth.getUser`) is not part of this model. Only the outcome of each call is modelled, as a parameter. The server-side `created_at` descending order of the fetch is the server's, so the model takes the rows in whatever order they arrive.
- Async interleaving of overlapping store actions is not modelled. Each action is one atomic step, so the snapshot restored on failure is the list at the start of that same step. `JobStore.RollbackAddKeepsOthers` covers the one interleaving the code is written for: jobs added in front of a pending add.
- uuid generation, `Date.now()`, `toISOString()` and date parsing are opaque parameters. The model does not parse or format dates.
- Logging on error (`console.error`) is left out.
- JobStore.JobPatch: a key present with the value `undefined` is treated as an absent key. Spread would copy that `undefined` into the job, and the payload would leave it out.
- JobStore.JobDraft: `addJob` receives the form's fields plus `createdAt`, the one extra key the form sends. Any other stray key that a `...jobData` spread could copy into the new job is not modelled.
- Board.JobsByColumn: a status that names a property of `Object.prototype` (for example `toString`) passes the `grouped[job.status]` test in JavaScript and then fails on `push`. The model treats every status outside the four column keys as dropped.
- Board.BoardState.HandleDragEnd: the move is issued without being awaited. Its remote outcome `ok` is applied within the same step.
- `handleDragOver`, sensors, collision detection, the drop animation and the sortable contexts belong to the drag library and the rendering, so they are not modelled.
- Analytics.Summarize: the acceptance percentage is computed in floating point and formatted with `toFixed(0)`, and the status bars use computed widths. The model keeps the ratio as two naturals, and only its zero case is exact.
- JobStore.JobState.UpdateJob: distinct ids are promised only for a patch that does not set `id`. `updateJob` accepts any `Partial<Job>`, so a patch that sets `id` to another cached job's id makes two jobs share it. The form never sends such a patch.
- ThemeStore.ClassList: the class list is a sequence that may hold a token twice, where a DOMTokenList never does. The model neither requires the initial list to be free of duplicates nor proves that it stays so.
- ThemeStore: the `typeof window` checks are not modelled, because a document root is assumed. Reading and writing the persisted value in storage is also left out; `Rehydrate` receives the theme that persistence restored.
- The authentication form, sidebar, settings page, column and card components, the login page and the Tailwind configuration are navigation or presentation, so they are not modelled.
