# Memento study workspace — a verified model of its core

Memento is a single-page study application. A user opens study projects.
Each project holds an audio file, its transcription, a deck of flashcards
and a set of quizzes. This Dafny project models the parts of the
application that hold state and make decisions:

- the global store (`AppStore.Store`): session, project table, current
  selection, chat log and UI flags, with one method per store action and
  the pure table operations behind them;
- the shallow merge that `updateProject` applies (`Domain.Merge`);
- the quiz player's state machine (`QuizView.QuizPlayer`), the score
  computation and the badge colour;
- the flashcard view: the flipped set, card deletion, and the difficulty
  label and colour;
- the transcription view: the MIME filter of an upload, saving the text,
  and generating two flashcards and one quiz;
- the two dashboards: name-checked project creation, confirmation-guarded
  deletion, the search filter, the list headed "recent projects" (the
  first three entries of the filtered table, which are the oldest ones),
  the statistics and the greeting.

Modules follow the source files:

- `Domain` holds the records of `useAppStore.ts`.
- `AppStore` holds the store.
- `QuizView`, `FlashcardsView` and `TranscriptionView` hold the workspace
  views.
- `Dashboard` holds both dashboard pages.
- `Seqs` holds generic sequence helpers (`Array.prototype.filter` and
  `slice(0, n)`).
- `Text` holds the string functions the views call (`trim`, `toLowerCase`,
  `includes`, `startsWith`, `split(' ')[0]`).

Clocks and random UUIDs are parameters: `now` is a `nat` timestamp, and a
fresh id is passed in. A store action that mints an id requires that the
id is not yet in the table, which is the property `crypto.randomUUID`
supplies.

Where the two dashboards differ, the model follows the alternative layout:

- It has the search box that both the recent list and the drop-down
  filter by.
- Its greeting shows the first word of the name. The classic page shows
  the whole name (`src/pages/Dashboard.tsx:66`).

## Model

| member | source | states |
|---|---|---|
| Domain.Merge | src/store/useAppStore.ts:109-119 | `{ ...p, ...updates, updatedAt }`: the id is kept, every field given in the patch replaces the project's own, every other field is kept, and `updatedAt` is the update time |
| Domain.MergeKeepsTimestamps | src/store/useAppStore.ts:112 | a patch that leaves `createdAt` alone, applied no earlier than the last update, keeps `createdAt <= updatedAt` and never moves `updatedAt` back |
| Domain.MergeEmptyPatch | src/store/useAppStore.ts:112 | an empty patch changes nothing but the timestamp |
| Domain.MergeIdempotent | src/store/useAppStore.ts:112 | applying the same patch twice at the same time equals applying it once |
| Seqs.Filter | src/store/useAppStore.ts:123 | `filter`: no longer than the input, and it holds exactly the input elements that pass the test |
| Seqs.FilterIsSubsequence | src/store/useAppStore.ts:123 | `filter` keeps the input order |
| Seqs.FilterAppend | src/store/useAppStore.ts:123 | filtering a concatenation is the concatenation of the filtered halves |
| Seqs.FilterKeepAll | src/store/useAppStore.ts:123 | when every element passes, the result is the input itself |
| Seqs.Take | src/components/DashboardAlternative.tsx:49 | `slice(0, n)`: length `min(n, |s|)`, and it agrees with the input position by position |
| Text.SkipLeading | src/components/DashboardAlternative.tsx:21 | the first position from `i` on that is not whitespace: everything skipped is whitespace |
| Text.SkipTrailing | src/components/DashboardAlternative.tsx:21 | the end of a piece once its trailing whitespace is dropped: everything dropped is whitespace, and the last kept character is not |
| Text.Trim | src/components/DashboardAlternative.tsx:21 | `trim()`: the input is whitespace, then the result, then whitespace, and the result neither starts nor ends with whitespace |
| Text.TrimEmptyIff | src/components/DashboardAlternative.tsx:21 | `!name.trim()` holds exactly when the name is all whitespace, empty included (both directions) |
| Text.TrimIdempotent | src/components/DashboardAlternative.tsx:26 | trimming a trimmed name changes nothing |
| Text.Lower | src/components/DashboardAlternative.tsx:46 | `toLowerCase()`: same length, with each character lowered |
| Text.Contains | src/components/DashboardAlternative.tsx:46 | `includes(q)` is true exactly when `q` occurs at some position |
| Text.ContainsEmpty | src/components/DashboardAlternative.tsx:46 | every string includes the empty string |
| Text.FirstWord | src/components/DashboardAlternative.tsx:100 | `split(' ')[0]`: the longest prefix without a space |
| AppStore.UpdateById | src/store/useAppStore.ts:111-113 | the `map` of `updateProject`: same length and ids, the entry with the id merged, every other entry untouched |
| AppStore.RemoveById | src/store/useAppStore.ts:123 | the `filter` of `deleteProject`: no entry with the id remains, and every other entry does |
| AppStore.DistinctCons | src/store/useAppStore.ts:94 | distinct ids after prepending iff the new id is fresh and the rest is distinct |
| AppStore.AppendFreshKeepsDistinct | src/store/useAppStore.ts:101-104 | appending a project with a fresh id keeps the ids distinct |
| AppStore.UpdateUnknownId | src/store/useAppStore.ts:111-113 | updating an id not in the table leaves the table as it was |
| AppStore.UpdateAtIndex | src/store/useAppStore.ts:111-113 | with distinct ids, updating an id changes exactly the one entry that carries it |
| AppStore.UpdateKeepsDistinct | src/store/useAppStore.ts:111-113 | an update keeps the ids distinct and the id set unchanged |
| AppStore.UpdateKeepsSelection | src/store/useAppStore.ts:111-117 | a selection in the table stays in the table once both copies are updated alike |
| AppStore.UpdateKeepsConsistent | src/store/useAppStore.ts:109-119 | updating the table and refreshing the selection the way `updateProject` does keeps the store invariant: distinct ids, and a selection that is in the table |
| AppStore.RemoveUnknownId | src/store/useAppStore.ts:123 | deleting an unknown id leaves the table as it was |
| AppStore.RemoveKeepsOrder | src/store/useAppStore.ts:123 | deletion keeps the order of the survivors |
| AppStore.RemoveAppend | src/store/useAppStore.ts:123 | deletion distributes over concatenation |
| AppStore.OnlyHolder | src/store/useAppStore.ts:123 | with distinct ids, no entry before or after `k` shares entry `k`'s id |
| AppStore.RemoveExactlyOne | src/store/useAppStore.ts:123 | with distinct ids, deleting entry `k`'s id removes exactly that entry |
| AppStore.RemoveKeepsDistinct | src/store/useAppStore.ts:123 | deletion keeps the ids distinct |
| AppStore.Store.constructor | src/store/useAppStore.ts:80-86 | the initial state: logged out, no projects, no selection, no messages, sidebar open, transcription pane, consistent |
| AppStore.Store.Login | src/store/useAppStore.ts:89 | sets the user and the authenticated flag; nothing else changes |
| AppStore.Store.Logout | src/store/useAppStore.ts:90 | clears user, flag and selection; keeps the projects; idempotent |
| AppStore.Store.CreateProject | src/store/useAppStore.ts:92-105 | appends an empty project with the fresh id and its name, selects it, and grows the id set by that id; nothing else changes |
| AppStore.Store.SetCurrentProject | src/store/useAppStore.ts:107 | selects the given project; nothing else changes |
| AppStore.Store.UpdateProject | src/store/useAppStore.ts:109-119 | the table becomes `UpdateById`; the selection is merged iff its id matches; unknown id ⇒ same table; consistency is preserved |
| AppStore.Store.DeleteProject | src/store/useAppStore.ts:121-127 | the table becomes `RemoveById`; the selection is cleared iff its id matches; consistency is preserved; an unknown id with another selection changes nothing |
| AppStore.Store.AddChatMessage | src/store/useAppStore.ts:129-139 | appends one message with the given content, sender, id and time; nothing else changes |
| AppStore.Store.ClearChat | src/store/useAppStore.ts:141 | empties the chat log; nothing else changes |
| AppStore.Store.SetSidebarOpen | src/store/useAppStore.ts:142 | sets the sidebar flag; nothing else changes |
| AppStore.Store.SetCurrentView | src/store/useAppStore.ts:143 | sets the current pane; nothing else changes |
| AppStore.CreateUpdateDeleteScenario | src/store/useAppStore.ts:92-127 | create, update, then delete one project: the created entry is the empty project with its id, name and time; the update gives it the two cards and the new time; the delete leaves the table empty |
| QuizView.CorrectCount | src/components/workspace/QuizView.tsx:59-61 | the `reduce` of `calculateScore`: at most the number of answers; equal to it iff every answer is right; zero iff none is |
| QuizView.Percentage | src/components/workspace/QuizView.tsx:62 | `Math.round(correct / n * 100)`: the half-up rounding band `2n·s ≤ 200·correct + n < 2n·(s+1)`, within 0..100, 100 when all are right and 0 when none are |
| QuizView.DivBounds | src/components/workspace/QuizView.tsx:62 | proof helper for the rounding: the floor of an integer quotient lies in its band |
| QuizView.RoundedBounds | src/components/workspace/QuizView.tsx:62 | a value in the rounding band lies in 0..100 and hits both ends exactly |
| QuizView.ProductBelow | src/components/workspace/QuizView.tsx:62 | proof helper for the rounding: a positive factor keeps the order, in both directions |
| QuizView.CalculateScore | src/components/workspace/QuizView.tsx:58-63 | the score lies in 0..100; a full, all-correct answer sheet scores 100; an all-wrong one scores 0 |
| QuizView.PercentageMonotone | src/components/workspace/QuizView.tsx:58-63 | more correct answers never lower the score |
| QuizView.ScoreBand | src/components/workspace/QuizView.tsx:223-225 | green iff the score is at least 80, yellow iff 60..79, red iff below 60 |
| QuizView.Badge | src/components/workspace/QuizView.tsx:220-229 | a badge is shown iff the quiz has both a completion date and a score; its colour is the band of the score |
| QuizView.QuizPlayer.constructor | src/components/workspace/QuizView.tsx:12-17 | the initial player state: quiz 0, question 0, no selection, list mode, no answers |
| QuizView.QuizPlayer.StartQuiz | src/components/workspace/QuizView.tsx:24-31 | plays the chosen quiz from its first question, with no selection and no answers |
| QuizView.QuizPlayer.ClickOption | src/components/workspace/QuizView.tsx:33-35 | selects the option, except once the correction is shown (line 118); nothing else changes |
| QuizView.QuizPlayer.RevealAnswer | src/components/workspace/QuizView.tsx:54-56 | shows the correction; nothing else changes |
| QuizView.QuizPlayer.Quit | src/components/workspace/QuizView.tsx:83 | back to the list, with the progress kept |
| QuizView.QuizPlayer.NextQuestion | src/components/workspace/QuizView.tsx:37-52 | no selection ⇒ no change; otherwise it records the selection, then either advances with the selection cleared or, after the last question, returns to the list; the question index stays in range; one answer per passed question; a finished run holds one answer per question |
| QuizView.PlayTwoQuestions | src/components/workspace/QuizView.tsx:24-63 | after a full two-question run the recorded answers are the two chosen options in order, so the score is `CalculateScore` of exactly those answers |
| FlashcardsView.Toggle | src/components/workspace/FlashcardsView.tsx:17-27 | the card is flipped iff it was not; every other card stays as it was |
| FlashcardsView.ToggleInvolution | src/components/workspace/FlashcardsView.tsx:17-27 | flipping twice restores the set |
| FlashcardsView.RemoveCard | src/components/workspace/FlashcardsView.tsx:31 | the deck holds exactly the cards with another id |
| FlashcardsView.RemoveCardKeepsOrder | src/components/workspace/FlashcardsView.tsx:31 | the remaining cards keep their order |
| FlashcardsView.DeleteCardMerge | src/components/workspace/FlashcardsView.tsx:29-34 | the merged project is the old one with the card dropped and a new timestamp |
| FlashcardsView.DifficultyLabel | src/components/workspace/FlashcardsView.tsx:45-52 | easy/medium/hard map to Facile/Moyen/Difficile; any other key is shown as it is |
| FlashcardsView.DifficultyColor | src/components/workspace/FlashcardsView.tsx:36-43 | each level has its colour class; any other key gets the grey one |
| FlashcardsView.TypedDifficultyIsTranslated | src/components/workspace/FlashcardsView.tsx:36-52 | a typed difficulty is always translated and coloured, and distinct levels get distinct labels |
| FlashcardsView.FlipState.constructor | src/components/workspace/FlashcardsView.tsx:12 | no card starts flipped |
| FlashcardsView.FlipState.FlipCard | src/components/workspace/FlashcardsView.tsx:17-27 | the flipped set becomes the toggle of the old one |
| FlashcardsView.FlipState.ResetAll | src/components/workspace/FlashcardsView.tsx:68 | every card returns to its question side |
| FlashcardsView.DeleteCard | src/components/workspace/FlashcardsView.tsx:29-34 | no selection ⇒ no change; otherwise the table and the selection hold the project without the card; consistency is preserved |
| TranscriptionView.HandleFileUpload | src/components/workspace/TranscriptionView.tsx:38-52 | no file ⇒ nothing; an `audio/` MIME type ⇒ a transcription is scheduled; any other type ⇒ an error, each case iff |
| TranscriptionView.MockFlashcards | src/components/workspace/TranscriptionView.tsx:81-96 | two cards carrying the two fresh ids |
| TranscriptionView.MockQuiz | src/components/workspace/TranscriptionView.tsx:98-110 | a quiz with the fresh id, not yet taken, whose one question has four options and a valid answer key |
| TranscriptionView.GeneratePatch | src/components/workspace/TranscriptionView.tsx:113-116 | the project's flashcards followed by the new ones, and its quizzes followed by the new one |
| TranscriptionView.GenerateMerge | src/components/workspace/TranscriptionView.tsx:112-116 | the merged project changes only in its two sequences and its timestamp |
| TranscriptionView.Editor.constructor | src/components/workspace/TranscriptionView.tsx:12 | the text area starts empty |
| TranscriptionView.Editor.EditText | src/components/workspace/TranscriptionView.tsx:12 | the text area takes the typed text |
| TranscriptionView.Editor.SaveTranscription | src/components/workspace/TranscriptionView.tsx:65-72 | no selection ⇒ no change; otherwise the selected project's transcription is set in the table and the selection; consistency is preserved |
| TranscriptionView.Editor.GenerateContent | src/components/workspace/TranscriptionView.tsx:74-119 | blank text ⇒ refused and no change; no selection ⇒ no change; otherwise the selected project gains exactly the two cards and the quiz; each outcome iff |
| Dashboard.FilteredProjects | src/components/DashboardAlternative.tsx:45-47 | exactly the projects whose lowered name includes the lowered query |
| Dashboard.FilteredKeepsOrder | src/components/DashboardAlternative.tsx:45-47 | the filtered list keeps the table order |
| Dashboard.EmptyQueryKeepsAll | src/components/DashboardAlternative.tsx:45-47 | an empty search shows the whole table |
| Dashboard.RecentProjects | src/components/DashboardAlternative.tsx:49 | the first `min(3, n)` entries of the filtered list, all matching: the head of the table, so the oldest projects |
| Dashboard.RecentOmitsNewest | src/components/DashboardAlternative.tsx:49 | once three projects exist, a newly created project is not in the list headed "Projets récents" |
| Dashboard.LatestProjects | src/components/DashboardAlternative.tsx:204 | the last `min(3, n)` entries of the filtered list, newest first, all matching |
| Dashboard.NewestIsShown | src/components/DashboardAlternative.tsx:204 | a project just added at the end of the table heads the latest list whenever it matches the search |
| Dashboard.CompletedCount | src/components/DashboardAlternative.tsx:191 | no more completed quizzes than quizzes |
| Dashboard.CompletedAtMostQuizzes | src/components/DashboardAlternative.tsx:178-192 | the completed total never exceeds the quiz total |
| Dashboard.TotalsAppend | src/components/DashboardAlternative.tsx:166-192 | all three totals add up over a split of the table |
| Dashboard.DashboardStats | src/components/DashboardAlternative.tsx:155-192 | the project count is the table length; completed ≤ quizzes; an empty table shows zeros |
| Dashboard.StatsAfterCreate | src/components/DashboardAlternative.tsx:26 | creating a project adds one to the count and nothing to the other figures |
| Dashboard.StatsAfterDelete | src/components/DashboardAlternative.tsx:32-37 | deleting a project takes exactly its own content off every figure |
| Dashboard.Greeting | src/components/DashboardAlternative.tsx:100 | a greeting iff there is a user; it is the first word of the name |
| Dashboard.DashboardPage.constructor | src/components/DashboardAlternative.tsx:14-15 | the name input starts empty and the dialog closed |
| Dashboard.DashboardPage.EditName | src/components/DashboardAlternative.tsx:122 | the input takes the typed name |
| Dashboard.DashboardPage.SetDialogOpen | src/components/DashboardAlternative.tsx:129 | opens or closes the dialog |
| Dashboard.DashboardPage.HandleCreateProject | src/components/DashboardAlternative.tsx:20-30 | a blank trimmed name ⇒ refused and no change; otherwise the trimmed name is created and selected, the input is cleared and the dialog closed; consistency is preserved |
| Dashboard.DashboardPage.HandleDeleteProject | src/components/DashboardAlternative.tsx:32-37 | deletes only when confirmed, with the store's delete semantics |

## Left out

- Rendering, icons, routing (`navigate`), the toasts and the logout redirect are out of scope. The outcome of each handler is returned instead.
- Persistence through `persist` under the key `memento-storage` (`src/store/useAppStore.ts:145-147`) is not modelled. The store lives in memory.
- `crypto.randomUUID()` and `new Date()` are parameters. `AppStore.Store.CreateProject` requires a fresh id, which is the property random UUIDs provide.
- AppStore.Store.AddChatMessage: does not require its id to be fresh, because the store itself never looks messages up by id.
- AppStore.Store.UpdateProject: one `now` stands for the two `new Date()` reads at `src/store/useAppStore.ts:112` (the table entry) and `:116` (the selection). When those reads fall on different clock ticks, the two copies differ in `updatedAt`, and "the selection is an entry of the table" no longer holds. The invariant `Consistent()` is proved only for a clock that gives both reads the same value.
- AppStore.Store.CreateProject: one `now` stands for the two `new Date()` reads at `src/store/useAppStore.ts:98-99`. In the source, `createdAt` and `updatedAt` may differ by a tick.
- TranscriptionView.Editor.GenerateContent: the four minted ids (`src/components/workspace/TranscriptionView.tsx:83, 90, 99, 103`) are parameters that need not be fresh or distinct. Card and quiz ids therefore are not proved unique within their project.
- QuizView.CalculateScore: requires at least one question. For an empty quiz the source computes `Math.round(0 / 0)`, which is NaN. No caller is affected, because `calculateScore` is defined at `src/components/workspace/QuizView.tsx:58` and never called.
- The delayed mock transcription (`setTimeout` in `handleFileUpload`) sets the text area later. `HandleFileUpload` returns only that it is scheduled.
- Audio playback (`togglePlayPause`), the progress bar's floating-point percentage and the French date formatting are display-only.
- ChatView, Home, Settings and Workspace are not part of this model.
- Domain.Merge: a patch field is either absent or a value. An explicit `undefined` that clears an optional field is not modelled, and the patch has no `id` field.
- Text.Lower: lowers ASCII letters only. `toLowerCase` also folds the rest of Unicode.
- QuizView.Percentage: computes `Math.round` in exact integers, with ties rounded up. The source divides in floating point first.
- QuizView.QuizPlayer.NextQuestion: takes the question count as a parameter. The source reads it from the current quiz of the selected project, and never saves the score (line 49 leaves that undone).
- Dashboard.DashboardPage.HandleDeleteProject: the answer of `window.confirm` is a parameter.
- Dashboard.FilteredProjects: the classic dashboard has no search box. Both pages' statistics use the same reductions.

## Findings

| source | as written | input that shows it | evidently intended | confidence | as-written member | corrected member |
|---|---|---|---|---|---|---|
| src/components/DashboardAlternative.tsx:49 | `filteredProjects.slice(0, 3)` under the heading "Projets récents" (line 204). `createProject` appends at the end (`src/store/useAppStore.ts:102`), so the list shows the three oldest projects | a table of three projects plus a fourth just created, with an empty search: the new project is not listed | the last three filtered projects, newest first | medium, not executed | Dashboard.RecentOmitsNewest | Dashboard.NewestIsShown |
