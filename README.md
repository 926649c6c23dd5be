# WordSmith editor core in Dafny

WordSmith is a browser wizard that takes an article idea through six
stages: Topic Smith, Angle Smith, Reader Smith, Structure Smith, Draft Smith,
Final Check. At each stage the writer can fetch AI suggestions, adopt one,
edit the draft and lock it. After the sixth stage, the six locked texts are
compiled into one article, which arrives as a stream. This project models the
three pieces of logic under the interface and proves properties about them:

- **The editor state machine**: `components/WritingEditor.tsx`, in module
  `WritingEditor`.
  - Each handler's `prev -> next` update is a pure function on
    `ProjectState`.
  - Class `Editor` holds the component's mutable cells: `state`,
    `maxReachedIndex` and `errorMsg`. Its methods apply those functions in the
    same order as the handlers.
  - The last-stage finalize writes `finalArticle` once per streamed chunk. The
    method returns the full list of values written.
- **The provider service**: `services/geminiService.ts`, in module
  `GeminiService`.
  - `withRetry` is a `while` loop, specified against the recursive function
    `RetryFrom`.
  - Also modelled: the error classification `isApiKeyError` and the mapping to
    `API_KEY_INVALID`, the empty-list fallback for a missing `suggestions`
    field, the `stepsContext` join, and the chunk accumulation loop.
- **The configuration tables**: `constants.tsx`, in module `Config`. The
  tables are constants, and the lookups the other two files depend on are
  proved facts.

The record types of `types.ts` are in module `Types`. The JavaScript string
operations used (`join`, `includes`, number rendering) are in module `Text`.

## How the provider is modelled

The provider is a script, not a network call:

- A suggestions call is given `replies: nat -> Reply`, what attempt `k` meets.
  That is either a failure building the client (before the `try` block) or
  the parsed reply or error thrown inside the `try`. A reply of `None` has no
  `suggestions` field.
- A compile call is given `streams: nat -> Stream`. For attempt `k` this is an
  optional failure building the client, the chunks delivered (a chunk may have
  no text) and an optional failure after them.
- The waits `withRetry` sleeps are returned as a list of delays.
- Whether `window.aistudio` exists is the boolean `hasKeySelector`.

## Behaviour of the code worth knowing

- Typing in the draft keeps `selectedSuggestionId` as it was (`UpdateDraft`,
  `EditKeepsSelection`).
- A failed compile resets only `finalArticle` to `''`. The sixth stage stays
  locked and the cursor stays on it (`PublishedAs`, `PublishViews`).
- A fetched list is applied whenever it arrives, to the step that is current
  at that moment (`prev.currentStepIndex`), not necessarily the step it was
  fetched for: going back or jumping stays possible while a fetch is pending.
  Selecting a suggestion does not check that its id belongs to the current list.
- Reopening a snapshot whose sixth stage is locked gives `maxReachedIndex` 6
  (`Math.max(0, 5 + 1, 5)`). The invariant `Editor.Valid` therefore allows
  `maxReachedIndex <= 6`.
- A streamed chunk without text that comes first makes the partial article
  `''`, which shows the editor again while the stream runs
  (`EmptyFirstChunkShowsEditor`).
- A failure building the SDK client happens before the `try` block of either
  service call. It reaches `withRetry` without the `API_KEY_INVALID` mapping
  and is retried (`ClientFailuresUnmapped`).

## Model

| member | source | states |
|---|---|---|
| Text.Join | services/geminiService.ts:122 | `parts.join(sep)`: the parts in order with `sep` between neighbours |
| Text.Contains | services/geminiService.ts:26 | `s.includes(sub)` by scanning the start positions from the left |
| Types.StepAt | types.ts:2-9 | the stage at position i has index i: the six enum values are in wizard order |
| Types.NamesDistinct | types.ts:2-9 | distinct stages have distinct display names, so a name identifies its stage |
| Config.LengthTablesKeys | constants.tsx:11-23 | both length tables are defined on exactly the four keys BRIEF, SHORT, MEDIUM, LONG, and every `ArticleLength` has one of those keys |
| Config.LengthGuide | constants.tsx:11-16 | `LENGTH_CONFIG[targetLength]` is defined for every length tier |
| Config.TargetChars | constants.tsx:18-23 | `LENGTH_TARGET_CHARS[targetLength]` is defined for every tier and has 0 < min < max, so the `max > 0` guard of the character bar always passes |
| Config.TiersIncrease | constants.tsx:19-22 | minima and maxima both strictly increase from BRIEF through LONG |
| Config.StepsConfigMatchesSteps | constants.tsx:25-62 | there are exactly six stage definitions, and definition i is named after stage i |
| Config.StepTagsDistinct | constants.tsx:27-57 | the six `type` tags are pairwise distinct |
| Config.FindByName | services/geminiService.ts:38 | `find` returns None exactly when no definition has the name; otherwise it returns the first definition that has it |
| Config.LookupByStepName | services/geminiService.ts:38 | looking up a stage's definition by the stage's name always finds that stage's own definition |
| Text.JoinSnoc | services/geminiService.ts:122 | `join` adds exactly one separator and the new part when a part is appended |
| Text.ContainsIff | services/geminiService.ts:26 | `includes` holds exactly when the substring occurs at some position |
| Text.NatToString | components/WritingEditor.tsx:81 | the rendering of a step's ordinal is a non-empty string of decimal digits with no leading zero (only 0 itself starts with `0`) |
| Text.NatToStringRoundTrip | components/WritingEditor.tsx:81 | reading the rendered ordinal back as a decimal gives the ordinal |
| GeminiService.RetryFrom | services/geminiService.ts:12-22 | the reference attempt loop from attempt a: the outcome, the waits made and the number of calls |
| GeminiService.Retry | services/geminiService.ts:7-23 | `withRetry` as a value: the reference loop from attempt 0 |
| GeminiService.Backoff | services/geminiService.ts:18 | the wait after a failure of attempt j is `baseDelay * 2^j` |
| GeminiService.RetryFromStopsAt | services/geminiService.ts:12-18 | from attempt a, when attempts a..k-1 fail retryably and attempt k succeeds, fails with the key error or is the last one, the loop returns attempt k's own outcome after k-a+1 calls, with the doubling waits between them |
| GeminiService.RetryStopsAt | services/geminiService.ts:12-18 | the loop returns the outcome of the first attempt that succeeds, fails with `API_KEY_INVALID` or is the last allowed one. It calls `fn` exactly k+1 times (none after a success) and waits `baseDelay * 2^j` after each earlier failure j |
| GeminiService.RetryFromBounds | services/geminiService.ts:12-17 | from attempt a, `fn` is called between 1 and maxRetries-a+1 times, with one wait between neighbouring calls |
| GeminiService.RetryBounds | services/geminiService.ts:9-17 | `fn` is called at least once and at most maxRetries+1 times (4 with the default), with one wait between neighbouring calls |
| GeminiService.RetryNoBudget | services/geminiService.ts:12-22 | with a negative budget, `fn` is never called and the `Unreachable` error is thrown |
| GeminiService.InvalidKeyNotRetried | services/geminiService.ts:16 | an `API_KEY_INVALID` failure on the first attempt is rethrown after one call and no wait |
| GeminiService.BackoffTotal | services/geminiService.ts:18 | the waits before attempt k add up to baseDelay·(2^k − 1) |
| GeminiService.ThreeFailuresThenSuccess | services/geminiService.ts:9-18 | with the defaults, three transient failures and then a success return the fourth outcome after four calls, with waits 1000, 2000, 4000 (7000 in total) |
| GeminiService.WithRetry | services/geminiService.ts:7-23 | the loop's result, waits and number of calls are those of the reference `Retry`; with a budget of at least 0 it makes 1..maxRetries+1 calls and one fewer waits |
| GeminiService.IsApiKeyError | services/geminiService.ts:25-27 | holds exactly when the message contains "Requested entity was not found" or "API key" |
| GeminiService.ProviderError | services/geminiService.ts:99-105 | a key error becomes `API_KEY_INVALID`; every other error is rethrown unchanged |
| GeminiService.KeyErrorsNotRetryable | services/geminiService.ts:164-167 | a key error reported by the provider is never retried once it has passed the catch block |
| GeminiService.SuggestionsOutcome | services/geminiService.ts:36-105 | a client failure before the `try` is passed on unmapped; a reply without `suggestions` gives the empty list, a reply with it gives that list, and an error thrown inside the `try` gives the mapped error |
| GeminiService.ClientFailuresUnmapped | services/geminiService.ts:36-105 | a client failure is retried even when its message is about the API key, while the same error thrown inside the `try` of either call is not |
| GeminiService.GenerateWritingSuggestions | services/geminiService.ts:36-106 | the result and waits are those of the retry loop with the defaults over the per-attempt outcomes; at most 3 waits |
| GeminiService.Accumulated | services/geminiService.ts:155-158 | the chunk texts concatenated in order, a missing text counting as `''` |
| GeminiService.AccumulatedAppend | services/geminiService.ts:155-158 | accumulating a split stream gives the concatenation of the two halves' accumulations |
| GeminiService.AccumulatedGrows | services/geminiService.ts:155-159 | within an attempt, each partial article is a prefix of every later one |
| GeminiService.StreamCallbacks | services/geminiService.ts:155-160 | one `onChunk` call per delivered chunk |
| GeminiService.StreamCallbacksSnoc | services/geminiService.ts:156-159 | a new chunk adds one `onChunk(text, accumulated + text)` call after the earlier ones |
| GeminiService.StreamCallbackStep | services/geminiService.ts:157-159 | the `onChunk` call for chunk i passes the previous call's accumulated text (`''` for the first) extended by chunk i's text |
| GeminiService.StreamCallbacksChain | services/geminiService.ts:155-161 | each `onChunk` passes the previous accumulated text (`''` for the first chunk) plus its own text, and the last call passes the value the attempt returns |
| GeminiService.AccumulateStream | services/geminiService.ts:155-161 | the loop returns the in-order concatenation of the chunk texts (missing text counts as `''`) and makes exactly the `onChunk` calls of `StreamCallbacks` |
| GeminiService.StreamOutcome | services/geminiService.ts:116-168 | a client failure before the `try` is passed on unmapped; a completed stream returns the concatenation of its chunks; a stream failure throws the mapped error |
| GeminiService.StreamAttemptCallbacks | services/geminiService.ts:116-160 | an attempt whose client could not be built makes no `onChunk` call; otherwise one per delivered chunk |
| GeminiService.AttemptCallbacks | services/geminiService.ts:116-160 | the `onChunk` calls of the first n attempts, in order, each attempt restarting from `''` |
| GeminiService.StageLabel | services/geminiService.ts:121 | the label of block i: the name of stage definition i, or the step's own name when that is missing or empty |
| GeminiService.StageBlock | services/geminiService.ts:121 | stage i's block: its label in brackets, a newline, its locked text |
| GeminiService.StepsContext | services/geminiService.ts:120-122 | the stage blocks in order, joined by `\n\n---\n\n` |
| GeminiService.StageBlockOfStep | services/geminiService.ts:121 | block i of the transcript is headed by stage i's own name followed by its locked text |
| GeminiService.StepsContextSnoc | services/geminiService.ts:120-122 | the transcript lists the stage blocks in stage order, with one `\n\n---\n\n` between neighbours |
| GeminiService.CompileFinalArticleStream | services/geminiService.ts:110-170 | the request carries the stage transcript; the result and waits are those of the retry loop over the streams; the `onChunk` calls are those of every attempt made, in order, each attempt restarting from `''` |
| WritingEditor.MapAt | components/WritingEditor.tsx:93-95 | the index-guarded `map` changes exactly the element at the current index, and nothing when the index is out of range |
| WritingEditor.FreshState | components/WritingEditor.tsx:28-41 | a new project: index 0, six steps in stage order with empty strings, no selection and no suggestions, no article |
| WritingEditor.InitialState | components/WritingEditor.tsx:18-42 | a saved snapshot is adopted exactly when its idea and length equal the props; otherwise the state is fresh |
| WritingEditor.FindLastLocked | components/WritingEditor.tsx:48 | `findLastIndex`: the index of the last locked step, or -1 when none is locked |
| WritingEditor.InitialMaxReached | components/WritingEditor.tsx:47-50 | the furthest stage starts at max(0, last locked index + 1, current index): above every locked step and no lower than the cursor |
| WritingEditor.UpdateCustomRequests | components/WritingEditor.tsx:297-304 | only the current step's `customRequests` changes |
| WritingEditor.ReplaceSuggestions | components/WritingEditor.tsx:92-97 | only the current step's suggestion list changes, and it becomes exactly the fetched list |
| WritingEditor.ApplySelection | components/WritingEditor.tsx:342-351 | only the current step changes: its draft becomes the suggestion's content and its selection becomes the suggestion's id |
| WritingEditor.UpdateDraft | components/WritingEditor.tsx:378-386 | only the current step's draft changes; the selection stays as it was |
| WritingEditor.LockCurrent | components/WritingEditor.tsx:118-120 | only the current step changes: its draft becomes its final content |
| WritingEditor.AdvanceStep | components/WritingEditor.tsx:116-124 | the current step is locked with its draft, nothing else but the index changes, and the index moves on by one |
| WritingEditor.BeginCompile | components/WritingEditor.tsx:129-133 | the current step is locked and the placeholder article `' '` is put in place |
| WritingEditor.StepBack | components/WritingEditor.tsx:159-166 | the index decreases by one when it is above 0 and stays otherwise; nothing else changes |
| WritingEditor.JumpGate | components/WritingEditor.tsx:261-266 | a stage no further than the furthest reached one becomes current; a later stage is ignored; only the index can change |
| WritingEditor.NextMaxReached | components/WritingEditor.tsx:122 | the furthest stage never decreases and covers the new index |
| WritingEditor.Locked | components/WritingEditor.tsx:80 | `.filter(s => s.finalContent)`: the locked steps, in order |
| WritingEditor.LockedMembers | components/WritingEditor.tsx:80 | a step is in the filtered list exactly when it is one of the given steps and it is locked |
| WritingEditor.LockedAll | components/WritingEditor.tsx:78-80 | when every step before the cursor is locked, the filter keeps all of them, in order |
| WritingEditor.ContextEntry | components/WritingEditor.tsx:81 | the entry `Step k [name]: content` |
| WritingEditor.PrevContext | components/WritingEditor.tsx:78-82 | the locked steps before the cursor, numbered 1.. in filtered order, joined by a blank line |
| WritingEditor.PrevContextAtStart | components/WritingEditor.tsx:78-82 | on the first stage the previous-steps transcript is empty |
| WritingEditor.PrevContextOfLockedPrefix | components/WritingEditor.tsx:78-82 | when every earlier step is locked, the transcript is `Step k [name]: content` for the earlier steps in order, numbered 1.., joined by a blank line |
| WritingEditor.FetchErrorNotice | components/WritingEditor.tsx:98-104 | the key notice appears only for `API_KEY_INVALID` with the key selector present; otherwise the failure prefix and the message, or "알 수 없는 오류" when the message is empty |
| WritingEditor.FinalizeErrorNotice | components/WritingEditor.tsx:144-151 | a key failure with the key selector present leaves the notice as it was; any other failure sets the compile-failed notice |
| WritingEditor.AutosaveSnapshot | components/WritingEditor.tsx:56-60 | the state is saved exactly when no article is shown, and the saved value is the whole state |
| WritingEditor.AutosaveRoundTrip | components/WritingEditor.tsx:18-25 | reopening with the same idea and length after an autosave restores exactly the saved state |
| WritingEditor.RefetchReplaces | components/WritingEditor.tsx:92-97 | a second fetch discards the first one's list: fetching twice equals fetching only the second time |
| WritingEditor.EditKeepsSelection | components/WritingEditor.tsx:378-386 | editing the draft after picking a suggestion keeps the pick recorded and leaves the edited text as the draft |
| WritingEditor.SelectOverridesEdit | components/WritingEditor.tsx:342-351 | picking a suggestion after an edit overwrites the edit completely |
| WritingEditor.BackAfterAdvance | components/WritingEditor.tsx:116-166 | going back right after advancing returns to the step just locked, with the lock kept |
| WritingEditor.AdvanceKeepsLockedBelow | components/WritingEditor.tsx:116-124 | advancing with a non-empty draft keeps every step below the new furthest stage locked |
| WritingEditor.FrameKeepsLockedBelow | components/WritingEditor.tsx:297-304 | an update confined to the current step that sets no empty lock keeps every step below the furthest stage locked |
| WritingEditor.RehydrateKeepsReach | components/WritingEditor.tsx:47-50 | after reopening a snapshot whose steps below m are locked, the furthest stage is at least m |
| WritingEditor.PublishedAs | components/WritingEditor.tsx:129-151 | what finalizing the last stage leaves: the lock, the article (the compiled text, or `''` after a failure), the request, the notice, and every value written to the article in order: `' '`, each partial article, the outcome |
| WritingEditor.ShowsArticle | components/WritingEditor.tsx:173-175 | the article view replaces the editor while the article is non-empty |
| WritingEditor.PublishViews | components/WritingEditor.tsx:133-175 | the placeholder `' '` shows the article view at once; a failure returns to the editor on the last stage with its lock kept; a success stays on the article view exactly when the text is non-empty |
| WritingEditor.EmptyFirstChunkShowsEditor | components/WritingEditor.tsx:139-141 | a first chunk without text makes the first partial article `''`, which shows the editor |
| WritingEditor.Partials | components/WritingEditor.tsx:139-141 | the article values written by the `onChunk` callbacks are their accumulated texts, in order |
| WritingEditor.Editor.constructor | components/WritingEditor.tsx:18-51 | the state is the adopted snapshot or a fresh project, the furthest stage is `InitialMaxReached` of it, and there is no error; a fresh start satisfies every invariant |
| WritingEditor.Editor.SetCustomRequests | components/WritingEditor.tsx:297-304 | the state becomes `UpdateCustomRequests` of the old one; the furthest stage, the notice and the invariants are kept |
| WritingEditor.Editor.FetchSuggestions | components/WritingEditor.tsx:75-108 | the notice is cleared first. The request carries the current step, idea, custom request, previous-steps transcript and length. On success only the current step's list is replaced; on failure the state is unchanged and the matching notice is shown |
| WritingEditor.Editor.SelectSuggestion | components/WritingEditor.tsx:342-351 | the state becomes `ApplySelection` of the old one; everything else is kept |
| WritingEditor.Editor.EditDraft | components/WritingEditor.tsx:378-386 | the state becomes `UpdateDraft` of the old one; everything else is kept |
| WritingEditor.Editor.FinalizeStep | components/WritingEditor.tsx:111-157 | an empty draft changes nothing. Before the last stage the step is locked, the index moves on and the furthest stage becomes max(m, index+1). On the last stage the article is published as `PublishedAs` states. The furthest stage never decreases |
| WritingEditor.Editor.FinalizeLastStep | components/WritingEditor.tsx:125-156 | the step is locked and the article starts as `' '`; each partial article then replaces it; the result is the returned text, or `''` after a failure with the lock and index kept. The notice follows `FinalizeErrorNotice` |
| WritingEditor.Editor.ReplayPartials | components/WritingEditor.tsx:139-141 | each callback sets the article to its accumulated text, so it ends as the last callback's text (unchanged when there are none); nothing else changes |
| WritingEditor.Editor.PrevStep | components/WritingEditor.tsx:159-166 | the state becomes `StepBack` of the old one; everything else is kept |
| WritingEditor.Editor.JumpTo | components/WritingEditor.tsx:261-266 | the state becomes `JumpGate` of the old one and the furthest stage; everything else is kept |
| WritingEditor.Editor.DismissError | components/WritingEditor.tsx:283 | the close button clears the notice and nothing else |

## Left out

- The Gemini SDK calls and the prompt texts (`SYSTEM_PROMPT`, each stage's
  `prompt`, the two prompt templates): a foreign library and network I/O. The
  provider is the scripted `replies`/`streams` parameters. The stage
  definitions keep their tag, name and description, but not their prompt.
- A reply whose text is not valid JSON makes `JSON.parse` throw inside the
  attempt. That is a scripted `Err` of the attempt, not a parse the model
  performs.
- `sessionStorage`, `JSON.stringify`/`JSON.parse` of the snapshot, the save
  status and its 2-second timer: browser I/O. The snapshot is an
  `Option<ProjectState>` parameter of the constructor. A stored value that
  fails to parse is the same as `None`. `AutosaveSnapshot` states only the
  rule of when a snapshot is written.
- `handleReset`: it removes the stored snapshot and calls the parent's
  callback, which is browser I/O and the parent screen.
- The `window.aistudio.openSelectKey()` flow: an external authorisation UI.
  Only whether the selector exists (`hasKeySelector`) is modelled.
- `setTimeout` sleeping in `withRetry`: the waits are returned as values.
- Async interleaving, `isLoading`/`isFinalizing`/`isStreaming` and the
  disabled buttons: concurrency. Each handler runs to completion in the model.
  Its state updates are applied in the handler's order, with nothing else in
  between.
- The per-character percentage `charPercent` and the colour classes: a display
  value computed with floating-point division. Only the `max > 0` guard it
  depends on is proved (`Config.TargetChars`).
- All rendering: the JSX of `components/WritingEditor.tsx`, `App.tsx`,
  `components/LandingPage.tsx`, `components/FinalArticleView.tsx`,
  `components/MarkdownRenderer.tsx` and `components/Logo.tsx`.
- `console.error` in the two catch blocks: logging.
- GeminiService.WithRetry: the JavaScript `Math.pow` and `number` arithmetic
  are modelled as unbounded integers, so the model does not capture
  floating-point rounding of very large delays.
- WritingEditor.Editor.FinalizeStep: the furthest stage is only invariantly at
  most 6, not at most 5 (see above). The all-earlier-steps-locked invariant
  `LockedBelowMax` is preserved when it holds, but it is not guaranteed for an
  arbitrary adopted snapshot.
