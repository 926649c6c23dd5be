/**
 * The wizard's editor: the six-stage state machine. Each handler of the
 * component is a pure `prev -> next` transition on `ProjectState`; the class
 * `Editor` holds the component's mutable cells and applies them.
 */
module WritingEditor {
  import opened Types
  import opened Text
  import Config
  import GeminiService

  // ---------------------------------------------------------------------------
  // Shape of a project state
  // ---------------------------------------------------------------------------

  predicate HasCurrent(ps: ProjectState) {
    0 <= ps.currentStepIndex < |ps.steps|
  }

  /** Six steps, in stage order, and a cursor on one of them. */
  predicate WellFormed(ps: ProjectState) {
    && |ps.steps| == StepCount
    && 0 <= ps.currentStepIndex < StepCount
    && forall i :: 0 <= i < StepCount ==> ps.steps[i].step == StepAt(i)
  }

  function CurrentStep(ps: ProjectState): StepData
    requires HasCurrent(ps)
  {
    ps.steps[ps.currentStepIndex]
  }

  /** `r` differs from `ps` at most in the current step's record. */
  ghost predicate OnlyCurrentStepChanges(ps: ProjectState, r: ProjectState)
    requires HasCurrent(ps)
  {
    && r.currentStepIndex == ps.currentStepIndex
    && r.originalIdea == ps.originalIdea
    && r.targetLength == ps.targetLength
    && r.finalArticle == ps.finalArticle
    && |r.steps| == |ps.steps|
    && forall i :: 0 <= i < |ps.steps| && i != ps.currentStepIndex ==> r.steps[i] == ps.steps[i]
  }

  /** `steps.map((s, i) => i === k ? f(s) : s)`. */
  function MapAt(steps: seq<StepData>, k: int, f: StepData -> StepData): (r: seq<StepData>)
    ensures 0 <= k < |steps| ==> r == steps[k := f(steps[k])]
    ensures !(0 <= k < |steps|) ==> r == steps
  {
    seq(|steps|, i requires 0 <= i < |steps| => if i == k then f(steps[i]) else steps[i])
  }

  // ---------------------------------------------------------------------------
  // Start-up: fresh state or rehydration
  // ---------------------------------------------------------------------------

  function EmptyStep(w: WritingStep): StepData {
    StepData(w, "", None, "", "", [])
  }

  /** A new project: cursor on the first stage, six empty steps, no article. */
  function FreshState(idea: string, len: ArticleLength): (r: ProjectState)
    ensures WellFormed(r) && r.currentStepIndex == 0 && r.finalArticle == ""
    ensures r.originalIdea == idea && r.targetLength == len
    ensures forall i :: 0 <= i < StepCount ==>
      r.steps[i].userInput == "" && r.steps[i].finalContent == "" && r.steps[i].customRequests == ""
      && r.steps[i].selectedSuggestionId == None && r.steps[i].suggestions == []
  {
    Config.StepsConfigMatchesSteps();
    ProjectState(0, seq(StepCount, i requires 0 <= i < StepCount => EmptyStep(StepAt(i))), idea, len, "")
  }

  /** The saved snapshot is taken over only when it is for the same idea and the same length. */
  predicate Adopts(saved: Option<ProjectState>, idea: string, len: ArticleLength) {
    saved.Some? && saved.value.originalIdea == idea && saved.value.targetLength == len
  }

  function InitialState(idea: string, len: ArticleLength, saved: Option<ProjectState>): (r: ProjectState)
    ensures r.originalIdea == idea && r.targetLength == len
    ensures Adopts(saved, idea, len) ==> r == saved.value
    ensures !Adopts(saved, idea, len) ==> r == FreshState(idea, len)
  {
    if Adopts(saved, idea, len) then saved.value else FreshState(idea, len)
  }

  /** `steps.findLastIndex(s => s.finalContent)`: the last locked step, or -1. */
  function FindLastLocked(steps: seq<StepData>): (r: int)
    ensures -1 <= r < |steps|
    ensures r >= 0 ==> steps[r].finalContent != ""
    ensures forall j :: r < j < |steps| ==> steps[j].finalContent == ""
    decreases |steps|
  {
    if steps == [] then -1
    else if steps[|steps| - 1].finalContent != "" then |steps| - 1
    else FindLastLocked(steps[..|steps| - 1])
  }

  /** `Math.max(0, lastCompleted + 1, currentStepIndex)`. */
  function InitialMaxReached(ps: ProjectState): (m: int)
    ensures m >= 0 && m >= ps.currentStepIndex
    ensures forall j :: 0 <= j < |ps.steps| && ps.steps[j].finalContent != "" ==> j < m
    ensures m == 0 || m == ps.currentStepIndex || m == FindLastLocked(ps.steps) + 1
    ensures WellFormed(ps) ==> m <= StepCount
  {
    var last := FindLastLocked(ps.steps);
    var m := if last + 1 > 0 then last + 1 else 0;
    if ps.currentStepIndex > m then ps.currentStepIndex else m
  }

  // ---------------------------------------------------------------------------
  // The handlers' transitions
  // ---------------------------------------------------------------------------

  function UpdateCustomRequests(ps: ProjectState, val: string): (r: ProjectState)
    requires HasCurrent(ps)
    ensures OnlyCurrentStepChanges(ps, r)
    ensures CurrentStep(r) == CurrentStep(ps).(customRequests := val)
    ensures WellFormed(ps) ==> WellFormed(r)
  {
    ps.(steps := MapAt(ps.steps, ps.currentStepIndex, (s: StepData) => s.(customRequests := val)))
  }

  /** A successful fetch: the current step's list is replaced outright. */
  function ReplaceSuggestions(ps: ProjectState, suggestions: seq<Suggestion>): (r: ProjectState)
    requires HasCurrent(ps)
    ensures OnlyCurrentStepChanges(ps, r)
    ensures CurrentStep(r) == CurrentStep(ps).(suggestions := suggestions)
    ensures WellFormed(ps) ==> WellFormed(r)
  {
    ps.(steps := MapAt(ps.steps, ps.currentStepIndex, (s: StepData) => s.(suggestions := suggestions)))
  }

  /** Clicking a suggestion card: its text becomes the draft and its id the selection. */
  function ApplySelection(ps: ProjectState, sg: Suggestion): (r: ProjectState)
    requires HasCurrent(ps)
    ensures OnlyCurrentStepChanges(ps, r)
    ensures CurrentStep(r) == CurrentStep(ps).(userInput := sg.content, selectedSuggestionId := Some(sg.id))
    ensures WellFormed(ps) ==> WellFormed(r)
  {
    ps.(steps := MapAt(ps.steps, ps.currentStepIndex,
                       (s: StepData) => s.(userInput := sg.content, selectedSuggestionId := Some(sg.id))))
  }

  /** Typing in the draft: only the draft text changes; the selection is left as it was. */
  function UpdateDraft(ps: ProjectState, val: string): (r: ProjectState)
    requires HasCurrent(ps)
    ensures OnlyCurrentStepChanges(ps, r)
    ensures CurrentStep(r) == CurrentStep(ps).(userInput := val)
    ensures WellFormed(ps) ==> WellFormed(r)
  {
    ps.(steps := MapAt(ps.steps, ps.currentStepIndex, (s: StepData) => s.(userInput := val)))
  }

  /** Locking the current step: its draft becomes its final content. */
  function LockCurrent(ps: ProjectState): (r: ProjectState)
    requires HasCurrent(ps)
    ensures OnlyCurrentStepChanges(ps, r)
    ensures CurrentStep(r) == CurrentStep(ps).(finalContent := CurrentStep(ps).userInput)
    ensures WellFormed(ps) ==> WellFormed(r)
  {
    ps.(steps := MapAt(ps.steps, ps.currentStepIndex, (s: StepData) => s.(finalContent := s.userInput)))
  }

  /** Advancing from a step that is not the last: lock it and move the cursor one on. */
  function AdvanceStep(ps: ProjectState): (r: ProjectState)
    requires HasCurrent(ps)
    ensures r.(currentStepIndex := ps.currentStepIndex) == LockCurrent(ps)
    ensures r.currentStepIndex == ps.currentStepIndex + 1
    ensures |r.steps| == |ps.steps| && r.steps[ps.currentStepIndex].finalContent == CurrentStep(ps).userInput
    ensures WellFormed(ps) && ps.currentStepIndex < LastStepIndex ==> WellFormed(r)
  {
    LockCurrent(ps).(currentStepIndex := ps.currentStepIndex + 1)
  }

  /** Finalizing the last step: lock it and put the placeholder article `' '` in place. */
  function BeginCompile(ps: ProjectState): (r: ProjectState)
    requires HasCurrent(ps)
    ensures r.finalArticle == " "
    ensures r.(finalArticle := ps.finalArticle) == LockCurrent(ps)
    ensures WellFormed(ps) ==> WellFormed(r)
  {
    LockCurrent(ps).(finalArticle := " ")
  }

  /** `handlePrevStep`: one stage back when not at the first; step data is untouched. */
  function StepBack(ps: ProjectState): (r: ProjectState)
    ensures r.currentStepIndex == if ps.currentStepIndex > 0 then ps.currentStepIndex - 1 else ps.currentStepIndex
    ensures r.(currentStepIndex := ps.currentStepIndex) == ps
    ensures WellFormed(ps) ==> WellFormed(r)
  {
    if ps.currentStepIndex > 0 then ps.(currentStepIndex := ps.currentStepIndex - 1) else ps
  }

  /** The progress-bar click: a stage above the furthest reached one is locked and ignores it. */
  function JumpGate(ps: ProjectState, maxReached: int, idx: int): (r: ProjectState)
    ensures idx <= maxReached ==> r.currentStepIndex == idx
    ensures idx > maxReached ==> r == ps
    ensures r.(currentStepIndex := ps.currentStepIndex) == ps
    ensures WellFormed(ps) && 0 <= idx < StepCount ==> WellFormed(r)
  {
    if idx > maxReached then ps else ps.(currentStepIndex := idx)
  }

  /** `setMaxReachedIndex(m => Math.max(m, nextIndex))`. */
  function NextMaxReached(m: int, next: int): (r: int)
    ensures r >= m && r >= next && (r == m || r == next)
  {
    if m >= next then m else next
  }

  // ---------------------------------------------------------------------------
  // The previous-steps transcript sent with a suggestions request
  // ---------------------------------------------------------------------------

  /** `.filter(s => s.finalContent)`: the locked steps, in order. */
  function Locked(steps: seq<StepData>): seq<StepData>
    decreases |steps|
  {
    if steps == [] then []
    else Locked(steps[..|steps| - 1]) + (if steps[|steps| - 1].finalContent != "" then [steps[|steps| - 1]] else [])
  }

  /** A step is listed exactly when it is one of the given steps and it is locked. */
  lemma {:induction false} LockedMembers(steps: seq<StepData>, x: StepData)
    ensures x in Locked(steps) <==> x in steps && x.finalContent != ""
    decreases |steps|
  {
    if steps != [] {
      var init := steps[..|steps| - 1];
      LockedMembers(init, x);
      assert steps == init + [steps[|steps| - 1]];
    }
  }

  /** When every given step is locked, all of them are listed, in order. */
  lemma {:induction false} LockedAll(steps: seq<StepData>)
    requires forall j :: 0 <= j < |steps| ==> steps[j].finalContent != ""
    ensures Locked(steps) == steps
    decreases |steps|
  {
    if steps != [] {
      var init := steps[..|steps| - 1];
      LockedAll(init);
      assert steps == init + [steps[|steps| - 1]];
    }
  }

  /** `` `Step ${k} [${s.step}]: ${s.finalContent}` ``. */
  function ContextEntry(k: nat, s: StepData): string {
    "Step " + NatToString(k) + " [" + s.step.Name() + "]: " + s.finalContent
  }

  function ContextEntries(steps: seq<StepData>): (e: seq<string>)
    ensures |e| == |steps|
  {
    seq(|steps|, i requires 0 <= i < |steps| => ContextEntry(i + 1, steps[i]))
  }

  /** The locked steps before the current one, numbered 1.. in that order, blank-line separated. */
  function PrevContext(ps: ProjectState): string
    requires HasCurrent(ps)
  {
    Join(ContextEntries(Locked(ps.steps[..ps.currentStepIndex])), "\n\n")
  }

  /** On the first stage there is nothing before and the transcript is empty. */
  lemma PrevContextAtStart(ps: ProjectState)
    requires HasCurrent(ps) && ps.currentStepIndex == 0
    ensures PrevContext(ps) == ""
  {
    assert ps.steps[..0] == [];
  }

  /**
   * When every step before the cursor is locked (as the handlers keep it below
   * the furthest reached stage), entry i is numbered with the step's own ordinal i+1.
   */
  lemma PrevContextOfLockedPrefix(ps: ProjectState)
    requires HasCurrent(ps)
    requires forall j :: 0 <= j < ps.currentStepIndex ==> ps.steps[j].finalContent != ""
    ensures PrevContext(ps) == Join(ContextEntries(ps.steps[..ps.currentStepIndex]), "\n\n")
  {
    LockedAll(ps.steps[..ps.currentStepIndex]);
  }

  // ---------------------------------------------------------------------------
  // Error notices and the autosave rule
  // ---------------------------------------------------------------------------

  const KeyNotice: string := "유효한 유료 API 키가 필요합니다. 키 선택 창을 다시 엽니다."
  const FetchFailedPrefix: string := "AI 제안 생성에 실패했습니다: "
  const UnknownError: string := "알 수 없는 오류"
  const FinalizeFailedNotice: string := "최종 기사 편집에 실패했습니다. 다시 시도해주세요."

  /** The notice after a failed fetch; the key notice only when the key selector exists. */
  function FetchErrorNotice(e: GeminiService.Error, hasKeySelector: bool): (n: string)
    ensures e.message == GeminiService.ApiKeyInvalid && hasKeySelector ==> n == KeyNotice
    ensures !(e.message == GeminiService.ApiKeyInvalid && hasKeySelector) ==>
      n == FetchFailedPrefix + (if e.message == "" then UnknownError else e.message)
  {
    if e.message == GeminiService.ApiKeyInvalid && hasKeySelector then KeyNotice
    else FetchFailedPrefix + (if e.message != "" then e.message else UnknownError)
  }

  /** The notice after a failed compile: none is set when the key selector is reopened instead. */
  function FinalizeErrorNotice(e: GeminiService.Error, hasKeySelector: bool, prior: Option<string>): (n: Option<string>)
    ensures e.message == GeminiService.ApiKeyInvalid && hasKeySelector ==> n == prior
    ensures !(e.message == GeminiService.ApiKeyInvalid && hasKeySelector) ==> n == Some(FinalizeFailedNotice)
  {
    if e.message == GeminiService.ApiKeyInvalid && hasKeySelector then prior else Some(FinalizeFailedNotice)
  }

  /** The autosave effect: the state is written only while no article is shown. */
  function AutosaveSnapshot(ps: ProjectState): (r: Option<ProjectState>)
    ensures r.Some? <==> ps.finalArticle == ""
    ensures r.Some? ==> r.value == ps
  {
    if ps.finalArticle == "" then Some(ps) else None
  }

  /** Reopening with the same idea and length after an autosave restores exactly the saved state. */
  lemma AutosaveRoundTrip(ps: ProjectState)
    requires ps.finalArticle == ""
    ensures InitialState(ps.originalIdea, ps.targetLength, AutosaveSnapshot(ps)) == ps
  {
  }

  // ---------------------------------------------------------------------------
  // Properties of the transitions
  // ---------------------------------------------------------------------------

  /** Every step strictly below `m` is locked. */
  ghost predicate LockedBelow(ps: ProjectState, m: int) {
    forall j :: 0 <= j < m && j < |ps.steps| ==> ps.steps[j].finalContent != ""
  }

  /** A second fetch discards the first one's list: no merging. */
  lemma RefetchReplaces(ps: ProjectState, first: seq<Suggestion>, second: seq<Suggestion>)
    requires HasCurrent(ps)
    ensures ReplaceSuggestions(ReplaceSuggestions(ps, first), second) == ReplaceSuggestions(ps, second)
  {
    var a := ReplaceSuggestions(ReplaceSuggestions(ps, first), second);
    var b := ReplaceSuggestions(ps, second);
    assert a.steps == b.steps;
  }

  /** Editing the draft after picking a suggestion keeps the pick recorded. */
  lemma EditKeepsSelection(ps: ProjectState, sg: Suggestion, val: string)
    requires HasCurrent(ps)
    ensures CurrentStep(UpdateDraft(ApplySelection(ps, sg), val)).selectedSuggestionId == Some(sg.id)
    ensures CurrentStep(UpdateDraft(ApplySelection(ps, sg), val)).userInput == val
  {
  }

  /** Picking a suggestion after editing overwrites the edit. */
  lemma SelectOverridesEdit(ps: ProjectState, val: string, sg: Suggestion)
    requires HasCurrent(ps)
    ensures ApplySelection(UpdateDraft(ps, val), sg) == ApplySelection(ps, sg)
  {
    var a := ApplySelection(UpdateDraft(ps, val), sg);
    var b := ApplySelection(ps, sg);
    assert a.steps == b.steps;
  }

  /** Going back right after advancing returns to the step just locked, with the lock kept. */
  lemma BackAfterAdvance(ps: ProjectState)
    requires HasCurrent(ps)
    ensures StepBack(AdvanceStep(ps)) == LockCurrent(ps)
  {
  }

  /** Advancing with a non-empty draft keeps every step below the new furthest stage locked. */
  lemma AdvanceKeepsLockedBelow(ps: ProjectState, m: int)
    requires HasCurrent(ps) && CurrentStep(ps).userInput != ""
    requires LockedBelow(ps, m) && ps.currentStepIndex <= m
    ensures LockedBelow(AdvanceStep(ps), NextMaxReached(m, ps.currentStepIndex + 1))
  {
    var r := AdvanceStep(ps);
    forall j | 0 <= j < NextMaxReached(m, ps.currentStepIndex + 1) && j < |r.steps|
      ensures r.steps[j].finalContent != ""
    {
      if j != ps.currentStepIndex { assert r.steps[j] == ps.steps[j]; }
    }
  }

  /** Locking with a non-empty draft, or changing no lock, keeps every step below `m` locked. */
  lemma FrameKeepsLockedBelow(ps: ProjectState, r: ProjectState, m: int)
    requires HasCurrent(ps) && OnlyCurrentStepChanges(ps, r)
    requires LockedBelow(ps, m)
    requires CurrentStep(r).finalContent == CurrentStep(ps).finalContent || CurrentStep(r).finalContent != ""
    ensures LockedBelow(r, m)
  {
    forall j | 0 <= j < m && j < |r.steps| ensures r.steps[j].finalContent != "" {
      if j != ps.currentStepIndex { assert r.steps[j] == ps.steps[j]; }
    }
  }

  /**
   * Reopening a snapshot whose steps below `m` are all locked gives back at
   * least `m` as the furthest stage: the reach survives a reload.
   */
  lemma RehydrateKeepsReach(ps: ProjectState, m: int)
    requires WellFormed(ps) && LockedBelow(ps, m) && 0 <= m <= StepCount
    ensures InitialMaxReached(ps) >= m
  {
    if m > 0 {
      assert ps.steps[m - 1].finalContent != "";
    }
  }

  // ---------------------------------------------------------------------------
  // The component
  // ---------------------------------------------------------------------------

  /**
   * What finalizing the last step leaves behind: the step locked, the article
   * equal to the compiled text (or `''` after a failure, with the lock kept),
   * the index and the furthest stage unchanged, and `writes` listing every
   * value `finalArticle` was given: the placeholder `' '`, each partial
   * article of each attempt in order, then the outcome.
   */
  ghost predicate PublishedAs(before: ProjectState, priorError: Option<string>, streams: nat -> GeminiService.Stream,
                              hasKeySelector: bool, after: ProjectState, errorMsg: Option<string>,
                              request: GeminiService.CompileRequest, writes: seq<string>)
    requires HasCurrent(before)
  {
    var run := GeminiService.Retry(GeminiService.CompileAttempts(streams),
                                   GeminiService.DefaultMaxRetries, GeminiService.DefaultBaseDelay);
    var article := if run.result.Ok? then run.result.value else "";
    && after == BeginCompile(before).(finalArticle := article)
    && request == GeminiService.CompileRequest(
         GeminiService.StepsContext(LockCurrent(before).steps), before.originalIdea, before.targetLength)
    && writes == [" "] + Partials(GeminiService.AttemptCallbacks(streams, run.calls)) + [article]
    && errorMsg == (if run.result.Ok? then priorError
                    else FinalizeErrorNotice(run.result.error, hasKeySelector, priorError))
  }

  /** `PublishedAs` from its parts, with the retry run's outcome and callbacks named. */
  lemma PublishedAsIntro(before: ProjectState, priorError: Option<string>, streams: nat -> GeminiService.Stream,
                         hasKeySelector: bool, after: ProjectState, errorMsg: Option<string>,
                         request: GeminiService.CompileRequest, result: GeminiService.Outcome<string>,
                         callbacks: seq<GeminiService.Callback>, writes: seq<string>)
    requires HasCurrent(before)
    ensures (var run := GeminiService.Retry(GeminiService.CompileAttempts(streams),
                                            GeminiService.DefaultMaxRetries, GeminiService.DefaultBaseDelay);
             && result == run.result && callbacks == GeminiService.AttemptCallbacks(streams, run.calls)
             && request == GeminiService.CompileRequest(
                  GeminiService.StepsContext(LockCurrent(before).steps), before.originalIdea, before.targetLength)
             && after == BeginCompile(before).(finalArticle := if result.Ok? then result.value else "")
             && writes == [" "] + Partials(callbacks) + [after.finalArticle]
             && errorMsg == (if result.Ok? then priorError
                             else FinalizeErrorNotice(result.error, hasKeySelector, priorError)))
      ==> PublishedAs(before, priorError, streams, hasKeySelector, after, errorMsg, request, writes)
  {
  }

  /** `if (state.finalArticle)`: the article view replaces the editor while the article is non-empty. */
  predicate ShowsArticle(ps: ProjectState) {
    ps.finalArticle != ""
  }

  /**
   * Publishing switches to the article view at once (the placeholder `' '`).
   * A failure switches back to the editor on the last stage with its lock
   * kept; a success stays on the article view unless the returned text is empty.
   */
  lemma PublishViews(before: ProjectState, priorError: Option<string>, streams: nat -> GeminiService.Stream,
                     hasKeySelector: bool, after: ProjectState, errorMsg: Option<string>,
                     request: GeminiService.CompileRequest, writes: seq<string>)
    requires HasCurrent(before)
    requires PublishedAs(before, priorError, streams, hasKeySelector, after, errorMsg, request, writes)
    ensures ShowsArticle(BeginCompile(before)) && writes[0] == BeginCompile(before).finalArticle
    ensures var run := GeminiService.Retry(GeminiService.CompileAttempts(streams),
                                           GeminiService.DefaultMaxRetries, GeminiService.DefaultBaseDelay);
      && (run.result.Err? ==> !ShowsArticle(after))
      && (run.result.Ok? ==> (ShowsArticle(after) <==> run.result.value != ""))
    ensures after.currentStepIndex == before.currentStepIndex
    ensures after.steps == LockCurrent(before).steps
  {
  }

  /**
   * A first chunk without text makes the first partial article `''`, so the
   * editor is shown again while the stream is still running.
   */
  lemma EmptyFirstChunkShowsEditor(ps: ProjectState, chunks: seq<Option<string>>)
    requires |chunks| > 0 && GeminiService.ChunkText(chunks[0]) == ""
    ensures !ShowsArticle(ps.(finalArticle := GeminiService.StreamCallbacks(chunks)[0].accumulated))
  {
    GeminiService.StreamCallbackStep(chunks, 0);
  }

  /** The `onChunk` partial articles, in order. */
  function Partials(cbs: seq<GeminiService.Callback>): (p: seq<string>)
    ensures |p| == |cbs| && forall i :: 0 <= i < |cbs| ==> p[i] == cbs[i].accumulated
  {
    seq(|cbs|, i requires 0 <= i < |cbs| => cbs[i].accumulated)
  }

  class Editor {
    var state: ProjectState
    var maxReachedIndex: int
    var errorMsg: Option<string>

    /**
     * Six steps in stage order, and the cursor on a stage no further than the
     * furthest reached one, which is itself at most one past the last stage.
     */
    ghost predicate Valid()
      reads this
    {
      WellFormed(state) && state.currentStepIndex <= maxReachedIndex <= StepCount
    }

    ghost predicate LockedBelowMax()
      reads this
    {
      LockedBelow(state, maxReachedIndex)
    }

    /** The state initialiser and the `maxReachedIndex` initialiser. */
    constructor (initialIdea: string, targetLength: ArticleLength, saved: Option<ProjectState>)
      ensures state == InitialState(initialIdea, targetLength, saved)
      ensures maxReachedIndex == InitialMaxReached(state)
      ensures errorMsg == None
      ensures WellFormed(state) ==> Valid()
      ensures !Adopts(saved, initialIdea, targetLength) ==> Valid() && LockedBelowMax()
    {
      var initial := InitialState(initialIdea, targetLength, saved);
      state := initial;
      maxReachedIndex := InitialMaxReached(initial);
      errorMsg := None;
    }

    /** Typing in the request box. */
    method SetCustomRequests(val: string)
      requires Valid()
      modifies this
      ensures Valid() && (old(LockedBelowMax()) ==> LockedBelowMax())
      ensures state == UpdateCustomRequests(old(state), val)
      ensures maxReachedIndex == old(maxReachedIndex) && errorMsg == old(errorMsg)
    {
      ghost var before := state;
      state := UpdateCustomRequests(state, val);
      if LockedBelow(before, maxReachedIndex) { FrameKeepsLockedBelow(before, state, maxReachedIndex); }
    }

    /** `handleFetchSuggestions`, with the provider's replies scripted per attempt. */
    method FetchSuggestions(replies: nat -> GeminiService.Reply, hasKeySelector: bool)
      returns (request: GeminiService.SuggestionRequest, delays: seq<int>)
      requires Valid()
      modifies this
      ensures Valid() && (old(LockedBelowMax()) ==> LockedBelowMax())
      ensures maxReachedIndex == old(maxReachedIndex)
      ensures request == GeminiService.SuggestionRequest(
        CurrentStep(old(state)).step, old(state).originalIdea, CurrentStep(old(state)).customRequests,
        PrevContext(old(state)), old(state).targetLength)
      ensures var run := GeminiService.Retry(GeminiService.SuggestionAttempts(replies),
                                             GeminiService.DefaultMaxRetries, GeminiService.DefaultBaseDelay);
        && delays == run.delays
        && (run.result.Ok? ==> state == ReplaceSuggestions(old(state), run.result.value) && errorMsg == None)
        && (run.result.Err? ==> state == old(state) && errorMsg == Some(FetchErrorNotice(run.result.error, hasKeySelector)))
    {
      errorMsg := None;
      var current := CurrentStep(state);
      request := GeminiService.SuggestionRequest(current.step, state.originalIdea, current.customRequests,
                                                 PrevContext(state), state.targetLength);
      var result;
      result, delays := GeminiService.GenerateWritingSuggestions(request, replies);
      match result
      case Ok(suggestions) =>
        ghost var before := state;
        state := ReplaceSuggestions(state, suggestions);
        if LockedBelow(before, maxReachedIndex) { FrameKeepsLockedBelow(before, state, maxReachedIndex); }
      case Err(e) =>
        errorMsg := Some(FetchErrorNotice(e, hasKeySelector));
    }

    /** Clicking a suggestion card of the current step. */
    method SelectSuggestion(sg: Suggestion)
      requires Valid()
      modifies this
      ensures Valid() && (old(LockedBelowMax()) ==> LockedBelowMax())
      ensures state == ApplySelection(old(state), sg)
      ensures maxReachedIndex == old(maxReachedIndex) && errorMsg == old(errorMsg)
    {
      ghost var before := state;
      state := ApplySelection(state, sg);
      if LockedBelow(before, maxReachedIndex) { FrameKeepsLockedBelow(before, state, maxReachedIndex); }
    }

    /** Typing in the draft box. */
    method EditDraft(val: string)
      requires Valid()
      modifies this
      ensures Valid() && (old(LockedBelowMax()) ==> LockedBelowMax())
      ensures state == UpdateDraft(old(state), val)
      ensures maxReachedIndex == old(maxReachedIndex) && errorMsg == old(errorMsg)
    {
      ghost var before := state;
      state := UpdateDraft(state, val);
      if LockedBelow(before, maxReachedIndex) { FrameKeepsLockedBelow(before, state, maxReachedIndex); }
    }

    /**
     * `handleFinalizeStep`. An empty draft does nothing. Before the last stage
     * it locks and advances; on the last stage it publishes (`FinalizeLastStep`).
     */
    method FinalizeStep(streams: nat -> GeminiService.Stream, hasKeySelector: bool)
      returns (request: Option<GeminiService.CompileRequest>, writes: seq<string>)
      requires Valid()
      modifies this
      ensures Valid() && (old(LockedBelowMax()) ==> LockedBelowMax())
      ensures maxReachedIndex >= old(maxReachedIndex)
      ensures CurrentStep(old(state)).userInput == "" ==>
        && state == old(state) && maxReachedIndex == old(maxReachedIndex) && errorMsg == old(errorMsg)
        && request == None && writes == []
      ensures CurrentStep(old(state)).userInput != "" && old(state).currentStepIndex < LastStepIndex ==>
        && state == AdvanceStep(old(state))
        && maxReachedIndex == NextMaxReached(old(maxReachedIndex), old(state).currentStepIndex + 1)
        && errorMsg == old(errorMsg) && request == None && writes == []
      ensures CurrentStep(old(state)).userInput != "" && old(state).currentStepIndex == LastStepIndex ==>
        && maxReachedIndex == old(maxReachedIndex)
        && request.Some? && PublishedAs(old(state), old(errorMsg), streams, hasKeySelector, state, errorMsg, request.value, writes)
    {
      if CurrentStep(state).userInput == "" {
        request, writes := None, [];
        return;
      }
      var index := state.currentStepIndex;
      if index != LastStepIndex {
        ghost var before, m := state, maxReachedIndex;
        state := AdvanceStep(state);
        maxReachedIndex := NextMaxReached(maxReachedIndex, index + 1);
        if LockedBelow(before, m) { AdvanceKeepsLockedBelow(before, m); }
        request, writes := None, [];
      } else {
        var req;
        req, writes := FinalizeLastStep(streams, hasKeySelector);
        request := Some(req);
      }
    }

    /** The publishing branch of `handleFinalizeStep`. */
    method FinalizeLastStep(streams: nat -> GeminiService.Stream, hasKeySelector: bool)
      returns (request: GeminiService.CompileRequest, writes: seq<string>)
      requires Valid() && state.currentStepIndex == LastStepIndex && CurrentStep(state).userInput != ""
      modifies this
      ensures Valid() && (old(LockedBelowMax()) ==> LockedBelowMax())
      ensures maxReachedIndex == old(maxReachedIndex)
      ensures PublishedAs(old(state), old(errorMsg), streams, hasKeySelector, state, errorMsg, request, writes)
    {
      ghost var before, m := state, maxReachedIndex;
      var updatedSteps := LockCurrent(state).steps;
      var locked := BeginCompile(state);
      if LockedBelow(before, m) { FrameKeepsLockedBelow(before, LockCurrent(before), m); }
      state := locked;
      writes := [state.finalArticle];
      var result, delays, callbacks;
      request, result, delays, callbacks :=
        GeminiService.CompileFinalArticleStream(updatedSteps, state.originalIdea, state.targetLength, streams);
      var partials := ReplayPartials(callbacks);
      writes := writes + partials;
      var article := if result.Ok? then result.value else "";
      if result.Err? {
        errorMsg := FinalizeErrorNotice(result.error, hasKeySelector, errorMsg);
      }
      state := locked.(finalArticle := article);
      writes := writes + [article];
      PublishedAsIntro(before, old(errorMsg), streams, hasKeySelector, state, errorMsg,
                       request, result, callbacks, writes);
    }

    /** The `onChunk` callback: each partial article becomes the displayed article in turn. */
    method ReplayPartials(callbacks: seq<GeminiService.Callback>) returns (partials: seq<string>)
      modifies this
      ensures partials == Partials(callbacks)
      ensures state == old(state).(finalArticle := state.finalArticle)
      ensures state.finalArticle == if callbacks == [] then old(state).finalArticle
                                    else callbacks[|callbacks| - 1].accumulated
      ensures maxReachedIndex == old(maxReachedIndex) && errorMsg == old(errorMsg)
    {
      partials := [];
      var i := 0;
      while i < |callbacks|
        invariant 0 <= i <= |callbacks|
        invariant state == old(state).(finalArticle := state.finalArticle)
        invariant partials == Partials(callbacks[..i])
        invariant state.finalArticle == if i == 0 then old(state).finalArticle else callbacks[i - 1].accumulated
        invariant maxReachedIndex == old(maxReachedIndex) && errorMsg == old(errorMsg)
      {
        state := state.(finalArticle := callbacks[i].accumulated);
        partials := partials + [state.finalArticle];
        assert callbacks[..i + 1] == callbacks[..i] + [callbacks[i]];
        i := i + 1;
      }
      assert callbacks[..i] == callbacks;
    }

    /** `handlePrevStep`. */
    method PrevStep()
      requires Valid()
      modifies this
      ensures Valid() && (old(LockedBelowMax()) ==> LockedBelowMax())
      ensures state == StepBack(old(state))
      ensures maxReachedIndex == old(maxReachedIndex) && errorMsg == old(errorMsg)
    {
      if state.currentStepIndex > 0 {
        state := StepBack(state);
      }
    }

    /** Clicking stage `idx` of the progress bar. */
    method JumpTo(idx: int)
      requires Valid() && 0 <= idx < StepCount
      modifies this
      ensures Valid() && (old(LockedBelowMax()) ==> LockedBelowMax())
      ensures state == JumpGate(old(state), old(maxReachedIndex), idx)
      ensures maxReachedIndex == old(maxReachedIndex) && errorMsg == old(errorMsg)
    {
      if idx <= maxReachedIndex {
        state := JumpGate(state, maxReachedIndex, idx);
      }
    }

    /** The close button of the error banner. */
    method DismissError()
      modifies this
      ensures state == old(state) && maxReachedIndex == old(maxReachedIndex) && errorMsg == None
    {
      errorMsg := None;
    }
  }
}
