/** The record types the wizard's state is built from. */
module Types {

  datatype Option<+T> = None | Some(value: T) {
    function GetOr(default: T): T {
      match this
      case Some(v) => v
      case None => default
    }
  }

  /** The six stages, in order; each stage's enum value is its display name. */
  datatype WritingStep = Topic | Angle | Reader | Structure | Draft | Final {

    function Name(): string {
      match this
      case Topic => "Topic Smith"
      case Angle => "Angle Smith"
      case Reader => "Reader Smith"
      case Structure => "Structure Smith"
      case Draft => "Draft Smith"
      case Final => "Final Check"
    }

    /** Position of the stage in the wizard. */
    function Index(): (i: nat)
      ensures i < StepCount
    {
      match this
      case Topic => 0
      case Angle => 1
      case Reader => 2
      case Structure => 3
      case Draft => 4
      case Final => 5
    }
  }

  const StepCount: nat := 6
  const LastStepIndex: nat := StepCount - 1

  function StepAt(i: nat): (w: WritingStep)
    requires i < StepCount
    ensures w.Index() == i
  {
    [Topic, Angle, Reader, Structure, Draft, Final][i]
  }

  lemma StepAtIndex(w: WritingStep)
    ensures StepAt(w.Index()) == w
  {
  }

  /** Distinct stages have distinct names, so a stage is recovered from its name. */
  lemma NamesDistinct(v: WritingStep, w: WritingStep)
    ensures v.Name() == w.Name() ==> v == w
  {
  }

  /** The four length tiers; each is addressed in the tables by its key string. */
  datatype ArticleLength = Brief | Short | Medium | Long {
    function Key(): string {
      match this
      case Brief => "BRIEF"
      case Short => "SHORT"
      case Medium => "MEDIUM"
      case Long => "LONG"
    }
  }

  datatype Suggestion = Suggestion(id: string, title: string, content: string, explanation: string)

  /** One stage's editing state: request text, draft, adopted suggestion, lock, last fetched list. */
  datatype StepData = StepData(
    step: WritingStep,
    userInput: string,
    selectedSuggestionId: Option<string>,
    finalContent: string,
    customRequests: string,
    suggestions: seq<Suggestion>)

  datatype ProjectState = ProjectState(
    currentStepIndex: int,
    steps: seq<StepData>,
    originalIdea: string,
    targetLength: ArticleLength,
    finalArticle: string)
}
