/** The shared generation state (GenerationContext.tsx): one record describing the
    current test-plan generation plus a toast flag, changed by start, success, failure,
    clear and dismiss. The awaited `generateTestPlan` call is not made: its answer arrives
    through `Complete` (the returned plan) or `Fail` (the error's message, if it had one). */
module Generation {
  import opened Common
  import opened Types

  /** `generatedTestPlan`. */
  datatype GeneratedPlan = GeneratedPlan(
    storyTitle: string, testCases: seq<TestCase>, issueKey: string, zephyrResults: Option<ZephyrResults>)

  /** `GenerationState`. */
  datatype GenerationState = GenerationState(
    isGenerating: bool,
    currentStory: Option<string>,
    currentIssueKey: Option<string>,
    progress: string,
    error: Option<string>,
    generatedTestPlan: Option<GeneratedPlan>)

  /** What `generateTestPlan` answers. */
  datatype GenerationResult = GenerationResult(testCases: seq<TestCase>, zephyrResults: Option<ZephyrResults>)

  /** The arguments `startGeneration` forwards to `generateTestPlan`. */
  datatype GenerateRequest = GenerateRequest(
    issueKey: string, uploadToZephyr: bool, projectKey: Option<string>, folderId: Option<string>)

  /** The record together with `showToast`. */
  datatype Context = Context(state: GenerationState, showToast: bool)

  const DefaultError: string := "Failed to generate test plan"

  /** The state before any generation, and after `clearGeneration`. */
  function InitialState(): GenerationState {
    GenerationState(false, None, None, "", None, None)
  }

  /** The record after `startGeneration`'s two synchronous updates, whatever it was
      before: a running generation for that story, with no error and no plan. */
  function Started(issueKey: string, storyTitle: string): (r: GenerationState)
    ensures r.isGenerating && r.currentStory == Some(storyTitle) && r.currentIssueKey == Some(issueKey)
    ensures r.error.None? && r.generatedTestPlan.None?
  {
    GenerationState(true, Some(storyTitle), Some(issueKey), "Fetching story context...", None, None)
      .(progress := "Generating test cases with AI...")
  }

  /** The record after a successful answer to the start for `storyTitle`/`issueKey`: the
      run is over, the plan holds exactly those two and the returned cases, and the rest
      of the record is as it was. */
  function Completed(s: GenerationState, issueKey: string, storyTitle: string, result: GenerationResult): (r: GenerationState)
    ensures !r.isGenerating && r.progress == "Complete"
    ensures r.generatedTestPlan == Some(GeneratedPlan(storyTitle, result.testCases, issueKey, result.zephyrResults))
    ensures r.currentStory == s.currentStory && r.currentIssueKey == s.currentIssueKey && r.error == s.error
  {
    s.(isGenerating := false, progress := "Complete",
       generatedTestPlan := Some(GeneratedPlan(storyTitle, result.testCases, issueKey, result.zephyrResults)))
  }

  /** The record after a failed answer: the run is over, progress is cleared, the error is
      the exception's message or the default text, and the rest is as it was. */
  function Failed(s: GenerationState, message: Option<string>): (r: GenerationState)
    ensures !r.isGenerating && r.progress == ""
    ensures r.error == Some(message.GetOr(DefaultError))
    ensures r.currentStory == s.currentStory && r.currentIssueKey == s.currentIssueKey
    ensures r.generatedTestPlan == s.generatedTestPlan
  {
    s.(isGenerating := false, progress := "", error := Some(message.GetOr(DefaultError)))
  }

  /** The events that change the context: the handlers and the answers to a start. */
  datatype Event =
    | Start(issueKey: string, storyTitle: string)
    | Success(issueKey: string, storyTitle: string, result: GenerationResult)
    | Failure(message: Option<string>)
    | Clear
    | Dismiss

  /** The context after one event. */
  function Apply(c: Context, e: Event): (r: Context)
    ensures e.Clear? ==> r == Context(InitialState(), false)
    ensures e.Dismiss? ==> r.state == c.state && !r.showToast
    ensures e.Start? ==> r.showToast == c.showToast
    ensures e.Success? ==> r.showToast
    ensures e.Failure? ==> r.showToast == c.showToast
  {
    match e
    case Start(k, t) => Context(Started(k, t), c.showToast)
    case Success(k, t, res) => Context(Completed(c.state, k, t, res), true)
    case Failure(m) => Context(Failed(c.state, m), c.showToast)
    case Clear => Context(InitialState(), false)
    case Dismiss => c.(showToast := false)
  }

  /** The context after a sequence of events. */
  function Replay(c: Context, events: seq<Event>): Context
    decreases |events|
  {
    if events == [] then c else Replay(Apply(c, events[0]), events[1..])
  }

  /** An error and a plan are never shown together. */
  predicate Exclusive(s: GenerationState) {
    !(s.error.Some? && s.generatedTestPlan.Some?)
  }

  /** The inductive form: exclusive, and a running generation has neither. */
  predicate Quiet(s: GenerationState) {
    Exclusive(s) && (s.isGenerating ==> s.error.None? && s.generatedTestPlan.None?)
  }

  /** Every answer arrives while a generation is running. */
  predicate AnswersWhileRunning(c: Context, events: seq<Event>)
    decreases |events|
  {
    events == [] ||
    ((events[0].Success? || events[0].Failure? ==> c.state.isGenerating) &&
     AnswersWhileRunning(Apply(c, events[0]), events[1..]))
  }

  /** Each event keeps the invariant when an answer arrives only during a run. */
  lemma ApplyKeepsQuiet(c: Context, e: Event)
    requires Quiet(c.state)
    requires e.Success? || e.Failure? ==> c.state.isGenerating
    ensures Quiet(Apply(c, e).state)
  {
  }

  /** From the initial context, as long as every answer arrives while a generation is
      running, an error and a plan are never both set. */
  lemma {:induction false} ExclusiveWhenAnswersWhileRunning(c: Context, events: seq<Event>)
    requires Quiet(c.state)
    requires AnswersWhileRunning(c, events)
    ensures Exclusive(Replay(c, events).state)
    decreases |events|
  {
    if events != [] {
      ApplyKeepsQuiet(c, events[0]);
      ExclusiveWhenAnswersWhileRunning(Apply(c, events[0]), events[1..]);
    }
  }

  /** Starts are only made while no generation runs (the caller's guard). */
  predicate StartsWhenIdle(c: Context, events: seq<Event>)
    decreases |events|
  {
    events == [] ||
    ((events[0].Start? ==> !c.state.isGenerating) && StartsWhenIdle(Apply(c, events[0]), events[1..]))
  }

  /** The caller's guard is not enough: after a clear, a new start can run while the
      first one's failure is still on the way, and a late success then sets the plan
      beside that error. */
  lemma LateAnswersBreakExclusion(a: string, b: string, res: GenerationResult, msg: Option<string>)
    ensures var c := Context(InitialState(), false);
      var events := [Start(a, a), Clear, Start(b, b), Failure(msg), Success(b, b, res)];
      StartsWhenIdle(c, events) && !Exclusive(Replay(c, events).state)
  {
    var c0 := Context(InitialState(), false);
    var c1 := Apply(c0, Start(a, a));
    var c2 := Apply(c1, Clear);
    var c3 := Apply(c2, Start(b, b));
    var c4 := Apply(c3, Failure(msg));
    var c5 := Apply(c4, Success(b, b, res));
    var events := [Start(a, a), Clear, Start(b, b), Failure(msg), Success(b, b, res)];
    assert events[1..] == [Clear, Start(b, b), Failure(msg), Success(b, b, res)];
    assert events[2..] == [Start(b, b), Failure(msg), Success(b, b, res)];
    assert events[3..] == [Failure(msg), Success(b, b, res)];
    assert events[4..] == [Success(b, b, res)];
    assert Replay(c4, events[4..]) == c5;
    assert Replay(c3, events[3..]) == c5;
    assert Replay(c2, events[2..]) == c5;
    assert Replay(c1, events[1..]) == c5;
    assert StartsWhenIdle(c3, events[3..]);
    assert StartsWhenIdle(c2, events[2..]);
  }

  /** The provider holding the context; its methods are the context's functions. */
  class GenerationProvider {
    var state: GenerationState
    var showToast: bool

    constructor ()
      ensures state == InitialState() && !showToast
    {
      state := InitialState();
      showToast := false;
    }

    /** `startGeneration` up to its await: the previous record is replaced (a running
        generation is not refused), and the request forwarded to the service is
        returned. */
    method StartGeneration(issueKey: string, storyTitle: string, uploadToZephyr: bool,
                           projectKey: Option<string>, folderId: Option<string>)
      returns (request: GenerateRequest)
      modifies this`state
      ensures Context(state, showToast) == Apply(old(Context(state, showToast)), Start(issueKey, storyTitle))
      ensures request == GenerateRequest(issueKey, uploadToZephyr, projectKey, folderId)
    {
      state := GenerationState(true, Some(storyTitle), Some(issueKey), "Fetching story context...", None, None);
      state := state.(progress := "Generating test cases with AI...");
      request := GenerateRequest(issueKey, uploadToZephyr, projectKey, folderId);
    }

    /** The success path after the await of the start for `issueKey`/`storyTitle`. */
    method Complete(issueKey: string, storyTitle: string, result: GenerationResult)
      modifies this
      ensures Context(state, showToast) == Apply(old(Context(state, showToast)), Success(issueKey, storyTitle, result))
    {
      state := state.(isGenerating := false, progress := "Complete",
        generatedTestPlan := Some(GeneratedPlan(storyTitle, result.testCases, issueKey, result.zephyrResults)));
      showToast := true;
    }

    /** The failure path after the await. */
    method Fail(message: Option<string>)
      modifies this`state
      ensures Context(state, showToast) == Apply(old(Context(state, showToast)), Failure(message))
    {
      var text := if message.Some? then message.value else DefaultError;
      state := state.(isGenerating := false, progress := "", error := Some(text));
    }

    /** `clearGeneration`. */
    method ClearGeneration()
      modifies this
      ensures Context(state, showToast) == Apply(old(Context(state, showToast)), Clear)
    {
      state := GenerationState(false, None, None, "", None, None);
      showToast := false;
    }

    /** `dismissToast`. */
    method DismissToast()
      modifies this`showToast
      ensures Context(state, showToast) == Apply(old(Context(state, showToast)), Dismiss)
    {
      showToast := false;
    }
  }
}
