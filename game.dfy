/** The page's game state and its four handlers, as values: a state record,
    one transition function per handler, the conditions under which the page
    offers each action, and the invariant that keeps the dashboard's lookup
    `statements[index]` in bounds. */
module Game {
  import opened Wrappers
  import opened Request
  import opened Scoring

  /** The page's four pieces of state. `statements == None` is the page's `null`. */
  datatype GameState = GameState(
    isLoading: bool,
    statements: Option<seq<Statement>>,
    userAssessments: Assessments,
    isRevealed: bool)

  /** The state the page starts in. */
  const Initial: GameState := GameState(false, None, map[], false)

  /** How the call to the server action ends. A success may still carry no
      data, because the generator's output is asserted non-null without a
      check. The call itself may also reject (the request between browser and
      server fails): the server's try/catch cannot catch that, and nothing
      after the `await` runs. */
  datatype ActionResult =
    | Succeeded(data: Option<GenerationOutput>)
    | Failed(error: string)
    | Rejected

  /** The invariant: without statements there are no guesses, and with
      statements every guessed index names one of them. */
  predicate Valid(s: GameState) {
    match s.statements
    case None => s.userAssessments == map[]
    case Some(statements) => KeysInRange(statements, s.userAssessments)
  }

  /** `handleGenerate` before the call: loading, and everything else cleared. */
  function BeginGeneration(s: GameState): GameState {
    s.(isLoading := true, userAssessments := map[], isRevealed := false, statements := None)
  }

  /** `handleGenerate` after the call: adopt the list on success with data,
      keep the statements otherwise, and stop loading, unless the call
      rejected, in which case nothing changes. */
  function CompleteGeneration(s: GameState, result: ActionResult): GameState {
    match result
    case Succeeded(Some(output)) => s.(statements := Some(output.statements), isLoading := false)
    case Rejected => s
    case _ => s.(isLoading := false)
  }

  /** `handleGenerate` as one step: begin, then the call's outcome. Loading
      ends on every outcome but a rejected call. */
  function Generate(s: GameState, result: ActionResult): (r: GameState)
    ensures r.isLoading <==> result.Rejected?
    ensures !r.isRevealed && r.userAssessments == map[]
    ensures result.Succeeded? && result.data.Some? ==> r.statements == Some(result.data.value.statements)
    ensures !(result.Succeeded? && result.data.Some?) ==> r.statements == None
    ensures Valid(r)
  {
    CompleteGeneration(BeginGeneration(s), result)
  }

  /** A card offers its guess buttons only while statements are shown, for an
      index of the list, and before the answers are revealed. */
  predicate CanAssess(s: GameState, index: nat) {
    s.statements.Some? && index < |s.statements.value| && !s.isRevealed
  }

  /** `handleAssess`: record (or overwrite) the guess for one index. */
  function Assess(s: GameState, index: nat, assessment: bool): GameState
    requires CanAssess(s, index)
  {
    s.(userAssessments := s.userAssessments[index := assessment])
  }

  /** `handleReveal`. */
  function Reveal(s: GameState): GameState {
    s.(isRevealed := true)
  }

  /** `handleReset`: back to the form, leaving `isLoading` alone. */
  function Reset(s: GameState): GameState {
    s.(statements := None, userAssessments := map[], isRevealed := false)
  }

  /** A guess is recorded for its index, last write wins, every other index keeps
      its guess, the map grows by at most one key, and the invariant is kept. */
  lemma AssessUpserts(s: GameState, index: nat, assessment: bool)
    requires Valid(s) && CanAssess(s, index)
    ensures var r := Assess(s, index, assessment);
      && Lookup(r.userAssessments, index) == Some(assessment)
      && (forall j: nat :: j != index ==> Lookup(r.userAssessments, j) == Lookup(s.userAssessments, j))
      && r.userAssessments.Keys == s.userAssessments.Keys + {index}
      && |r.userAssessments| <= |s.userAssessments| + 1
      && r.statements == s.statements && r.isRevealed == s.isRevealed && r.isLoading == s.isLoading
      && Valid(r)
  {
  }

  /** Guessing twice on one card leaves only the second guess. */
  lemma AssessLastWriteWins(s: GameState, index: nat, first: bool, second: bool)
    requires CanAssess(s, index)
    ensures Assess(Assess(s, index, first), index, second) == Assess(s, index, second)
  {
  }

  /** Reset clears statements, guesses and the reveal flag, keeps `isLoading`,
      keeps the invariant, and a second reset changes nothing. */
  lemma ResetClears(s: GameState)
    ensures var r := Reset(s);
      && r.statements == None && r.userAssessments == map[] && !r.isRevealed
      && r.isLoading == s.isLoading
      && Valid(r)
      && Reset(r) == r
  {
  }

  /** Revealing changes nothing but the flag and keeps the invariant. */
  lemma RevealKeepsValid(s: GameState)
    requires Valid(s)
    ensures Valid(Reveal(s)) && Reveal(s).isRevealed
    ensures Reveal(s).statements == s.statements && Reveal(s).userAssessments == s.userAssessments
    ensures Reveal(s).isLoading == s.isLoading
  {
  }

  /** What the player can do on the page. */
  datatype Event =
    | GenerateEvent(request: GenerationRequest, result: ActionResult)
    | AssessEvent(index: nat, assessment: bool)
    | RevealEvent
    | ResetEvent

  /** When the page offers each event: the form (and its submit) only with no
      statements and not loading, and only for a request the schema accepts;
      the cards and the dashboard only with statements; the guess and reveal
      buttons only before the reveal. */
  predicate Enabled(s: GameState, e: Event)
    ensures Enabled(s, e) && e.GenerateEvent? ==> s.statements.None? && !s.isLoading && ValidRequest(e.request)
    ensures Enabled(s, e) && !e.GenerateEvent? ==> s.statements.Some?
    ensures Enabled(s, e) && e.AssessEvent? ==> e.index < |s.statements.value|
    ensures Enabled(s, e) && (e.AssessEvent? || e.RevealEvent?) ==> !s.isRevealed
  {
    match e
    case GenerateEvent(request, _) => s.statements.None? && !s.isLoading && ValidRequest(request)
    case AssessEvent(index, _) => CanAssess(s, index)
    case RevealEvent => s.statements.Some? && !s.isRevealed
    case ResetEvent => s.statements.Some?
  }

  function Step(s: GameState, e: Event): GameState
    requires Enabled(s, e)
  {
    match e
    case GenerateEvent(_, result) => Generate(s, result)
    case AssessEvent(index, assessment) => Assess(s, index, assessment)
    case RevealEvent => Reveal(s)
    case ResetEvent => Reset(s)
  }

  /** Plays a sequence of events from `s`; `None` when the page would not have
      offered one of them. */
  function Run(s: GameState, events: seq<Event>): Option<GameState>
    decreases |events|
  {
    if events == [] then Some(s)
    else if !Enabled(s, events[0]) then None
    else Run(Step(s, events[0]), events[1..])
  }

  /** Every event the page offers keeps the invariant, and only a generation
      whose call rejected leaves the page loading. */
  lemma StepKeepsValid(s: GameState, e: Event)
    requires Valid(s) && Enabled(s, e)
    ensures Valid(Step(s, e))
    ensures Step(s, e).isLoading ==> s.isLoading || (e.GenerateEvent? && e.result.Rejected?)
    ensures Step(s, e).isLoading && !s.isLoading ==> Step(s, e).statements.None?
  {
  }

  /** While loading with no statements the page shows only the spinner: no
      form, no cards, no dashboard, so it offers no event at all. */
  lemma NothingEnabledWhileLoading(s: GameState, e: Event)
    requires s.isLoading && s.statements.None?
    ensures !Enabled(s, e)
  {
  }

  /** A page that is loading with no statements cannot take another event. */
  lemma LoadingPageRunsNoFurther(s: GameState, events: seq<Event>)
    requires s.isLoading && s.statements.None?
    requires Run(s, events).Some?
    ensures events == []
  {
  }

  /** Every state the page can reach keeps the invariant; it is loading only
      when the last event was a generation whose call rejected, and then no
      further event is possible. */
  lemma {:induction false} RunKeepsValid(s: GameState, events: seq<Event>)
    requires Valid(s) && !s.isLoading
    requires Run(s, events).Some?
    ensures Valid(Run(s, events).value)
    ensures Run(s, events).value.isLoading ==>
      && events != []
      && events[|events| - 1].GenerateEvent?
      && events[|events| - 1].result.Rejected?
      && Run(s, events).value.statements.None?
    decreases |events|
  {
    if events != [] {
      var next := Step(s, events[0]);
      StepKeepsValid(s, events[0]);
      if next.isLoading {
        LoadingPageRunsNoFurther(next, events[1..]);
        assert events == [events[0]];
      } else {
        RunKeepsValid(next, events[1..]);
      }
    }
  }

  /** A generation whose call rejected strands the page: it stays loading with
      no statements, and no event is offered any more, neither a new
      generation nor a reset. */
  lemma RejectedGenerationStrandsPage(s: GameState, e: Event)
    ensures Generate(s, Rejected).isLoading && Generate(s, Rejected).statements.None?
    ensures !Enabled(Generate(s, Rejected), e)
  {
  }

  /** `handleGenerate` with loading cleared on every outcome, as a `finally`
      clause would do it. */
  function GenerateSettled(s: GameState, result: ActionResult): GameState {
    Generate(s, result).(isLoading := false)
  }

  /** With loading cleared on every outcome the page is never stranded: it ends
      idle and valid, and offers either a new generation or the dashboard's
      reset. */
  lemma SettledGenerationNeverStrands(s: GameState, result: ActionResult, request: GenerationRequest)
    requires ValidRequest(request)
    ensures var r := GenerateSettled(s, result);
      && !r.isLoading && Valid(r)
      && (Enabled(r, GenerateEvent(request, result)) || Enabled(r, ResetEvent))
  {
  }

  /** So in every reachable state that shows the dashboard, its computation
      reads only existing statements and both percentages lie in [0, 100]. */
  lemma ReachableDashboardInBounds(events: seq<Event>)
    requires Run(Initial, events).Some?
    requires Run(Initial, events).value.statements.Some?
    ensures var t := Run(Initial, events).value;
      && KeysInRange(t.statements.value, t.userAssessments)
      && 0.0 <= ComputeStats(t.statements.value, t.userAssessments).progress <= 100.0
      && 0.0 <= ComputeStats(t.statements.value, t.userAssessments).confidence <= 100.0
  {
    RunKeepsValid(Initial, events);
  }

  /** The worked game: a generation returns labels true, false, true (three
      statements for a request of six, adopted as they are); the player guesses
      true, true, false and reveals. Every card is assessed and only the first
      guess is right. */
  lemma ThreeCardGame()
    ensures var statements := [Statement("A", true), Statement("B", false), Statement("C", true)];
      var events := [
        GenerateEvent(GenerationRequest("A mission to Mars", 6.0), Succeeded(Some(GenerationOutput(statements)))),
        AssessEvent(0, true), AssessEvent(1, true), AssessEvent(2, false), RevealEvent];
      && Run(Initial, events).Some?
      && Run(Initial, events).value.isRevealed
      && Run(Initial, events).value.statements == Some(statements)
      && CorrectCount(statements, Run(Initial, events).value.userAssessments) == 1
      && ComputeStats(statements, Run(Initial, events).value.userAssessments) == Stats(100.0, 100.0 / 3.0)
  {
    var statements := [Statement("A", true), Statement("B", false), Statement("C", true)];
    var s0 := Generate(Initial, Succeeded(Some(GenerationOutput(statements))));
    var s1 := Assess(s0, 0, true);
    var s2 := Assess(s1, 1, true);
    var s3 := Assess(s2, 2, false);
    var s4 := Reveal(s3);
    assert s4.userAssessments == map[0 := true, 1 := true, 2 := false];
    var events := [
      GenerateEvent(GenerationRequest("A mission to Mars", 6.0), Succeeded(Some(GenerationOutput(statements)))),
      AssessEvent(0, true), AssessEvent(1, true), AssessEvent(2, false), RevealEvent];
    assert Run(s4, events[5..]) == Some(s4);
    assert Run(s3, events[4..]) == Some(s4);
    assert Run(s2, events[3..]) == Some(s4);
    assert Run(s1, events[2..]) == Some(s4);
    assert Run(s0, events[1..]) == Some(s4);
    assert Run(Initial, events) == Some(s4);
    ThreeCardScenario();
  }
}
