/** The page component's state holder: four fields that the handlers overwrite
    one after another, each handler proved to end in the state the matching
    `Game` transition describes. The generator call is not made here: its
    outcome is a parameter. */
module Page {
  import opened Wrappers
  import opened Request
  import opened Scoring
  import opened Game

  class Home {
    var isLoading: bool
    var statements: Option<seq<Statement>>
    var userAssessments: Assessments
    var isRevealed: bool

    /** The four fields as one value. */
    function State(): GameState
      reads this
    {
      GameState(isLoading, statements, userAssessments, isRevealed)
    }

    constructor ()
      ensures State() == Initial && Valid(State())
    {
      isLoading := false;
      statements := None;
      userAssessments := map[];
      isRevealed := false;
    }

    /** The first half of `handleGenerate`, before the call. */
    method BeginGeneration()
      modifies this
      ensures State() == Game.BeginGeneration(old(State()))
      ensures isLoading && statements == None && userAssessments == map[] && !isRevealed
    {
      isLoading := true;
      userAssessments := map[];
      isRevealed := false;
      statements := None;
    }

    /** The second half of `handleGenerate`, once the call has settled. When
        the call rejects, nothing after the `await` runs. */
    method CompleteGeneration(result: ActionResult)
      modifies this
      ensures State() == Game.CompleteGeneration(old(State()), result)
      ensures result.Rejected? ==> State() == old(State())
      ensures !result.Rejected? ==> !isLoading
      ensures old(statements) == None && old(userAssessments) == map[] ==> Valid(State())
    {
      if result.Rejected? {
        return;
      }
      if result.Succeeded? && result.data.Some? {
        statements := Some(result.data.value.statements);
      }
      isLoading := false;
    }

    /** `handleGenerate`: only the schema's accepted requests reach it. */
    method Generate(request: GenerationRequest, result: ActionResult)
      requires ValidRequest(request)
      modifies this
      ensures State() == Game.Generate(old(State()), result)
      ensures Valid(State()) && !isRevealed && userAssessments == map[]
      ensures isLoading <==> result.Rejected?
    {
      BeginGeneration();
      CompleteGeneration(result);
    }

    /** `handleAssess`, reachable only from a shown card whose buttons are enabled. */
    method Assess(index: nat, assessment: bool)
      requires Valid(State()) && CanAssess(State(), index)
      modifies this
      ensures State() == Game.Assess(old(State()), index, assessment)
      ensures Valid(State())
    {
      userAssessments := userAssessments[index := assessment];
    }

    /** `handleReveal`. */
    method Reveal()
      requires Valid(State())
      modifies this
      ensures State() == Game.Reveal(old(State()))
      ensures Valid(State())
    {
      isRevealed := true;
    }

    /** `handleReset`. */
    method Reset()
      modifies this
      ensures State() == Game.Reset(old(State()))
      ensures Valid(State()) && isLoading == old(isLoading)
    {
      statements := None;
      userAssessments := map[];
      isRevealed := false;
    }

    /** The dashboard as the page renders it: only while statements are shown,
        and then its lookup of every guessed index stays in bounds. */
    method Dashboard() returns (stats: Stats)
      requires Valid(State()) && statements.Some?
      ensures stats == ComputeStats(statements.value, userAssessments)
      ensures 0.0 <= stats.progress <= 100.0 && 0.0 <= stats.confidence <= 100.0
      ensures AssessedCount(userAssessments) <= |statements.value|
    {
      AssessedAtMostTotal(statements.value, userAssessments);
      stats := ComputeStats(statements.value, userAssessments);
    }
  }
}
