/** Scoring as the witness cards and the case dashboard compute it: a card's
    correctness mark, and the progress and confidence percentages derived from
    the statement list and the map of guesses. */
module Scoring {
  import opened Wrappers
  import opened Request

  /** The player's guesses: statement index to guessed truth value. An index
      without a key has not been assessed (it is not a guess of `false`). */
  type Assessments = map<nat, bool>

  /** `userAssessments[index]`: the guess for one card, if any. */
  function Lookup(m: Assessments, i: nat): Option<bool> {
    if i in m then Some(m[i]) else None
  }

  /** A card's guess matches its label; an absent guess never matches. */
  predicate IsCorrect(st: Statement, guess: Option<bool>) {
    guess == Some(st.isTrue)
  }

  /** What a card shows: no mark, a correct mark, or a wrong mark
      (border colour and icon make the same choice). */
  datatype Mark = NoMark | CorrectMark | WrongMark

  function CardMark(st: Statement, guess: Option<bool>, isRevealed: bool): (r: Mark)
    ensures r == CorrectMark <==> isRevealed && guess.Some? && guess.value == st.isTrue
    ensures r == WrongMark <==> isRevealed && guess.Some? && guess.value != st.isTrue
    ensures r == NoMark <==> !isRevealed || guess.None?
  {
    if !isRevealed || guess.None? then NoMark
    else if IsCorrect(st, guess) then CorrectMark
    else WrongMark
  }

  /** Every key of the guess map names a statement. */
  predicate KeysInRange(statements: seq<Statement>, m: Assessments) {
    forall k :: k in m ==> k < |statements|
  }

  /** `Object.keys(assessments).length`. */
  function AssessedCount(m: Assessments): nat {
    |m|
  }

  /** The keys whose guess equals the label of the statement they index. */
  function CorrectKeys(statements: seq<Statement>, m: Assessments): set<nat>
    requires KeysInRange(statements, m)
  {
    set k | k in m && m[k] == statements[k].isTrue
  }

  /** The number of guess-map entries that agree with their statement. */
  function CorrectCount(statements: seq<Statement>, m: Assessments): (r: nat)
    requires KeysInRange(statements, m)
    ensures r <= AssessedCount(m)
  {
    SubsetCardinality(CorrectKeys(statements, m), m.Keys);
    |CorrectKeys(statements, m)|
  }

  lemma SubsetCardinality(a: set<nat>, b: set<nat>)
    requires a <= b
    ensures |a| <= |b|
  {
    assert b == a + (b - a);
  }

  /** A set of naturals all below `n` has at most `n` elements. */
  lemma {:induction false} BoundedSetCardinality(s: set<nat>, n: nat)
    requires forall k :: k in s ==> k < n
    ensures |s| <= n
  {
    if n > 0 {
      var rest := s - {n - 1};
      BoundedSetCardinality(rest, n - 1);
      if n - 1 in s {
        assert s == rest + {n - 1};
      } else {
        assert s == rest;
      }
    }
  }

  /** With every key in range, no more cards are assessed than exist. */
  lemma AssessedAtMostTotal(statements: seq<Statement>, m: Assessments)
    requires KeysInRange(statements, m)
    ensures AssessedCount(m) <= |statements|
  {
    BoundedSetCardinality(m.Keys, |statements|);
  }

  /** The dashboard's two percentages, as exact rationals. */
  datatype Stats = Stats(progress: real, confidence: real)

  /** The dashboard computation. With no statements it returns zeros without
      reading the guesses; otherwise it reads `statements[index]` for every
      key, so every key must be in range. */
  function ComputeStats(statements: seq<Statement>, m: Assessments): (r: Stats)
    requires |statements| > 0 ==> KeysInRange(statements, m)
    ensures |statements| == 0 ==> r == Stats(0.0, 0.0)
    ensures 0.0 <= r.progress <= 100.0 && 0.0 <= r.confidence <= 100.0
    ensures |statements| > 0 ==> r.progress * (|statements| as real) == (AssessedCount(m) as real) * 100.0
    ensures |statements| > 0 && AssessedCount(m) > 0 ==>
      r.confidence * (AssessedCount(m) as real) == (CorrectCount(statements, m) as real) * 100.0
    ensures AssessedCount(m) == 0 ==> r.confidence == 0.0
  {
    var total := |statements|;
    if total == 0 then Stats(0.0, 0.0)
    else
      var assessedCount := AssessedCount(m);
      var correctCount := CorrectCount(statements, m);
      AssessedAtMostTotal(statements, m);
      Stats(Percent(assessedCount, total),
            if assessedCount > 0 then Percent(correctCount, assessedCount) else 0.0)
  }

  /** Revealing before any guess shows 0% progress and 0% confidence. */
  lemma NothingAssessedScoresZero(statements: seq<Statement>)
    ensures ComputeStats(statements, map[]) == Stats(0.0, 0.0)
  {
  }

  /** `(part / whole) * 100` for a part no larger than the whole. */
  function Percent(part: nat, whole: nat): (r: real)
    requires 0 < whole && part <= whole
    ensures 0.0 <= r <= 100.0
    ensures r * (whole as real) == (part as real) * 100.0
  {
    var q := (part as real) / (whole as real);
    assert 0.0 <= q <= 1.0;
    q * 100.0
  }

  /** The dashboard's correct count is exactly the number of cards that show a
      correct mark once the answers are revealed. */
  lemma CorrectCountMatchesMarks(statements: seq<Statement>, m: Assessments)
    requires KeysInRange(statements, m)
    ensures CorrectCount(statements, m)
         == |set i: nat | i < |statements| && CardMark(statements[i], Lookup(m, i), true) == CorrectMark|
  {
    var marked := set i: nat | i < |statements| && CardMark(statements[i], Lookup(m, i), true) == CorrectMark;
    assert CorrectKeys(statements, m) == marked;
  }

  /** The dashboard's assessed count is exactly the number of cards holding a guess. */
  lemma AssessedCountMatchesCards(statements: seq<Statement>, m: Assessments)
    requires KeysInRange(statements, m)
    ensures AssessedCount(m) == |set i: nat | i < |statements| && Lookup(m, i).Some?|
  {
    var guessed := set i: nat | i < |statements| && Lookup(m, i).Some?;
    assert m.Keys == guessed;
  }

  /** A worked game: labels true, false, true; guesses true, true, false.
      Every card is assessed, only the first guess is right. */
  lemma ThreeCardScenario()
    ensures var statements := [Statement("A", true), Statement("B", false), Statement("C", true)];
            var m: Assessments := map[0 := true, 1 := true, 2 := false];
            && CorrectCount(statements, m) == 1
            && ComputeStats(statements, m) == Stats(100.0, 100.0 / 3.0)
  {
    var statements := [Statement("A", true), Statement("B", false), Statement("C", true)];
    var m: Assessments := map[0 := true, 1 := true, 2 := false];
    assert m.Keys == {0, 1, 2};
    assert CorrectKeys(statements, m) == {0};
  }
}
