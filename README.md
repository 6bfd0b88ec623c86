# TruthSeeker game state, modelled in Dafny

TruthSeeker AI is a single-page guessing game. The player enters a topic and a
number of witness statements. A text-generation service returns a list of
statements, each labelled true or fabricated. The player guesses true or false
on each card, then reveals the answers. A dashboard shows progress (the share
of cards guessed) and confidence (the share of guesses that were right).

This project models the client-side logic of `src/app/page.tsx`:

- `request.dfy` (module `Request`): the statement and request shapes, and the
  form's validation schema (topic of 10 to 150 characters, 4 to 12 statements,
  default 6).
- `scoring.dfy` (module `Scoring`): a card's correctness mark, and the
  dashboard's counts and percentages as exact rationals.
- `game.dfy` (module `Game`): the page's four state fields as a value, one
  transition function per handler, the invariant "every guessed index names a
  statement", the conditions under which the page offers each action, and a
  proof that every reachable state keeps the invariant.
- `page.dfy` (module `Page`): class `Home` with the four mutable fields. Its
  handler methods assign the fields in the source's order. Each is proved to
  end in the state the matching `Game` function gives.
- `wrappers.dfy` (module `Wrappers`): `Option` and `Result`.

The one external call is the server action that asks the generator for
statements. It is not modelled. Its outcome is a parameter of type
`ActionResult`, with four cases:

- a success with data;
- a success without data, which can happen because the generator's output is
  only asserted non-null (the page treats it like a failure);
- a failure reported by the action;
- a rejected call, when the request between browser and server itself fails.
  Nothing after the `await` runs then.

Some facts about the page's state:

- The page has no phase variable. Its state is `isLoading`, `statements`
  (absent or a list), `userAssessments` and `isRevealed`.
- The page stores no error. The error message only goes to a toast.
- Nothing in the state rejects a second generation while one is loading. Only
  the page stops it: the form is hidden while loading and its submit button is
  disabled. `Game.Enabled` records these page conditions.
- The returned list is adopted whatever its length. It is never compared with
  the requested count.

`handleAssess` itself checks nothing. Its index always comes from the rendered
list, and the buttons are disabled after the reveal. `Page.Home.Assess` and
`Game.Assess` therefore require `CanAssess`: statements shown, index in range,
not yet revealed.

## Model

| member | source | states |
|---|---|---|
| `Request.ParseRequest` | src/app/page.tsx:23-26 | A request is accepted iff the topic has 10 to 150 characters and the count lies in [4, 12], with a missing count taken as 6. A rejection lists exactly the checks that failed. |
| `Scoring.CardMark` | src/app/page.tsx:101-113 | A card shows a correct mark iff the answers are revealed and it has a guess equal to its label. It shows a wrong mark iff revealed with a different guess. It shows no mark iff not revealed or not guessed. |
| `Scoring.CorrectCount` | src/app/page.tsx:154 | The number of guesses that agree with their statement never exceeds the number of guesses. |
| `Scoring.AssessedAtMostTotal` | src/app/page.tsx:153 | When every key is a statement index, there are no more guesses than statements. |
| `Scoring.ComputeStats` | src/app/page.tsx:150-160 | With no statements both values are 0. Otherwise progress·total = assessed·100, and confidence·assessed = correct·100 when something is assessed (0 otherwise). Both lie in [0, 100]. It requires every key to be in range only when there are statements. |
| `Scoring.Percent` | src/app/page.tsx:157-158 | `(part / whole) * 100` lies in [0, 100] and times the whole gives part·100. |
| `Scoring.NothingAssessedScoresZero` | src/app/page.tsx:152-158 | With an empty guess map, progress and confidence are both 0, so nothing is divided by zero. |
| `Scoring.CorrectCountMatchesMarks` | src/app/page.tsx:154 | The dashboard's correct count equals the number of cards that show a correct mark after the reveal. |
| `Scoring.AssessedCountMatchesCards` | src/app/page.tsx:153 | The dashboard's assessed count equals the number of cards that hold a guess. |
| `Scoring.ThreeCardScenario` | src/app/page.tsx:150-160 | Labels true/false/true with guesses true/true/false give correct count 1, progress 100 and confidence 100/3. |
| `Game.Generate` | src/app/page.tsx:222-240 | After generation, loading is on exactly when the call rejected. Nothing is revealed and no guess remains. The statements are exactly the returned list on a success with data, and absent otherwise. The invariant holds. |
| `Game.AssessUpserts` | src/app/page.tsx:243-245 | A guess is stored at its index. Every other index keeps its guess. The key set grows by exactly that index, so by at most one key. Other fields are unchanged and the invariant is kept. |
| `Game.AssessLastWriteWins` | src/app/page.tsx:244 | Two guesses on one card leave the state the second guess alone gives. |
| `Game.ResetClears` | src/app/page.tsx:249-253 | Reset leaves no statements, no guesses and no reveal. It keeps `isLoading`, gives a valid state, and a second reset changes nothing. |
| `Game.RevealKeepsValid` | src/app/page.tsx:247 | Reveal changes nothing but the flag: statements, guesses and `isLoading` stay as they were. It keeps the invariant. |
| `Game.Enabled` | src/app/page.tsx:268-302 | The actions the page offers. A generation is offered only while the form is shown (no statements, not loading, line 268; submit disabled while loading, line 89), and only for a request the schema accepts. Every other action needs the statements shown (lines 282-302). A guess is offered only for an index of the list (`Game.CanAssess`, lines 294-300). Guesses and the reveal are offered only before the reveal (lines 127, 136, 202). |
| `Game.StepKeepsValid` | src/app/page.tsx:222-253 | Every action the page offers keeps the invariant. Only a generation whose call rejected starts the page loading, and then with no statements. |
| `Game.NothingEnabledWhileLoading` | src/app/page.tsx:268-305 | While loading with no statements the page offers no action: the form, the cards and the dashboard are all hidden. |
| `Game.LoadingPageRunsNoFurther` | src/app/page.tsx:268-305 | From a page loading with no statements, only the empty sequence of actions can be played. |
| `Game.RunKeepsValid` | src/app/page.tsx:215-253 | Any sequence of offered actions from a valid, idle state ends in a valid state. That state is loading only if the last action was a generation whose call rejected, and then it has no statements. |
| `Game.RejectedGenerationStrandsPage` | src/app/page.tsx:227-240 | After a rejected call the page is loading with no statements and offers no action at all, neither a new generation nor a reset. |
| `Game.SettledGenerationNeverStrands` | src/app/page.tsx:227-240 | If loading is cleared on every outcome (`Game.GenerateSettled`), the page ends idle and valid. It then offers either a new generation or the dashboard's reset. |
| `Game.ThreeCardGame` | src/app/page.tsx:222-253 | Generating labels true/false/true (three statements for a request of six), guessing true/true/false and revealing is a playable sequence. It ends revealed with correct count 1, progress 100 and confidence 100/3. |
| `Game.ReachableDashboardInBounds` | src/app/page.tsx:282-302 | In every reachable state that shows statements, every guessed index is below the list's length, so the dashboard's lookup is in bounds. Both percentages lie in [0, 100]. |
| `Page.Home.constructor` | src/app/page.tsx:216-219 | The page starts not loading, with no statements, no guesses and nothing revealed. |
| `Page.Home.BeginGeneration` | src/app/page.tsx:223-226 | Before the call: loading is on, the guesses are emptied, the reveal is cleared and the statements are removed. |
| `Page.Home.CompleteGeneration` | src/app/page.tsx:228-239 | A rejected call changes nothing. Otherwise, on a success with data the statements become the returned list, they stay as they were on any other outcome, and loading ends off. |
| `Page.Home.Generate` | src/app/page.tsx:222-241 | The two halves in sequence reach `Game.Generate`'s state. It is valid, unrevealed and without guesses, and loading exactly when the call rejected. |
| `Page.Home.Assess` | src/app/page.tsx:243-245 | Upserts the guess for the index (`Game.Assess`) and keeps the invariant. |
| `Page.Home.Reveal` | src/app/page.tsx:247 | Sets only the reveal flag and keeps the invariant. |
| `Page.Home.Reset` | src/app/page.tsx:249-253 | Clears statements, guesses and the reveal flag. `isLoading` is untouched. |
| `Page.Home.Dashboard` | src/app/page.tsx:282-291 | The dashboard shown beside the cards is `ComputeStats` of the current fields. Its percentages lie in [0, 100], and no more cards are assessed than exist. |

## Findings

| source | as written | input that shows it | evidently intended | confidence | as-written member | corrected member |
|---|---|---|---|---|---|---|
| src/app/page.tsx:227-240 | `setIsLoading(false)` runs only when the server action's call resolves | the call to the server action rejects (for example, the network drops): `isLoading` stays true and `statements` null, so the form, the cards and the dashboard are all hidden and the page shows the spinner for good | loading ends on every outcome, as a `finally` clause would ensure | medium, not executed | `Game.RejectedGenerationStrandsPage` | `Game.GenerateSettled`, proved by `Game.SettledGenerationNeverStrands` |

`Game.Generate`, `Game.Run` and `Page.Home` keep the behaviour as written, so
the stranded state stays visible in the event-sequence theorem.

## Left out

- The generator (prompt text, language-model call, output-schema check) and
  the server action's try/catch wrapper. Only their outcome, `ActionResult`,
  is modelled, including a call that rejects.
- Asynchronous scheduling of the generation (`startTransition`). A
  generation is one atomic step: begin, then outcome. A stale response
  racing a newer one is not modelled.
- Toast notifications and their messages, including the fallback "unknown
  error" text.
- Floating-point percentages and `toFixed(0)` rounding. Percentages are exact
  rationals.
- `Request.ParseRequest` counts topic length in characters. JavaScript counts
  UTF-16 code units, so the two differ for characters outside the Basic
  Multilingual Plane.
- `Request.ParseRequest` does not model non-number inputs or NaN for the
  count. The count is any real number, which is as permissive as the schema
  for finite numbers.
- Layout, styling, icons, the logo, the pressed state of the guess buttons,
  and the unused final-estimation text area and slider. They hold no state
  the logic reads.
