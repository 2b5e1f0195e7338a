# Brain Sprout games: quiz engine and bubble games in Dafny

This project models the game logic of three React components of an
educational web app for young pupils:

- **Quiz** (`MainFeature`): pick a subject, answer its multiple-choice
  questions, get 0 to 3 stars at the end. Math questions have a 30-second clock.
- **Bubble Pop** (`BubblePop`): numbered bubbles float up. The player taps only
  those that follow the current rule (odd or even). Correct taps score, wrong
  taps cost a life. Each level-up asks for more correct taps and switches the rule.
- **Bubble Game** (`BubbleGame`): the player drags each bubble of a batch onto
  the ODD or the EVEN container. Once the batch is sorted, a delayed level-up
  brings a bigger batch.

Each component is a class whose fields are the component's state hooks.
Each event handler is a method. Each effect (code that React runs after a
state change) is a separate method. `Valid()` holds in every state,
including between a handler and its effects. `Settled()` says that no effect
is pending. Events are modelled as seeing settled states, because React runs
effects before the next event. `BubblePop.Game.Tap`, `BubbleGame.Game.DragEnd`
and `MainFeature.Quiz.Settle` run a handler's effects after it.

The pure parts are functions with lemmas:

- the odd/even rule
- the id filter and the popped-marking map
- the remaining-bubble count
- batch sizes and number ranges
- the star thresholds

The `for` loops that build a batch are methods with loop invariants.

Inputs the code draws from the environment are method parameters:

- `Math.random()` draws are `real` values in [0, 1). A number is
  `Floor(r * n) + 1`, as in the code.
- `Date.now()` is an integer. The batch loops read the clock on every pass,
  so a batch takes one reading per bubble (`nows`) and bubble i gets the id
  `nows[i] + i`; a single spawn takes one reading `now`. Ids are not assumed
  to be unique in Bubble Pop. In Bubble Game they are proved unique, because
  every batch replaces the whole list and the clock, read in order, never
  runs backwards within one batch (`Common.NonDecreasing`).
- The container under the pointer at the end of a drag is an `Option<Parity>`.

Behaviour of the code worth knowing:

- **Stale level in new batches.** Bubble Pop's `startGame` builds its batch
  with the `generateBubbles` of the render that showed the button, so the
  batch size uses the level from before the reset to 1. Bubble Game does the
  same in `startGame` and in its delayed level-up: the new batch is made for
  the level captured when the drop started the timer. That is usually one
  below the new level, but not after a restart or a second queued timer
  came in between.
  `BubbleGame.Game` keeps a queue of pending level-up timers, each with its
  captured level. A timer fires even after the game is over.
- **Bubble Pop does not check the tapped bubble.** The tap handler does not
  look the bubble up in the list. It scores from the bubble object it is
  given, and the filter removes whatever carries that id.
- **Bubble Game's drop handler has no running-game guard.** The model adds
  none. `Settled()` only says that a running game has lives left.
- **Bubble Pop bubbles leave the list only when tapped; spawning stops at 15.**
- **Answering needs a question on screen.** `MainFeature.Quiz.SelectAnswer`
  requires a subject and an unfinished quiz. The options are rendered only
  then (MainFeature.jsx:322, 474), and the handler reads the selected
  subject. `NextQuestion` requires a subject for the same reason.
- **Back and subject select keep the answer flags.** Going back and choosing a
  subject leave `answered`, `selectedAnswer` and `showExplanation` as they
  were. Restart does not restart the clock.

## Model

| member | source | states |
|---|---|---|
| `Common.IsOdd` | src/components/BubblePop.jsx:57 | `num % 2 !== 0` holds exactly for the numbers of the form 2k + 1 |
| `Common.Min` | src/components/BubblePop.jsx:48 | `Math.min`: the result is one of the two and at most both |
| `Common.Matches` | src/components/BubblePop.jsx:96-98 | a tap or drop is correct iff the bubble is odd exactly when the rule/container is odd |
| `Common.Flip` | src/components/BubblePop.jsx:131 | the rule switch always changes the rule |
| `Common.FlipTwice` | src/components/BubblePop.jsx:131 | two switches restore the rule |
| `Common.FlipInvertsMatch` | src/components/BubblePop.jsx:131 | after a switch, exactly the bubbles that were wrong to tap are right to tap |
| `Common.DrawNumber` | src/components/BubbleGame.jsx:43 | `Math.floor(r * n) + 1` with r in [0, 1) lies in 1..n |
| `Common.ScaledFloorBelow` | src/components/BubblePop.jsx:52 | the scaled, floored draw lies in 0..n-1 |
| `BubblePop.NewBubble` | src/components/BubblePop.jsx:73-82 | a created bubble has a number in 1..100 and `isOdd` equal to the number's oddness |
| `BubblePop.BatchSize` | src/components/BubblePop.jsx:48 | a batch holds 8 + level bubbles, at most 15 (so 9..15), never more than 8 + level |
| `BubblePop.RequiredPopsFor` | src/components/BubblePop.jsx:123-131 | the pops a level requires (5 at level 1, +2 per level, cap 15) stay in 5..15 |
| `BubblePop.RequiredPopsStep` | src/components/BubblePop.jsx:128 | the level-up step `min(prev + 2, 15)` moves from one level's requirement to the next one's |
| `BubblePop.RequiredPopsMonotone` | src/components/BubblePop.jsx:128 | higher levels never require fewer pops |
| `BubblePop.Stars` | src/components/BubblePop.jsx:145-149 | 0..3 stars, one per threshold 50, 100, 150 reached |
| `BubblePop.StarsMonotone` | src/components/BubblePop.jsx:146-149 | a higher score never earns fewer stars |
| `BubblePop.MakeBatch` | src/components/BubblePop.jsx:42-66 | the batch has `min(8 + level, 15)` bubbles; bubble i has id `nows[i] + i` from the i-th clock reading, the i-th draw's number in 1..100 and the right parity |
| `BubblePop.RemoveId` | src/components/BubblePop.jsx:101 | a bubble stays iff it was in the list and has a different id; the list never grows |
| `BubblePop.RemoveIdAppend` | src/components/BubblePop.jsx:101 | filtering works piecewise over concatenation, so the kept bubbles keep their order |
| `BubblePop.RemoveIdCount` | src/components/BubblePop.jsx:101 | exactly the bubbles carrying the tapped id leave the list |
| `BubblePop.RemoveIdAbsent` | src/components/BubblePop.jsx:101 | tapping an id that is not in the list leaves the list unchanged |
| `BubblePop.RemoveIdIdempotent` | src/components/BubblePop.jsx:101 | removing the same id twice is the same as once |
| `BubblePop.Game.constructor` | src/components/BubblePop.jsx:14-24 | the initial hook values; the invariants hold |
| `BubblePop.Game.StartGame` | src/components/BubblePop.jsx:27-39 | score 0, level 1, lives 3, 0 popped, 5 required, active, not over; rule from the draw; the list is replaced by a batch sized for the level before the reset |
| `BubblePop.Game.SpawnStep` | src/components/BubblePop.jsx:69-90 | one bubble is appended only in an active game that is not over, with fewer than 15 bubbles listed; nothing else changes |
| `BubblePop.Game.HandleBubbleTap` | src/components/BubblePop.jsx:93-120 | an inactive or finished game ignores the tap; otherwise the id is filtered out and a correct tap gives +10 score and +1 popped, a wrong one -1 life, nothing else changes |
| `BubblePop.Game.LevelProgression` | src/components/BubblePop.jsx:123-137 | with enough pops in an active game: level +1, popped 0, required `min(+2, 15)`, rule flipped; otherwise nothing changes; required stays 5..15 |
| `BubblePop.Game.GameOverCheck` | src/components/BubblePop.jsx:140-151 | an active game with no lives becomes over and inactive with stars from the score; otherwise nothing changes |
| `BubblePop.Game.Tap` | src/components/BubblePop.jsx:93-151 | a tap followed by both effects: list, score, lives, level, rule, requirement, game over and stars after one tap, and no effect left pending |
| `BubbleGame.BatchSize` | src/components/BubbleGame.jsx:37 | a batch holds 3 + level bubbles, at most 8 (so 4..8), never more than 3 + level |
| `BubbleGame.MaxNumber` | src/components/BubbleGame.jsx:42 | the number range is 10 iff level <= 2, 50 iff level > 4, and 20 otherwise |
| `BubbleGame.MaxNumberMonotone` | src/components/BubbleGame.jsx:42 | higher levels never draw from a narrower range |
| `BubbleGame.NewBubble` | src/components/BubbleGame.jsx:41-54 | a created bubble has a number in 1..maxNum for its level, the right parity, and is unpopped |
| `BubbleGame.Stars` | src/components/BubbleGame.jsx:110-113 | 0..3 stars, one per threshold 20, 50, 100 reached |
| `BubbleGame.StarsMonotone` | src/components/BubbleGame.jsx:110-113 | a higher score never earns fewer stars |
| `BubbleGame.MakeBatch` | src/components/BubbleGame.jsx:36-58 | the batch has `min(3 + level, 8)` unpopped bubbles with ids `nows[i] + i` from the clock readings, distinct when the clock does not run backwards, numbers from the draws in the level's range, and the right parity |
| `BubbleGame.Find` | src/components/BubbleGame.jsx:62 | no result iff no bubble has the id; otherwise the first bubble with that id |
| `BubbleGame.MarkPopped` | src/components/BubbleGame.jsx:70-74 | same length; bubbles with other ids unchanged; bubbles with the id are the same bubble marked popped |
| `BubbleGame.Remaining` | src/components/BubbleGame.jsx:92 | the count of unpopped bubbles with another id is at most the list's length, and zero iff every bubble is popped or carries the dropped id |
| `BubbleGame.RemainingAfterMark` | src/components/BubbleGame.jsx:92 | the remaining count taken on the old list equals the unpopped count of the list after the drop |
| `BubbleGame.CountUnpoppedZero` | src/components/BubbleGame.jsx:92-93 | the unpopped count is zero iff every bubble is popped |
| `BubbleGame.MarkPoppedKeeps` | src/components/BubbleGame.jsx:70-74 | marking keeps ids distinct and every bubble well formed |
| `BubbleGame.Game.constructor` | src/components/BubbleGame.jsx:14-21 | the initial hook values, no pending timer; the invariants hold |
| `BubbleGame.Game.StartGame` | src/components/BubbleGame.jsx:24-33 | score 0, level 1, lives 3, active, not over; the list is replaced by a batch made for the level before the reset; pending timers stay |
| `BubbleGame.Game.HandleBubbleDrag` | src/components/BubbleGame.jsx:61-101 | an absent or popped id is ignored; otherwise the id is marked popped, +10 or -1 life by the first such bubble's parity, and a level-up timer is queued iff no other unpopped bubble remains |
| `BubbleGame.Game.GameOverCheck` | src/components/BubbleGame.jsx:104-115 | an active game with no lives becomes over and inactive with stars from the score; otherwise nothing changes |
| `BubbleGame.Game.DragEnd` | src/components/BubbleGame.jsx:228-236 | a drop outside both containers changes nothing; a drop on one runs the handler and the game-over effect; a level-up is queued iff the new list has no unpopped bubble |
| `BubbleGame.Game.LevelUpTimer` | src/components/BubbleGame.jsx:94-99 | level +1; the list is replaced by a batch for the level captured when the timer started; the timer leaves the queue |
| `MainFeature.Catalogue` | src/components/MainFeature.jsx:18-135 | math, science, language and social in that order, three questions each, every correct answer among its options |
| `MainFeature.StarRating` | src/components/MainFeature.jsx:228-237 | 0..3 stars, one per threshold 90%, 60%, 30% reached, as `100 * score >= t * total` |
| `MainFeature.PercentageComparison` | src/components/MainFeature.jsx:230-233 | `(score / total) * 100 >= t` over exact reals iff `100 * score >= t * total` |
| `MainFeature.StarRatingMonotone` | src/components/MainFeature.jsx:230-234 | a better score never earns fewer stars |
| `MainFeature.StarRatingExtremes` | src/components/MainFeature.jsx:230-234 | all answers right earns 3 stars, none right earns 0 |
| `MainFeature.CompletedScoreBound` | src/components/MainFeature.jsx:178-225 | a complete quiz has a subject, a score at most its number of questions, and a rating of at most 3 |
| `MainFeature.Quiz.constructor` | src/components/MainFeature.jsx:138-148 | the initial hook values; the invariants hold and nothing is pending |
| `MainFeature.Quiz.SelectSubject` | src/components/MainFeature.jsx:151-165 | for a subject from the catalogue: the subject is set with index 0, score 0, not complete; math sets 30 s and a running clock, other subjects leave the clock alone |
| `MainFeature.Quiz.BackToSubjects` | src/components/MainFeature.jsx:167-176 | no subject, index 0, score 0, not complete, clock stopped at 30 s; the answer flags are untouched |
| `MainFeature.Quiz.SelectAnswer` | src/components/MainFeature.jsx:178-206 | a second answer changes nothing; a first one records the answer, sets answered and explanation, scores +1 iff correct, and stops the clock iff correct on math |
| `MainFeature.Quiz.NextQuestion` | src/components/MainFeature.jsx:208-225 | clears the answer flags; moves to the next question (math: 30 s, clock running) below the last one, else completes; the index stays below the number of questions |
| `MainFeature.Quiz.RestartQuiz` | src/components/MainFeature.jsx:266-275 | index 0, no answer, score 0, not complete, no explanation, 30 s; the clock's running flag is untouched |
| `MainFeature.Quiz.RateCompletion` | src/components/MainFeature.jsx:228-239 | a complete quiz gets its star rating and a stopped clock; otherwise nothing changes |
| `MainFeature.Quiz.TimerTick` | src/components/MainFeature.jsx:242-250 | time decreases by 1 only on math with the clock running and time left, so it never goes below 0 |
| `MainFeature.Quiz.TimerExpiry` | src/components/MainFeature.jsx:253-261 | at 0 s on an unanswered, unfinished math question: answered and explanation shown, score untouched |
| `MainFeature.Quiz.Settle` | src/components/MainFeature.jsx:228-261 | both effects run, leaving a rated, stopped complete quiz and no timed-out open question |

## Left out

- Rendering, Tailwind classes, framer-motion animation, the lava and water
  effects (including the `waterEffect` hook, which only selects a style),
  toasts and icon lookups. They do not change game state.
- Bubble geometry and motion (`x`, `y`, `size`, `speed`) and the random
  keyframe offsets. They are floating-point presentation.
- Timer scheduling. The 1-second interval, the spawn delay of 0.8 to 1.6
  seconds, the 1-second level-up delay and cleanup on unmount are not timed.
  A tick, a spawn or a level-up fires when its method is called.
- DOM hit-testing at the end of a drag. The container under the pointer is an input.
- The stale render closures that React's exit animations could still call
  are not modelled. Every event sees the current, settled state.
- The `grade` prop of the quiz (display only) and the `onBack` props of the
  games (navigation owned by the parent).
- src/App.jsx (dark mode, routing), src/pages/Home.jsx (grade picker),
  src/pages/NotFound.jsx (static page) and src/components/BubbleZone.jsx
  (presentational wrapper). None of them holds game state.
- MainFeature.StarRating: compares exact ratios. The code computes the
  percentage in floating point, which can differ in the last bit. For the
  three-question subjects no percentage (0, 33.3, 66.7, 100) is near a threshold.
