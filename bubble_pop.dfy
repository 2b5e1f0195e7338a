/**
 * Bubble Pop: numbered bubbles float up the screen and the player taps only
 * those that follow the current rule (odd or even). Correct taps score and
 * count towards the next level; wrong taps cost a life. Every level-up asks
 * for more correct taps and switches the rule.
 *
 * Bubble geometry and motion (x, y, size, speed) are not part of the model:
 * a bubble is its id, its number and whether that number is odd.
 */
module BubblePop {
  import opened Common

  /** Largest batch, and the list size at which continuous spawning stops. */
  const MaxBubbles := 15
  /** Cap on the number of correct taps a level asks for. */
  const MaxRequiredPops := 15
  const StartLives := 3
  const StartRequiredPops := 5
  const PointsPerPop := 10
  /** Bubble numbers are drawn from 1..NumberRange at every level. */
  const NumberRange := 100

  datatype Bubble = Bubble(id: int, number: int, isOdd: bool)

  /** A bubble as the game creates it: a number in range, classified once. */
  predicate WellFormed(b: Bubble)
  {
    1 <= b.number <= NumberRange && b.isOdd == IsOdd(b.number)
  }

  /** The bubble built from one id and one random draw in [0, 1). */
  function NewBubble(id: int, draw: real): (b: Bubble)
    requires 0.0 <= draw < 1.0
    ensures WellFormed(b)
    ensures b.id == id && b.number == DrawNumber(draw, NumberRange)
  {
    var n := DrawNumber(draw, NumberRange);
    Bubble(id, n, IsOdd(n))
  }

  /** `Math.min(8 + level, 15)`: one more bubble per level, at most 15. */
  function BatchSize(level: int): (n: nat)
    requires level >= 1
    ensures 9 <= n <= MaxBubbles
    ensures n <= 8 + level
    ensures n == MaxBubbles || n == 8 + level
  {
    Min(8 + level, MaxBubbles)
  }

  /** The number of correct taps level `level` asks for: 5 at level 1 and
      two more per level, capped at 15. */
  function RequiredPopsFor(level: int): (n: int)
    requires level >= 1
    ensures StartRequiredPops <= n <= MaxRequiredPops
  {
    Min(3 + 2 * level, MaxRequiredPops)
  }

  /** The step the level-up effect takes, `Math.min(prev + 2, 15)`, moves
      from one level's requirement to the next one's. */
  lemma RequiredPopsStep(level: int)
    requires level >= 1
    ensures RequiredPopsFor(level + 1) == Min(RequiredPopsFor(level) + 2, MaxRequiredPops)
  {
  }

  /** Higher levels never ask for fewer correct taps. */
  lemma RequiredPopsMonotone(l1: int, l2: int)
    requires 1 <= l1 <= l2
    ensures RequiredPopsFor(l1) <= RequiredPopsFor(l2)
  {
  }

  /** 3, 2, 1 or 0 stars for a final score of at least 150, 100, 50 or less:
      one star for every threshold reached. */
  function Stars(score: int): (stars: nat)
    ensures stars <= 3
    ensures stars == (if score >= 50 then 1 else 0) + (if score >= 100 then 1 else 0)
                     + (if score >= 150 then 1 else 0)
  {
    if score >= 150 then 3
    else if score >= 100 then 2
    else if score >= 50 then 1
    else 0
  }

  /** A higher score never earns fewer stars. */
  lemma StarsMonotone(s1: int, s2: int)
    requires s1 <= s2
    ensures Stars(s1) <= Stars(s2)
  {
  }

  /** The loop of `generateBubbles`: bubble `i` of the batch gets id
      `Date.now() + i`, where the clock is read afresh on every pass
      (`nows[i]`), and its number from the i-th draw. */
  method MakeBatch(level: int, nows: seq<int>, draws: seq<real>) returns (batch: seq<Bubble>)
    requires level >= 1
    requires |nows| == |draws| == BatchSize(level)
    requires forall i :: 0 <= i < |draws| ==> 0.0 <= draws[i] < 1.0
    ensures |batch| == BatchSize(level)
    ensures forall i :: 0 <= i < |batch| ==>
              && WellFormed(batch[i])
              && batch[i].id == nows[i] + i
              && batch[i].number == DrawNumber(draws[i], NumberRange)
  {
    var numBubbles := BatchSize(level);
    batch := [];
    for i := 0 to numBubbles
      invariant |batch| == i
      invariant forall k :: 0 <= k < i ==> batch[k] == NewBubble(nows[k] + k, draws[k])
    {
      batch := batch + [NewBubble(nows[i] + i, draws[i])];
    }
  }

  /** `bubbles.filter(b => b.id !== id)`. */
  function RemoveId(s: seq<Bubble>, id: int): (r: seq<Bubble>)
    ensures |r| <= |s|
    ensures forall b :: b in r <==> b in s && b.id != id
  {
    if s == [] then []
    else if s[0].id == id then RemoveId(s[1..], id)
    else [s[0]] + RemoveId(s[1..], id)
  }

  /** The number of bubbles in `s` that carry id `id`. */
  function CountId(s: seq<Bubble>, id: int): nat
  {
    if s == [] then 0
    else (if s[0].id == id then 1 else 0) + CountId(s[1..], id)
  }

  /** Filtering works piecewise, so the bubbles that stay keep their order. */
  lemma {:induction false} RemoveIdAppend(s: seq<Bubble>, t: seq<Bubble>, id: int)
    ensures RemoveId(s + t, id) == RemoveId(s, id) + RemoveId(t, id)
  {
    if s == [] {
      assert s + t == t;
    } else {
      assert (s + t)[0] == s[0];
      assert (s + t)[1..] == s[1..] + t;
      RemoveIdAppend(s[1..], t, id);
    }
  }

  /** Exactly the bubbles with the tapped id leave the list. */
  lemma {:induction false} RemoveIdCount(s: seq<Bubble>, id: int)
    ensures |RemoveId(s, id)| == |s| - CountId(s, id)
  {
    if s != [] {
      RemoveIdCount(s[1..], id);
    }
  }

  /** Tapping an id that is not on screen leaves the list as it is. */
  lemma {:induction false} RemoveIdAbsent(s: seq<Bubble>, id: int)
    requires forall b :: b in s ==> b.id != id
    ensures RemoveId(s, id) == s
  {
    if s != [] {
      assert s[0] in s;
      assert forall b :: b in s[1..] ==> b in s;
      RemoveIdAbsent(s[1..], id);
      assert [s[0]] + s[1..] == s;
    }
  }

  /** Removing the same id a second time changes nothing. */
  lemma RemoveIdIdempotent(s: seq<Bubble>, id: int)
    ensures RemoveId(RemoveId(s, id), id) == RemoveId(s, id)
  {
  }

  /** The state of one Bubble Pop session (the component's state hooks,
      minus the instructions' presentation). */
  class Game {
    var gameActive: bool
    var bubbles: seq<Bubble>
    var score: int
    var level: int
    var lives: int
    var gameOver: bool
    var stars: nat
    var showInstructions: bool
    var currentRule: Parity
    var bubblesPopped: int
    var requiredPops: int
    /** The rule drawn at the last start; the rule of every later level
        follows from it and the level's parity. */
    ghost var firstRule: Parity

    /** What holds in every state, between a handler and its effects too. */
    ghost predicate Valid()
      reads this
    {
      && 1 <= level
      && requiredPops == RequiredPopsFor(level)
      && 0 <= bubblesPopped <= requiredPops
      && currentRule == (if level % 2 == 1 then firstRule else Flip(firstRule))
      && 0 <= lives <= StartLives
      && 0 <= score && score % PointsPerPop == 0
      && stars <= 3
      && (gameOver ==> !gameActive)
      && |bubbles| <= MaxBubbles
      && (forall b :: b in bubbles ==> WellFormed(b))
    }

    /** No effect is pending: the level-up and game-over effects have run. */
    ghost predicate Settled()
      reads this
    {
      gameActive ==> bubblesPopped < requiredPops && lives > 0
    }

    /** The initial state of the component's hooks. */
    constructor ()
      ensures Valid() && Settled()
      ensures !gameActive && bubbles == [] && score == 0 && level == 1
      ensures lives == StartLives && !gameOver && stars == 0 && showInstructions
      ensures currentRule == Odd && bubblesPopped == 0 && requiredPops == StartRequiredPops
    {
      gameActive, bubbles, score, level := false, [], 0, 1;
      lives, gameOver, stars, showInstructions := StartLives, false, 0, true;
      currentRule, bubblesPopped, requiredPops := Odd, 0, StartRequiredPops;
      firstRule := Odd;
    }

    /** `startGame`. The rule comes from `ruleDraw` (`Math.random() > 0.5`
        picks odd). The batch is generated by the `generateBubbles` of the
        render that offered the button, so its size follows the level from
        before the reset. */
    method StartGame(ruleDraw: real, nows: seq<int>, draws: seq<real>)
      requires Valid()
      requires 0.0 <= ruleDraw < 1.0
      requires |nows| == |draws| == BatchSize(level)
      requires forall i :: 0 <= i < |draws| ==> 0.0 <= draws[i] < 1.0
      modifies this
      ensures Valid() && Settled()
      ensures gameActive && !showInstructions && !gameOver
      ensures score == 0 && level == 1 && lives == StartLives
      ensures bubblesPopped == 0 && requiredPops == StartRequiredPops
      ensures currentRule == (if ruleDraw > 0.5 then Odd else Even)
      ensures stars == old(stars)
      ensures |bubbles| == BatchSize(old(level))
      ensures forall i :: 0 <= i < |bubbles| ==> bubbles[i] == NewBubble(nows[i] + i, draws[i])
    {
      var batch := MakeBatch(level, nows, draws);
      gameActive, showInstructions := true, false;
      score, level, lives, gameOver := 0, 1, StartLives, false;
      bubblesPopped, requiredPops := 0, StartRequiredPops;
      currentRule := if ruleDraw > 0.5 then Odd else Even;
      firstRule := currentRule;
      bubbles := batch;
    }

    /** One firing of the continuous-spawn timer: a single new bubble joins
        the list while the game runs and fewer than 15 bubbles are shown. */
    method SpawnStep(now: int, draw: real)
      requires Valid()
      requires 0.0 <= draw < 1.0
      modifies this`bubbles
      ensures Valid()
      ensures Settled() == old(Settled())
      ensures bubbles == if old(gameActive) && !old(gameOver) && |old(bubbles)| < MaxBubbles
                         then old(bubbles) + [NewBubble(now, draw)]
                         else old(bubbles)
    {
      if gameActive && |bubbles| < MaxBubbles && !gameOver {
        bubbles := bubbles + [NewBubble(now, draw)];
      }
    }
  
    /** `handleBubbleTap`. Inactive or finished games ignore taps. Otherwise
        every bubble with the tapped id leaves the list, and the tap scores
        10 and counts towards the level when the bubble follows the rule, or
        costs a life when it does not. The tapped bubble is the one the
        render showed; the handler does not look it up in the list. */
    method HandleBubbleTap(b: Bubble)
      requires Valid() && Settled()
      modifies this`bubbles, this`score, this`bubblesPopped, this`lives
      ensures Valid()
      ensures !old(gameActive) || old(gameOver) ==>
                bubbles == old(bubbles) && score == old(score)
                && bubblesPopped == old(bubblesPopped) && lives == old(lives)
      ensures old(gameActive) && !old(gameOver) ==>
                && bubbles == RemoveId(old(bubbles), b.id)
                && if Matches(currentRule, b.isOdd)
                   then score == old(score) + PointsPerPop
                        && bubblesPopped == old(bubblesPopped) + 1 && lives == old(lives)
                   else lives == old(lives) - 1
                        && score == old(score) && bubblesPopped == old(bubblesPopped)
    {
      if !gameActive || gameOver {
        return;
      }
      var isCorrect := Matches(currentRule, b.isOdd);
      bubbles := RemoveId(bubbles, b.id);
      if isCorrect {
        score := score + PointsPerPop;
        bubblesPopped := bubblesPopped + 1;
      } else {
        lives := lives - 1;
      }
    }

    /** The level-progression effect: once enough correct taps are made in a
        running game, the level rises, the counter restarts, the next level
        asks for two more taps (at most 15) and the rule switches. */
    method LevelProgression()
      requires Valid()
      modifies this`level, this`bubblesPopped, this`requiredPops, this`currentRule
      ensures Valid()
      ensures gameActive ==> bubblesPopped < requiredPops
      ensures if old(bubblesPopped >= requiredPops && gameActive)
              then && level == old(level) + 1 && bubblesPopped == 0
                   && requiredPops == Min(old(requiredPops) + 2, MaxRequiredPops)
                   && currentRule == Flip(old(currentRule))
              else && level == old(level) && bubblesPopped == old(bubblesPopped)
                   && requiredPops == old(requiredPops) && currentRule == old(currentRule)
    {
      if bubblesPopped >= requiredPops && gameActive {
        RequiredPopsStep(level);
        FlipTwice(firstRule);
        level := level + 1;
        bubblesPopped := 0;
        requiredPops := Min(requiredPops + 2, MaxRequiredPops);
        currentRule := Flip(currentRule);
      }
    }

    /** The game-over effect: a running game with no lives left ends and is
        rated from its score. */
    method GameOverCheck()
      requires Valid()
      modifies this`gameOver, this`gameActive, this`stars
      ensures Valid()
      ensures gameActive ==> lives > 0
      ensures if old(lives <= 0 && gameActive)
              then gameOver && !gameActive && stars == Stars(score)
              else gameOver == old(gameOver) && gameActive == old(gameActive)
                   && stars == old(stars)
    {
      if lives <= 0 && gameActive {
        gameOver := true;
        gameActive := false;
        stars := Stars(score);
      }
    }

    /** A tap as the player sees it: the handler, then the two effects that
        react to its state changes, in the order the component declares
        them. */
    method Tap(b: Bubble)
      requires Valid() && Settled()
      modifies this
      ensures Valid() && Settled()
      ensures bubbles == if old(gameActive) && !old(gameOver)
                         then RemoveId(old(bubbles), b.id) else old(bubbles)
      ensures score == if old(gameActive) && !old(gameOver) && Matches(old(currentRule), b.isOdd)
                       then old(score) + PointsPerPop else old(score)
      ensures lives == if old(gameActive) && !old(gameOver) && !Matches(old(currentRule), b.isOdd)
                       then old(lives) - 1 else old(lives)
      ensures gameOver <==> old(gameOver) || (old(gameActive) && lives == 0)
      ensures gameActive <==> old(gameActive) && lives > 0
      ensures stars == if old(gameActive) && lives == 0 then Stars(score) else old(stars)
      ensures showInstructions == old(showInstructions)
      ensures var levelUp := old(gameActive) && !old(gameOver) && Matches(old(currentRule), b.isOdd)
                             && old(bubblesPopped) + 1 == old(requiredPops);
              && level == (if levelUp then old(level) + 1 else old(level))
              && currentRule == (if levelUp then Flip(old(currentRule)) else old(currentRule))
              && requiredPops == RequiredPopsFor(level)
              && bubblesPopped == (if levelUp then 0
                                   else if old(gameActive) && !old(gameOver) && Matches(old(currentRule), b.isOdd)
                                   then old(bubblesPopped) + 1 else old(bubblesPopped))
    {
      HandleBubbleTap(b);
      LevelProgression();
      GameOverCheck();
    }
  }
}
