/**
 * Bubble Game: a batch of numbered bubbles hovers in the play area and the
 * player drags each one onto the ODD or the EVEN container. A right drop
 * scores, a wrong one costs a life; a popped bubble stays in the list,
 * marked popped. When the last unpopped bubble is dropped, a delayed timer
 * raises the level and replaces the batch.
 *
 * Geometry and motion (x, y, size, speed) are not part of the model, and
 * the container under the pointer at the end of a drag is an input.
 */
module BubbleGame {
  import opened Common

  /** Largest batch. */
  const MaxBubbles := 8
  const StartLives := 3
  const PointsPerDrop := 10
  /** The widest number range any level uses. */
  const MaxNumberRange := 50

  datatype Bubble = Bubble(id: int, number: int, isOdd: bool, popped: bool)

  /** `Math.min(3 + level, 8)`: one more bubble per level, at most 8. */
  function BatchSize(level: int): (n: nat)
    requires level >= 1
    ensures 4 <= n <= MaxBubbles
    ensures n <= 3 + level
    ensures n == MaxBubbles || n == 3 + level
  {
    Min(3 + level, MaxBubbles)
  }

  /** The largest number a batch may show: 10 up to level 2, 20 up to
      level 4 and 50 from level 5 on. */
  function MaxNumber(level: int): (m: nat)
    ensures m == 10 || m == 20 || m == 50
    ensures m == 10 <==> level <= 2
    ensures m == 50 <==> level > 4
  {
    if level <= 2 then 10 else if level <= 4 then 20 else 50
  }

  /** Higher levels never draw from a narrower range. */
  lemma MaxNumberMonotone(l1: int, l2: int)
    requires l1 <= l2
    ensures MaxNumber(l1) <= MaxNumber(l2)
  {
  }

  /** A bubble as a batch for level `level` creates it. */
  predicate FreshFor(b: Bubble, level: int)
  {
    1 <= b.number <= MaxNumber(level) && b.isOdd == IsOdd(b.number) && !b.popped
  }

  /** A bubble of any batch: in the widest range and classified by its number. */
  predicate WellFormed(b: Bubble)
  {
    1 <= b.number <= MaxNumberRange && b.isOdd == IsOdd(b.number)
  }

  /** The bubble built for level `level` from one id and one draw in [0, 1). */
  function NewBubble(level: int, id: int, draw: real): (b: Bubble)
    requires 0.0 <= draw < 1.0
    ensures FreshFor(b, level) && WellFormed(b)
    ensures b.id == id && b.number == DrawNumber(draw, MaxNumber(level))
  {
    var n := DrawNumber(draw, MaxNumber(level));
    Bubble(id, n, IsOdd(n), false)
  }

  /** 3, 2, 1 or 0 stars for a final score of at least 100, 50, 20 or less:
      one star for every threshold reached. */
  function Stars(score: int): (stars: nat)
    ensures stars <= 3
    ensures stars == (if score >= 20 then 1 else 0) + (if score >= 50 then 1 else 0)
                     + (if score >= 100 then 1 else 0)
  {
    if score >= 100 then 3
    else if score >= 50 then 2
    else if score >= 20 then 1
    else 0
  }

  /** A higher score never earns fewer stars. */
  lemma StarsMonotone(s1: int, s2: int)
    requires s1 <= s2
    ensures Stars(s1) <= Stars(s2)
  {
  }

  /** No two bubbles of the list share an id. */
  predicate DistinctIds(s: seq<Bubble>)
  {
    forall i, j :: 0 <= i < j < |s| ==> s[i].id != s[j].id
  }

  /** The loop of `generateBubbles`: bubble `i` of the batch gets id
      `Date.now() + i`, where the clock is read afresh on every pass
      (`nows[i]`), a number from the i-th draw scaled to the level's range,
      and starts unpopped. Because the clock never runs backwards within
      one batch, the ids come out strictly increasing. */
  method MakeBatch(level: int, nows: seq<int>, draws: seq<real>) returns (batch: seq<Bubble>)
    requires level >= 1
    requires |nows| == |draws| == BatchSize(level)
    requires NonDecreasing(nows)
    requires forall i :: 0 <= i < |draws| ==> 0.0 <= draws[i] < 1.0
    ensures |batch| == BatchSize(level)
    ensures DistinctIds(batch)
    ensures forall i :: 0 <= i < |batch| ==>
              && FreshFor(batch[i], level)
              && batch[i].id == nows[i] + i
              && batch[i].number == DrawNumber(draws[i], MaxNumber(level))
  {
    var count := BatchSize(level);
    batch := [];
    for i := 0 to count
      invariant |batch| == i
      invariant forall k :: 0 <= k < i ==> batch[k] == NewBubble(level, nows[k] + k, draws[k])
    {
      batch := batch + [NewBubble(level, nows[i] + i, draws[i])];
    }
  }

  /** `bubbles.find(b => b.id === id)`: the position of the first bubble
      with that id, if any. */
  function Find(s: seq<Bubble>, id: int): (r: Option<nat>)
    ensures r.None? <==> forall i :: 0 <= i < |s| ==> s[i].id != id
    ensures r.Some? ==> r.value < |s| && s[r.value].id == id
                        && forall j :: 0 <= j < r.value ==> s[j].id != id
  {
    if s == [] then None
    else if s[0].id == id then Some(0)
    else match Find(s[1..], id)
      case None => None
      case Some(k) => Some(k + 1)
  }

  /** `bubbles.map(b => b.id === id ? {...b, popped: true} : b)`. */
  function MarkPopped(s: seq<Bubble>, id: int): (r: seq<Bubble>)
    ensures |r| == |s|
    ensures forall i :: 0 <= i < |s| && s[i].id != id ==> r[i] == s[i]
    ensures forall i :: 0 <= i < |s| && s[i].id == id ==> r[i] == s[i].(popped := true)
  {
    if s == [] then []
    else [if s[0].id == id then s[0].(popped := true) else s[0]] + MarkPopped(s[1..], id)
  }

  /** The number of bubbles still to be sorted. */
  function CountUnpopped(s: seq<Bubble>): nat
  {
    if s == [] then 0
    else (if s[0].popped then 0 else 1) + CountUnpopped(s[1..])
  }

  /** `bubbles.filter(b => !b.popped && b.id !== id).length`: the bubbles
      still to be sorted other than those with the dropped id. */
  function Remaining(s: seq<Bubble>, id: int): (r: nat)
    ensures r <= |s|
    ensures r == 0 <==> forall i :: 0 <= i < |s| ==> s[i].popped || s[i].id == id
  {
    if s == [] then 0
    else (if !s[0].popped && s[0].id != id then 1 else 0) + Remaining(s[1..], id)
  }

  /** The level-up trigger, counted on the list before the drop, is the
      number of unpopped bubbles in the list the drop produces. */
  lemma {:induction false} RemainingAfterMark(s: seq<Bubble>, id: int)
    ensures CountUnpopped(MarkPopped(s, id)) == Remaining(s, id)
  {
    if s != [] {
      RemainingAfterMark(s[1..], id);
      assert MarkPopped(s, id)[1..] == MarkPopped(s[1..], id);
    }
  }

  /** A list counts no unpopped bubble exactly when every bubble is popped. */
  lemma {:induction false} CountUnpoppedZero(s: seq<Bubble>)
    ensures CountUnpopped(s) == 0 <==> forall i :: 0 <= i < |s| ==> s[i].popped
  {
    if s != [] {
      CountUnpoppedZero(s[1..]);
      assert forall i :: 1 <= i < |s| ==> s[i] == s[1..][i - 1];
    }
  }

  /** Marking keeps ids, numbers and classes, so what holds of every bubble
      of the list holds after a drop too. */
  lemma MarkPoppedKeeps(s: seq<Bubble>, id: int)
    requires DistinctIds(s)
    requires forall b :: b in s ==> WellFormed(b)
    ensures DistinctIds(MarkPopped(s, id))
    ensures forall b :: b in MarkPopped(s, id) ==> WellFormed(b)
  {
    var r := MarkPopped(s, id);
    forall b | b in r ensures WellFormed(b) {
      var i :| 0 <= i < |r| && r[i] == b;
      assert s[i] in s;
    }
  }

  /** The state of one Bubble Game session (the component's state hooks),
      plus the level-up timers that have been started and have not fired. */
  class Game {
    var gameActive: bool
    var bubbles: seq<Bubble>
    var score: int
    var level: int
    var lives: int
    var gameOver: bool
    var stars: nat
    var showInstructions: bool
    /** One entry per pending level-up timer, oldest first: the level of the
        render that started it, which is the level its batch is made for. */
    var pendingLevelUps: seq<int>

    ghost predicate Valid()
      reads this
    {
      && 1 <= level
      && lives <= StartLives
      && 0 <= score && score % PointsPerDrop == 0
      && stars <= 3
      && (gameOver ==> !gameActive)
      && |bubbles| <= MaxBubbles
      && DistinctIds(bubbles)
      && (forall b :: b in bubbles ==> WellFormed(b))
      && (forall k :: 0 <= k < |pendingLevelUps| ==> pendingLevelUps[k] >= 1)
    }

    /** No effect is pending: a running game has lives left. */
    ghost predicate Settled()
      reads this
    {
      gameActive ==> lives > 0
    }

    /** The initial state of the component's hooks. */
    constructor ()
      ensures Valid() && Settled()
      ensures !gameActive && bubbles == [] && score == 0 && level == 1
      ensures lives == StartLives && !gameOver && stars == 0 && showInstructions
      ensures pendingLevelUps == []
    {
      gameActive, bubbles, score, level := false, [], 0, 1;
      lives, gameOver, stars, showInstructions := StartLives, false, 0, true;
      pendingLevelUps := [];
    }

    /** `startGame`. The batch is made by the `generateBubbles` of the render
        that offered the button, so it is sized for the level from before
        the reset. Level-up timers still pending keep running. */
    method StartGame(nows: seq<int>, draws: seq<real>)
      requires Valid()
      requires |nows| == |draws| == BatchSize(level)
      requires NonDecreasing(nows)
      requires forall i :: 0 <= i < |draws| ==> 0.0 <= draws[i] < 1.0
      modifies this
      ensures Valid() && Settled()
      ensures gameActive && !showInstructions && !gameOver
      ensures score == 0 && level == 1 && lives == StartLives
      ensures stars == old(stars) && pendingLevelUps == old(pendingLevelUps)
      ensures |bubbles| == BatchSize(old(level))
      ensures forall i :: 0 <= i < |bubbles| ==> bubbles[i] == NewBubble(old(level), nows[i] + i, draws[i])
    {
      var batch := MakeBatch(level, nows, draws);
      gameActive, showInstructions := true, false;
      score, level, lives, gameOver := 0, 1, StartLives, false;
      bubbles := batch;
    }

    /** `handleBubbleDrag`. A drop naming no bubble, or a popped one, is
        ignored. Otherwise every bubble with that id is marked popped, the
        first such bubble decides the outcome (10 points when its class is
        the container's, a life otherwise), and when no other unpopped
        bubble is left a level-up timer starts. */
    method HandleBubbleDrag(bubbleId: int, container: Parity)
      requires Valid()
      modifies this`bubbles, this`score, this`lives, this`pendingLevelUps
      ensures Valid()
      ensures var k := Find(old(bubbles), bubbleId);
              if k.None? || old(bubbles)[k.value].popped then
                && bubbles == old(bubbles) && score == old(score) && lives == old(lives)
                && pendingLevelUps == old(pendingLevelUps)
              else
                && bubbles == MarkPopped(old(bubbles), bubbleId)
                && (if Matches(container, old(bubbles)[k.value].isOdd)
                    then score == old(score) + PointsPerDrop && lives == old(lives)
                    else lives == old(lives) - 1 && score == old(score))
                && pendingLevelUps == old(pendingLevelUps)
                     + (if Remaining(old(bubbles), bubbleId) == 0 then [level] else [])
    {
      var k := Find(bubbles, bubbleId);
      if k.None? || bubbles[k.value].popped {
        return;
      }
      var bubble := bubbles[k.value];
      var isCorrect := Matches(container, bubble.isOdd);
      var remaining := Remaining(bubbles, bubbleId);
      MarkPoppedKeeps(bubbles, bubbleId);
      bubbles := MarkPopped(bubbles, bubbleId);
      if isCorrect {
        score := score + PointsPerDrop;
      } else {
        lives := lives - 1;
      }
      if remaining == 0 {
        pendingLevelUps := pendingLevelUps + [level];
      }
    }

    /** The game-over effect: a running game with no lives left ends and is
        rated from its score. */
    method GameOverCheck()
      requires Valid()
      modifies this`gameOver, this`gameActive, this`stars
      ensures Valid() && Settled()
      ensures if old(lives <= 0 && gameActive)
              then gameOver && !gameActive && stars == Stars(score)
              else gameOver == old(gameOver) && gameActive == old(gameActive)
                   && stars == old(stars)
    {
      if lives <= 0 && gameActive {
        gameOver := true;
        gameActive := false;
        stars := Stars(score);
      }
    }

    /** The end of a drag: `target` is the container under the pointer, if
        any. Only a drop on a container reaches the handler; the game-over
        effect then reacts to the new lives. */
    method DragEnd(bubbleId: int, target: Option<Parity>)
      requires Valid() && Settled()
      modifies this
      ensures Valid() && Settled()
      ensures var k := Find(old(bubbles), bubbleId);
              var counts := target.Some? && k.Some? && !old(bubbles)[k.value].popped;
              && bubbles == (if counts then MarkPopped(old(bubbles), bubbleId) else old(bubbles))
              && score == (if counts && Matches(target.value, old(bubbles)[k.value].isOdd)
                           then old(score) + PointsPerDrop else old(score))
              && lives == (if counts && !Matches(target.value, old(bubbles)[k.value].isOdd)
                           then old(lives) - 1 else old(lives))
              && pendingLevelUps == old(pendingLevelUps)
                   + (if counts && CountUnpopped(bubbles) == 0 then [old(level)] else [])
      ensures gameActive <==> old(gameActive) && lives > 0
      ensures gameOver <==> old(gameOver) || (old(gameActive) && lives <= 0)
      ensures stars == if old(gameActive) && lives <= 0 then Stars(score) else old(stars)
      ensures level == old(level) && showInstructions == old(showInstructions)
    {
      if target.Some? {
        RemainingAfterMark(bubbles, bubbleId);
        HandleBubbleDrag(bubbleId, target.value);
      }
      GameOverCheck();
    }

    /** The delayed level-up firing: the level rises by one from its
        current value and the batch is replaced by one made for the level
        recorded when the timer started. It fires whether or not the game
        is still running. */
    method LevelUpTimer(nows: seq<int>, draws: seq<real>)
      requires Valid()
      requires |pendingLevelUps| > 0
      requires |nows| == |draws| == BatchSize(pendingLevelUps[0])
      requires NonDecreasing(nows)
      requires forall i :: 0 <= i < |draws| ==> 0.0 <= draws[i] < 1.0
      modifies this`level, this`bubbles, this`pendingLevelUps
      ensures Valid()
      ensures Settled() == old(Settled())
      ensures level == old(level) + 1
      ensures pendingLevelUps == old(pendingLevelUps)[1..]
      ensures |bubbles| == BatchSize(old(pendingLevelUps)[0])
      ensures forall i :: 0 <= i < |bubbles| ==>
                bubbles[i] == NewBubble(old(pendingLevelUps)[0], nows[i] + i, draws[i])
    {
      var batch := MakeBatch(pendingLevelUps[0], nows, draws);
      level := level + 1;
      bubbles := batch;
      pendingLevelUps := pendingLevelUps[1..];
    }
  }
}
