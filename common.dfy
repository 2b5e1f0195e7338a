/**
 * Definitions shared by the quiz and the two bubble games: an optional
 * value, the odd/even classification of a number and the rule that decides
 * whether a bubble was handled correctly.
 */
module Common {

  datatype Option<T> = None | Some(value: T)

  /** The two classes a bubble number can fall in; used both as the rule to
      follow (Bubble Pop) and as the container a bubble is dropped on
      (Bubble Game). */
  datatype Parity = Odd | Even

  /** `n % 2 !== 0`. JavaScript's `%` truncates toward zero and Dafny's is
      Euclidean, but both agree on the positive numbers the games draw. */
  function IsOdd(n: int): (odd: bool)
    ensures odd <==> n == 2 * (n / 2) + 1
  {
    n % 2 != 0
  }

  /** Successive readings of a clock that never runs backwards. */
  predicate NonDecreasing(s: seq<int>)
  {
    forall i, j :: 0 <= i <= j < |s| ==> s[i] <= s[j]
  }

  /** `Math.min` on two integers. */
  function Min(a: int, b: int): (m: int)
    ensures m <= a && m <= b
    ensures m == a || m == b
  {
    if a <= b then a else b
  }

  /** The rule switch at a level-up: odd becomes even and even becomes odd. */
  function Flip(p: Parity): (q: Parity)
    ensures q != p
  {
    if p == Odd then Even else Odd
  }

  /** Switching twice restores the rule. */
  lemma FlipTwice(p: Parity)
    ensures Flip(Flip(p)) == p
  {
  }

  /** `(rule === 'odd' && isOdd) || (rule === 'even' && !isOdd)`:
      the choice was right exactly when the bubble's class is the chosen one. */
  function Matches(rule: Parity, isOdd: bool): (r: bool)
    ensures r <==> (isOdd <==> rule == Odd)
  {
    (rule == Odd && isOdd) || (rule == Even && !isOdd)
  }

  /** After a rule switch every bubble that was right to pick is wrong to
      pick, and the other way round. */
  lemma FlipInvertsMatch(rule: Parity, isOdd: bool)
    ensures Matches(Flip(rule), isOdd) == !Matches(rule, isOdd)
  {
  }

  /** A uniform draw `r` from [0, 1) scaled to `n` and floored, plus one, is
      a number in 1..n: `Math.floor(Math.random() * n) + 1`. */
  function DrawNumber(r: real, n: nat): (k: int)
    requires 0.0 <= r < 1.0 && n > 0
    ensures 1 <= k <= n
  {
    ScaledFloorBelow(r, n);
    (r * (n as real)).Floor + 1
  }

  lemma ScaledFloorBelow(r: real, n: nat)
    requires 0.0 <= r < 1.0 && n > 0
    ensures 0 <= (r * (n as real)).Floor < n
  {
  }
}
