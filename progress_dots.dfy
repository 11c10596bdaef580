/**
 * A row of `totalDots` dots of which the first `filledDots` are filled;
 * `totalDots` defaults to 7 and `filledDots` to 1.
 */
module ProgressDots {

  const DefaultTotalDots: int := 7
  const DefaultFilledDots: int := 1

  /** `Array.from({ length: totalDots })` makes no element for a negative length. */
  function DotCount(totalDots: int): nat {
    if totalDots < 0 then 0 else totalDots
  }

  /** The rendered row: `true` for a filled dot, `false` for an empty one. */
  function Dots(totalDots: int, filledDots: int): (dots: seq<bool>)
    ensures |dots| == DotCount(totalDots)
  {
    seq(DotCount(totalDots), index => index < filledDots)
  }

  /** How many dots are filled: `filledDots` clamped to the row. */
  function FilledCount(totalDots: int, filledDots: int): (k: nat)
    ensures k <= DotCount(totalDots)
  {
    if filledDots <= 0 then 0
    else if filledDots >= DotCount(totalDots) then DotCount(totalDots)
    else filledDots
  }

  function CountFilled(dots: seq<bool>): nat
    decreases |dots|
  {
    if dots == [] then 0
    else CountFilled(dots[..|dots| - 1]) + (if dots[|dots| - 1] then 1 else 0)
  }

  /** The filled dots form a prefix: a run of filled dots, then a run of empty ones. */
  lemma FilledDotsFormPrefix(totalDots: int, filledDots: int)
    ensures var k := FilledCount(totalDots, filledDots);
      Dots(totalDots, filledDots)
        == seq(k, _ => true) + seq(DotCount(totalDots) - k, _ => false)
  {
    var k := FilledCount(totalDots, filledDots);
    var dots := Dots(totalDots, filledDots);
    var expected := seq(k, _ => true) + seq(DotCount(totalDots) - k, _ => false);
    forall i | 0 <= i < |dots|
      ensures dots[i] == expected[i]
    {
      assert dots[i] <==> i < filledDots;
    }
  }

  /** Exactly `FilledCount` dots are filled. */
  lemma {:induction false} CountFilledDots(totalDots: int, filledDots: int)
    ensures CountFilled(Dots(totalDots, filledDots)) == FilledCount(totalDots, filledDots)
    decreases DotCount(totalDots)
  {
    var dots := Dots(totalDots, filledDots);
    if dots != [] {
      assert dots[..|dots| - 1] == Dots(totalDots - 1, filledDots);
      CountFilledDots(totalDots - 1, filledDots);
    }
  }

  /** All dots are filled once `filledDots` reaches the row length; none for `filledDots <= 0`. */
  lemma FillExtremes(totalDots: int, filledDots: int)
    ensures filledDots >= totalDots ==>
              forall i :: 0 <= i < |Dots(totalDots, filledDots)| ==> Dots(totalDots, filledDots)[i]
    ensures filledDots <= 0 ==>
              forall i :: 0 <= i < |Dots(totalDots, filledDots)| ==> !Dots(totalDots, filledDots)[i]
  {
  }

  /** The row drawn with the defaults: seven dots, one filled. */
  function DefaultDots(): (dots: seq<bool>)
    ensures |dots| == 7 && CountFilled(dots) == 1
  {
    CountFilledDots(DefaultTotalDots, DefaultFilledDots);
    Dots(DefaultTotalDots, DefaultFilledDots)
  }
}
