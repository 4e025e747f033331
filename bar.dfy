// The segmented gauge of xoi.py: how many cells a value fills, which
// severity tier each cell is drawn in, and where the drawn bar ends.

module Bars {
  import opened Utils

  function Abs(a: int): nat { if a < 0 then -a else a }

  /** Python's round on the exact quotient p / q: the nearest integer, ties
      going to the even neighbour. */
  function RoundHalfEven(p: int, q: int): (r: int)
    requires q > 0
    ensures 2 * Abs(p - r * q) <= q
    ensures 2 * Abs(p - r * q) == q ==> r % 2 == 0
  {
    var n, rem := p / q, p % q;
    assert p - n * q == rem;
    assert p - (n + 1) * q == rem - q;
    if 2 * rem < q then n
    else if 2 * rem > q then n + 1
    else if n % 2 == 0 then n
    else n + 1
  }

  /** The two conditions of RoundHalfEven pin the result down. */
  lemma RoundHalfEvenUnique(p: int, q: int, r: int)
    requires q > 0
    requires 2 * Abs(p - r * q) <= q
    requires 2 * Abs(p - r * q) == q ==> r % 2 == 0
    ensures r == RoundHalfEven(p, q)
  {
    var r0 := RoundHalfEven(p, q);
    var a, b := p - r * q, p - r0 * q;
    Distrib(r, r0, q);
    if r > r0 {
      NeighboursOnly(r - r0, q, b - a);
      assert false;
    } else if r < r0 {
      Distrib(r0, r, q);
      NeighboursOnly(r0 - r, q, a - b);
      assert false;
    }
  }

  /** Two integers whose multiples of q differ by at most q differ by one. */
  lemma NeighboursOnly(d: int, q: int, diff: int)
    requires d >= 1 && q > 0 && diff == d * q && diff <= q
    ensures d == 1
  {
  }

  lemma Distrib(x: int, y: int, q: int)
    ensures x * q - y * q == (x - y) * q
  {
  }

  lemma MulMono(a: int, b: int, q: int)
    requires a >= b && q > 0
    ensures a * q >= b * q
  {
  }

  /** The number of filled cells for a value out of maxValue: none when the
      value is not positive, otherwise round(value * 10 / maxValue). It is
      not clamped to the ten cells of the gauge. */
  function Elements(value: int, maxValue: int): (r: int)
    requires value > 0 ==> maxValue != 0
    ensures value <= 0 ==> r == 0
    ensures value > 0 && maxValue > 0 ==> r >= 0
  {
    if value <= 0 then 0
    else if maxValue > 0 then RoundHalfEven(value * 10, maxValue)
    else RoundHalfEven(-value * 10, -maxValue)
  }

  /** The count is the rounding of value * 10 / maxValue: the nearest
      integer, ties to even. */
  lemma ElementsRounds(value: int, maxValue: int)
    requires value > 0 && maxValue != 0
    ensures var e, q := Elements(value, maxValue), Abs(maxValue);
      2 * Abs(value * 10 - e * maxValue) <= q
      && (2 * Abs(value * 10 - e * maxValue) == q ==> e % 2 == 0)
  {
    var e := Elements(value, maxValue);
    if maxValue < 0 {
      assert -value * 10 - e * -maxValue == -(value * 10 - e * maxValue);
    }
  }

  /** For a value between 0 and a positive maximum the count lies in 0 .. 10. */
  lemma ElementsWithinGauge(value: int, maxValue: int)
    requires maxValue > 0 && value <= maxValue
    ensures 0 <= Elements(value, maxValue) <= 10
  {
    if value > 0 {
      var e := Elements(value, maxValue);
      if e > 10 {
        assert e * maxValue >= 11 * maxValue by { MulMono(e, 11, maxValue); }
        assert false;
      }
    }
  }

  /** Worked values: 55 of 100 fills 6 cells (5.5 rounds to even 6), 25 of
      100 fills 2 (2.5 rounds to even 2), nothing is drawn for 0, and 150 of
      100 overflows to 15 cells. */
  lemma ElementsExamples()
    ensures Elements(55, 100) == 6
    ensures Elements(25, 100) == 2
    ensures Elements(0, 100) == 0
    ensures Elements(150, 100) == 15
  {
  }

  /** The colour band of a cell. */
  datatype Tier = Ok | Middle | Critical

  /** Cells 1-3 are ok, 4-6 middle, every other cell critical: a band fixed
      by the cell's index, not by the value. */
  function TierOf(i: int): (t: Tier)
    ensures t == Ok <==> 1 <= i <= 3
    ensures t == Middle <==> 4 <= i <= 6
    ensures t == Critical <==> i < 1 || i > 6
  {
    if i in {1, 2, 3} then Ok
    else if i in {4, 5, 6} then Middle
    else Critical
  }

  datatype Style = Plain | Cell(tier: Tier)

  /** One addstr call: text at a point in a style. */
  datatype Draw = Draw(at: Point, text: string, style: Style)

  /** The i-th cell (from 1) of a bar whose "[" is at column x0. */
  function CellDraw(x0: int, y: int, i: int): Draw
  {
    Draw(Point(x0 + i, y), " ", Cell(TierOf(i)))
  }

  class Bar {
    const title: string
    const maxValue: int
    const elems: int
    var value: int

    /** The count is computed once, here, from the value and maximum given. */
    constructor (title: string, value: int, maxValue: int)
      requires value > 0 ==> maxValue != 0
      ensures this.title == (if title == "" then "" else title + ": ")
      ensures this.value == value && this.maxValue == maxValue
      ensures elems == Elements(value, maxValue)
    {
      this.title := if title == "" then "" else title + ": ";
      this.value := value;
      this.maxValue := maxValue;
      elems := Elements(value, maxValue);
    }

    /** Stores the value floored at zero; the cell count is not recomputed. */
    method UpdateValue(val: int)
      modifies this`value
      ensures value == (if val < 0 then 0 else val)
    {
      value := if val < 0 then 0 else val;
    }

    /** Draws the title, "[", one cell per element and "]" along row pos.y,
        and returns the point of the closing "]". */
    method Render(pos: Point) returns (end: Point, draws: seq<Draw>)
      ensures var x0, n := pos.x + |title|, if elems < 0 then 0 else elems;
        end == Point(x0 + n + 1, pos.y)
        && |draws| == (if title != "" then 1 else 0) + n + 2
        && (title != "" ==> draws[0] == Draw(pos, title, Plain))
        && draws[|draws| - n - 2] == Draw(Point(x0, pos.y), "[", Plain)
        && (forall i :: 1 <= i <= n ==> draws[|draws| - n - 2 + i] == CellDraw(x0, pos.y, i))
        && draws[|draws| - 1] == Draw(end, "]", Plain)
    {
      var x := pos.x;
      draws := [];
      if title != "" {
        draws := draws + [Draw(Point(x, pos.y), title, Plain)];
        x := x + |title|;
      }
      var x0 := x;
      var head := |draws|;
      draws := draws + [Draw(Point(x, pos.y), "[", Plain)];
      var i := 1;
      while i < elems + 1
        invariant 1 <= i <= (if elems < 0 then 0 else elems) + 1
        invariant x == x0 + i - 1
        invariant |draws| == head + i
        invariant title != "" ==> draws[0] == Draw(pos, title, Plain)
        invariant draws[head] == Draw(Point(x0, pos.y), "[", Plain)
        invariant forall j :: 1 <= j < i ==> draws[head + j] == CellDraw(x0, pos.y, j)
      {
        x := x + 1;
        draws := draws + [CellDraw(x0, pos.y, i)];
        i := i + 1;
      }
      x := x + 1;
      end := Point(x, pos.y);
      draws := draws + [Draw(end, "]", Plain)];
    }
  }
}
