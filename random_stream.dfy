/**
 * Python's module-level `random` generator, seen from outside.
 *
 * The generator's internals are not modelled. For each seed it yields a fixed
 * stream of raw values, one per primitive draw: one for each `_randbelow(n)`
 * (behind `choice` and `randint`) and one for each `random()` (behind
 * `uniform`). Each library call below is given the contract the library
 * promises, whatever the raw values are.
 */
module Rand {

  /** The raw values a seeded generator yields, by draw position. */
  type Stream = nat -> nat

  /** `random()` returns k / 2^53 for an integer 0 <= k < 2^53. */
  const UnitScale: nat := 0x20_0000_0000_0000

  /** A drawn value and the stream position after the draw. */
  datatype Drawn<T> = Drawn(value: T, next: nat)

  predicate Distinct<T(==)>(xs: seq<T>) {
    forall i, j :: 0 <= i < j < |xs| ==> xs[i] != xs[j]
  }

  /** `_randbelow(n)`: an index in [0, n), one draw. */
  function BelowAt(w: Stream, p: nat, n: nat): (d: Drawn<nat>)
    requires n > 0
    ensures d.value < n && d.next == p + 1
  {
    Drawn(w(p) % n, p + 1)
  }

  /** `random()`, as the numerator k of k / 2^53, one draw. */
  function RandomAt(w: Stream, p: nat): (d: Drawn<nat>)
    ensures d.value < UnitScale && d.next == p + 1
  {
    Drawn(w(p) % UnitScale, p + 1)
  }

  /** `choice(xs)`: an element of xs, one draw. */
  function ChoiceAt<T>(w: Stream, p: nat, xs: seq<T>): (d: Drawn<T>)
    requires |xs| > 0
    ensures d.value in xs && d.next == p + 1
  {
    var j := BelowAt(w, p, |xs|);
    Drawn(xs[j.value], j.next)
  }

  /** `randint(a, b)`: a value in [a, b], one draw. */
  function RandIntAt(w: Stream, p: nat, a: int, b: int): (d: Drawn<int>)
    requires a <= b
    ensures a <= d.value <= b && d.next == p + 1
  {
    var j := BelowAt(w, p, b - a + 1);
    Drawn(a + j.value, j.next)
  }

  /**
   * `sample(xs, 2)` by the pool method: pick an index, move the last element
   * into its place, pick again among the first |xs| - 1. Two draws.
   */
  function SampleAt<T>(w: Stream, p: nat, xs: seq<T>): (d: Drawn<seq<T>>)
    requires |xs| >= 2
    ensures |d.value| == 2 && d.value[0] in xs && d.value[1] in xs
    ensures Distinct(xs) ==> d.value[0] != d.value[1]
    ensures d.next == p + 2
  {
    var n := |xs|;
    var first := BelowAt(w, p, n);
    var pool := xs[first.value := xs[n - 1]];
    var second := BelowAt(w, first.next, n - 1);
    assert pool[second.value] in xs;
    Drawn([xs[first.value], pool[second.value]], second.next)
  }

  /** d * k / s rounded half up, for 0 <= k < s: a value in [0, d]. */
  function ScaleRound(d: nat, k: nat, s: nat): (r: nat)
    requires k < s
    ensures r <= d
  {
    ScaleRoundBound(d, k, s);
    (d * k + s / 2) / s
  }

  lemma ScaleRoundBound(d: nat, k: nat, s: nat)
    requires k < s
    ensures (d * k + s / 2) / s <= d
  {
    assert d * k <= d * (s - 1) by { MulMonotone(d, k, s - 1); }
    assert d * k + s / 2 < (d + 1) * s;
    DivBelow(d * k + s / 2, d + 1, s);
  }

  lemma MulMonotone(d: nat, a: nat, b: nat)
    requires a <= b
    ensures d * a <= d * b
  {
  }

  lemma DivBelow(x: nat, q: nat, s: nat)
    requires 0 < s && x < q * s
    ensures x / s < q
  {
  }

  /**
   * `round(uniform(lo / 100, hi / 100), 2)` in hundredths: uniform(a, b) is
   * a + (b - a) * random(). One draw; the result lies in [lo, hi].
   */
  function UniformCentsAt(w: Stream, p: nat, lo: int, hi: int): (d: Drawn<int>)
    requires lo <= hi
    ensures lo <= d.value <= hi && d.next == p + 1
  {
    var u := RandomAt(w, p);
    Drawn(lo + ScaleRound(hi - lo, u.value, UnitScale), u.next)
  }

  /**
   * The generator object: the stream each seed selects, the current seed and
   * the number of draws taken since seeding.
   */
  class Random {
    const generator: int -> Stream
    var seed: int
    var cursor: nat

    /** The stream the current seed selects. */
    function Draws(): Stream
      reads this
    {
      generator(seed)
    }

    constructor (generator: int -> Stream, seed: int)
      ensures this.generator == generator && this.seed == seed && cursor == 0
    {
      this.generator := generator;
      this.seed := seed;
      cursor := 0;
    }

    /** `random.seed(s)`: restart the stream of seed s. */
    method Seed(s: int)
      modifies this
      ensures seed == s && cursor == 0
    {
      seed := s;
      cursor := 0;
    }

    method Random() returns (k: nat)
      modifies this
      ensures seed == old(seed)
      ensures Drawn(k, cursor) == RandomAt(Draws(), old(cursor))
    {
      var d := RandomAt(Draws(), cursor);
      k, cursor := d.value, d.next;
    }

    method Choice<T>(xs: seq<T>) returns (x: T)
      requires |xs| > 0
      modifies this
      ensures seed == old(seed)
      ensures Drawn(x, cursor) == ChoiceAt(Draws(), old(cursor), xs)
    {
      var d := ChoiceAt(Draws(), cursor, xs);
      x, cursor := d.value, d.next;
    }

    method RandInt(a: int, b: int) returns (v: int)
      requires a <= b
      modifies this
      ensures seed == old(seed)
      ensures Drawn(v, cursor) == RandIntAt(Draws(), old(cursor), a, b)
    {
      var d := RandIntAt(Draws(), cursor, a, b);
      v, cursor := d.value, d.next;
    }

    /** `sample(xs, 2)`. */
    method Sample<T>(xs: seq<T>) returns (s: seq<T>)
      requires |xs| >= 2
      modifies this
      ensures seed == old(seed)
      ensures Drawn(s, cursor) == SampleAt(Draws(), old(cursor), xs)
    {
      var d := SampleAt(Draws(), cursor, xs);
      s, cursor := d.value, d.next;
    }

    /** `round(uniform(lo / 100, hi / 100), 2)` in hundredths. */
    method UniformCents(lo: int, hi: int) returns (v: int)
      requires lo <= hi
      modifies this
      ensures seed == old(seed)
      ensures Drawn(v, cursor) == UniformCentsAt(Draws(), old(cursor), lo, hi)
    {
      var d := UniformCentsAt(Draws(), cursor, lo, hi);
      v, cursor := d.value, d.next;
    }
  }
}
