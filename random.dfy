/** The seeded pseudo-random generator the mock builders use (`Prando`),
    abstracted: a generator hands out the draws of an input sequence one at a
    time, and every query derives its answer from the draws it consumes.
    Which sequence a seed produces, and its distribution, are not modelled:
    `new Prando(seed)` is `new Rng(streams(seed))` for a parameter `streams`. */
module Random {

  /** `next()` returns a fraction in [0, 1); here its numerator over this scale. */
  const UnitScale: nat := 1_000_000

  /** Prando's default character set for `nextString`. */
  const DefaultChars: string := "ABCDEFGHIJKLMNOPQRSTUVWXYZabcdefghijklmnopqrstuvwxyz0123456789"

  /** The draws after the first (none left stays none left). */
  function Rest(draws: seq<nat>): seq<nat>
  {
    if draws == [] then [] else draws[1..]
  }

  class Rng {
    var draws: seq<nat>

    constructor (draws: seq<nat>)
      ensures this.draws == draws
    {
      this.draws := draws;
    }

    /** One raw draw; 0 once the sequence is exhausted. */
    method Draw() returns (x: nat)
      modifies this
      ensures draws == Rest(old(draws))
      ensures old(draws) != [] ==> x == old(draws)[0]
    {
      if draws == [] {
        x := 0;
      } else {
        x := draws[0];
        draws := draws[1..];
      }
    }

    /** `next()`, as a numerator over `UnitScale`. */
    method Next() returns (u: nat)
      modifies this
      ensures u < UnitScale
      ensures draws == Rest(old(draws))
    {
      var x := Draw();
      u := x % UnitScale;
    }

    /** `nextInt(lo, hi)`: an integer in [lo, hi]. */
    method NextInt(lo: int, hi: int) returns (n: int)
      requires lo <= hi
      modifies this
      ensures lo <= n <= hi
      ensures draws == Rest(old(draws))
    {
      var x := Draw();
      n := lo + x % (hi - lo + 1);
    }

    /** `nextArrayItem(items)`: one of the items. */
    method NextArrayItem<T>(items: seq<T>) returns (item: T)
      requires |items| > 0
      modifies this
      ensures item in items
      ensures draws == Rest(old(draws))
    {
      var k := NextInt(0, |items| - 1);
      item := items[k];
    }

    /** `nextString(length, chars)`: `length` characters of `chars`, one
        draw each. */
    method NextString(length: nat, chars: string) returns (s: string)
      requires |chars| > 0
      modifies this
      ensures |s| == length
      ensures forall k :: 0 <= k < |s| ==> s[k] in chars
    {
      s := "";
      for i := 0 to length
        invariant |s| == i
        invariant forall k :: 0 <= k < |s| ==> s[k] in chars
      {
        var c := NextArrayItem(chars);
        s := s + [c];
      }
    }
  }
}
