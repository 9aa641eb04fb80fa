/** Vecs.java: building jbox2d `Vec2` values and arrays of them from flat coordinate lists. */
module Vecs {
  import opened JavaLang

  /** jbox2d's two-component vector, as a value (floats are modelled as reals). */
  datatype Vec2 = Vec2(x: real, y: real)

  /** `vec(a, b)`: the vector with x = a and y = b. */
  function Vec(a: real, b: real): (v: Vec2)
    ensures v.x == a && v.y == b
  {
    Vec2(a, b)
  }

  /** The vectors made of consecutive (x, y) pairs of `entries`; a trailing odd entry is dropped. */
  function PairUp(entries: seq<real>): seq<Vec2>
    decreases |entries|
  {
    if |entries| < 2 then [] else [Vec(entries[0], entries[1])] + PairUp(entries[2..])
  }

  /** What `vec2Array(entries)` returns or throws. */
  function Pairs(entries: seq<real>): Result<seq<Vec2>>
  {
    if |entries| % 2 != 0 then Err(IllegalArgument) else Ok(PairUp(entries))
  }

  /** Pairing produces half as many vectors, the e-th made of entries 2e and 2e+1. */
  lemma {:induction false} PairUpAt(entries: seq<real>)
    ensures |PairUp(entries)| == |entries| / 2
    ensures forall e :: 0 <= e < |entries| / 2 ==>
              PairUp(entries)[e] == Vec2(entries[2 * e], entries[2 * e + 1])
    decreases |entries|
  {
    if |entries| >= 2 {
      var rest := entries[2..];
      PairUpAt(rest);
      forall e | 1 <= e < |entries| / 2
        ensures PairUp(entries)[e] == Vec2(entries[2 * e], entries[2 * e + 1])
      {
        assert PairUp(entries)[e] == PairUp(rest)[e - 1];
        assert rest[2 * (e - 1)] == entries[2 * e];
        assert rest[2 * (e - 1) + 1] == entries[2 * e + 1];
      }
    }
  }

  /** `vec2Array` either throws IllegalArgumentException, exactly for an odd number of entries,
      or yields |entries|/2 vectors, the e-th being (entries[2e], entries[2e+1]). */
  lemma PairsSpec(entries: seq<real>)
    ensures Pairs(entries).Err? <==> |entries| % 2 != 0
    ensures Pairs(entries).Err? ==> Pairs(entries).error == IllegalArgument
    ensures Pairs(entries).Ok? ==>
              |Pairs(entries).value| == |entries| / 2 &&
              forall e :: 0 <= e < |entries| / 2 ==>
                Pairs(entries).value[e] == Vec2(entries[2 * e], entries[2 * e + 1])
  {
    PairUpAt(entries);
  }

  /** `vec2Array(entries)`: checks the entry count, then fills a fresh array pair by pair. */
  method Vec2Array(entries: seq<real>) returns (r: Result<seq<Vec2>>)
    ensures r == Pairs(entries)
    ensures r.Err? <==> |entries| % 2 != 0
    ensures r.Err? ==> r.error == IllegalArgument
    ensures r.Ok? ==> |r.value| == |entries| / 2
    ensures r.Ok? ==> forall e :: 0 <= e < |r.value| ==>
                        r.value[e] == Vec2(entries[2 * e], entries[2 * e + 1])
  {
    if |entries| % 2 != 0 {
      return Err(IllegalArgument);
    }
    var results := new Vec2[|entries| / 2];
    var i, e, n := 0, 0, |entries|;
    while i < n
      invariant i == 2 * e && 0 <= i <= n
      invariant forall k :: 0 <= k < e ==> results[k] == Vec2(entries[2 * k], entries[2 * k + 1])
    {
      results[e] := Vec(entries[i], entries[i + 1]);
      i, e := i + 2, e + 1;
    }
    PairUpAt(entries);
    assert results[..] == PairUp(entries);
    r := Ok(results[..]);
  }
}
