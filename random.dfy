/** The pseudo-random stream the source draws from (numpy's global generator),
    made an explicit object: the draws in [0, 1) it has yet to hand out. A
    fixed stream gives a fixed riff. */
module Random {
  import opened Seqs
  import opened Markov

  /** Draws as `np.random.random()` hands them out: each in [0, 1). */
  predicate InUnit(d: seq<real>)
  {
    forall i :: 0 <= i < |d| ==> 0.0 <= d[i] < 1.0
  }

  /** What is left of a stream of draws in [0, 1) is again in [0, 1). */
  lemma InUnitSuffix(t: seq<real>, s: seq<real>)
    requires InUnit(s) && Suffix(t, s)
    ensures InUnit(t)
  {
    forall i | 0 <= i < |t|
      ensures 0.0 <= t[i] < 1.0
    {
      assert t[i] == s[|s| - |t| + i];
    }
  }

  class Rng {
    var draws: seq<real>

    /** Every draw lies in [0, 1). */
    ghost predicate Valid()
      reads this
    {
      InUnit(draws)
    }

    constructor (draws: seq<real>)
      requires InUnit(draws)
      ensures Valid() && this.draws == draws
    {
      this.draws := draws;
    }

    /** `np.random.random()`: hands out the next draw. */
    method Random() returns (u: real)
      requires Valid() && draws != []
      modifies this
      ensures Valid() && draws == old(draws[1..])
      ensures u == old(draws[0]) && 0.0 <= u < 1.0
    {
      u := draws[0];
      draws := draws[1..];
    }

    /** `np.random.choice(keys, p = row)` on the row of `from` in `m`: one draw,
        mapped to a key by inverse cumulative distribution. The key reached is
        always one that `from` moves to with positive probability. */
    method Choice(m: Matrix, from: int) returns (to: int)
      requires Valid() && draws != []
      requires m.Valid() && from in m.keys
      modifies this
      ensures Valid() && draws == old(draws[1..])
      ensures to == m.keys[Pick(m.Row(from), old(draws[0]))]
      ensures to in m.keys && m.P(from, to) > 0.0
    {
      var u := Random();
      var k := Pick(m.Row(from), u);
      to := m.keys[k];
      IndexOfDistinct(m.keys, k);
    }
  }
}
