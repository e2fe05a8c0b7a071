/** Exact-rational probability rows and transition matrices keyed by scale
    degree: the DataFrames of Riff_Generator.py, the row normalisation it
    performs after building or restricting them, and the weighted draw that
    `np.random.choice(keys, p = row)` makes from one row. */
module Markov {
  import opened Seqs

  function Sum(s: seq<real>): real
  {
    if s == [] then 0.0 else s[0] + Sum(s[1..])
  }

  predicate NonNegative(s: seq<real>)
  {
    forall i :: 0 <= i < |s| ==> 0.0 <= s[i]
  }

  /** A probability distribution over the positions of `s`. */
  predicate Distribution(s: seq<real>)
  {
    NonNegative(s) && Sum(s) == 1.0
  }

  /** A sum of non-negative terms is at least each of its terms. */
  lemma {:induction false} SumAtLeastTerm(s: seq<real>, k: nat)
    requires NonNegative(s) && k < |s|
    ensures Sum(s) >= s[k] >= 0.0
  {
    if k > 0 {
      SumAtLeastTerm(s[1..], k - 1);
    } else if |s| > 1 {
      SumNonNegative(s[1..]);
    }
  }

  lemma {:induction false} SumNonNegative(s: seq<real>)
    requires NonNegative(s)
    ensures Sum(s) >= 0.0
  {
    if s != [] {
      SumNonNegative(s[1..]);
    }
  }

  /** `s` with every entry divided by `t`. */
  function Divided(s: seq<real>, t: real): (r: seq<real>)
    requires t != 0.0
    ensures |r| == |s|
  {
    seq(|s|, i requires 0 <= i < |s| => s[i] / t)
  }

  lemma {:induction false} SumDivided(s: seq<real>, t: real)
    requires t != 0.0
    ensures Sum(Divided(s, t)) == Sum(s) / t
  {
    if s != [] {
      assert Divided(s, t)[1..] == Divided(s[1..], t);
      SumDivided(s[1..], t);
      assert s[0] / t + Sum(s[1..]) / t == (s[0] + Sum(s[1..])) / t;
    }
  }

  /** A row of non-negative weights with a positive total, divided by that
      total: the result is a probability distribution in which every entry
      keeps its weight's share of the total. */
  function Normalise(w: seq<real>): (r: seq<real>)
    requires NonNegative(w) && Sum(w) > 0.0
    ensures Distribution(r) && |r| == |w|
    ensures forall i :: 0 <= i < |w| ==> r[i] == w[i] / Sum(w)
    ensures forall i :: 0 <= i < |w| ==> (r[i] == 0.0 <==> w[i] == 0.0)
  {
    SumDivided(w, Sum(w));
    DividedShares(w, Sum(w));
    assert Sum(w) / Sum(w) == 1.0;
    Divided(w, Sum(w))
  }

  lemma DividedShares(w: seq<real>, t: real)
    requires NonNegative(w) && t > 0.0
    ensures NonNegative(Divided(w, t))
    ensures forall i :: 0 <= i < |w| ==> (Divided(w, t)[i] == 0.0 <==> w[i] == 0.0)
  {
    forall i | 0 <= i < |w|
      ensures 0.0 <= Divided(w, t)[i]
      ensures Divided(w, t)[i] == 0.0 <==> w[i] == 0.0
    {
      var q := w[i] / t;
      assert q * t == w[i];
    }
  }

  /** The position a single uniform draw `u` selects from `row` by inverse
      cumulative distribution: the first position whose running total exceeds
      `u` (`np.random.choice` builds the running totals and searches them, with
      ties broken to the right). The selected position always has positive
      weight, so a weight of exactly zero is never drawn. */
  function Pick(row: seq<real>, u: real): (k: nat)
    requires NonNegative(row) && 0.0 <= u < Sum(row)
    ensures k < |row| && row[k] > 0.0
  {
    if row[0] > u then 0
    else
      assert Sum(row[1..]) > u - row[0] >= 0.0;
      1 + Pick(row[1..], u - row[0])
  }

  /** `Pick` is the inverse of the cumulative distribution: the running total
      before the picked position is at most `u`, the one after it exceeds `u`. */
  lemma {:induction false} PickIsInverseCdf(row: seq<real>, u: real)
    requires NonNegative(row) && 0.0 <= u < Sum(row)
    ensures Sum(row[..Pick(row, u)]) <= u < Sum(row[..Pick(row, u) + 1])
  {
    var k := Pick(row, u);
    if row[0] > u {
      assert row[..1] == [row[0]];
      assert Sum(row[..1]) == row[0] + Sum([]);
    } else {
      assert Sum(row[1..]) > u - row[0] >= 0.0;
      var k' := Pick(row[1..], u - row[0]);
      PickIsInverseCdf(row[1..], u - row[0]);
      assert row[..k][1..] == row[1..][..k'];
      assert row[..k + 1][1..] == row[1..][..k' + 1];
    }
  }

  /** A square table of transition probabilities: `rows[i][j]` is the
      probability of moving from degree `keys[i]` to degree `keys[j]`. */
  datatype Matrix = Matrix(keys: seq<int>, rows: seq<seq<real>>)
  {
    /** Keys unique, the table square over them, every row a distribution. */
    ghost predicate Valid()
    {
      Distinct(keys) && |rows| == |keys| &&
      forall i :: 0 <= i < |rows| ==> |rows[i]| == |keys| && Distribution(rows[i])
    }

    /** Staying on a degree always has positive probability. */
    ghost predicate StaysPositive()
      requires Valid()
    {
      forall i :: 0 <= i < |keys| ==> rows[i][i] > 0.0
    }

    /** The row of degree `from` (`iloc[index.get_loc(from)]`). */
    function Row(from: int): (r: seq<real>)
      requires Valid() && from in keys
      ensures Distribution(r) && |r| == |keys|
    {
      rows[IndexOf(keys, from).value]
    }

    /** The probability of moving from degree `from` to degree `to`. */
    function P(from: int, to: int): (p: real)
      requires Valid() && from in keys && to in keys
      ensures 0.0 <= p <= 1.0
    {
      var r := Row(from);
      SumAtLeastTerm(r, IndexOf(keys, to).value);
      r[IndexOf(keys, to).value]
    }
  }
}
