/** The two hand-drawn Markov chains of Riff_Generator.py, one for chords
    (`TransferFunction`) and one for single melody notes
    (`MelodyTransferFunction`), and how each is cut down to the notes up to
    `highestNote`, flattened by the chaos term `howMuchCrazy`, and normalised.

    Each weight table is written as the source writes it: entry `c` of the table
    lists, for the scale degree at position `c`, the levels of arriving there
    from every degree in scale order. The source hands these lists to the
    DataFrame as columns, so the level of moving from the degree at position
    `r` to the one at position `c` is `table[c][r]`. */
module Transfer {
  import opened Seqs
  import opened Scale
  import opened Markov

  /** The affinity levels the tables are drawn with: staying on a degree, a
      high, a medium and a low ("all other transfers") affinity, and a transfer
      ruled out by the shape of the table (a literal 0 in the source). */
  datatype Level = Stay | H | M | P | Z

  /** The integer weight of each level: stay = 100, h = 20, m = 5, p = 0. */
  function LevelWeight(l: Level): (w: nat)
    ensures w == 0 <==> l == P || l == Z
  {
    match l
    case Stay => 100
    case H => 20
    case M => 5
    case P => 0
    case Z => 0
  }

  const TfData: seq<seq<Level>> := [
    /* '0' */ [Stay, H, M, M, M, H, M, M, H, H, H, M, M, M, M, M, M, M, M, M, M],
    /* '1' */ [M, Stay, P, M, P, M, P, P, P, P, P, H, Z, Z, Z, Z, Z, Z, Z, Z, Z],
    /* '2' */ [P, P, Stay, M, H, P, P, P, P, P, P, P, H, Z, Z, Z, Z, Z, Z, Z, Z],
    /* '3' */ [M, M, H, Stay, P, M, H, H, M, P, M, M, M, H, Z, Z, Z, Z, Z, Z, Z],
    /* '5' */ [M, P, P, P, Stay, P, P, M, P, P, P, P, P, P, H, Z, Z, Z, Z, Z, Z],
    /* '6' */ [M, P, P, P, P, Stay, P, P, P, P, P, P, P, P, P, H, Z, Z, Z, Z, Z],
    /* '7' */ [M, P, P, M, P, M, Stay, H, P, P, P, P, P, M, P, M, H, Z, Z, Z, Z],
    /* '8' */ [M, P, P, M, P, P, M, Stay, M, P, H, P, P, M, P, P, M, H, Z, Z, Z],
    /* '10' */ [M, P, P, H, H, P, M, M, Stay, P, H, P, P, M, M, P, M, M, H, Z, Z],
    /* '11' */ [M, P, P, P, P, P, P, P, P, Stay, P, P, P, P, P, P, P, P, P, H, Z],
    /* '12' */ [M, P, P, P, P, M, P, P, P, H, Stay, H, H, H, H, H, H, H, H, H, H],
    /* '13' */ [Z, P, P, P, P, P, P, P, P, P, P, Stay, P, M, P, M, P, P, P, P, P],
    /* '14' */ [Z, Z, P, P, P, P, P, P, P, P, P, P, Stay, M, M, P, P, P, P, P, P],
    /* '15' */ [Z, Z, Z, P, P, P, P, P, P, P, P, M, M, Stay, P, M, M, M, M, P, M],
    /* '17' */ [Z, Z, Z, Z, P, P, P, P, P, P, P, P, P, P, Stay, P, P, M, P, P, P],
    /* '18' */ [Z, Z, Z, Z, Z, P, P, P, P, P, P, P, P, P, P, Stay, P, P, P, P, P],
    /* '19' */ [Z, Z, Z, Z, Z, Z, P, P, P, P, P, P, P, M, P, M, Stay, M, P, P, P],
    /* '20' */ [Z, Z, Z, Z, Z, Z, Z, P, P, P, P, P, P, M, P, P, M, Stay, M, P, M],
    /* '22' */ [Z, Z, Z, Z, Z, Z, Z, Z, P, P, P, P, P, M, M, P, M, M, Stay, P, M],
    /* '23' */ [Z, Z, Z, Z, Z, Z, Z, Z, Z, P, P, P, P, P, P, P, P, P, P, Stay, P],
    /* '24' */ [Z, Z, Z, Z, Z, Z, Z, Z, Z, Z, P, P, P, P, P, M, P, P, P, M, Stay]]

  const MtfData: seq<seq<Level>> := [
    /* '0' */ [H, H, M, M, M, H, M, M, H, H, H, H, M, M, M, M, M, M, M, M, M],
    /* '1' */ [M, H, M, M, M, M, M, M, M, M, M, H, Z, Z, Z, Z, Z, Z, Z, Z, Z],
    /* '2' */ [P, P, H, M, H, P, P, P, P, P, P, P, H, Z, M, Z, Z, Z, Z, Z, Z],
    /* '3' */ [H, M, H, H, P, M, H, H, M, P, H, M, H, H, Z, Z, M, M, Z, Z, M],
    /* '5' */ [M, H, H, P, H, P, P, M, H, P, M, H, H, P, H, Z, Z, Z, M, Z, Z],
    /* '6' */ [M, M, M, M, M, H, M, M, M, H, M, M, M, M, M, H, Z, Z, Z, M, Z],
    /* '7' */ [H, P, P, H, H, M, H, H, P, P, H, P, P, H, H, M, H, M, Z, Z, M],
    /* '8' */ [M, H, P, M, P, P, M, H, M, P, M, H, P, M, P, P, M, H, Z, Z, Z],
    /* '10' */ [M, P, H, H, M, P, M, M, H, P, M, P, H, H, M, P, M, M, H, Z, Z],
    /* '11' */ [M, P, P, P, H, P, P, P, P, H, P, P, P, P, P, P, P, P, P, H, Z],
    /* '12' */ [H, H, H, H, H, H, H, H, H, H, H, H, H, H, H, H, H, H, H, H, H],
    /* '13' */ [Z, H, M, M, M, H, M, M, P, M, M, H, M, M, M, M, M, M, M, M, M],
    /* '14' */ [Z, Z, H, P, P, P, H, P, H, H, P, P, H, M, H, P, P, P, P, P, P],
    /* '15' */ [Z, Z, Z, H, P, P, P, H, M, P, H, M, H, H, P, M, H, H, M, P, H],
    /* '17' */ [Z, Z, Z, Z, H, P, P, P, H, P, M, H, H, P, H, P, P, M, H, P, P],
    /* '18' */ [Z, Z, Z, Z, Z, H, M, M, M, H, M, M, M, M, M, H, M, M, M, H, M],
    /* '19' */ [Z, Z, Z, Z, Z, Z, H, P, M, P, H, P, P, H, H, M, H, H, P, P, H],
    /* '20' */ [Z, Z, Z, Z, Z, Z, Z, H, P, P, P, P, P, M, P, P, M, H, M, P, M],
    /* '22' */ [Z, Z, Z, Z, Z, Z, Z, Z, H, P, P, P, P, M, M, P, M, M, H, P, M],
    /* '23' */ [Z, Z, Z, Z, Z, Z, Z, Z, Z, H, P, P, P, P, P, P, P, P, P, H, P],
    /* '24' */ [Z, Z, Z, Z, Z, Z, Z, Z, Z, Z, H, P, P, P, P, M, P, P, P, M, H]]

  /** A table over the whole scale, square, whose diagonal (staying on a
      degree) has positive weight. */
  ghost predicate WellFormed(table: seq<seq<Level>>)
  {
    |table| == |KeyScale| &&
    (forall c :: 0 <= c < |table| ==> |table[c]| == |KeyScale|) &&
    (forall c :: 0 <= c < |table| ==> LevelWeight(table[c][c]) > 0)
  }

  /** A table over the whole scale, square, with level `stay` on its
      diagonal. */
  ghost predicate Shaped(table: seq<seq<Level>>, stay: Level)
  {
    |table| == |KeyScale| &&
    (forall c :: 0 <= c < |table| ==> |table[c]| == |KeyScale|) &&
    (forall c :: 0 <= c < |table| ==> table[c][c] == stay)
  }

  lemma ChordTableShaped()
    ensures Shaped(TfData, Stay)
  {
  }

  lemma MelodyTableShaped()
    ensures Shaped(MtfData, H)
  {
  }

  /** Both tables are well formed: the chord table stays with level `stay`,
      the melody table with level `h`, on every degree. */
  lemma TablesWellFormed()
    ensures WellFormed(TfData) && WellFormed(MtfData)
    ensures forall c :: 0 <= c < |KeyScale| ==> TfData[c][c] == Stay && MtfData[c][c] == H
  {
    ChordTableShaped();
    MelodyTableShaped();
  }

  /** The weight of moving from the degree at position `from` to the one at
      position `to`, once `crazy` is added: the transposed table lookup. */
  function ChaosWeight(table: seq<seq<Level>>, crazy: nat, from: nat, to: nat): real
    requires WellFormed(table) && from < |KeyScale| && to < |KeyScale|
  {
    (LevelWeight(table[to][from]) + crazy) as real
  }

  /** Row `i` of the table cut down to its first `n` degrees, with `crazy`
      added to every weight. Its total is positive because staying weighs
      more than nothing. */
  function ChaosRow(table: seq<seq<Level>>, crazy: nat, n: nat, i: nat): (row: seq<real>)
    requires WellFormed(table) && i < n <= |KeyScale|
    ensures |row| == n && NonNegative(row) && Sum(row) >= row[i] > 0.0
    ensures forall j :: 0 <= j < n ==> row[j] == ChaosWeight(table, crazy, i, j)
  {
    var row := seq(n, j requires 0 <= j < n => ChaosWeight(table, crazy, i, j));
    SumAtLeastTerm(row, i);
    row
  }

  /** The transition matrix drawn by `table`: rows and columns from the root
      up to and including `highestNote` (a label slice, so `highestNote` must
      be a scale note or the slice fails), `crazy` added to every cell, and each
      row divided by its total. */
  function Build(table: seq<seq<Level>>, crazy: nat, highestNote: int): (r: Option<Matrix>)
    requires WellFormed(table)
    ensures r.None? <==> highestNote !in KeyScale
    ensures r.Some? ==> var m := r.value;
      m.Valid() && m.StaysPositive() &&
      0 < |m.keys| <= |KeyScale| && m.keys == KeyScale[..|m.keys|] &&
      m.keys[|m.keys| - 1] == highestNote
    ensures r.Some? ==> var m := r.value;
      forall i, j :: 0 <= i < |m.keys| && 0 <= j < |m.keys| ==>
        m.rows[i][j] == ChaosWeight(table, crazy, i, j) / Sum(ChaosRow(table, crazy, |m.keys|, i))
  {
    match IndexOf(KeyScale, highestNote)
    case None => None
    case Some(last) => Some(Restricted(table, crazy, last + 1))
  }

  /** The matrix over the first `n` scale degrees. */
  function Restricted(table: seq<seq<Level>>, crazy: nat, n: nat): (m: Matrix)
    requires WellFormed(table) && 0 < n <= |KeyScale|
    ensures m.Valid() && m.StaysPositive() && m.keys == KeyScale[..n]
    ensures forall i, j :: 0 <= i < n && 0 <= j < n ==>
      m.rows[i][j] == ChaosWeight(table, crazy, i, j) / Sum(ChaosRow(table, crazy, n, i))
  {
    ScaleDistinct();
    assert Distinct(KeyScale[..n]);
    Matrix(KeyScale[..n], seq(n, i requires 0 <= i < n => NormalRow(table, crazy, n, i)))
  }

  /** Row `i` of the matrix over the first `n` degrees. */
  function NormalRow(table: seq<seq<Level>>, crazy: nat, n: nat, i: nat): (r: seq<real>)
    requires WellFormed(table) && i < n <= |KeyScale|
    ensures |r| == n && Distribution(r) && r[i] > 0.0
    ensures forall j :: 0 <= j < n ==> r[j] == ChaosWeight(table, crazy, i, j) / Sum(ChaosRow(table, crazy, n, i))
  {
    Normalise(ChaosRow(table, crazy, n, i))
  }

  /** `TransferFunction`: the chord transition matrix `tf`. It exists exactly
      when the ceiling is a scale note (the label slice raises otherwise), and
      then its keys are the scale from the root up to that ceiling. */
  function TransferFunction(crazy: nat, highestNote: int): (r: Option<Matrix>)
    ensures r.None? <==> highestNote !in KeyScale
    ensures r.Some? ==> var keys := r.value.keys;
      r.value.Valid() && r.value.StaysPositive() &&
      0 < |keys| <= |KeyScale| && keys[0] == 0 && keys == KeyScale[..|keys|] && keys[|keys| - 1] == highestNote
  {
    ScaleDistinct();
    TablesWellFormed();
    Build(TfData, crazy, highestNote)
  }

  /** `MelodyTransferFunction`: the melody transition matrix `mtf`, over the
      same keys and with the same failure as `TransferFunction`. */
  function MelodyTransferFunction(crazy: nat, highestNote: int): (r: Option<Matrix>)
    ensures r.None? <==> highestNote !in KeyScale
    ensures r.Some? ==> var keys := r.value.keys;
      r.value.Valid() &&
      0 < |keys| <= |KeyScale| && keys[0] == 0 && keys == KeyScale[..|keys|] && keys[|keys| - 1] == highestNote
  {
    ScaleDistinct();
    TablesWellFormed();
    Build(MtfData, crazy, highestNote)
  }

  /** The chord and melody matrices exist for the same ceilings and share
      their keys: the scale from the root up to and including `highestNote`. */
  lemma TransferKeysAgree(crazy: nat, highestNote: int)
    ensures TransferFunction(crazy, highestNote).Some? <==> MelodyTransferFunction(crazy, highestNote).Some?
    ensures highestNote in KeyScale ==>
      TransferFunction(crazy, highestNote).value.keys == MelodyTransferFunction(crazy, highestNote).value.keys
  {
    ScaleDistinct();
    if highestNote in KeyScale {
      var keys := TransferFunction(crazy, highestNote).value.keys;
      var keys' := MelodyTransferFunction(crazy, highestNote).value.keys;
      IndexOfDistinct(KeyScale, |keys| - 1);
      IndexOfDistinct(KeyScale, |keys'| - 1);
    }
  }

  /** Without chaos a transition drawn with level `p` or `0` has probability
      exactly zero and every other transition is possible; with any chaos at
      all every transition is possible. */
  lemma ChaosAndZeros(table: seq<seq<Level>>, crazy: nat, highestNote: int, i: nat, j: nat)
    requires WellFormed(table) && Build(table, crazy, highestNote).Some?
    requires i < |Build(table, crazy, highestNote).value.keys|
    requires j < |Build(table, crazy, highestNote).value.keys|
    ensures crazy == 0 ==> (Build(table, crazy, highestNote).value.rows[i][j] == 0.0 <==> table[j][i] in {P, Z})
    ensures crazy >= 1 ==> Build(table, crazy, highestNote).value.rows[i][j] > 0.0
  {
    var m := Build(table, crazy, highestNote).value;
    var n := |m.keys|;
    var total := Sum(ChaosRow(table, crazy, n, i));
    var w := ChaosWeight(table, crazy, i, j);
    assert m.rows[i][j] == w / total;
    assert total > 0.0 && w >= 0.0;
    if w == 0.0 {
      assert m.rows[i][j] == 0.0;
    } else {
      assert w / total > 0.0;
    }
  }
}
