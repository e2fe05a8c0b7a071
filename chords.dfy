/** `ChordsTransferFunction` of Riff_Generator.py: the chords a riff may use,
    found by a random walk on the chord matrix from the root, and the chord
    matrix cut down to them and renormalised. */
module Chords {
  import opened Seqs
  import opened Markov
  import opened Random

  /** Row `i` of `tf` restricted to the columns in `chords` (before
      renormalising). Staying keeps its positive weight, so the row's total
      stays positive. */
  function SubRow(tf: Matrix, chords: seq<int>, i: nat): (row: seq<real>)
    requires tf.Valid() && tf.StaysPositive()
    requires forall c :: c in chords ==> c in tf.keys
    requires i < |chords|
    ensures |row| == |chords| && NonNegative(row) && Sum(row) >= row[i] > 0.0
    ensures forall j :: 0 <= j < |chords| ==> row[j] == tf.P(chords[i], chords[j])
  {
    var row := seq(|chords|, j requires 0 <= j < |chords| => tf.P(chords[i], chords[j]));
    IndexOfDistinct(tf.keys, IndexOf(tf.keys, chords[i]).value);
    SumAtLeastTerm(row, i);
    row
  }

  /** `ct`: `tf` restricted to the rows and columns of `chords`, in the order of
      `chords`, each row renormalised. The result is again a transition matrix
      over exactly those chords. */
  function ChordTransitions(tf: Matrix, chords: seq<int>): (ct: Matrix)
    requires tf.Valid() && tf.StaysPositive() && Distinct(chords)
    requires forall c :: c in chords ==> c in tf.keys
    ensures ct.Valid() && ct.StaysPositive() && ct.keys == chords
  {
    Matrix(chords, seq(|chords|, i requires 0 <= i < |chords| => ChordRow(tf, chords, i)))
  }

  /** A transition is possible in `ct` exactly when it was possible in `tf`,
      and its probability is `tf`'s divided by the total `tf` gives the
      vocabulary from the same chord. */
  lemma ChordTransitionsAgree(tf: Matrix, chords: seq<int>, i: nat, j: nat)
    requires tf.Valid() && tf.StaysPositive() && Distinct(chords)
    requires forall c :: c in chords ==> c in tf.keys
    requires i < |chords| && j < |chords|
    ensures ChordTransitions(tf, chords).rows[i][j] == 0.0 <==> tf.P(chords[i], chords[j]) == 0.0
    ensures ChordTransitions(tf, chords).rows[i][j] == tf.P(chords[i], chords[j]) / Sum(SubRow(tf, chords, i))
  {
    assert ChordTransitions(tf, chords).rows[i] == ChordRow(tf, chords, i);
  }

  /** Row `i` of `ct`: the restricted row renormalised. */
  function ChordRow(tf: Matrix, chords: seq<int>, i: nat): (row: seq<real>)
    requires tf.Valid() && tf.StaysPositive()
    requires forall c :: c in chords ==> c in tf.keys
    requires i < |chords|
    ensures |row| == |chords| && Distribution(row) && row[i] > 0.0
    ensures forall j :: 0 <= j < |chords| ==>
      (row[j] == 0.0 <==> tf.P(chords[i], chords[j]) == 0.0) &&
      row[j] == tf.P(chords[i], chords[j]) / Sum(SubRow(tf, chords, i))
  {
    Normalise(SubRow(tf, chords, i))
  }

  /** The chord the draw `u` moves to from `from`: the key `np.random.choice`
      picks from `from`'s row. Outside its domain (an ill-formed matrix, a
      chord that is not a key, a draw outside [0, 1)) the walk stays put, so
      that walks can be stated for any matrix and stream. */
  ghost function Next(tf: Matrix, from: int, u: real): (c: int)
    ensures tf.Valid() && from in tf.keys && 0.0 <= u < 1.0 ==> c in tf.keys
  {
    if tf.Valid() && from in tf.keys && 0.0 <= u < 1.0 then tf.keys[Pick(tf.Row(from), u)] else from
  }

  /** The chords a walk on `tf` from the root stands on after the first `n`
      draws of `d`: each next chord is the `Next` of the one before it. */
  ghost function WalkPath(tf: Matrix, d: seq<real>, n: nat): (path: seq<int>)
    requires n <= |d|
    ensures |path| == n + 1 && path[0] == 0
  {
    if n == 0 then [0]
    else
      var before := WalkPath(tf, d, n - 1);
      before + [Next(tf, before[n - 1], d[n - 1])]
  }

  /** A longer walk on the same draws starts with the shorter one. */
  lemma {:induction false} WalkPathPrefix(tf: Matrix, d: seq<real>, m: nat, n: nat)
    requires m <= n <= |d|
    ensures WalkPath(tf, d, n)[..m + 1] == WalkPath(tf, d, m)
    decreases n
  {
    if m < n {
      WalkPathPrefix(tf, d, m, n - 1);
      var path, before := WalkPath(tf, d, n), WalkPath(tf, d, n - 1);
      assert path[..n] == before;
      assert path[..m + 1] == before[..m + 1];
    }
  }

  /** On a well-formed matrix with the root among its keys and draws in
      [0, 1), every chord of the walk is a key. */
  lemma {:induction false} WalkPathKeys(tf: Matrix, d: seq<real>, n: nat)
    requires tf.Valid() && 0 in tf.keys
    requires n <= |d| && forall k :: 0 <= k < |d| ==> 0.0 <= d[k] < 1.0
    ensures forall k :: 0 <= k <= n ==> WalkPath(tf, d, n)[k] in tf.keys
  {
    if n > 0 {
      WalkPathKeys(tf, d, n - 1);
    }
  }

  /** Step `k` of the walk moves to the `Next` of the chord it stood on. */
  lemma WalkPathNext(tf: Matrix, d: seq<real>, n: nat, k: nat)
    requires k < n <= |d|
    ensures WalkPath(tf, d, n)[k + 1] == Next(tf, WalkPath(tf, d, n)[k], d[k])
  {
    WalkPathPrefix(tf, d, k + 1, n);
    var path, short := WalkPath(tf, d, n), WalkPath(tf, d, k + 1);
    assert path[k] == short[k] && path[k + 1] == short[k + 1];
  }

  /** Step `k` of the walk moves from the chord it stood on to the key draw
      `k` picks from that chord's row. */
  lemma WalkPathStep(tf: Matrix, d: seq<real>, n: nat, k: nat)
    requires tf.Valid() && 0 in tf.keys
    requires k < n <= |d| && forall j :: 0 <= j < |d| ==> 0.0 <= d[j] < 1.0
    ensures WalkPath(tf, d, n)[k] in tf.keys
    ensures WalkPath(tf, d, n)[k + 1] == tf.keys[Pick(tf.Row(WalkPath(tf, d, n)[k]), d[k])]
  {
    WalkPathNext(tf, d, n, k);
    WalkPathKeys(tf, d, n);
  }

  /** Where the walk is after following `path` on the draws `d`: the draws
      not yet used and the chord it stands on. */
  ghost predicate Walked(tf: Matrix, d: seq<real>, left: seq<real>, path: seq<int>, current: int)
  {
    1 <= |path| <= |d| + 1 && path == WalkPath(tf, d, |path| - 1) && left == d[|path| - 1..] &&
    current == path[|path| - 1]
  }

  /** Every chord of `chords` after the first is a key of `tf` reached, with
      positive probability, from the earlier chord `parents` names. */
  ghost predicate Reached(tf: Matrix, chords: seq<int>, parents: seq<nat>)
    requires tf.Valid()
    decreases |chords|
  {
    |parents| == |chords| &&
    (|chords| <= 1 ||
     var last := |chords| - 1;
     Reached(tf, chords[..last], parents[..last]) &&
     parents[last] < last && chords[parents[last]] in tf.keys && chords[last] in tf.keys &&
     tf.P(chords[parents[last]], chords[last]) > 0.0)
  }

  /** `Reached`, chord by chord. */
  lemma {:induction false} ReachedAll(tf: Matrix, chords: seq<int>, parents: seq<nat>)
    requires tf.Valid() && Reached(tf, chords, parents)
    ensures |parents| == |chords|
    ensures forall k :: 1 <= k < |chords| ==>
      parents[k] < k && chords[parents[k]] in tf.keys && chords[k] in tf.keys &&
      tf.P(chords[parents[k]], chords[k]) > 0.0
    decreases |chords|
  {
    if |chords| > 1 {
      var last := |chords| - 1;
      ReachedAll(tf, chords[..last], parents[..last]);
    }
  }

  /** The vocabulary kept along `path`: its first occurrences, each one after
      the root reached from an earlier one. */
  ghost predicate Kept(tf: Matrix, path: seq<int>, chords: seq<int>, parents: seq<nat>)
    requires tf.Valid()
  {
    path != [] && chords == FirstOccurrences(path) && Reached(tf, chords, parents)
  }

  /** One draw moves the walk to the chord it picks from the current one's
      row and uses that draw up. */
  lemma WalkedStep(tf: Matrix, d: seq<real>, left: seq<real>, path: seq<int>, current: int)
    requires tf.Valid() && 0 in tf.keys && forall k :: 0 <= k < |d| ==> 0.0 <= d[k] < 1.0
    requires Walked(tf, d, left, path, current) && left != []
    ensures current in tf.keys && 0.0 <= left[0] < 1.0
    ensures var next := tf.keys[Pick(tf.Row(current), left[0])];
      Walked(tf, d, left[1..], path + [next], next)
  {
    assert left[0] == d[|path| - 1];
    WalkPathKeys(tf, d, |path| - 1);
    var next := Next(tf, current, left[0]);
    assert WalkPath(tf, d, |path|) == path + [next];
    var p := path + [next];
    assert p[|p| - 1] == next && d[|p| - 1..] == left[1..];
  }

  /** Moving from the chord the walk stands on to a key reachable from it
      keeps the vocabulary: the new chord is kept when new, with the current
      chord as its parent. */
  lemma KeptStep(tf: Matrix, path: seq<int>, chords: seq<int>, parents: seq<nat>, next: int)
    requires tf.Valid() && Kept(tf, path, chords, parents)
    requires path[|path| - 1] in tf.keys && next in tf.keys && tf.P(path[|path| - 1], next) > 0.0
    ensures path[|path| - 1] in chords
    ensures var from := IndexOf(chords, path[|path| - 1]).value;
      Kept(tf, path + [next],
           if next in chords then chords else chords + [next],
           if next in chords then parents else parents + [from])
  {
    FirstOccurrencesStep(path, next);
    FirstOccurrencesMembers(path);
    if next !in chords {
      var from := IndexOf(chords, path[|path| - 1]).value;
      var chords', parents' := chords + [next], parents + [from];
      assert chords'[..|chords|] == chords && parents'[..|chords|] == parents;
      assert chords'[from] == path[|path| - 1];
    }
  }

  /** `path` is the walk the source takes on the draws `d`: one step per
      draw from the root, each step taken while fewer than `howManyChords`
      distinct chords were kept, stopping once that many are kept or the
      draws run out. */
  ghost predicate WalkStopped(tf: Matrix, d: seq<real>, howManyChords: int, path: seq<int>)
  {
    1 <= |path| <= |d| + 1 && path == WalkPath(tf, d, |path| - 1) &&
    (|path| > 1 ==> |FirstOccurrences(path[..|path| - 1])| < howManyChords) &&
    (|FirstOccurrences(path)| >= howManyChords || |path| == |d| + 1)
  }

  /** A fixed stream fixes the walk: only one path stops as the source's
      loop does. */
  lemma WalkStoppedUnique(tf: Matrix, d: seq<real>, howManyChords: int, p: seq<int>, q: seq<int>)
    requires WalkStopped(tf, d, howManyChords, p) && WalkStopped(tf, d, howManyChords, q)
    ensures p == q
  {
    if |p| < |q| {
      WalkPastStop(tf, d, howManyChords, p, q);
    } else if |q| < |p| {
      WalkPastStop(tf, d, howManyChords, q, p);
    }
  }

  /** A walk that goes on past one that stopped as the loop does took its
      last step with the vocabulary already full. */
  lemma WalkPastStop(tf: Matrix, d: seq<real>, howManyChords: int, p: seq<int>, q: seq<int>)
    requires WalkStopped(tf, d, howManyChords, p)
    requires |p| < |q| <= |d| + 1 && q == WalkPath(tf, d, |q| - 1)
    ensures |FirstOccurrences(q[..|q| - 1])| >= howManyChords
  {
    WalkPathPrefix(tf, d, |p| - 1, |q| - 1);
    var init := q[..|q| - 1];
    assert init[..|p|] == p;
    FirstOccurrencesGrow(init, |p|);
  }

  /** What a finished walk has to show, spelt out. */
  lemma WalkEnds(tf: Matrix, d: seq<real>, left: seq<real>, path: seq<int>,
                 current: int, chords: seq<int>, parents: seq<nat>)
    requires tf.Valid() && 0 in tf.keys && forall k :: 0 <= k < |d| ==> 0.0 <= d[k] < 1.0
    requires Walked(tf, d, left, path, current) && Kept(tf, path, chords, parents)
    ensures 1 <= |path| <= |d| + 1 && path == WalkPath(tf, d, |path| - 1) && left == d[|path| - 1..]
    ensures chords == FirstOccurrences(path) && chords != [] && chords[0] == 0 && Distinct(chords)
    ensures forall c :: c in chords ==> c in tf.keys
    ensures |chords| <= |tf.keys|
    ensures |parents| == |chords|
    ensures forall k :: 1 <= k < |chords| ==> parents[k] < k && tf.P(chords[parents[k]], chords[k]) > 0.0
  {
    WalkPathKeys(tf, d, |path| - 1);
    FirstOccurrencesMembers(path);
    ReachedAll(tf, chords, parents);
    DistinctWithinPool(chords, tf.keys);
  }

  /** The walk: start from the root; draw the next chord from the row of the
      current one and move there, whether or not it is new; keep it if it is
      new; stop once `howManyChords` distinct chords are kept. The source loops
      for ever when that many cannot be reached; here the walk also stops when
      the stream runs dry.

      `path` is every chord the walk stood on, from the root, one step per
      draw; the vocabulary is that path with its revisits dropped, and the
      stream has moved on by exactly the steps taken. Every chord kept after
      the root was reached, with positive probability, from a chord kept
      before it (`parents` names which). */
  method ChordsTransferFunction(tf: Matrix, howManyChords: int, rng: Rng)
    returns (chords: seq<int>, ct: Matrix, ghost path: seq<int>, ghost parents: seq<nat>)
    requires tf.Valid() && tf.StaysPositive() && tf.keys != [] && tf.keys[0] == 0
    requires rng.Valid()
    modifies rng
    ensures rng.Valid()
    ensures 1 <= |path| <= |old(rng.draws)| + 1 && path == WalkPath(tf, old(rng.draws), |path| - 1)
    ensures rng.draws == old(rng.draws)[|path| - 1..]
    ensures chords == FirstOccurrences(path)
    ensures WalkStopped(tf, old(rng.draws), howManyChords, path)
    ensures chords != [] && chords[0] == 0 && Distinct(chords)
    ensures forall c :: c in chords ==> c in tf.keys
    ensures |chords| <= |tf.keys|
    ensures |chords| == howManyChords || (howManyChords <= 1 && |chords| == 1) ||
            (|chords| < howManyChords && rng.draws == [])
    ensures |parents| == |chords|
    ensures forall k :: 1 <= k < |chords| ==> parents[k] < k && tf.P(chords[parents[k]], chords[k]) > 0.0
    ensures ct == ChordTransitions(tf, chords)
  {
    chords, path, parents := Walk(tf, howManyChords, rng);
    WalkEnds(tf, old(rng.draws), rng.draws, path, path[|path| - 1], chords, parents);
    ct := ChordTransitions(tf, chords);
  }

  /** The loop of `ChordsTransferFunction`: the walk itself. */
  method Walk(tf: Matrix, howManyChords: int, rng: Rng)
    returns (chords: seq<int>, ghost path: seq<int>, ghost parents: seq<nat>)
    requires tf.Valid() && tf.keys != [] && tf.keys[0] == 0
    requires rng.Valid()
    modifies rng
    ensures rng.Valid() && path != []
    ensures Walked(tf, old(rng.draws), rng.draws, path, path[|path| - 1])
    ensures Kept(tf, path, chords, parents)
    ensures |path| > 1 ==> |FirstOccurrences(path[..|path| - 1])| < howManyChords
    ensures |chords| == howManyChords || (howManyChords <= 1 && |chords| == 1) ||
            (|chords| < howManyChords && rng.draws == [])
  {
    chords := [tf.keys[0]];
    var newChord := 0;
    parents := [0];
    path := [0];
    ghost var d := rng.draws;
    while |chords| < howManyChords && rng.draws != []
      invariant rng.Valid()
      invariant Walked(tf, d, rng.draws, path, newChord)
      invariant Kept(tf, path, chords, parents)
      invariant |chords| == 1 || |chords| <= howManyChords
      invariant |path| > 1 ==> |FirstOccurrences(path[..|path| - 1])| < howManyChords
      decreases |rng.draws|
    {
      ghost var before := path;
      newChord, chords, path, parents := WalkStep(tf, d, rng, newChord, chords, path, parents);
      assert path[..|path| - 1] == before;
    }
  }

  /** One pass of the loop: draw the next chord from the row of the current
      one, move there, and keep it with the current chord as its parent when
      it is new. */
  method WalkStep(tf: Matrix, ghost d: seq<real>, rng: Rng, current: int, chords: seq<int>,
                  ghost path: seq<int>, ghost parents: seq<nat>)
    returns (next: int, chords': seq<int>, ghost path': seq<int>, ghost parents': seq<nat>)
    requires tf.Valid() && 0 in tf.keys && forall k :: 0 <= k < |d| ==> 0.0 <= d[k] < 1.0
    requires rng.Valid() && rng.draws != []
    requires Walked(tf, d, rng.draws, path, current) && Kept(tf, path, chords, parents)
    modifies rng
    ensures rng.Valid() && rng.draws == old(rng.draws)[1..]
    ensures Walked(tf, d, rng.draws, path', next) && Kept(tf, path', chords', parents')
    ensures |chords'| <= |chords| + 1
  {
    WalkedStep(tf, d, rng.draws, path, current);
    next := rng.Choice(tf, current);
    KeptStep(tf, path, chords, parents, next);
    path' := path + [next];
    if next in chords {
      chords', parents' := chords, parents;
    } else {
      chords', parents' := chords + [next], parents + [IndexOf(chords, current).value];
    }
  }
}
