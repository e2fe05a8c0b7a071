/** Small sequence helpers shared by the model: an Option type, key lookup by
    position (the model's stand-in for `Index.get_loc`) and distinctness. */
module Seqs {

  datatype Option<T> = None | Some(value: T)

  /** Position of the first occurrence of `x` in `s`, if any. */
  function IndexOf(s: seq<int>, x: int): (r: Option<nat>)
    ensures r.None? <==> x !in s
    ensures r.Some? ==> r.value < |s| && s[r.value] == x
    ensures r.Some? ==> forall k :: 0 <= k < r.value ==> s[k] != x
  {
    if |s| == 0 then None
    else if s[0] == x then Some(0)
    else match IndexOf(s[1..], x)
      case None => None
      case Some(k) => Some(k + 1)
  }

  /** No element occurs twice. */
  predicate Distinct(s: seq<int>)
  {
    forall i, j :: 0 <= i < j < |s| ==> s[i] != s[j]
  }

  /** In a sequence without repetitions the position of an element is unique. */
  lemma IndexOfDistinct(s: seq<int>, k: nat)
    requires Distinct(s) && k < |s|
    ensures IndexOf(s, s[k]) == Some(k)
  {
    var r := IndexOf(s, s[k]);
    assert r.Some?;
  }

  /** A sequence of distinct values drawn from `pool` is no longer than `pool`:
      a vocabulary of distinct keys can never outgrow the keys available. */
  lemma {:induction false} DistinctWithinPool(s: seq<int>, pool: seq<int>)
    requires Distinct(s) && Distinct(pool)
    requires forall x :: x in s ==> x in pool
    ensures |s| <= |pool|
    decreases |s|
  {
    if s != [] {
      var init, last := s[..|s| - 1], s[|s| - 1];
      var j := IndexOf(pool, last).value;
      var rest := pool[..j] + pool[j + 1..];
      forall x | x in init
        ensures x in rest
      {
        var k :| 0 <= k < |init| && init[k] == x;
        assert s[k] == x && x != last;
        var m := IndexOf(pool, x).value;
        if m < j {
          assert rest[m] == x;
        } else {
          assert rest[m - 1] == x;
        }
      }
      assert Distinct(rest) by {
        forall a, b | 0 <= a < b < |rest|
          ensures rest[a] != rest[b]
        {
          var a', b' := if a < j then a else a + 1, if b < j then b else b + 1;
          assert rest[a] == pool[a'] && rest[b] == pool[b'];
        }
      }
      DistinctWithinPool(init, rest);
    }
  }

  /** The distinct elements of `s` in the order they first occur: what is
      left of a walk once every revisit is dropped. */
  function FirstOccurrences(s: seq<int>): (r: seq<int>)
    ensures |r| <= |s|
    ensures s != [] ==> r != [] && r[0] == s[0]
  {
    if s == [] then []
    else
      var init, last := s[..|s| - 1], s[|s| - 1];
      assert init != [] ==> init[0] == s[0];
      var r := FirstOccurrences(init);
      if last in r then r else r + [last]
  }

  /** The first occurrences hold each element of `s` once and nothing else. */
  lemma {:induction false} FirstOccurrencesMembers(s: seq<int>)
    ensures Distinct(FirstOccurrences(s))
    ensures forall x :: x in FirstOccurrences(s) <==> x in s
  {
    if s != [] {
      var init, last := s[..|s| - 1], s[|s| - 1];
      assert s == init + [last];
      FirstOccurrencesMembers(init);
    }
  }

  /** One more step of a walk adds its element to the first occurrences
      exactly when it was not there yet. */
  lemma FirstOccurrencesStep(s: seq<int>, x: int)
    ensures FirstOccurrences(s + [x]) ==
      if x in FirstOccurrences(s) then FirstOccurrences(s) else FirstOccurrences(s) + [x]
  {
    assert (s + [x])[..|s|] == s;
  }

  /** A walk never has more first occurrences than a walk it begins. */
  lemma {:induction false} FirstOccurrencesGrow(s: seq<int>, n: nat)
    requires n <= |s|
    ensures |FirstOccurrences(s[..n])| <= |FirstOccurrences(s)|
    decreases |s| - n
  {
    if n == |s| {
      assert s[..n] == s;
    } else {
      var init := s[..|s| - 1];
      assert init[..n] == s[..n] && s == init + [s[|s| - 1]];
      FirstOccurrencesStep(init, s[|s| - 1]);
      FirstOccurrencesGrow(init, n);
    }
  }

  /** `t` is what is left of `s` once some elements have been taken from its
      front. */
  predicate Suffix<T(==)>(t: seq<T>, s: seq<T>)
  {
    |t| <= |s| && t == s[|s| - |t|..]
  }

  lemma SuffixTransitive<T>(u: seq<T>, t: seq<T>, s: seq<T>)
    requires Suffix(u, t) && Suffix(t, s)
    ensures Suffix(u, s)
  {
    assert u == s[|s| - |t|..][|t| - |u|..];
  }

  /** Each element is larger than the one before it. */
  predicate Ascending(s: seq<int>)
  {
    forall i :: 0 < i < |s| ==> s[i - 1] < s[i]
  }

  lemma {:induction false} AscendingDistinct(s: seq<int>)
    requires Ascending(s)
    ensures Distinct(s)
    ensures forall i, j :: 0 <= i < j < |s| ==> s[i] < s[j]
  {
    if s != [] {
      var init := s[..|s| - 1];
      assert Ascending(init);
      AscendingDistinct(init);
      forall i, j | 0 <= i < j < |s|
        ensures s[i] < s[j]
      {
        if j < |s| - 1 {
          assert s[i] == init[i] && s[j] == init[j];
        } else if i < j - 1 {
          assert s[i] == init[i] && s[j - 1] == init[j - 1];
        }
      }
    }
  }
}
