/**
 `StateLoading`: `EntityAI.loadState`, which takes the parsed JSON that the
 load endpoint returns (weights and biases keyed by layer number), orders each
 object's values by the string sort of its keys and imports them into the
 network.
 */
module StateLoading {
  import opened Wrappers
  import opened NeuralNetwork

  /** A JSON object of number arrays, as its `(key, value)` pairs; the keys are distinct. */
  type Fields = seq<(string, seq<real>)>

  /** The parsed response: `weights` or `biases` is `None` when missing or falsy. */
  datatype Stored = Stored(weights: Option<Fields>, biases: Option<Fields>)

  predicate DistinctKeys(f: Fields) {
    forall i, j :: 0 <= i < j < |f| ==> f[i].0 != f[j].0
  }

  /** The default order of `Array.prototype.sort`: strings compared character by character, a prefix first. */
  predicate LexLe(a: string, b: string)
    decreases |a|
  {
    |a| == 0 || (|b| > 0 && (a[0] < b[0] || (a[0] == b[0] && LexLe(a[1..], b[1..]))))
  }

  /** Any two strings are ordered one way or the other. */
  lemma {:induction false} LexLeTotal(a: string, b: string)
    ensures LexLe(a, b) || LexLe(b, a)
    decreases |a|
  {
    if |a| > 0 && |b| > 0 && a[0] == b[0] {
      LexLeTotal(a[1..], b[1..]);
    }
  }

  /** Two distinct strings are never ordered both ways. */
  lemma {:induction false} LexLeAntisymmetric(a: string, b: string)
    requires LexLe(a, b) && LexLe(b, a)
    ensures a == b
    decreases |a|
  {
    if |a| > 0 {
      LexLeAntisymmetric(a[1..], b[1..]);
      assert a == [a[0]] + a[1..] && b == [b[0]] + b[1..];
    }
  }

  /** Adjacent keys are in string order. */
  predicate SortedByKey(f: Fields) {
    forall i :: 0 < i < |f| ==> LexLe(f[i - 1].0, f[i].0)
  }

  /** Insert `x` into fields sorted by key, before the first key it does not follow. */
  function Insert(x: (string, seq<real>), f: Fields): (r: Fields)
    requires SortedByKey(f)
    ensures SortedByKey(r)
    ensures multiset(r) == multiset(f) + multiset{x}
    ensures |r| == |f| + 1 && (r[0] == x || (|f| > 0 && r[0] == f[0]))
  {
    if |f| == 0 then [x]
    else if LexLe(x.0, f[0].0) then [x] + f
    else
      LexLeTotal(x.0, f[0].0);
      var rest := Insert(x, f[1..]);
      assert f == [f[0]] + f[1..];
      [f[0]] + rest
  }

  /** `Object.keys(o).sort()` followed by the lookup of each key: the fields reordered by key. */
  function SortByKey(f: Fields): (r: Fields)
    ensures SortedByKey(r)
    ensures multiset(r) == multiset(f)
  {
    if |f| == 0 then []
    else
      assert f == f[..|f| - 1] + [f[|f| - 1]];
      Insert(f[|f| - 1], SortByKey(f[..|f| - 1]))
  }

  /** The values of the fields, in order. */
  function Values(f: Fields): (r: seq<seq<real>>)
    ensures |r| == |f|
    ensures forall i :: 0 <= i < |f| ==> r[i] == f[i].1
  {
    seq(|f|, i requires 0 <= i < |f| => f[i].1)
  }

  /**
   `loadState(state)`: a response with both fields has its values, ordered by
   sorted key, imported into the network; anything else leaves the network
   as it was.
   */
  function LoadState(net: Network, state: Option<Stored>): (r: Network)
    ensures r.layerSizes == net.layerSizes && r.learningRate == net.learningRate
    ensures !(state.Some? && state.value.weights.Some? && state.value.biases.Some?) ==> r == net
    ensures state.Some? && state.value.weights.Some? && state.value.biases.Some? ==>
              r.weights == Values(SortByKey(state.value.weights.value))
              && r.biases == Values(SortByKey(state.value.biases.value))
  {
    if state.Some? && state.value.weights.Some? && state.value.biases.Some? then
      var weights := Values(SortByKey(state.value.weights.value));
      var biases := Values(SortByKey(state.value.biases.value));
      ImportState(net, Snapshot(Some(weights), Some(biases)))
    else net
  }

  /** Sorting does not depend on the order the keys arrive in: key-distinct fields with the same pairs sort alike. */
  lemma {:induction false} SortedPermutationsAgree(f: Fields, g: Fields)
    requires SortedByKey(f) && SortedByKey(g) && DistinctKeys(f)
    requires multiset(f) == multiset(g)
    ensures f == g
    decreases |f|
  {
    assert |f| == |multiset(f)| == |g|;
    if |f| > 0 {
      HeadsAgree(f, g);
      TailsPermute(f, g);
      SortedTail(f);
      SortedTail(g);
      DistinctCons(f[0], f[1..]);
      SortedPermutationsAgree(f[1..], g[1..]);
      assert f == [f[0]] + f[1..] && g == [g[0]] + g[1..];
    }
  }

  /** Two permutations with the same first pair have permuted tails. */
  lemma TailsPermute(f: Fields, g: Fields)
    requires |f| > 0 && |g| > 0 && f[0] == g[0] && multiset(f) == multiset(g)
    ensures multiset(f[1..]) == multiset(g[1..])
  {
    assert f == [f[0]] + f[1..] && g == [g[0]] + g[1..];
    assert multiset(f) == multiset{f[0]} + multiset(f[1..]);
    assert multiset(g) == multiset{f[0]} + multiset(g[1..]);
    forall z ensures multiset(f[1..])[z] == multiset(g[1..])[z] {
      assert multiset(f)[z] == multiset{f[0]}[z] + multiset(f[1..])[z];
      assert multiset(g)[z] == multiset{f[0]}[z] + multiset(g[1..])[z];
    }
  }

  /** The tail of a key-sorted list is key-sorted, and distinct keys stay distinct in it. */
  lemma SortedTail(f: Fields)
    requires |f| > 0 && SortedByKey(f)
    ensures SortedByKey(f[1..]) && f == [f[0]] + f[1..]
  {
    forall i | 0 < i < |f[1..]| ensures LexLe(f[1..][i - 1].0, f[1..][i].0) {
      assert f[1..][i - 1] == f[i] && f[1..][i] == f[i + 1];
    }
  }

  /** Two key-sorted permutations of key-distinct fields start with the same pair. */
  lemma HeadsAgree(f: Fields, g: Fields)
    requires SortedByKey(f) && SortedByKey(g) && DistinctKeys(f)
    requires multiset(f) == multiset(g) && |f| > 0
    ensures |g| > 0 && f[0] == g[0]
  {
    assert f[0] in multiset(g);
    assert g[0] in multiset(f);
    SmallestIsFirst(g, f[0]);
    SmallestIsFirst(f, g[0]);
    LexLeAntisymmetric(f[0].0, g[0].0);
    var i :| 0 <= i < |f| && f[i] == g[0];
    if i > 0 {
      assert f[i].0 != f[0].0;
    }
  }

  /** In a key-sorted list the first key comes before every key of the list. */
  lemma {:induction false} SmallestIsFirst(f: Fields, x: (string, seq<real>))
    requires SortedByKey(f) && x in f
    ensures LexLe(f[0].0, x.0)
    decreases |f|
  {
    if f[0] != x {
      assert x in f[1..] by {
        assert f == [f[0]] + f[1..];
      }
      SmallestIsFirst(f[1..], x);
      LexLeTransitive(f[0].0, f[1].0, x.0);
    } else {
      LexLeReflexive(x.0);
    }
  }

  lemma {:induction false} LexLeReflexive(a: string)
    ensures LexLe(a, a)
    decreases |a|
  {
    if |a| > 0 {
      LexLeReflexive(a[1..]);
    }
  }

  lemma {:induction false} LexLeTransitive(a: string, b: string, c: string)
    requires LexLe(a, b) && LexLe(b, c)
    ensures LexLe(a, c)
    decreases |a|
  {
    if |a| > 0 && a[0] == b[0] && b[0] == c[0] {
      LexLeTransitive(a[1..], b[1..], c[1..]);
    }
  }

  /** Loading is insensitive to the order of the fields in the response. */
  lemma LoadStateIgnoresFieldOrder(net: Network, w1: Fields, w2: Fields, b1: Fields, b2: Fields)
    requires DistinctKeys(w1) && DistinctKeys(b1)
    requires multiset(w1) == multiset(w2) && multiset(b1) == multiset(b2)
    ensures LoadState(net, Some(Stored(Some(w1), Some(b1)))) == LoadState(net, Some(Stored(Some(w2), Some(b2))))
  {
    SortedKeepsDistinct(w1);
    SortedKeepsDistinct(b1);
    SortedPermutationsAgree(SortByKey(w1), SortByKey(w2));
    SortedPermutationsAgree(SortByKey(b1), SortByKey(b2));
  }

  /** The keys of the fields. */
  function KeySet(f: Fields): set<string> {
    set i | 0 <= i < |f| :: f[i].0
  }

  /** The keys of a list with one pair in front. */
  lemma KeySetCons(y: (string, seq<real>), f: Fields)
    ensures KeySet([y] + f) == {y.0} + KeySet(f)
  {
    var r := [y] + f;
    forall k | k in KeySet(r) ensures k == y.0 || k in KeySet(f) {
      var i :| 0 <= i < |r| && r[i].0 == k;
      if i > 0 {
        assert f[i - 1].0 == k;
      }
    }
    forall k | k == y.0 || k in KeySet(f) ensures k in KeySet(r) {
      if k == y.0 {
        assert r[0].0 == k;
      } else {
        var i :| 0 <= i < |f| && f[i].0 == k;
        assert r[i + 1].0 == k;
      }
    }
  }

  /** A list with one pair in front has distinct keys exactly when the rest has and lacks that pair's key. */
  lemma DistinctCons(y: (string, seq<real>), f: Fields)
    ensures DistinctKeys([y] + f) <==> DistinctKeys(f) && y.0 !in KeySet(f)
  {
    var r := [y] + f;
    if DistinctKeys(r) {
      forall i, j | 0 <= i < j < |f| ensures f[i].0 != f[j].0 {
        assert f[i] == r[i + 1] && f[j] == r[j + 1];
      }
      forall i | 0 <= i < |f| ensures f[i].0 != y.0 {
        assert f[i] == r[i + 1] && y == r[0];
      }
    }
    if DistinctKeys(f) && y.0 !in KeySet(f) {
      forall i, j | 0 <= i < j < |r| ensures r[i].0 != r[j].0 {
        assert r[j] == f[j - 1];
        if i > 0 {
          assert r[i] == f[i - 1];
        }
      }
    }
  }

  /** Inserting a fresh key keeps the keys distinct and adds that key. */
  lemma {:induction false} InsertKeepsDistinct(x: (string, seq<real>), f: Fields)
    requires SortedByKey(f) && DistinctKeys(f) && x.0 !in KeySet(f)
    ensures DistinctKeys(Insert(x, f))
    ensures KeySet(Insert(x, f)) == KeySet(f) + {x.0}
    decreases |f|
  {
    if |f| == 0 {
      assert Insert(x, f) == [x];
    } else if LexLe(x.0, f[0].0) {
      assert Insert(x, f) == [x] + f;
      KeySetCons(x, f);
      DistinctCons(x, f);
    } else {
      assert f == [f[0]] + f[1..];
      KeySetCons(f[0], f[1..]);
      DistinctCons(f[0], f[1..]);
      InsertKeepsDistinct(x, f[1..]);
      var rest := Insert(x, f[1..]);
      assert Insert(x, f) == [f[0]] + rest;
      KeySetCons(f[0], rest);
      DistinctCons(f[0], rest);
    }
  }

  /** Reordering keeps the keys distinct. */
  lemma {:induction false} SortedKeepsDistinct(f: Fields)
    requires DistinctKeys(f)
    ensures DistinctKeys(SortByKey(f))
    ensures KeySet(SortByKey(f)) == KeySet(f)
    decreases |f|
  {
    if |f| > 0 {
      var front := f[..|f| - 1];
      var x := f[|f| - 1];
      DistinctSnoc(f);
      SortedKeepsDistinct(front);
      InsertKeepsDistinct(x, SortByKey(front));
    }
  }

  /** Splitting off the last pair: its key joins the front's keys, and distinct keys stay distinct in the front, which lacks the last key. */
  lemma DistinctSnoc(f: Fields)
    requires |f| > 0 && DistinctKeys(f)
    ensures KeySet(f) == KeySet(f[..|f| - 1]) + {f[|f| - 1].0}
    ensures DistinctKeys(f[..|f| - 1]) && f[|f| - 1].0 !in KeySet(f[..|f| - 1])
  {
    var front, x := f[..|f| - 1], f[|f| - 1];
    forall k | k in KeySet(f) ensures k in KeySet(front) || k == x.0 {
      var i :| 0 <= i < |f| && f[i].0 == k;
      if i < |front| {
        assert front[i].0 == k;
      }
    }
    forall k | k in KeySet(front) ensures k in KeySet(f) && k != x.0 {
      var i :| 0 <= i < |front| && front[i].0 == k;
      assert f[i].0 == k;
    }
    assert f[|f| - 1].0 == x.0;
    forall i, j | 0 <= i < j < |front| ensures front[i].0 != front[j].0 {
      assert front[i] == f[i] && front[j] == f[j];
    }
  }

  /** Single-character keys such as the layer numbers 0 to 9 sort in character order. */
  lemma DigitKeysInOrder(f: Fields)
    requires forall i :: 0 <= i < |f| ==> |f[i].0| == 1
    ensures forall i :: 0 <= i < |SortByKey(f)| ==> |SortByKey(f)[i].0| == 1
    ensures forall i :: 0 < i < |SortByKey(f)| ==> SortByKey(f)[i - 1].0[0] <= SortByKey(f)[i].0[0]
  {
    var r := SortByKey(f);
    forall i | 0 <= i < |r| ensures |r[i].0| == 1 {
      assert r[i] in multiset(f);
    }
    forall i | 0 < i < |r| ensures r[i - 1].0[0] <= r[i].0[0] {
      assert r[i - 1] in multiset(f) && r[i] in multiset(f);
      assert |r[i - 1].0| == 1 && |r[i].0| == 1;
      assert LexLe(r[i - 1].0, r[i].0);
    }
  }

  /** From eleven layers on the order breaks: the key "10" sorts before "2". */
  lemma TenSortsBeforeTwo()
    ensures LexLe("10", "2") && !LexLe("2", "10")
  {
  }
}
