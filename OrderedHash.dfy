/**
 * Ruby's Hash as the client uses it: entries kept in insertion order, each
 * key once, and the positional fold `memo[fields[memo.length]] = value`
 * that both record-field mappers use to pair whitespace tokens with field
 * names (`nil` keys included, as Ruby's `fields[i]` is `nil` past the end).
 */
module OrderedHash {
  import opened Wrappers

  /** Entries in insertion order. */
  type Hash<K, V> = seq<(K, V)>

  /** No key occurs in `h`. */
  predicate Fresh<K(==), V>(h: Hash<K, V>, k: K) {
    forall i :: 0 <= i < |h| ==> h[i].0 != k
  }

  /** `h[k] = v`: the entry for `k` is overwritten in place, or appended when absent. */
  function Put<K(==), V>(h: Hash<K, V>, k: K, v: V): (r: Hash<K, V>)
    ensures Fresh(h, k) ==> r == h + [(k, v)]
    ensures |h| > 0 && h[|h| - 1].0 == k && Fresh(h[..|h| - 1], k) ==> r == h[..|h| - 1] + [(k, v)]
  {
    if h == [] then [(k, v)]
    else if h[0].0 == k then [(k, v)] + h[1..]
    else
      assert |h| >= 2 ==> h[1..][..|h| - 2] == h[1..|h| - 1];
      [h[0]] + Put(h[1..], k, v)
  }

  /** Ruby's `fields[i]`: the i-th name, or `nil` past the end. */
  function At(fields: seq<string>, i: nat): (r: Option<string>)
    ensures r.Some? <==> i < |fields|
    ensures r.Some? ==> r.value == fields[i]
  {
    if i < |fields| then Some(fields[i]) else None
  }

  /** `values.inject(memo) { |m, x| m[fields[m.length]] = x; m }`. */
  function PositionalFold<V>(fields: seq<string>, memo: Hash<Option<string>, V>, values: seq<V>): Hash<Option<string>, V>
    decreases |values|
  {
    if values == [] then memo
    else PositionalFold(fields, Put(memo, At(fields, |memo|), values[0]), values[1..])
  }

  /** Names are pairwise distinct. */
  predicate Distinct(fields: seq<string>) {
    forall i, j :: 0 <= i < j < |fields| ==> fields[i] != fields[j]
  }

  /** The i-th value under the i-th name. */
  function Zip<V>(fields: seq<string>, values: seq<V>): (r: Hash<Option<string>, V>)
    requires |values| <= |fields|
  {
    seq(|values|, i requires 0 <= i < |values| => (Some(fields[i]), values[i]))
  }

  lemma {:induction false} FoldFromZip<V>(fields: seq<string>, values: seq<V>, j: nat)
    requires Distinct(fields) && j <= |values| && j <= |fields|
    ensures |values| <= |fields| ==>
      PositionalFold(fields, Zip(fields, values[..j]), values[j..]) == Zip(fields, values)
    ensures |values| > |fields| ==>
      PositionalFold(fields, Zip(fields, values[..j]), values[j..])
        == PositionalFold(fields, Zip(fields, values[..|fields|]), values[|fields|..])
    decreases |values| - j
  {
    if j < |values| && j < |fields| {
      var memo := Zip(fields, values[..j]);
      assert Fresh(memo, Some(fields[j]));
      assert Put(memo, At(fields, |memo|), values[j]) == Zip(fields, values[..j + 1]);
      assert values[j..][1..] == values[j + 1..];
      FoldFromZip(fields, values, j + 1);
    } else if j == |values| {
      assert values[..j] == values;
    }
  }

  lemma {:induction false} FoldPastEnd<V>(fields: seq<string>, z: Hash<Option<string>, V>, x: V, rest: seq<V>)
    requires |z| == |fields|
    requires forall i :: 0 <= i < |z| ==> z[i].0.Some?
    ensures PositionalFold(fields, z + [(None, x)], rest)
      == z + [(None, if rest == [] then x else rest[|rest| - 1])]
    decreases |rest|
  {
    if rest != [] {
      var memo := z + [(None, x)];
      assert memo[..|memo| - 1] == z;
      assert Fresh(z, None);
      assert Put(memo, At(fields, |memo|), rest[0]) == z + [(None, rest[0])];
      FoldPastEnd(fields, z, rest[0], rest[1..]);
      if |rest| > 1 {
        assert rest[1..][|rest| - 2] == rest[|rest| - 1];
      }
    }
  }

  /**
   * With distinct names and at most as many values as names, the fold pairs
   * the i-th value with the i-th name and nothing else.
   */
  lemma PositionalFoldZips<V>(fields: seq<string>, values: seq<V>)
    requires Distinct(fields) && |values| <= |fields|
    ensures PositionalFold(fields, [], values) == Zip(fields, values)
  {
    FoldFromZip(fields, values, 0);
    assert values[..0] == [] && values[0..] == values;
  }

  /**
   * With more values than names, every name gets its value and the surplus
   * collapses into a single `nil` key holding the last value.
   */
  lemma PositionalFoldOverflows<V>(fields: seq<string>, values: seq<V>)
    requires Distinct(fields) && |values| > |fields|
    ensures PositionalFold(fields, [], values)
      == Zip(fields, values[..|fields|]) + [(None, values[|values| - 1])]
  {
    var n := |fields|;
    FoldFromZip(fields, values, 0);
    assert values[..0] == [] && values[0..] == values;
    var z := Zip(fields, values[..n]);
    FoldEntersNil(fields, z, values[n..]);
    assert values[n..][1..] == values[n + 1..];
    FoldPastEnd(fields, z, values[n], values[n + 1..]);
  }

  /** Once every name is taken, the next value goes under `nil`. */
  lemma FoldEntersNil<V>(fields: seq<string>, z: Hash<Option<string>, V>, rest: seq<V>)
    requires |z| == |fields| && rest != []
    requires forall i :: 0 <= i < |z| ==> z[i].0.Some?
    ensures PositionalFold(fields, z, rest) == PositionalFold(fields, z + [(None, rest[0])], rest[1..])
  {
    assert Fresh(z, None);
  }
}
