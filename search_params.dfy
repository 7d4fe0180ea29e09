/**
 * URL query parameters as `URLSearchParams` holds them: an ordered list of name/value
 * pairs in which a name may repeat.
 */
module SearchParams {
  import opened Wrappers

  type Query = seq<(string, string)>

  /** `params.get(key)`: the value of the first pair named `key`, absent when no pair has that name. */
  function Get(q: Query, key: string): (r: Option<string>)
    ensures r.Some? ==> exists i :: 0 <= i < |q| && q[i] == (key, r.value)
  {
    if q == [] then None
    else if q[0].0 == key then Some(q[0].1)
    else
      var r := Get(q[1..], key);
      assert forall i :: 1 <= i < |q| ==> q[i] == q[1..][i - 1];
      r
  }

  /** How many pairs are named `key`. */
  function Occurrences(q: Query, key: string): nat {
    if q == [] then 0 else (if q[0].0 == key then 1 else 0) + Occurrences(q[1..], key)
  }

  /**
   * `get` reads the first pair of the name: it is absent exactly when no pair has the name,
   * and otherwise no earlier pair has it.
   */
  lemma {:induction false} GetFirstPair(q: Query, key: string)
    ensures Get(q, key).None? <==> Occurrences(q, key) == 0
    ensures Get(q, key).Some? ==>
      exists i :: 0 <= i < |q| && q[i] == (key, Get(q, key).value) && forall j :: 0 <= j < i ==> q[j].0 != key
  {
    if q != [] && q[0].0 != key {
      GetFirstPair(q[1..], key);
      if Get(q, key).Some? {
        var i :| 0 <= i < |q[1..]| && q[1..][i] == (key, Get(q, key).value)
          && forall j :: 0 <= j < i ==> q[1..][j].0 != key;
        assert q[i + 1] == (key, Get(q, key).value);
        forall j | 0 <= j < i + 1 ensures q[j].0 != key {
          if j > 0 { assert q[j] == q[1..][j - 1]; }
        }
      }
    }
  }

  /** `params.delete(key)`: every pair named `key` dropped, the others kept in order. */
  function Without(q: Query, key: string): (r: Query)
    ensures Occurrences(r, key) == 0
    ensures forall other :: other != key ==> Occurrences(r, other) == Occurrences(q, other)
    ensures |r| + Occurrences(q, key) == |q|
  {
    if q == [] then []
    else if q[0].0 == key then Without(q[1..], key)
    else [q[0]] + Without(q[1..], key)
  }

  /** Dropping a name that does not occur changes nothing. */
  lemma {:induction false} WithoutAbsent(q: Query, key: string)
    requires Occurrences(q, key) == 0
    ensures Without(q, key) == q
  {
    if q != [] {
      WithoutAbsent(q[1..], key);
    }
  }

  /**
   * `params.set(key, value)`: the first pair named `key` takes `value` and any later ones are
   * removed; when there is none, the pair is appended at the end.
   */
  function Set(q: Query, key: string, value: string): (r: Query)
    ensures Get(r, key) == Some(value)
    ensures Occurrences(r, key) == 1
    ensures Without(r, key) == Without(q, key)
  {
    if q == [] then [(key, value)]
    else if q[0].0 == key then
      var rest := Without(q[1..], key);
      WithoutAbsent(rest, key);
      [(key, value)] + rest
    else [q[0]] + Set(q[1..], key, value)
  }

  /** Dropping the pairs of one name does not change what another name reads. */
  lemma {:induction false} GetWithoutOther(q: Query, key: string, other: string)
    requires other != key
    ensures Get(Without(q, key), other) == Get(q, other)
  {
    if q != [] {
      GetWithoutOther(q[1..], key, other);
    }
  }

  /** Setting one name leaves the value read under every other name as it was. */
  lemma SetKeepsOtherKeys(q: Query, key: string, value: string, other: string)
    requires other != key
    ensures Get(Set(q, key, value), other) == Get(q, other)
  {
    GetWithoutOther(Set(q, key, value), key, other);
    GetWithoutOther(q, key, other);
  }

  /** One `set` seen from any name: the name set reads the new value once, any other name is as before. */
  lemma SetStep(q: Query, key: string, value: string, k: string)
    ensures Get(Set(q, key, value), k) == if k == key then Some(value) else Get(q, k)
    ensures Occurrences(Set(q, key, value), k) == if k == key then 1 else Occurrences(q, k)
  {
    if k != key {
      SetKeepsOtherKeys(q, key, value, k);
      assert Occurrences(Without(Set(q, key, value), key), k) == Occurrences(Without(q, key), k);
    }
  }

  /** The list has at most one pair of each name. */
  predicate UniqueKeys(q: Query) {
    forall i, j :: 0 <= i < j < |q| ==> q[i].0 != q[j].0
  }

  /** The name-to-value map of a list with unique names (how a server framework hands it over). */
  function ToMap(q: Query): (m: map<string, string>)
    requires UniqueKeys(q)
    ensures forall k :: (k in m <==> Get(q, k).Some?)
    ensures forall k :: k in m ==> Some(m[k]) == Get(q, k)
  {
    if q == [] then map[]
    else
      var rest := ToMap(q[1..]);
      assert forall k :: Get(q, k) == if k == q[0].0 then Some(q[0].1) else Get(q[1..], k);
      rest[q[0].0 := q[0].1]
  }
}
