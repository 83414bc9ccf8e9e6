/** A Python `dict`: a map whose keys also remember the order in which they
    were first inserted.  Assigning to a key that is present keeps its place;
    deleting a key and inserting it again moves it to the end. */
module OrderedDict {

  datatype Dict<K, V> = Dict(keys: seq<K>, entries: map<K, V>)

  predicate Distinct<K(==)>(s: seq<K>) {
    forall i, j :: 0 <= i < j < |s| ==> s[i] != s[j]
  }

  /** The insertion order lists every key exactly once. */
  ghost predicate Valid<K(!new), V>(d: Dict<K, V>) {
    Distinct(d.keys) && (forall k :: k in d.keys <==> k in d.entries)
  }

  function Empty<K(==,!new), V>(): (d: Dict<K, V>)
    ensures Valid(d) && d.entries == map[]
  {
    Dict([], map[])
  }

  /** `s` with `x` taken out, the other elements in their order. */
  function RemoveFrom<K(==,!new)>(s: seq<K>, x: K): (r: seq<K>)
    ensures forall y :: y in r <==> y in s && y != x
    ensures Distinct(s) ==> Distinct(r)
    ensures |r| <= |s|
    ensures x !in s ==> r == s
    ensures |s| > 0 && s[|s| - 1] != x ==> |r| > 0 && r[|r| - 1] == s[|s| - 1]
  {
    if |s| == 0 then []
    else if s[0] == x then RemoveFrom(s[1..], x)
    else
      var rest := RemoveFrom(s[1..], x);
      assert x !in s ==> [s[0]] + rest == s by {
        if x !in s {
          assert x !in s[1..];
          assert [s[0]] + s[1..] == s;
        }
      }
      if Distinct(s) then
        DistinctCons(s[0], rest);
        [s[0]] + rest
      else
        [s[0]] + rest
  }

  /** A new element in front of a list without repeats keeps it so. */
  lemma DistinctCons<K>(h: K, rest: seq<K>)
    requires Distinct(rest) && h !in rest
    ensures Distinct([h] + rest)
  {
    forall i, j | 0 <= i < j < |[h] + rest| ensures ([h] + rest)[i] != ([h] + rest)[j] {
      if i == 0 {
        assert ([h] + rest)[j] == rest[j - 1];
      }
    }
  }

  /** `d[k] = v`. */
  function Set<K(==,!new), V>(d: Dict<K, V>, k: K, v: V): (r: Dict<K, V>)
    requires Valid(d)
    ensures Valid(r)
    ensures r.entries == d.entries[k := v]
    ensures k in d.entries ==> r.keys == d.keys
    ensures k !in d.entries ==> r.keys == d.keys + [k]
  {
    if k in d.entries then Dict(d.keys, d.entries[k := v])
    else Dict(d.keys + [k], d.entries[k := v])
  }

  /** `del d[k]` (the source deletes only present keys). */
  function Delete<K(==,!new), V>(d: Dict<K, V>, k: K): (r: Dict<K, V>)
    requires Valid(d)
    ensures Valid(r)
    ensures r.entries == d.entries - {k}
    ensures k !in d.entries ==> r == d
    ensures |d.keys| > 0 && d.keys[|d.keys| - 1] != k ==>
      |r.keys| > 0 && r.keys[|r.keys| - 1] == d.keys[|d.keys| - 1]
  {
    Dict(RemoveFrom(d.keys, k), d.entries - {k})
  }

  /** `list(d.values())[-1]`: the value of the most recently inserted key. */
  function LastValue<K(==,!new), V>(d: Dict<K, V>): (v: V)
    requires Valid(d) && |d.keys| > 0
    ensures d.keys[|d.keys| - 1] in d.entries && v == d.entries[d.keys[|d.keys| - 1]]
  {
    d.entries[d.keys[|d.keys| - 1]]
  }

  /** A valid dict is empty exactly when its map is. */
  lemma EmptyIff<K(!new), V>(d: Dict<K, V>)
    requires Valid(d)
    ensures |d.keys| == 0 <==> d.entries == map[]
  {
    if |d.keys| > 0 {
      assert d.keys[0] in d.entries;
    }
  }

  /** Inserting a new key makes its value the last one. */
  lemma SetNewIsLast<K(!new), V>(d: Dict<K, V>, k: K, v: V)
    requires Valid(d) && k !in d.entries
    ensures |Set(d, k, v).keys| > 0 && LastValue(Set(d, k, v)) == v
  {
  }

  /** Deleting any key but the newest leaves the last of `values()` alone. */
  lemma DeleteKeepsLast<K(!new), V>(d: Dict<K, V>, k: K)
    requires Valid(d) && |d.keys| > 0 && d.keys[|d.keys| - 1] != k
    ensures |Delete(d, k).keys| > 0 && LastValue(Delete(d, k)) == LastValue(d)
  {
  }

  /** Appending an element that is not in the list and taking it out again
      gives the list back. */
  lemma {:induction false} RemoveAppended<K(!new)>(s: seq<K>, x: K)
    requires x !in s
    ensures RemoveFrom(s + [x], x) == s
  {
    if |s| > 0 {
      assert (s + [x])[1..] == s[1..] + [x];
      RemoveAppended(s[1..], x);
      assert [s[0]] + s[1..] == s;
    }
  }

  /** Inserting a new key and deleting it again gives the dict back, order
      included. */
  lemma SetThenDelete<K(!new), V>(d: Dict<K, V>, k: K, v: V)
    requires Valid(d) && k !in d.entries
    ensures Delete(Set(d, k, v), k) == d
  {
    RemoveAppended(d.keys, k);
  }

  /** Deleting a key and inserting it again moves it to the end. */
  lemma DeleteThenSetIsLast<K(!new), V>(d: Dict<K, V>, k: K, v: V)
    requires Valid(d)
    ensures |Set(Delete(d, k), k, v).keys| > 0 && LastValue(Set(Delete(d, k), k, v)) == v
  {
  }
}
