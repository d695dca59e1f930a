/** The JSON values that json11's `Json` class can hold. An object is a map from
    keys to values: json11 stores objects in a `std::map`, so a key occurs at most
    once and a duplicate key in the input has already been collapsed by the parser. */
module JsonValue {

  datatype Json =
    | Null
    | Bool(b: bool)
    | Num(n: real)
    | Str(s: string)
    | Arr(items: seq<Json>)
    | Obj(fields: map<string, Json>)

  /** An object with exactly one key, and that key is `k`; this is what
      `is_object() && object_items().size() == 1 && begin()->first == k` tests. */
  predicate IsSingleKeyObject(j: Json, k: string)
  {
    j.Obj? && |j.fields| == 1 && k in j.fields
  }

  /** A map with one entry holds nothing but that entry. */
  lemma SingleKeyMap(m: map<string, Json>, k: string)
    requires |m| == 1 && k in m
    ensures m == map[k := m[k]]
  {
    forall k' | k' in m ensures k' == k {
      if k' != k {
        assert {k, k'} <= m.Keys;
        assert |{k, k'}| == 2;
        SubsetCardinality({k, k'}, m.Keys);
        assert false;
      }
    }
  }

  lemma SubsetCardinality(a: set<string>, b: set<string>)
    requires a <= b
    ensures |a| <= |b|
  {
    assert b == a + (b - a);
  }
}
