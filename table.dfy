/** A static model-id table in declaration order. Python dictionaries keep
    insertion order, and the proxies' substring search depends on it, so a
    table is a sequence of (key, value) entries rather than a map. */
module Table {
  import opened Json

  type Table = seq<(string, string)>

  predicate HasKey(t: Table, key: string) {
    exists i :: 0 <= i < |t| && t[i].0 == key
  }

  predicate HasValue(t: Table, value: string) {
    exists i :: 0 <= i < |t| && t[i].1 == value
  }

  /** A dictionary literal never holds the same key twice. */
  predicate KeysUnique(t: Table) {
    forall i, j :: 0 <= i < j < |t| ==> t[i].0 != t[j].0
  }

  /** `table[key]` when `key in table`, found by scanning in order. */
  function Lookup(t: Table, key: string): (r: Option<string>)
    ensures r.None? <==> !HasKey(t, key)
    ensures r.Some? ==> exists i :: 0 <= i < |t| && t[i] == (key, r.value)
  {
    if t == [] then None
    else if t[0].0 == key then Some(t[0].1)
    else
      var rest := Lookup(t[1..], key);
      assert rest.Some? ==> exists i :: 0 <= i < |t[1..]| && t[1..][i] == (key, rest.value);
      assert HasKey(t, key) ==> HasKey(t[1..], key) by {
        if HasKey(t, key) {
          var i :| 0 <= i < |t| && t[i].0 == key;
          assert t[1..][i - 1].0 == key;
        }
      }
      rest
  }

  /** A key finds the entry of its first occurrence, which in a table
      without repeated keys is its only one. */
  lemma {:induction false} LookupFindsEntry(t: Table, i: nat)
    requires i < |t|
    requires forall j :: 0 <= j < i ==> t[j].0 != t[i].0
    ensures Lookup(t, t[i].0) == Some(t[i].1)
  {
    if i > 0 {
      assert t[0].0 != t[i].0;
      forall j | 0 <= j < i - 1 ensures t[1..][j].0 != t[1..][i - 1].0 {
        assert t[1..][j] == t[j + 1];
      }
      LookupFindsEntry(t[1..], i - 1);
      assert t[1..][i - 1] == t[i];
    }
  }
}
