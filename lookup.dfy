/**
 * The `map?.[key] || fallback` idiom the components use for icons, colours
 * and labels: a fixed object literal read by key, where a missing key or
 * an empty value gives the fallback.
 */
module Lookup {

  datatype Entry = Entry(key: string, value: string)

  /** Object literals cannot repeat a key. */
  predicate UniqueKeys(table: seq<Entry>) {
    forall i, j | 0 <= i < j < |table| :: table[i].key != table[j].key
  }

  predicate HasKey(table: seq<Entry>, key: string) {
    exists i | 0 <= i < |table| :: table[i].key == key
  }

  function Find(table: seq<Entry>, key: string, fallback: string): (r: string)
    ensures !HasKey(table, key) ==> r == fallback
    ensures forall i | 0 <= i < |table| && table[i].key == key && (forall j | 0 <= j < i :: table[j].key != key) ::
              r == if table[i].value != "" then table[i].value else fallback
  {
    if table == [] then fallback
    else if table[0].key == key then (if table[0].value != "" then table[0].value else fallback)
    else
      assert forall i | 1 <= i < |table| :: table[i] == table[1..][i - 1];
      Find(table[1..], key, fallback)
  }

  /** With distinct keys the first match is the only one: a key present with a non-empty value reads back as that value. */
  lemma FindEntry(table: seq<Entry>, i: int, fallback: string)
    requires UniqueKeys(table) && 0 <= i < |table| && table[i].value != ""
    ensures Find(table, table[i].key, fallback) == table[i].value
  {
  }

  /** The result is always the fallback or one of the table's values. */
  lemma {:induction false} FindRange(table: seq<Entry>, key: string, fallback: string)
    ensures Find(table, key, fallback) == fallback || exists i | 0 <= i < |table| :: Find(table, key, fallback) == table[i].value
  {
    if table != [] && table[0].key != key {
      FindRange(table[1..], key, fallback);
      var r := Find(table, key, fallback);
      if r != fallback {
        var i :| 0 <= i < |table[1..]| && r == table[1..][i].value;
        assert r == table[i + 1].value;
      }
    }
  }
}
