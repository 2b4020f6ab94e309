/**
 * Building a map from a list of `(key, value)` entries, one `set` at a time:
 * what both the loop over `Map.set` and `Object.fromEntries` do.
 */
module Entries {

  /** The entries in order, a later entry replacing an earlier one with the same key. */
  function FromEntries<V>(entries: seq<(string, V)>): (m: map<string, V>)
    ensures m.Keys == set i | 0 <= i < |entries| :: entries[i].0
  {
    if |entries| == 0 then map[]
    else
      var last := entries[|entries| - 1];
      FromEntries(entries[..|entries| - 1])[last.0 := last.1]
  }

  /** The last entry with a given key decides that key's value. */
  lemma {:induction false} LastWriteWins<V>(entries: seq<(string, V)>, i: nat)
    requires i < |entries|
    requires forall j :: i < j < |entries| ==> entries[j].0 != entries[i].0
    ensures entries[i].0 in FromEntries(entries) && FromEntries(entries)[entries[i].0] == entries[i].1
  {
    var n := |entries|;
    if i < n - 1 {
      var prefix := entries[..n - 1];
      forall j | i < j < |prefix| ensures prefix[j].0 != prefix[i].0 {
        assert prefix[j] == entries[j];
      }
      LastWriteWins(prefix, i);
    }
  }

  /** Every pair of the map is one of the entries it was built from. */
  lemma {:induction false} FromEntriesFrom<V>(entries: seq<(string, V)>)
    ensures forall id :: id in FromEntries(entries) ==>
      exists i :: 0 <= i < |entries| && entries[i] == (id, FromEntries(entries)[id])
  {
    if |entries| > 0 {
      var prefix := entries[..|entries| - 1];
      FromEntriesFrom(prefix);
      forall id | id in FromEntries(entries)
        ensures exists i :: 0 <= i < |entries| && entries[i] == (id, FromEntries(entries)[id])
      {
        if id == entries[|entries| - 1].0 {
          assert entries[|entries| - 1] == (id, FromEntries(entries)[id]);
        } else {
          var i :| 0 <= i < |prefix| && prefix[i] == (id, FromEntries(prefix)[id]);
          assert entries[i] == prefix[i];
        }
      }
    }
  }
}
