/** Python dictionaries filled by successive assignments `d[k] = v`. */
module Tables {
  /** Dictionary assignment of each entry in turn; a later entry overwrites an earlier one. */
  function Assign<K, V>(table: map<K, V>, entries: seq<(K, V)>): map<K, V>
    decreases |entries|
  {
    if entries == [] then table else Assign(table[entries[0].0 := entries[0].1], entries[1..])
  }

  lemma {:induction false} AssignAppend<K, V>(table: map<K, V>, a: seq<(K, V)>, b: seq<(K, V)>)
    ensures Assign(table, a + b) == Assign(Assign(table, a), b)
    decreases |a|
  {
    if a != [] {
      var t := table[a[0].0 := a[0].1];
      assert (a + b)[0] == a[0] && (a + b)[1..] == a[1..] + b;
      assert Assign(table, a + b) == Assign(t, a[1..] + b);
      assert Assign(table, a) == Assign(t, a[1..]);
      AssignAppend(t, a[1..], b);
    } else {
      assert a + b == b;
    }
  }

  /** The keys of the assigned table are the old keys and the entries' keys. */
  lemma {:induction false} AssignDomain<K, V>(table: map<K, V>, entries: seq<(K, V)>, k: K)
    ensures k in Assign(table, entries) <==> k in table || exists i :: 0 <= i < |entries| && entries[i].0 == k
    decreases |entries|
  {
    if entries != [] {
      AssignDomain(table[entries[0].0 := entries[0].1], entries[1..], k);
      if exists i :: 0 <= i < |entries| && entries[i].0 == k {
        var i :| 0 <= i < |entries| && entries[i].0 == k;
        if i > 0 {
          assert entries[1..][i - 1] == entries[i];
        }
      }
      if exists i :: 0 <= i < |entries| - 1 && entries[1..][i].0 == k {
        var i :| 0 <= i < |entries| - 1 && entries[1..][i].0 == k;
        assert entries[i + 1].0 == k;
      }
    }
  }

  /** If the table and every entry agree on the value of key k, so does the result. */
  lemma {:induction false} AssignValue<K, V>(table: map<K, V>, entries: seq<(K, V)>, k: K, v: V)
    requires k in table ==> table[k] == v
    requires forall i | 0 <= i < |entries| && entries[i].0 == k :: entries[i].1 == v
    ensures k in Assign(table, entries) ==> Assign(table, entries)[k] == v
    decreases |entries|
  {
    if entries != [] {
      forall i | 0 <= i < |entries| - 1 && entries[1..][i].0 == k
        ensures entries[1..][i].1 == v
      {
        assert entries[1..][i] == entries[i + 1];
      }
      AssignValue(table[entries[0].0 := entries[0].1], entries[1..], k, v);
    }
  }

  /** Entries that give one key one value: the order of assignment does not matter. */
  ghost predicate Consistent<K, V>(entries: seq<(K, V)>)
  {
    forall e1, e2 | e1 in entries && e2 in entries && e1.0 == e2.0 :: e1.1 == e2.1
  }

  /** With consistent entries, the table maps each written key to the value of
      any entry that wrote it. */
  lemma TableLookup<K, V>(entries: seq<(K, V)>, i: nat)
    requires Consistent(entries) && i < |entries|
    ensures entries[i].0 in Assign(map[], entries) && Assign(map[], entries)[entries[i].0] == entries[i].1
  {
    AssignDomain(map[], entries, entries[i].0);
    AssignValue(map[], entries, entries[i].0, entries[i].1);
  }

  /** With consistent entries, every value in the table is the value of an entry. */
  lemma TableEntry<K, V>(entries: seq<(K, V)>, k: K) returns (i: nat)
    requires Consistent(entries) && k in Assign(map[], entries)
    ensures i < |entries| && entries[i].0 == k && Assign(map[], entries)[k] == entries[i].1
  {
    AssignDomain(map[], entries, k);
    i :| 0 <= i < |entries| && entries[i].0 == k;
    TableLookup(entries, i);
  }

  /** Two consistent lists of entries with the same members build the same
      table, whatever their order. */
  lemma OrderIrrelevant<K, V>(a: seq<(K, V)>, b: seq<(K, V)>)
    requires Consistent(a) && Consistent(b)
    requires forall e :: e in a <==> e in b
    ensures Assign(map[], a) == Assign(map[], b)
  {
    var ta, tb := Assign(map[], a), Assign(map[], b);
    forall k | k in ta ensures k in tb && tb[k] == ta[k] {
      var i := TableEntry(a, k);
      assert a[i] in a;
      var j :| 0 <= j < |b| && b[j] == a[i];
      TableLookup(b, j);
    }
    forall k | k in tb ensures k in ta {
      var j := TableEntry(b, k);
      assert b[j] in b;
      var i :| 0 <= i < |a| && a[i] == b[j];
      TableLookup(a, i);
    }
  }
}
