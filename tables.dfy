/**
 * An SQLite table with a text primary key, seen as its rows in rowid order, and
 * Room's insert with `OnConflictStrategy.REPLACE` on it: the row that has
 * the same key, if any, is deleted and the new row is appended.
 */
module Tables {
  import opened Nullable

  /** No two rows share a primary key. */
  ghost predicate UniqueKeys<E>(rows: seq<E>, key: E -> string) {
    forall i, j :: 0 <= i < j < |rows| ==> key(rows[i]) != key(rows[j])
  }

  /** The primary keys present in the table. */
  ghost function Keys<E>(rows: seq<E>, key: E -> string): set<string> {
    set i | 0 <= i < |rows| :: key(rows[i])
  }

  /** The table with the row keyed `k` deleted; the other rows keep their order. */
  function Without<E(!new)>(rows: seq<E>, key: E -> string, k: string): (r: seq<E>)
    ensures forall x :: x in r <==> x in rows && key(x) != k
    ensures Keys(r, key) == Keys(rows, key) - {k}
    ensures UniqueKeys(rows, key) ==> UniqueKeys(r, key)
    ensures k !in Keys(rows, key) ==> r == rows
    ensures UniqueKeys(rows, key) ==> |r| == |rows| - (if k in Keys(rows, key) then 1 else 0)
  {
    if rows == [] then []
    else
      var rest := Without(rows[1..], key, k);
      var r := if key(rows[0]) == k then rest else [rows[0]] + rest;
      WithoutStepMembers(rows, key, k, rest, r);
      WithoutStepKeys(rows, key, k, rest, r);
      WithoutStepUnique(rows, key, k, rest, r);
      WithoutStepSame(rows, key, k, rest, r);
      r
  }

  /** One step of `Without`: the rows kept are those of the rest plus the first unless it is keyed `k`. */
  lemma WithoutStepMembers<E(!new)>(rows: seq<E>, key: E -> string, k: string, rest: seq<E>, r: seq<E>)
    requires rows != [] && r == if key(rows[0]) == k then rest else [rows[0]] + rest
    requires forall x :: x in rest <==> x in rows[1..] && key(x) != k
    ensures forall x :: x in r <==> x in rows && key(x) != k
  {
    assert rows == [rows[0]] + rows[1..];
  }

  /** One step of `Without` on the set of keys. */
  lemma WithoutStepKeys<E>(rows: seq<E>, key: E -> string, k: string, rest: seq<E>, r: seq<E>)
    requires rows != [] && r == if key(rows[0]) == k then rest else [rows[0]] + rest
    requires Keys(rest, key) == Keys(rows[1..], key) - {k}
    ensures Keys(r, key) == Keys(rows, key) - {k}
  {
    KeysCons(rows, key);
    if r != rest {
      assert r[0] == rows[0] && r[1..] == rest;
      KeysCons(r, key);
    }
  }

  /** One step of `Without` on unique keys and the row count. */
  lemma WithoutStepUnique<E>(rows: seq<E>, key: E -> string, k: string, rest: seq<E>, r: seq<E>)
    requires rows != [] && r == if key(rows[0]) == k then rest else [rows[0]] + rest
    requires Keys(rest, key) == Keys(rows[1..], key) - {k}
    requires UniqueKeys(rows[1..], key) ==> UniqueKeys(rest, key)
    requires UniqueKeys(rows[1..], key) ==> |rest| == |rows[1..]| - (if k in Keys(rows[1..], key) then 1 else 0)
    ensures UniqueKeys(rows, key) ==> UniqueKeys(r, key)
    ensures UniqueKeys(rows, key) ==> |r| == |rows| - (if k in Keys(rows, key) then 1 else 0)
  {
    KeysCons(rows, key);
    UniqueKeysCons(rows, key);
    if r != rest {
      assert r[0] == rows[0] && r[1..] == rest;
      UniqueKeysCons(r, key);
    }
  }

  /** One step of `Without` when no row is keyed `k`. */
  lemma WithoutStepSame<E>(rows: seq<E>, key: E -> string, k: string, rest: seq<E>, r: seq<E>)
    requires rows != [] && r == if key(rows[0]) == k then rest else [rows[0]] + rest
    requires k !in Keys(rows[1..], key) ==> rest == rows[1..]
    ensures k !in Keys(rows, key) ==> r == rows
  {
    KeysCons(rows, key);
    assert rows == [rows[0]] + rows[1..];
  }

  /** Insert-or-replace on the primary key. */
  function Upsert<E(!new)>(rows: seq<E>, key: E -> string, e: E): (r: seq<E>)
    ensures forall x :: x in r <==> x == e || (x in rows && key(x) != key(e))
    ensures Keys(r, key) == Keys(rows, key) + {key(e)}
    ensures UniqueKeys(rows, key) ==> UniqueKeys(r, key)
    ensures key(e) !in Keys(rows, key) ==> r == rows + [e]
    ensures UniqueKeys(rows, key) ==> |r| == |rows| + (if key(e) in Keys(rows, key) then 0 else 1)
  {
    var rest := Without(rows, key, key(e));
    var r := rest + [e];
    assert Keys(r, key) == Keys(rest, key) + {key(e)} by {
      forall i | 0 <= i < |r| ensures key(r[i]) in Keys(rest, key) + {key(e)} {
        if i < |rest| { assert r[i] == rest[i]; }
      }
      forall i | 0 <= i < |rest| ensures key(rest[i]) in Keys(r, key) {
        assert r[i] == rest[i];
      }
      assert key(r[|rest|]) in Keys(r, key);
    }
    r
  }

  /** The row keyed `k`, if there is one. */
  function Lookup<E>(rows: seq<E>, key: E -> string, k: string): (r: Option<E>)
    ensures r.Some? <==> k in Keys(rows, key)
    ensures r.Some? ==> r.value in rows && key(r.value) == k
  {
    if rows == [] then None
    else if key(rows[0]) == k then Some(rows[0])
    else
      assert Keys(rows, key) == {key(rows[0])} + Keys(rows[1..], key) by {
        forall i | 0 <= i < |rows| ensures key(rows[i]) in {key(rows[0])} + Keys(rows[1..], key) {
          if i > 0 { assert key(rows[i]) == key(rows[1..][i - 1]); }
        }
      }
      Lookup(rows[1..], key, k)
  }

  /** The keys of a non-empty table are the first row's key and the keys of the rest. */
  lemma KeysCons<E>(rows: seq<E>, key: E -> string)
    requires rows != []
    ensures Keys(rows, key) == {key(rows[0])} + Keys(rows[1..], key)
  {
    forall i | 0 <= i < |rows| ensures key(rows[i]) in {key(rows[0])} + Keys(rows[1..], key) {
      if i > 0 { assert key(rows[i]) == key(rows[1..][i - 1]); }
    }
  }

  /** The keys of a non-empty table are unique exactly when the first row's key is not among the rest's unique keys. */
  lemma UniqueKeysCons<E>(rows: seq<E>, key: E -> string)
    requires rows != []
    ensures UniqueKeys(rows, key) <==> key(rows[0]) !in Keys(rows[1..], key) && UniqueKeys(rows[1..], key)
  {
    var tail := rows[1..];
    if UniqueKeys(rows, key) {
      forall i, j | 0 <= i < j < |tail| ensures key(tail[i]) != key(tail[j]) {
        assert tail[i] == rows[i + 1] && tail[j] == rows[j + 1];
      }
      forall i | 0 <= i < |tail| ensures key(tail[i]) != key(rows[0]) {
        assert tail[i] == rows[i + 1];
      }
    }
    if key(rows[0]) !in Keys(tail, key) && UniqueKeys(tail, key) {
      forall i, j | 0 <= i < j < |rows| ensures key(rows[i]) != key(rows[j]) {
        assert rows[j] == tail[j - 1];
        if i > 0 {
          assert rows[i] == tail[i - 1];
        }
      }
    }
  }

  /** With unique primary keys, `COUNT(*)` is the number of distinct keys. */
  lemma {:induction false} UniqueKeysCount<E>(rows: seq<E>, key: E -> string)
    ensures UniqueKeys(rows, key) ==> |Keys(rows, key)| == |rows|
  {
    if rows != [] && UniqueKeys(rows, key) {
      assert UniqueKeys(rows[1..], key) by {
        forall i, j | 0 <= i < j < |rows[1..]| ensures key(rows[1..][i]) != key(rows[1..][j]) {
          assert rows[1..][i] == rows[i + 1] && rows[1..][j] == rows[j + 1];
        }
      }
      UniqueKeysCount(rows[1..], key);
      KeysCons(rows, key);
      assert key(rows[0]) !in Keys(rows[1..], key);
    }
  }

  /** After an insert-or-replace, looking the key up finds exactly the inserted row. */
  lemma UpsertThenLookup<E(!new)>(rows: seq<E>, key: E -> string, e: E)
    requires UniqueKeys(rows, key)
    ensures Lookup(Upsert(rows, key, e), key, key(e)) == Some(e)
  {
    var r := Upsert(rows, key, e);
    assert e == r[|r| - 1];
  }
}
