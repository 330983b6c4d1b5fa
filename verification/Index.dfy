/**
  The index files of the TaskFlow mirror and of its controller: one entry per key, sorted by
  time of update.  Both are rewritten by dropping the key's entry, pushing the new one and
  sorting (packages/runtime/src/control-plane/taskflow-mirror.ts, taskflow-controller.ts).
*/
module Index {

  datatype Entry<T> = Entry(key: string, updatedAt: nat, info: T)

  /** `filter((item) => item.key !== key)` */
  function Without<T>(entries: seq<Entry<T>>, key: string): seq<Entry<T>> {
    if entries == [] then []
    else (if entries[0].key == key then [] else [entries[0]]) + Without(entries[1..], key)
  }

  /** Stable: an entry goes after those with the same time. */
  function InsertByTime<T>(entries: seq<Entry<T>>, e: Entry<T>): seq<Entry<T>> {
    if entries == [] then [e]
    else if entries[|entries| - 1].updatedAt <= e.updatedAt then entries + [e]
    else InsertByTime(entries[..|entries| - 1], e) + [entries[|entries| - 1]]
  }

  /** `sort` by time, which is stable. */
  function SortByTime<T>(entries: seq<Entry<T>>): seq<Entry<T>> {
    if entries == [] then []
    else InsertByTime(SortByTime(entries[..|entries| - 1]), entries[|entries| - 1])
  }

  function Upsert<T>(entries: seq<Entry<T>>, e: Entry<T>): seq<Entry<T>> {
    SortByTime(Without(entries, e.key) + [e])
  }

  ghost predicate Sorted<T>(entries: seq<Entry<T>>) {
    forall i, j {:trigger entries[i], entries[j]} | 0 <= i < j < |entries| ::
        entries[i].updatedAt <= entries[j].updatedAt
  }

  /** The index lists exactly the entries of `files`, each once, by time. */
  ghost predicate Lists<T(!new)>(entries: seq<Entry<T>>, files: map<string, Entry<T>>) {
    && Sorted(entries)
    && (forall k {:trigger k in files} | k in files :: files[k].key == k && multiset(entries)[files[k]] == 1)
    && (forall e {:trigger e in entries} | e in entries :: e.key in files && files[e.key] == e)
  }

  lemma {:induction false} InsertMultiset<T>(entries: seq<Entry<T>>, e: Entry<T>)
    ensures multiset(InsertByTime(entries, e)) == multiset(entries) + multiset{e}
    decreases |entries|
  {
    if entries != [] && entries[|entries| - 1].updatedAt > e.updatedAt {
      InsertMultiset(entries[..|entries| - 1], e);
      assert entries == entries[..|entries| - 1] + [entries[|entries| - 1]];
    }
  }

  /** Nothing in the list is later than `bound`. */
  ghost predicate UpTo<T>(entries: seq<Entry<T>>, bound: nat) {
    forall i {:trigger entries[i]} | 0 <= i < |entries| :: entries[i].updatedAt <= bound
  }

  lemma {:induction false} InsertUpTo<T>(entries: seq<Entry<T>>, e: Entry<T>, bound: nat)
    requires UpTo(entries, bound) && e.updatedAt <= bound
    ensures UpTo(InsertByTime(entries, e), bound)
    decreases |entries|
  {
    if entries != [] && entries[|entries| - 1].updatedAt > e.updatedAt {
      InsertUpTo(entries[..|entries| - 1], e, bound);
    }
  }

  lemma {:induction false} InsertSpec<T>(entries: seq<Entry<T>>, e: Entry<T>)
    requires Sorted(entries)
    ensures Sorted(InsertByTime(entries, e))
    ensures multiset(InsertByTime(entries, e)) == multiset(entries) + multiset{e}
    decreases |entries|
  {
    InsertMultiset(entries, e);
    if entries != [] && entries[|entries| - 1].updatedAt > e.updatedAt {
      var rest := entries[..|entries| - 1];
      InsertSpec(rest, e);
      InsertUpTo(rest, e, entries[|entries| - 1].updatedAt);
    }
  }

  lemma {:induction false} SortSpec<T>(entries: seq<Entry<T>>)
    ensures Sorted(SortByTime(entries)) && multiset(SortByTime(entries)) == multiset(entries)
    decreases |entries|
  {
    if entries != [] {
      SortSpec(entries[..|entries| - 1]);
      InsertSpec(SortByTime(entries[..|entries| - 1]), entries[|entries| - 1]);
      assert entries == entries[..|entries| - 1] + [entries[|entries| - 1]];
    }
  }

  lemma {:induction false} WithoutSpec<T>(entries: seq<Entry<T>>, key: string, e: Entry<T>)
    ensures multiset(Without(entries, key))[e] == if e.key == key then 0 else multiset(entries)[e]
  {
    if entries != [] {
      WithoutSpec(entries[1..], key, e);
      assert entries == [entries[0]] + entries[1..];
    }
  }

  /** After an upsert the key's only entry is the new one; the other entries stay as they were. */
  lemma UpsertCounts<T(!new)>(entries: seq<Entry<T>>, e: Entry<T>)
    ensures Sorted(Upsert(entries, e))
    ensures forall x: Entry<T> {:trigger multiset(Upsert(entries, e))[x]} ::
              multiset(Upsert(entries, e))[x]
              == if x.key == e.key then (if x == e then 1 else 0) else multiset(entries)[x]
  {
    SortSpec(Without(entries, e.key) + [e]);
    forall x: Entry<T>
      ensures multiset(Upsert(entries, e))[x]
              == if x.key == e.key then (if x == e then 1 else 0) else multiset(entries)[x] {
      WithoutSpec(entries, e.key, x);
    }
  }

  /** Rewriting the index for one file keeps it in step with all files. */
  lemma UpsertLists<T(!new)>(entries: seq<Entry<T>>, files: map<string, Entry<T>>, e: Entry<T>)
    requires Lists(entries, files)
    ensures Lists(Upsert(entries, e), files[e.key := e])
  {
    var r, files' := Upsert(entries, e), files[e.key := e];
    UpsertCounts(entries, e);
    forall k | k in files' ensures files'[k].key == k && multiset(r)[files'[k]] == 1 {
      var x := files'[k];
      assert multiset(r)[x] == if x.key == e.key then (if x == e then 1 else 0) else multiset(entries)[x];
    }
    forall x | x in r ensures x.key in files' && files'[x.key] == x {
      assert x in multiset(r);
      if x.key != e.key { assert x in entries; }
    }
  }

  /** The newest entry is last; with a clock that never goes back, that is the one just written. */
  lemma NewestLast<T(!new)>(entries: seq<Entry<T>>, e: Entry<T>)
    requires Sorted(entries) && forall x | x in entries :: x.updatedAt <= e.updatedAt
    ensures Upsert(entries, e) == Without(entries, e.key) + [e]
  {
    WithoutSorted(entries, e.key);
    SortOfSorted(Without(entries, e.key) + [e]);
  }

  lemma {:induction false} WithoutMembers<T>(entries: seq<Entry<T>>, key: string)
    ensures forall x | x in Without(entries, key) :: x in entries
  {
    if entries != [] {
      WithoutMembers(entries[1..], key);
      assert entries == [entries[0]] + entries[1..];
    }
  }

  lemma {:induction false} WithoutSorted<T>(entries: seq<Entry<T>>, key: string)
    requires Sorted(entries)
    ensures Sorted(Without(entries, key)) && forall x | x in Without(entries, key) :: x in entries
  {
    WithoutMembers(entries, key);
    if entries != [] {
      WithoutSorted(entries[1..], key);
      var rest := Without(entries[1..], key);
      forall i | 0 <= i < |rest| ensures entries[0].updatedAt <= rest[i].updatedAt {
        assert rest[i] in entries[1..];
        var k :| 0 <= k < |entries[1..]| && entries[1..][k] == rest[i];
        assert entries[k + 1] == rest[i];
      }
    }
  }

  lemma {:induction false} SortOfSorted<T>(entries: seq<Entry<T>>)
    requires Sorted(entries)
    ensures SortByTime(entries) == entries
    decreases |entries|
  {
    if entries != [] {
      SortOfSorted(entries[..|entries| - 1]);
      assert entries == entries[..|entries| - 1] + [entries[|entries| - 1]];
    }
  }

  /** The last entry belongs to a file no older than any other; only an index of no files is empty. */
  lemma LastIsLatest<T(!new)>(entries: seq<Entry<T>>, files: map<string, Entry<T>>)
    requires Lists(entries, files)
    ensures entries == [] <==> files == map[]
    ensures entries != [] ==>
              var last := entries[|entries| - 1];
              && last.key in files && files[last.key] == last
              && forall k {:trigger files[k]} | k in files :: files[k].updatedAt <= last.updatedAt
  {
    if entries != [] {
      var last := entries[|entries| - 1];
      assert last in entries;
      forall k | k in files ensures files[k].updatedAt <= last.updatedAt {
        assert files[k] in multiset(entries);
        var i :| 0 <= i < |entries| && entries[i] == files[k];
      }
    } else {
      assert files.Keys == {};
    }
  }
}
