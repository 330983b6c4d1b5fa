/** `sortForJson` of packages/shared/src/hashing.ts: objects are rebuilt with their keys sorted. */
module JsonSort {
  import opened Json

  // ----- the sorted value -----

  function Insert(fields: seq<Field>, f: Field): seq<Field> {
    if fields == [] || KeyLess(f.0, fields[0].0) then [f] + fields
    else [fields[0]] + Insert(fields[1..], f)
  }

  function SortFields(fields: seq<Field>): seq<Field> {
    if fields == [] then [] else Insert(SortFields(fields[1..]), fields[0])
  }

  /** The fields of an object with their values sorted. */
  function Mapped(v: Json): seq<Field>
    requires v.Obj?
    decreases v, 0
  {
    seq(|v.fields|, i requires 0 <= i < |v.fields| => (v.fields[i].0, Sorted(v.fields[i].1)))
  }

  /** The value with every object's fields in key order. */
  function Sorted(v: Json): Json
    decreases v, 1
  {
    match v
    case Arr(items) => Arr(seq(|items|, i requires 0 <= i < |items| => Sorted(items[i])))
    case Obj(_) => Obj(SortFields(Mapped(v)))
    case _ => v
  }

  function SortedFields(fields: seq<Field>): seq<Field> {
    SortFields(Mapped(Obj(fields)))
  }

  ghost predicate Ascending(fields: seq<Field>) {
    forall i, j {:trigger fields[i], fields[j]} | 0 <= i < j < |fields| :: KeyLess(fields[i].0, fields[j].0)
  }

  function Elements(fields: seq<Field>): set<Field> {
    set f | f in fields
  }

  /** What sorting an object must list. */
  function Entries(fields: seq<Field>): set<Field> {
    set i | 0 <= i < |fields| :: (fields[i].0, Sorted(fields[i].1))
  }

  lemma {:induction false} InsertSpec(fields: seq<Field>, f: Field)
    requires Ascending(fields) && forall g | g in fields :: g.0 != f.0
    ensures Ascending(Insert(fields, f)) && Elements(Insert(fields, f)) == Elements(fields) + {f}
  {
    if fields == [] {
    } else if KeyLess(f.0, fields[0].0) {
      forall j | 0 <= j < |fields| ensures KeyLess(f.0, fields[j].0) {
        KeyOrder(f.0, fields[0].0, fields[j].0);
      }
      assert Elements([f] + fields) == Elements(fields) + {f};
    } else {
      var rest := Insert(fields[1..], f);
      InsertSpec(fields[1..], f);
      assert fields == [fields[0]] + fields[1..];
      KeyOrder(f.0, fields[0].0, f.0);
      forall j | 0 <= j < |rest| ensures KeyLess(fields[0].0, rest[j].0) {
        assert rest[j] in Elements(rest);
        if rest[j] != f {
          assert rest[j] in fields[1..];
          var k :| 0 <= k < |fields[1..]| && fields[1..][k] == rest[j];
          assert fields[k + 1] == rest[j];
        }
      }
      assert Elements(Insert(fields, f)) == {fields[0]} + Elements(rest);
    }
  }

  lemma {:induction false} SortFieldsSpec(fields: seq<Field>)
    requires DistinctKeys(fields)
    ensures Ascending(SortFields(fields)) && Elements(SortFields(fields)) == Elements(fields)
    decreases |fields|
  {
    if fields != [] {
      var rest := fields[1..];
      SortFieldsSpec(rest);
      forall g | g in SortFields(rest) ensures g.0 != fields[0].0 {
        assert g in Elements(rest);
        var i :| 0 <= i < |rest| && g == rest[i];
        assert rest[i] == fields[i + 1];
      }
      InsertSpec(SortFields(rest), fields[0]);
      assert fields == [fields[0]] + rest;
    }
  }

  /** Sorting an object lists exactly its entries, each sorted, in strictly ascending key order. */
  lemma SortedFieldsSpec(fields: seq<Field>)
    requires DistinctKeys(fields)
    ensures Ascending(SortedFields(fields)) && Elements(SortedFields(fields)) == Entries(fields)
  {
    var mapped := Mapped(Obj(fields));
    forall i, j | 0 <= i < j < |mapped| ensures mapped[i].0 != mapped[j].0 {
      assert fields[i].0 != fields[j].0;
    }
    SortFieldsSpec(mapped);
    forall e | e in Entries(fields) ensures e in mapped {
      var i :| 0 <= i < |fields| && e == (fields[i].0, Sorted(fields[i].1));
      assert mapped[i] == e;
    }
    forall e | e in mapped ensures e in Entries(fields) {
      var i :| 0 <= i < |mapped| && mapped[i] == e;
    }
  }

  /** Ascending lists with the same elements are the same list. */
  lemma {:induction false} AscendingUnique(s: seq<Field>, t: seq<Field>)
    requires Ascending(s) && Ascending(t) && Elements(s) == Elements(t)
    ensures s == t
    decreases |s|
  {
    NoElements(s);
    NoElements(t);
    if s != [] {
      assert s[0] in Elements(t);
      assert t[0] in Elements(s);
      HeadsMatch(s, t);
      TailElements(s);
      TailElements(t);
      AscendingUnique(s[1..], t[1..]);
      assert s == [s[0]] + s[1..] && t == [t[0]] + t[1..];
    }
  }

  lemma NoElements(s: seq<Field>)
    ensures s == [] <==> Elements(s) == {}
  {
    if s != [] { assert s[0] in Elements(s); }
  }

  lemma HeadsMatch(s: seq<Field>, t: seq<Field>)
    requires Ascending(s) && Ascending(t) && s != [] && t != [] && s[0] in t && t[0] in s
    ensures s[0] == t[0]
  {
    var i :| 0 <= i < |t| && t[i] == s[0];
    var j :| 0 <= j < |s| && s[j] == t[0];
    if i > 0 && j > 0 {
      KeyOrder(t[0].0, s[0].0, t[0].0);
    }
  }

  lemma TailElements(s: seq<Field>)
    requires Ascending(s) && s != []
    ensures Ascending(s[1..]) && Elements(s[1..]) == Elements(s) - {s[0]}
  {
    forall f | f in s[1..] ensures f != s[0] {
      var i :| 0 <= i < |s[1..]| && s[1..][i] == f;
      assert s[i + 1] == f;
      KeyOrder(s[0].0, s[0].0, s[0].0);
    }
    assert s == [s[0]] + s[1..];
  }

  lemma AscendingDistinct(s: seq<Field>)
    requires Ascending(s)
    ensures DistinctKeys(s)
  {
    forall i, j | 0 <= i < j < |s| ensures s[i].0 != s[j].0 {
      KeyOrder(s[i].0, s[i].0, s[i].0);
    }
  }

  // ----- sorted values are well formed and stay sorted -----

  /** Every object lists its keys in ascending order. */
  ghost predicate Canonical(v: Json) {
    match v
    case Arr(items) => forall i {:trigger items[i]} | 0 <= i < |items| :: Canonical(items[i])
    case Obj(fields) => Ascending(fields) && forall i {:trigger fields[i]} | 0 <= i < |fields| :: Canonical(fields[i].1)
    case _ => true
  }

  lemma {:induction false} SortedIsCanonical(v: Json)
    requires Wf(v)
    ensures Wf(Sorted(v)) && Canonical(Sorted(v))
  {
    match v
    case Arr(items) =>
      forall i | 0 <= i < |items| ensures Wf(Sorted(items[i])) && Canonical(Sorted(items[i])) {
        SortedIsCanonical(items[i]);
      }
    case Obj(fields) =>
      SortedFieldsSpec(fields);
      var s := SortedFields(fields);
      AscendingDistinct(s);
      forall k | 0 <= k < |s| ensures FieldName(s[k].0) && Wf(s[k].1) && Canonical(s[k].1) {
        assert s[k] in Elements(s);
        var i :| 0 <= i < |fields| && s[k] == (fields[i].0, Sorted(fields[i].1));
        SortedIsCanonical(fields[i].1);
      }
    case _ =>
  }

  /** A value whose objects are in order is left as it is. */
  lemma {:induction false} CanonicalIsSorted(v: Json)
    requires Canonical(v)
    ensures Sorted(v) == v
  {
    match v
    case Arr(items) =>
      forall i | 0 <= i < |items| ensures Sorted(items[i]) == items[i] {
        CanonicalIsSorted(items[i]);
      }
    case Obj(fields) =>
      AscendingDistinct(fields);
      SortedFieldsSpec(fields);
      forall i | 0 <= i < |fields| ensures Sorted(fields[i].1) == fields[i].1 {
        CanonicalIsSorted(fields[i].1);
      }
      assert Entries(fields) == Elements(fields) by {
        forall f | f in fields ensures f in Entries(fields) {
          var i :| 0 <= i < |fields| && fields[i] == f;
          assert f == (fields[i].0, Sorted(fields[i].1));
        }
      }
      AscendingUnique(SortedFields(fields), fields);
    case _ =>
  }

  /** `sortForJson` is idempotent. */
  lemma SortedIdempotent(v: Json)
    requires Wf(v)
    ensures Sorted(Sorted(v)) == Sorted(v)
  {
    SortedIsCanonical(v);
    CanonicalIsSorted(Sorted(v));
  }

  // ----- equality up to key order -----

  /** Two values sort to the same value exactly when they are equal up to the order of keys. */
  lemma {:induction false} SortedIffEquivalent(v: Json, w: Json)
    requires Wf(v) && Wf(w)
    ensures Sorted(v) == Sorted(w) <==> Equivalent(v, w)
    decreases v
  {
    if v.Arr? && w.Arr? {
      forall i | 0 <= i < |v.items| && |v.items| == |w.items|
        ensures Sorted(v.items[i]) == Sorted(w.items[i]) <==> Equivalent(v.items[i], w.items[i]) {
        SortedIffEquivalent(v.items[i], w.items[i]);
      }
      ItemsAgree(v.items, w.items);
    } else if v.Obj? && w.Obj? {
      SortedFieldsSpec(v.fields);
      SortedFieldsSpec(w.fields);
      forall i, j | 0 <= i < |v.fields| && 0 <= j < |w.fields|
        ensures Sorted(v.fields[i].1) == Sorted(w.fields[j].1) <==> Equivalent(v.fields[i].1, w.fields[j].1) {
        SortedIffEquivalent(v.fields[i].1, w.fields[j].1);
      }
      if Sorted(v) == Sorted(w) {
        assert Entries(v.fields) == Entries(w.fields);
        EntriesToFields(v.fields, w.fields);
      }
      if Equivalent(v, w) {
        FieldsToEntries(v.fields, w.fields);
        AscendingUnique(SortedFields(v.fields), SortedFields(w.fields));
      }
    }
  }

  lemma ItemsAgree(xs: seq<Json>, ys: seq<Json>)
    ensures Sorted(Arr(xs)) == Sorted(Arr(ys))
            <==> |xs| == |ys| && forall i {:trigger xs[i]} | 0 <= i < |xs| :: Sorted(xs[i]) == Sorted(ys[i])
  {
    var s, t := Sorted(Arr(xs)).items, Sorted(Arr(ys)).items;
    assert |s| == |xs| && |t| == |ys|;
    assert forall i | 0 <= i < |xs| :: s[i] == Sorted(xs[i]);
    assert forall i | 0 <= i < |ys| :: t[i] == Sorted(ys[i]);
  }

  lemma EntriesToFields(fs: seq<Field>, gs: seq<Field>)
    requires DistinctKeys(fs) && DistinctKeys(gs) && Entries(fs) == Entries(gs)
    ensures Keys(fs) == Keys(gs)
    ensures forall i, j | 0 <= i < |fs| && 0 <= j < |gs| && fs[i].0 == gs[j].0 :: Sorted(fs[i].1) == Sorted(gs[j].1)
  {
    SubKeys(fs, gs);
    SubKeys(gs, fs);
    forall i, j | 0 <= i < |fs| && 0 <= j < |gs| && fs[i].0 == gs[j].0 ensures Sorted(fs[i].1) == Sorted(gs[j].1) {
      assert (fs[i].0, Sorted(fs[i].1)) in Entries(gs);
      var k :| 0 <= k < |gs| && (fs[i].0, Sorted(fs[i].1)) == (gs[k].0, Sorted(gs[k].1));
      SameKey(gs, j, k);
    }
  }

  lemma SameKey(gs: seq<Field>, j: int, k: int)
    requires DistinctKeys(gs) && 0 <= j < |gs| && 0 <= k < |gs| && gs[j].0 == gs[k].0
    ensures j == k
  {
  }

  lemma SubKeys(fs: seq<Field>, gs: seq<Field>)
    requires Entries(fs) <= Entries(gs)
    ensures Keys(fs) <= Keys(gs)
  {
    forall key | key in Keys(fs) ensures key in Keys(gs) {
      var f :| f in fs && f.0 == key;
      var i :| 0 <= i < |fs| && fs[i] == f;
      assert (fs[i].0, Sorted(fs[i].1)) in Entries(gs);
      var k :| 0 <= k < |gs| && (fs[i].0, Sorted(fs[i].1)) == (gs[k].0, Sorted(gs[k].1));
      assert gs[k] in gs;
    }
  }

  lemma FieldsToEntries(fs: seq<Field>, gs: seq<Field>)
    requires Keys(fs) == Keys(gs)
    requires forall i, j | 0 <= i < |fs| && 0 <= j < |gs| && fs[i].0 == gs[j].0 :: Sorted(fs[i].1) == Sorted(gs[j].1)
    ensures Entries(fs) == Entries(gs)
  {
    forall e | e in Entries(fs) ensures e in Entries(gs) {
      var i :| 0 <= i < |fs| && e == (fs[i].0, Sorted(fs[i].1));
      assert fs[i] in fs && fs[i].0 in Keys(gs);
      var g :| g in gs && g.0 == fs[i].0;
      var j :| 0 <= j < |gs| && gs[j] == g;
    }
    forall e | e in Entries(gs) ensures e in Entries(fs) {
      var j :| 0 <= j < |gs| && e == (gs[j].0, Sorted(gs[j].1));
      assert gs[j] in gs && gs[j].0 in Keys(fs);
      var f :| f in fs && f.0 == gs[j].0;
      var i :| 0 <= i < |fs| && fs[i] == f;
    }
  }

  // ----- the code: a JavaScript object filled key by key -----

  /** Where a new array-index key goes: before the first larger index and before all other keys. */
  function PutIndex(fields: seq<Field>, f: Field): seq<Field>
    requires IsIndex(f.0)
  {
    if fields == [] || !IsIndex(fields[0].0) || Value(f.0) < Value(fields[0].0) then [f] + fields
    else [fields[0]] + PutIndex(fields[1..], f)
  }

  function Place(fields: seq<Field>, key: string): (i: nat)
    ensures i <= |fields|
    ensures i < |fields| ==> fields[i] in fields && fields[i].0 == key
    ensures i == |fields| ==> forall f | f in fields :: f.0 != key
  {
    if fields == [] then 0 else if fields[0].0 == key then 0 else 1 + Place(fields[1..], key)
  }

  /** `object[key] = value`: an existing key keeps its place, an index is ordered, other keys go last. */
  function Put(fields: seq<Field>, f: Field): seq<Field> {
    var i := Place(fields, f.0);
    if i < |fields| then fields[i := f]
    else if IsIndex(f.0) then PutIndex(fields, f)
    else fields + [f]
  }

  lemma {:induction false} PutIndexInserts(fields: seq<Field>, f: Field)
    requires IsIndex(f.0)
    ensures PutIndex(fields, f) == Insert(fields, f)
  {
    if fields != [] { PutIndexInserts(fields[1..], f); }
  }

  /** Adding a new key keeps the object ordered, if other keys than indices come in order. */
  lemma PutSpec(fields: seq<Field>, f: Field)
    requires Ascending(fields) && forall g | g in fields :: g.0 != f.0
    requires IsIndex(f.0) || forall g | g in fields :: KeyLess(g.0, f.0)
    ensures Ascending(Put(fields, f)) && Elements(Put(fields, f)) == Elements(fields) + {f}
    ensures (forall g | g in fields :: KeyLess(g.0, f.0)) ==> Put(fields, f) == fields + [f]
  {
    var i := Place(fields, f.0);
    assert i == |fields|;
    if IsIndex(f.0) {
      PutIndexInserts(fields, f);
      InsertSpec(fields, f);
      if forall g | g in fields :: KeyLess(g.0, f.0) { InsertLast(fields, f); }
    } else {
      assert Ascending(fields + [f]) by {
        forall j, k | 0 <= j < k < |fields + [f]| ensures KeyLess((fields + [f])[j].0, (fields + [f])[k].0) {
          assert (fields + [f])[j] == fields[j] && fields[j] in fields;
        }
      }
    }
  }

  lemma {:induction false} InsertLast(fields: seq<Field>, f: Field)
    requires forall g | g in fields :: KeyLess(g.0, f.0)
    ensures Insert(fields, f) == fields + [f]
  {
    if fields != [] {
      assert fields[0] in fields;
      KeyOrder(f.0, fields[0].0, f.0);
      InsertLast(fields[1..], f);
      assert fields == [fields[0]] + fields[1..];
    }
  }

  /** `keys.sort()` */
  function InsertKey(keys: seq<string>, key: string): seq<string> {
    if keys == [] || LexLess(key, keys[0]) then [key] + keys else [keys[0]] + InsertKey(keys[1..], key)
  }

  function SortKeys(keys: seq<string>): seq<string> {
    if keys == [] then [] else InsertKey(SortKeys(keys[1..]), keys[0])
  }

  ghost predicate LexAscending(keys: seq<string>) {
    forall i, j {:trigger keys[i], keys[j]} | 0 <= i < j < |keys| :: LexLess(keys[i], keys[j])
  }

  lemma {:induction false} InsertKeySpec(keys: seq<string>, key: string)
    requires LexAscending(keys) && key !in keys
    ensures LexAscending(InsertKey(keys, key))
    ensures forall k :: k in InsertKey(keys, key) <==> k in keys || k == key
  {
    if keys == [] {
    } else if LexLess(key, keys[0]) {
      forall j | 0 <= j < |keys| ensures LexLess(key, keys[j]) {
        if j > 0 { LexTransitive(key, keys[0], keys[j]); }
      }
    } else {
      var rest := InsertKey(keys[1..], key);
      InsertKeySpec(keys[1..], key);
      assert keys == [keys[0]] + keys[1..];
      LexTotal(key, keys[0]);
      forall j | 0 <= j < |rest| ensures LexLess(keys[0], rest[j]) {
        assert rest[j] in rest;
        if rest[j] != key {
          var k :| 0 <= k < |keys[1..]| && keys[1..][k] == rest[j];
          assert keys[k + 1] == rest[j];
        }
      }
    }
  }

  lemma {:induction false} SortKeysSpec(keys: seq<string>)
    requires forall i, j | 0 <= i < j < |keys| :: keys[i] != keys[j]
    ensures LexAscending(SortKeys(keys)) && forall k :: k in SortKeys(keys) <==> k in keys
  {
    if keys != [] {
      SortKeysSpec(keys[1..]);
      forall j | 0 <= j < |keys[1..]| ensures keys[1..][j] != keys[0] {
        assert keys[1..][j] == keys[j + 1];
      }
      InsertKeySpec(SortKeys(keys[1..]), keys[0]);
      assert keys == [keys[0]] + keys[1..];
    }
  }

  /** The entries whose key is among `keys`. */
  function EntriesOf(fields: seq<Field>, keys: seq<string>): set<Field> {
    set e | e in Entries(fields) && e.0 in keys
  }

  /** One more key: what the loop adds to the object. */
  lemma EntriesOfStep(fields: seq<Field>, keys: seq<string>, k: nat, i: nat)
    requires DistinctKeys(fields) && k < |keys| && i < |fields| && fields[i].0 == keys[k]
    ensures EntriesOf(fields, keys[..k + 1]) == EntriesOf(fields, keys[..k]) + {(keys[k], Sorted(fields[i].1))}
  {
  }

  /** Keys still to come are larger than the keys already in the object, unless they are indices. */
  lemma NextKeyFits(sorted: seq<Field>, fields: seq<Field>, keys: seq<string>, k: nat)
    requires LexAscending(keys) && k < |keys| && Elements(sorted) == EntriesOf(fields, keys[..k])
    ensures forall g | g in sorted :: g.0 != keys[k]
    ensures IsIndex(keys[k]) || forall g | g in sorted :: KeyLess(g.0, keys[k])
  {
    forall g | g in sorted ensures g.0 != keys[k] && (IsIndex(keys[k]) || KeyLess(g.0, keys[k])) {
      assert g in Elements(sorted);
      var j :| 0 <= j < k && keys[j] == g.0;
      LexIrreflexive(keys[k]);
    }
  }

  /** `sortForJson`: arrays element by element, objects key by key in sorted order. */
  method SortForJson(v: Json) returns (r: Json)
    requires Wf(v)
    ensures r == Sorted(v)
    decreases v
  {
    match v
    case Arr(items) =>
      var done: seq<Json> := [];
      for i := 0 to |items|
        invariant |done| == i && forall j | 0 <= j < i :: done[j] == Sorted(items[j])
      {
        var item := SortForJson(items[i]);
        done := done + [item];
      }
      r := Arr(done);
      assert done == Sorted(v).items;
    case Obj(fields) =>
      var names := seq(|fields|, i requires 0 <= i < |fields| => fields[i].0);
      var keys := SortKeys(names);
      SortKeysSpec(names);
      var sorted: seq<Field> := [];
      for k := 0 to |keys|
        invariant Ascending(sorted) && Elements(sorted) == EntriesOf(fields, keys[..k])
      {
        assert keys[k] in names;
        var i := Place(fields, keys[k]);
        KeyPresent(fields, names, keys[k]);
        var entry := SortForJson(fields[i].1);
        NextKeyFits(sorted, fields, keys, k);
        PutSpec(sorted, (keys[k], entry));
        EntriesOfStep(fields, keys, k, i);
        sorted := Put(sorted, (keys[k], entry));
      }
      r := Obj(sorted);
      AllKeys(fields, names, keys);
      SortedFieldsSpec(fields);
      AscendingUnique(sorted, SortedFields(fields));
    case _ =>
      r := v;
  }

  lemma KeyPresent(fields: seq<Field>, names: seq<string>, key: string)
    requires |names| == |fields| && forall i | 0 <= i < |fields| :: names[i] == fields[i].0
    requires key in names
    ensures Place(fields, key) < |fields|
  {
    var i :| 0 <= i < |names| && names[i] == key;
    assert fields[i] in fields;
  }

  lemma AllKeys(fields: seq<Field>, names: seq<string>, keys: seq<string>)
    requires |names| == |fields| && forall i | 0 <= i < |fields| :: names[i] == fields[i].0
    requires forall k :: k in keys <==> k in names
    ensures EntriesOf(fields, keys[..|keys|]) == Entries(fields)
  {
    assert keys[..|keys|] == keys;
    forall e | e in Entries(fields) ensures e.0 in keys {
      var i :| 0 <= i < |fields| && e == (fields[i].0, Sorted(fields[i].1));
      assert names[i] in names;
    }
  }
}
