/**
  `canonicalJson` and `hashJson` of packages/shared/src/hashing.ts.  The digest is ideal: a
  hash is the text it digests, so equal hashes mean equal texts.
*/
module Hashing {
  import opened Base
  import opened Json
  import opened JsonSort
  import opened JsonText

  datatype Hash = Digest(text: string)

  function CanonicalJson(v: Json): string {
    Print(Sorted(v))
  }

  function HashJson(v: Json): Hash {
    Digest(CanonicalJson(v))
  }

  /** What `writeJson` puts into a file and `readJson` takes out of it. */
  function FileText(v: Json): string {
    CanonicalJson(v) + "\n"
  }

  function ReadBack(v: Json): Option<Json> {
    Parse(FileText(v))
  }

  /** Two values have the same canonical text exactly when they are equal up to key order. */
  lemma CanonicalTextIffEquivalent(v: Json, w: Json)
    requires Wf(v) && Wf(w)
    ensures CanonicalJson(v) == CanonicalJson(w) <==> Equivalent(v, w)
  {
    SortedIffEquivalent(v, w);
    SortedIsCanonical(v);
    SortedIsCanonical(w);
    if CanonicalJson(v) == CanonicalJson(w) {
      PrintInjective(Sorted(v), Sorted(w));
    }
  }

  /** The ledger gives back the sorted value, which is the written one up to key order. */
  lemma LedgerRoundTrip(v: Json)
    requires Wf(v)
    ensures FileText(v) == Print(Sorted(v)) + "\n"
    ensures ReadBack(v) == Some(Sorted(v)) && Wf(Sorted(v)) && Equivalent(v, Sorted(v))
  {
    SortedIsCanonical(v);
    LineReads(Sorted(v));
    SortedIdempotent(v);
    SortedIffEquivalent(v, Sorted(v));
  }

  /** So a hash taken before a value was written equals the one taken after it was read. */
  lemma HashSurvivesLedger(v: Json)
    requires Wf(v)
    ensures ReadBack(v).Some? && HashJson(ReadBack(v).value) == HashJson(v)
  {
    LedgerRoundTrip(v);
    SortedIdempotent(v);
  }

  /** A field of an object, wherever it stands. */
  function FieldOf(v: Json, key: string): Option<Json> {
    if v.Obj? && Place(v.fields, key) < |v.fields| then Some(v.fields[Place(v.fields, key)].1) else None
  }

  /** Sorting an object moves its fields but keeps each scalar under its key. */
  lemma SortedField(v: Json, key: string)
    requires Wf(v)
    ensures FieldOf(Sorted(v), key).Some? <==> FieldOf(v, key).Some?
    ensures FieldOf(v, key).Some? ==> FieldOf(Sorted(v), key).value == Sorted(FieldOf(v, key).value)
  {
    if v.Obj? {
      SortedFieldsSpec(v.fields);
      var s := SortedFields(v.fields);
      AscendingDistinct(s);
      var i := Place(v.fields, key);
      var k := Place(s, key);
      if i < |v.fields| {
        var e := (v.fields[i].0, Sorted(v.fields[i].1));
        assert e in Elements(s);
        var j :| 0 <= j < |s| && s[j] == e;
        assert s[j] in s;
        SameKey(s, j, k);
      } else {
        forall g | g in s ensures g.0 != key {
          assert g in Elements(s);
          var j :| 0 <= j < |v.fields| && g == (v.fields[j].0, Sorted(v.fields[j].1));
          assert v.fields[j] in v.fields;
        }
      }
    }
  }
}
