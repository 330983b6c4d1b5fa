/**
  JSON values as the ledger holds them, and the order in which a JavaScript object lists its
  keys: array indices first, by number, then the other keys by UTF-16 code unit once sorted.
*/
module Json {

  /** An object is the list of its fields in enumeration order; a number is the text that denotes it. */
  datatype Json =
    | Null
    | Bool(b: bool)
    | Num(text: string)
    | Str(s: string)
    | Arr(items: seq<Json>)
    | Obj(fields: seq<(string, Json)>)

  type Field = (string, Json)

  // ----- order of keys -----

  /** Ranks characters as their UTF-16 encodings compare: surrogate pairs sort below U+E000. */
  function Rank(c: char): (r: int)
    ensures 0 <= r
  {
    if c as int < 0xE000 then c as int
    else if c as int < 0x10000 then c as int + 0x110000
    else c as int
  }

  /** `Array.prototype.sort` on strings. */
  predicate LexLess(a: string, b: string) {
    if b == "" then false
    else if a == "" then true
    else Rank(a[0]) < Rank(b[0]) || (a[0] == b[0] && LexLess(a[1..], b[1..]))
  }

  predicate IsDigit(c: char) {
    '0' <= c <= '9'
  }

  predicate Digits(s: string) {
    forall i | 0 <= i < |s| :: IsDigit(s[i])
  }

  function Value(s: string): (n: nat)
    requires Digits(s)
  {
    if s == "" then 0 else 10 * Value(s[..|s| - 1]) + (s[|s| - 1] as int - '0' as int)
  }

  /** Decimal digits without a leading zero. */
  predicate Decimal(k: string) {
    k != "" && Digits(k) && (k[0] == '0' ==> |k| == 1)
  }

  /** Keys that JavaScript enumerates as array indices: 0 to 2^32 - 2. */
  predicate IsIndex(k: string) {
    Decimal(k) && Value(k) <= 4294967294
  }

  predicate KeyLess(a: string, b: string) {
    if IsIndex(a) then (if IsIndex(b) then Value(a) < Value(b) else true)
    else !IsIndex(b) && LexLess(a, b)
  }

  lemma RankInjective(a: char, b: char)
    requires Rank(a) == Rank(b)
    ensures a == b
  {
  }

  lemma {:induction false} LexIrreflexive(a: string)
    ensures !LexLess(a, a)
  {
    if a != "" { LexIrreflexive(a[1..]); }
  }

  lemma {:induction false} LexTransitive(a: string, b: string, c: string)
    requires LexLess(a, b) && LexLess(b, c)
    ensures LexLess(a, c)
  {
    if a != "" && a[0] == b[0] == c[0] { LexTransitive(a[1..], b[1..], c[1..]); }
  }

  lemma {:induction false} LexTotal(a: string, b: string)
    ensures LexLess(a, b) || a == b || LexLess(b, a)
  {
    if a != "" && b != "" {
      if Rank(a[0]) == Rank(b[0]) {
        RankInjective(a[0], b[0]);
        LexTotal(a[1..], b[1..]);
        assert a == [a[0]] + a[1..] && b == [b[0]] + b[1..];
      }
    }
  }

  lemma {:induction false} DecimalInjective(a: string, b: string)
    requires Decimal(a) && Decimal(b) && Value(a) == Value(b)
    ensures a == b
    decreases |a|
  {
    var a', b' := a[..|a| - 1], b[..|b| - 1];
    assert Value(a) == 10 * Value(a') + (a[|a| - 1] as int - '0' as int);
    assert Value(b) == 10 * Value(b') + (b[|b| - 1] as int - '0' as int);
    assert Value(a') == Value(b') && a[|a| - 1] == b[|b| - 1];
    if a' != "" { DecimalPositive(a'); }
    if b' != "" { DecimalPositive(b'); }
    if a' != "" { DecimalInjective(a', b'); }
    assert a == a' + [a[|a| - 1]] && b == b' + [b[|b| - 1]];
  }

  lemma {:induction false} DecimalPositive(a: string)
    requires Digits(a) && a != "" && a[0] != '0'
    ensures Value(a) > 0
    decreases |a|
  {
    assert Value(a) == 10 * Value(a[..|a| - 1]) + (a[|a| - 1] as int - '0' as int);
    if |a| > 1 { DecimalPositive(a[..|a| - 1]); }
  }

  /** The key order is a strict total order. */
  lemma KeyOrder(a: string, b: string, c: string)
    ensures !KeyLess(a, a)
    ensures KeyLess(a, b) && KeyLess(b, c) ==> KeyLess(a, c)
    ensures KeyLess(a, b) || a == b || KeyLess(b, a)
  {
    LexIrreflexive(a);
    if LexLess(a, b) && LexLess(b, c) { LexTransitive(a, b, c); }
    LexTotal(a, b);
    if IsIndex(a) && IsIndex(b) && Value(a) == Value(b) { DecimalInjective(a, b); }
  }

  // ----- well-formed values -----

  ghost predicate DistinctKeys(fields: seq<Field>) {
    forall i, j {:trigger fields[i], fields[j]} | 0 <= i < j < |fields| :: fields[i].0 != fields[j].0
  }

  predicate IsNumberChar(c: char) {
    IsDigit(c) || c in "+-.eE"
  }

  /** Assigning to the one other name, `__proto__`, makes no field. */
  predicate FieldName(key: string) {
    key != "__proto__"
  }

  /** A number token of section 6 of RFC 8259, up to the order of its parts; no number prints as `-0`. */
  predicate NumberText(t: string) {
    t != "" && t != "-0" && (IsDigit(t[0]) || t[0] == '-') && forall c | c in t :: IsNumberChar(c)
  }

  ghost predicate Wf(v: Json) {
    match v
    case Num(t) => NumberText(t)
    case Arr(items) => forall i {:trigger items[i]} | 0 <= i < |items| :: Wf(items[i])
    case Obj(fields) =>
      && DistinctKeys(fields)
      && forall i {:trigger fields[i]} | 0 <= i < |fields| :: FieldName(fields[i].0) && Wf(fields[i].1)
    case _ => true
  }

  function Keys(fields: seq<Field>): set<string> {
    set f | f in fields :: f.0
  }

  /** Equal up to the order of object keys. */
  ghost predicate Equivalent(v: Json, w: Json)
    decreases v
  {
    if v.Arr? && w.Arr? then
      && |v.items| == |w.items|
      && forall i {:trigger v.items[i]} | 0 <= i < |v.items| :: Equivalent(v.items[i], w.items[i])
    else if v.Obj? && w.Obj? then
      && Keys(v.fields) == Keys(w.fields)
      && forall i, j {:trigger v.fields[i], w.fields[j]} | 0 <= i < |v.fields| && 0 <= j < |w.fields| ::
           v.fields[i].0 == w.fields[j].0 ==> Equivalent(v.fields[i].1, w.fields[j].1)
    else v == w
  }
}
