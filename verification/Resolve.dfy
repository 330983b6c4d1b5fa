/** packages/runtime/src/compiler/resolve-variables.ts: `${inputs.k}` references in step arguments. */
module Resolve {
  import opened Base
  import opened Json
  import opened Normalize

  const OPEN := "${inputs."

  /** Length of the run of key characters at the start of a text. */
  function KeyLength(s: string): (n: nat)
    ensures n <= |s|
    ensures forall i | 0 <= i < n :: IsKeyChar(s[i])
    ensures n < |s| ==> !IsKeyChar(s[n])
  {
    if s == "" || !IsKeyChar(s[0]) then 0 else 1 + KeyLength(s[1..])
  }

  /** The key of the reference at the start of a text, if there is one. */
  function RefAt(s: string): (key: Option<string>)
    ensures key.Some? ==> key.value != "" && OPEN + key.value + "}" <= s && s[0] == '$'
  {
    if OPEN <= s then
      var n := KeyLength(s[9..]);
      if n > 0 && 9 + n < |s| && s[9 + n] == '}' then Some(s[9..9 + n]) else None
    else None
  }

  function RefLength(key: string): nat {
    |OPEN| + |key| + 1
  }

  /** Names every JavaScript object inherits: the `in` operator finds them too. */
  const METHODS: set<string> := {"toString", "valueOf", "hasOwnProperty", "isPrototypeOf", "propertyIsEnumerable",
                                 "toLocaleString", "__defineGetter__", "__defineSetter__",
                                 "__lookupGetter__", "__lookupSetter__"}

  /** `key in inputs` */
  predicate Bound(inputs: map<string, Input>, key: string) {
    key in inputs || key in METHODS || key == "constructor" || key == "__proto__"
  }

  /** `String(inputs[key])` */
  function InputText(inputs: map<string, Input>, key: string): string
    requires Bound(inputs, key)
  {
    if key in inputs then
      match inputs[key]
      case TextInput(s) => s
      case NumberInput(text) => text
      case FlagInput(b) => if b then "true" else "false"
    else if key == "__proto__" then "[object Object]"
    else if key == "constructor" then "function Object() { [native code] }"
    else "function " + key + "() { [native code] }"
  }

  /** `value.replace(...)` on a string: one pass from left to right. */
  function ResolveText(s: string, inputs: map<string, Input>): Result<string>
    decreases |s|
  {
    if s == "" then Success("")
    else
      var key := RefAt(s);
      if key.Some? then
        if !Bound(inputs, key.value) then Failure("Unresolved input reference.")
        else
          var rest :- ResolveText(s[RefLength(key.value)..], inputs);
          Success(InputText(inputs, key.value) + rest)
      else
        var rest :- ResolveText(s[1..], inputs);
        Success([s[0]] + rest)
  }

  /** `resolveValue`, an array or object in order. */
  function ResolveValue(v: Json, inputs: map<string, Input>): Result<Json>
    decreases v, 1, 0
  {
    match v
    case Str(s) =>
      var text :- ResolveText(s, inputs);
      Success(Str(text))
    case Arr(_) =>
      var items :- ResolveItems(v, 0, inputs);
      Success(Arr(items))
    case Obj(_) =>
      var fields :- ResolveFields(v, 0, inputs);
      Success(Obj(fields))
    case _ => Success(v)
  }

  function ResolveItems(v: Json, i: nat, inputs: map<string, Input>): Result<seq<Json>>
    requires v.Arr? && i <= |v.items|
    decreases v, 0, |v.items| - i
  {
    if i == |v.items| then Success([])
    else
      var item :- ResolveValue(v.items[i], inputs);
      var rest :- ResolveItems(v, i + 1, inputs);
      Success([item] + rest)
  }

  function ResolveFields(v: Json, i: nat, inputs: map<string, Input>): Result<seq<Field>>
    requires v.Obj? && i <= |v.fields|
    decreases v, 0, |v.fields| - i
  {
    if i == |v.fields| then Success([])
    else
      var value :- ResolveValue(v.fields[i].1, inputs);
      var rest :- ResolveFields(v, i + 1, inputs);
      Success([(v.fields[i].0, value)] + rest)
  }

  // ----- which texts resolve -----

  /** Wherever a reference stands in the text, its key is bound. */
  ghost predicate TextBound(s: string, inputs: map<string, Input>) {
    forall i {:trigger RefAt(s[i..])} | 0 <= i <= |s| && RefAt(s[i..]).Some? :: Bound(inputs, RefAt(s[i..]).value)
  }

  /** A reference starts with a dollar sign, and none of its other characters is one. */
  lemma NoRefInside(s: string, i: nat)
    requires RefAt(s).Some? && 0 < i < RefLength(RefAt(s).value)
    ensures i <= |s| && RefAt(s[i..]).None?
  {
    var key := RefAt(s).value;
    var n := KeyLength(s[9..]);
    assert s[..9] == OPEN;
    if i < 9 {
      assert s[i] == OPEN[i];
    } else if i < 9 + n {
      assert s[i] == s[9..][i - 9];
    }
    assert s[i] != '$';
    assert i < |s| ==> s[i..][0] == s[i];
  }

  /** A text that starts with a reference is bound if the reference and the rest are. */
  lemma RefThenRest(s: string, inputs: map<string, Input>)
    requires RefAt(s).Some?
    ensures TextBound(s, inputs) <==> Bound(inputs, RefAt(s).value) && TextBound(s[RefLength(RefAt(s).value)..], inputs)
  {
    var step := RefLength(RefAt(s).value);
    var rest := s[step..];
    assert s[0..] == s;
    forall i | 0 <= i <= |rest| ensures rest[i..] == s[step + i..] {
    }
    if TextBound(s, inputs) {
      assert Bound(inputs, RefAt(s[0..]).value);
      forall i | 0 <= i <= |rest| && RefAt(rest[i..]).Some? ensures Bound(inputs, RefAt(rest[i..]).value) {
        assert RefAt(s[step + i..]).Some?;
      }
    }
    if Bound(inputs, RefAt(s).value) && TextBound(rest, inputs) {
      forall i | 0 <= i <= |s| && RefAt(s[i..]).Some? ensures Bound(inputs, RefAt(s[i..]).value) {
        if i >= step {
          assert rest[i - step..] == s[i..];
        } else if i > 0 {
          NoRefInside(s, i);
        }
      }
    }
  }

  lemma CharThenRest(s: string, inputs: map<string, Input>)
    requires s != "" && RefAt(s).None?
    ensures TextBound(s, inputs) <==> TextBound(s[1..], inputs)
  {
    var rest := s[1..];
    assert s[0..] == s;
    forall i | 0 <= i <= |rest| ensures rest[i..] == s[1 + i..] {
    }
    if TextBound(s, inputs) {
      forall i | 0 <= i <= |rest| && RefAt(rest[i..]).Some? ensures Bound(inputs, RefAt(rest[i..]).value) {
        assert RefAt(s[1 + i..]).Some?;
      }
    }
    if TextBound(rest, inputs) {
      forall i | 0 <= i <= |s| && RefAt(s[i..]).Some? ensures Bound(inputs, RefAt(s[i..]).value) {
        if i >= 1 { assert rest[i - 1..] == s[i..]; }
      }
    }
  }

  /** A text resolves exactly when every reference in it is bound. */
  lemma {:induction false} TextResolves(s: string, inputs: map<string, Input>)
    ensures ResolveText(s, inputs).Success? <==> TextBound(s, inputs)
    decreases |s|
  {
    if s != "" {
      if RefAt(s).Some? {
        RefThenRest(s, inputs);
        TextResolves(s[RefLength(RefAt(s).value)..], inputs);
      } else {
        CharThenRest(s, inputs);
        TextResolves(s[1..], inputs);
      }
    }
  }

  // ----- what resolving does to a text -----

  /** A text seen as single characters and references. */
  datatype Piece = Plain(c: char) | Reference(key: string)

  function PieceText(p: Piece): string {
    match p
    case Plain(c) => [c]
    case Reference(key) => OPEN + key + "}"
  }

  function TextOf(ps: seq<Piece>): string {
    if ps == [] then "" else PieceText(ps[0]) + TextOf(ps[1..])
  }

  /** The pieces of a text, a reference wherever one starts outside another. */
  function Pieces(s: string): seq<Piece>
    decreases |s|
  {
    if s == "" then []
    else
      var key := RefAt(s);
      if key.Some? then [Reference(key.value)] + Pieces(s[RefLength(key.value)..])
      else [Plain(s[0])] + Pieces(s[1..])
  }

  ghost predicate KeyText(key: string) {
    key != "" && forall i | 0 <= i < |key| :: IsKeyChar(key[i])
  }

  /** References are complete, and no plain character begins one, given what follows it. */
  ghost predicate Split(ps: seq<Piece>) {
    ps != [] ==>
      && (match ps[0] case Plain(c) => RefAt(TextOf(ps)).None? case Reference(key) => KeyText(key))
      && Split(ps[1..])
  }

  ghost predicate AllBound(ps: seq<Piece>, inputs: map<string, Input>) {
    ps != [] ==> (ps[0].Reference? ==> Bound(inputs, ps[0].key)) && AllBound(ps[1..], inputs)
  }

  /** The same pieces with every reference replaced by its value, once. */
  ghost function ValueOf(ps: seq<Piece>, inputs: map<string, Input>): string
    requires AllBound(ps, inputs)
  {
    if ps == [] then ""
    else (match ps[0] case Plain(c) => [c] case Reference(key) => InputText(inputs, key)) + ValueOf(ps[1..], inputs)
  }

  lemma {:induction false} KeyLengthOf(key: string, rest: string)
    requires (forall i | 0 <= i < |key| :: IsKeyChar(key[i])) && rest != "" && !IsKeyChar(rest[0])
    ensures KeyLength(key + rest) == |key|
  {
    if key == "" {
      assert key + rest == rest;
    } else {
      assert (key + rest)[1..] == key[1..] + rest;
      KeyLengthOf(key[1..], rest);
    }
  }

  lemma ReferenceIsFound(key: string, rest: string)
    requires KeyText(key)
    ensures RefAt("${inputs." + key + "}" + rest) == Some(key)
    ensures (OPEN + key + "}" + rest)[RefLength(key)..] == rest
  {
    var s := OPEN + key + "}" + rest;
    assert s[9..] == key + ("}" + rest);
    KeyLengthOf(key, "}" + rest);
    assert s[9..9 + |key|] == key;
  }

  /** Splitting a text loses nothing. */
  lemma {:induction false} PiecesSplit(s: string)
    ensures TextOf(Pieces(s)) == s && Split(Pieces(s))
    decreases |s|
  {
    if s != "" {
      var key := RefAt(s);
      if key.Some? {
        PiecesSplit(s[RefLength(key.value)..]);
        KeyOfRef(s);
      } else {
        PiecesSplit(s[1..]);
      }
    }
  }

  lemma KeyOfRef(s: string)
    requires RefAt(s).Some?
    ensures KeyText(RefAt(s).value)
    ensures s == OPEN + RefAt(s).value + "}" + s[RefLength(RefAt(s).value)..]
  {
    var key := RefAt(s).value;
    forall i | 0 <= i < |key| ensures IsKeyChar(key[i]) {
      assert key[i] == s[9..][i];
    }
    assert (OPEN + key + "}")[..] == s[..RefLength(key)];
  }

  /** And there is only one way to split it. */
  lemma {:induction false} SplitIsUnique(ps: seq<Piece>)
    requires Split(ps)
    ensures Pieces(TextOf(ps)) == ps
  {
    if ps != [] {
      SplitIsUnique(ps[1..]);
      var rest := TextOf(ps[1..]);
      match ps[0]
      case Plain(c) =>
        assert TextOf(ps)[1..] == rest;
      case Reference(key) =>
        ReferenceIsFound(key, rest);
        assert TextOf(ps) == OPEN + key + "}" + rest;
    }
  }

  /**
    Every text whose references are bound resolves piece by piece: each reference is replaced
    once, and a substituted value is never looked at again.
  */
  lemma {:induction false} SubstitutesOnce(s: string, inputs: map<string, Input>)
    ensures AllBound(Pieces(s), inputs) <==> TextBound(s, inputs)
    ensures TextBound(s, inputs) ==> ResolveText(s, inputs) == Success(ValueOf(Pieces(s), inputs))
    decreases |s|
  {
    if s != "" {
      var key := RefAt(s);
      if key.Some? {
        RefThenRest(s, inputs);
        SubstitutesOnce(s[RefLength(key.value)..], inputs);
      } else {
        CharThenRest(s, inputs);
        SubstitutesOnce(s[1..], inputs);
      }
    }
  }

  /** The reference to one input is its text: a number as it prints, a flag as a word. */
  lemma InputsAsText(key: string, inputs: map<string, Input>)
    requires KeyText(key) && key in inputs
    ensures ResolveText("${inputs." + key + "}", inputs)
            == Success(if inputs[key].TextInput? then inputs[key].s
                       else if inputs[key].NumberInput? then inputs[key].text
                       else if inputs[key].b then "true" else "false")
  {
    ReferenceAlone(key, inputs);
  }

  /** What an object inherits, which `in` finds when no input has the name. */
  predicate InheritedName(key: string) {
    || key == "constructor" || key == "__proto__" || key == "toString" || key == "valueOf"
    || key == "hasOwnProperty" || key == "isPrototypeOf" || key == "propertyIsEnumerable" || key == "toLocaleString"
    || key == "__defineGetter__" || key == "__defineSetter__" || key == "__lookupGetter__" || key == "__lookupSetter__"
  }

  lemma BoundExactly(key: string, inputs: map<string, Input>)
    requires KeyText(key)
    ensures ResolveText("${inputs." + key + "}", inputs).Success? <==> key in inputs || InheritedName(key)
  {
    ReferenceAlone(key, inputs);
  }

  /** What such a name resolves to when no input has it: the text of the inherited value. */
  lemma InheritedAsText(key: string, inputs: map<string, Input>)
    requires KeyText(key) && key !in inputs && InheritedName(key)
    ensures ResolveText("${inputs." + key + "}", inputs)
            == Success(if key == "__proto__" then "[object Object]"
                       else if key == "constructor" then "function Object() { [native code] }"
                       else "function " + key + "() { [native code] }")
  {
    ReferenceAlone(key, inputs);
  }

  lemma ReferenceAlone(key: string, inputs: map<string, Input>)
    requires KeyText(key)
    ensures var s := "${inputs." + key + "}";
            if Bound(inputs, key) then ResolveText(s, inputs) == Success(InputText(inputs, key))
            else ResolveText(s, inputs).Failure?
  {
    var s := "${inputs." + key + "}";
    assert s == "${inputs." + key + "}" + "";
    ReferenceIsFound(key, "");
    assert s[RefLength(key)..] == "";
    if Bound(inputs, key) { assert InputText(inputs, key) + "" == InputText(inputs, key); }
  }

  /** A text in which no reference starts is left unchanged. */
  lemma {:induction false} ReferenceFree(s: string, inputs: map<string, Input>)
    requires forall i | 0 <= i <= |s| :: RefAt(s[i..]).None?
    ensures ResolveText(s, inputs) == Success(s)
    decreases |s|
  {
    if s != "" {
      assert s[0..] == s;
      forall i | 0 <= i <= |s[1..]| ensures RefAt(s[1..][i..]).None? {
        assert s[1..][i..] == s[1 + i..];
      }
      ReferenceFree(s[1..], inputs);
      assert [s[0]] + s[1..] == s;
    }
  }

  // ----- values -----

  /** Every string inside the value has only bound references. */
  ghost predicate ValueBound(v: Json, inputs: map<string, Input>) {
    match v
    case Str(s) => TextBound(s, inputs)
    case Arr(items) => forall i {:trigger items[i]} | 0 <= i < |items| :: ValueBound(items[i], inputs)
    case Obj(fields) => forall i {:trigger fields[i]} | 0 <= i < |fields| :: ValueBound(fields[i].1, inputs)
    case _ => true
  }

  /** The same arrays, objects, keys and scalars; only strings may differ, as resolving says. */
  ghost predicate SameShape(v: Json, r: Json, inputs: map<string, Input>)
    decreases v
  {
    if v.Str? then r.Str? && ResolveText(v.s, inputs) == Success(r.s)
    else if v.Arr? then
      && r.Arr? && |r.items| == |v.items|
      && forall i {:trigger v.items[i]} | 0 <= i < |v.items| :: SameShape(v.items[i], r.items[i], inputs)
    else if v.Obj? then
      && r.Obj? && |r.fields| == |v.fields|
      && forall i {:trigger v.fields[i]} | 0 <= i < |v.fields| ::
           r.fields[i].0 == v.fields[i].0 && SameShape(v.fields[i].1, r.fields[i].1, inputs)
    else r == v
  }

  /** Resolving succeeds exactly on bound values, and then keeps the shape. */
  lemma {:induction false} ValueResolves(v: Json, inputs: map<string, Input>)
    ensures ResolveValue(v, inputs).Success? <==> ValueBound(v, inputs)
    ensures ResolveValue(v, inputs).Success? ==> SameShape(v, ResolveValue(v, inputs).value, inputs)
    decreases v, 1, 0
  {
    match v
    case Str(s) => TextResolves(s, inputs);
    case Arr(_) => ItemsResolve(v, 0, inputs);
    case Obj(_) => FieldsResolve(v, 0, inputs);
    case _ =>
  }

  lemma {:induction false} ItemsResolve(v: Json, i: nat, inputs: map<string, Input>)
    requires v.Arr? && i <= |v.items|
    ensures var r := ResolveItems(v, i, inputs);
            && (r.Success? <==> forall k {:trigger v.items[k]} | i <= k < |v.items| :: ValueBound(v.items[k], inputs))
            && (r.Success? ==>
                  && |r.value| == |v.items| - i
                  && forall k {:trigger v.items[k]} | i <= k < |v.items| ::
                      SameShape(v.items[k], r.value[k - i], inputs))
    decreases v, 0, |v.items| - i
  {
    if i < |v.items| {
      ValueResolves(v.items[i], inputs);
      ItemsResolve(v, i + 1, inputs);
    }
  }

  lemma {:induction false} FieldsResolve(v: Json, i: nat, inputs: map<string, Input>)
    requires v.Obj? && i <= |v.fields|
    ensures var r := ResolveFields(v, i, inputs);
            && (r.Success? <==> forall k {:trigger v.fields[k]} | i <= k < |v.fields| ::
                ValueBound(v.fields[k].1, inputs))
            && (r.Success? ==>
                  && |r.value| == |v.fields| - i
                  && forall k {:trigger v.fields[k]} | i <= k < |v.fields| ::
                       r.value[k - i].0 == v.fields[k].0 && SameShape(v.fields[k].1, r.value[k - i].1, inputs))
    decreases v, 0, |v.fields| - i
  {
    if i < |v.fields| {
      ValueResolves(v.fields[i].1, inputs);
      FieldsResolve(v, i + 1, inputs);
    }
  }
}
