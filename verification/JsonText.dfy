/**
  The text of a JSON value: `JSON.stringify` of a value without insignificant spaces, and
  `JSON.parse` (sections 2 to 7 of RFC 8259).  Reading back a written value gives the value.
*/
module JsonText {
  import opened Base
  import opened Json
  import opened JsonSort

  // ----- writing -----

  function HexDigit(n: nat): char
    requires n < 16
  {
    "0123456789abcdef"[n]
  }

  function Escaped(c: char): string {
    if c == '\"' then "\\\""
    else if c == '\\' then "\\\\"
    else if c == 8 as char then "\\b"
    else if c == 9 as char then "\\t"
    else if c == 10 as char then "\\n"
    else if c == 12 as char then "\\f"
    else if c == 13 as char then "\\r"
    else if c < ' ' then "\\u00" + [HexDigit(c as int / 16)] + [HexDigit(c as int % 16)]
    else [c]
  }

  function EscapedAll(s: string): string {
    if s == "" then "" else Escaped(s[0]) + EscapedAll(s[1..])
  }

  function Quoted(s: string): string {
    "\"" + EscapedAll(s) + "\""
  }

  /** The structural characters and scalars of section 2 of RFC 8259. */
  datatype Token = OpenArray | CloseArray | OpenObject | CloseObject | Comma | Colon | Lit(v: Json)

  /** A scalar token. */
  predicate Scalar(v: Json) {
    !v.Arr? && !v.Obj? && (v.Num? ==> NumberText(v.text))
  }

  function TokenText(k: Token): string {
    match k
    case OpenArray => "["
    case CloseArray => "]"
    case OpenObject => "{"
    case CloseObject => "}"
    case Comma => ","
    case Colon => ":"
    case Lit(v) => ScalarText(v)
  }

  function ScalarText(v: Json): string {
    match v
    case Null => "null"
    case Bool(b) => if b then "true" else "false"
    case Num(t) => t
    case Str(s) => Quoted(s)
    case _ => ""
  }

  /** The tokens of a value, in order. */
  function Tokens(v: Json): seq<Token>
    decreases v, 1, 0
  {
    match v
    case Arr(items) => [OpenArray] + ItemTokens(v, 0)
    case Obj(fields) => [OpenObject] + FieldTokens(v, 0)
    case _ => [Lit(v)]
  }

  /** The tokens of an array from its i-th item on. */
  function ItemTokens(v: Json, i: nat): seq<Token>
    requires v.Arr? && i <= |v.items|
    decreases v, 0, |v.items| - i
  {
    if i == |v.items| then [CloseArray]
    else (if i == 0 then [] else [Comma]) + Tokens(v.items[i]) + ItemTokens(v, i + 1)
  }

  function FieldTokens(v: Json, i: nat): seq<Token>
    requires v.Obj? && i <= |v.fields|
    decreases v, 0, |v.fields| - i
  {
    if i == |v.fields| then [CloseObject]
    else
      (if i == 0 then [] else [Comma]) + [Lit(Str(v.fields[i].0)), Colon]
      + Tokens(v.fields[i].1) + FieldTokens(v, i + 1)
  }

  function TextOf(ks: seq<Token>): string {
    if ks == [] then "" else TokenText(ks[0]) + TextOf(ks[1..])
  }

  /** `JSON.stringify` */
  function Print(v: Json): string {
    TextOf(Tokens(v))
  }

  // ----- reading -----

  predicate IsSpace(c: char) {
    c in " \t\n\r"
  }

  function HexValue(c: char): Option<nat> {
    if '0' <= c <= '9' then Some(c as int - '0' as int)
    else if 'a' <= c <= 'f' then Some(c as int - 'a' as int + 10)
    else if 'A' <= c <= 'F' then Some(c as int - 'A' as int + 10)
    else None
  }

  /** The character after a backslash; escaped surrogates are not read. */
  function Unescape(t: string): (r: Option<(char, string)>)
    ensures r.Some? ==> |r.value.1| < |t|
  {
    if t == "" then None
    else if t[0] == '\"' then Some(('\"', t[1..]))
    else if t[0] == '\\' then Some(('\\', t[1..]))
    else if t[0] == '/' then Some(('/', t[1..]))
    else if t[0] == 'b' then Some((8 as char, t[1..]))
    else if t[0] == 't' then Some((9 as char, t[1..]))
    else if t[0] == 'n' then Some((10 as char, t[1..]))
    else if t[0] == 'f' then Some((12 as char, t[1..]))
    else if t[0] == 'r' then Some((13 as char, t[1..]))
    else if t[0] == 'u' && |t| >= 5 then
      var a, b, c, d := HexValue(t[1]), HexValue(t[2]), HexValue(t[3]), HexValue(t[4]);
      if a.None? || b.None? || c.None? || d.None? then None
      else
        var n := 4096 * a.value + 256 * b.value + 16 * c.value + d.value;
        if n < 0xD800 || 0xE000 <= n < 0x10000 then Some((n as char, t[5..])) else None
    else None
  }

  /** A string after its opening quote. */
  function ParseString(t: string): (r: Option<(string, string)>)
    ensures r.Some? ==> |r.value.1| < |t|
    decreases |t|
  {
    if t == "" || t[0] < ' ' then None
    else if t[0] == '\"' then Some(("", t[1..]))
    else if t[0] == '\\' then
      var c := Unescape(t[1..]);
      if c.None? then None
      else
        var rest := ParseString(c.value.1);
        if rest.None? then None else Some(([c.value.0] + rest.value.0, rest.value.1))
    else
      var rest := ParseString(t[1..]);
      if rest.None? then None else Some(([t[0]] + rest.value.0, rest.value.1))
  }

  function NumberLength(t: string): (n: nat)
    ensures n <= |t|
  {
    if t == "" || !IsNumberChar(t[0]) then 0 else 1 + NumberLength(t[1..])
  }

  function Word(t: string, word: string, v: Json): (r: Option<(Token, string)>)
    requires word != ""
    ensures r.Some? ==> |r.value.1| < |t|
  {
    if |word| <= |t| && t[..|word|] == word then Some((Lit(v), t[|word|..])) else None
  }

  /** The token at the start of a text. */
  function NextToken(t: string): (r: Option<(Token, string)>)
    requires t != ""
    ensures r.Some? ==> |r.value.1| < |t|
  {
    if t[0] == '[' then Some((OpenArray, t[1..]))
    else if t[0] == ']' then Some((CloseArray, t[1..]))
    else if t[0] == '{' then Some((OpenObject, t[1..]))
    else if t[0] == '}' then Some((CloseObject, t[1..]))
    else if t[0] == ',' then Some((Comma, t[1..]))
    else if t[0] == ':' then Some((Colon, t[1..]))
    else if t[0] == 'n' then Word(t, "null", Null)
    else if t[0] == 't' then Word(t, "true", Bool(true))
    else if t[0] == 'f' then Word(t, "false", Bool(false))
    else if t[0] == '\"' then
      var s := ParseString(t[1..]);
      if s.None? then None else Some((Lit(Str(s.value.0)), s.value.1))
    else if IsDigit(t[0]) || t[0] == '-' then
      Some((Lit(Num(t[..NumberLength(t)])), t[NumberLength(t)..]))
    else None
  }

  function Lex(t: string): Option<seq<Token>>
    decreases |t|
  {
    if t == "" then Some([])
    else if IsSpace(t[0]) then Lex(t[1..])
    else
      var k := NextToken(t);
      if k.None? then None
      else
        var ks := Lex(k.value.1);
        if ks.None? then None else Some([k.value.0] + ks.value)
  }

  function ParseValue(ks: seq<Token>): (r: Option<(Json, seq<Token>)>)
    ensures r.Some? ==> |r.value.1| < |ks|
    decreases |ks|, 0
  {
    if ks == [] then None
    else if ks[0].Lit? then Some((ks[0].v, ks[1..]))
    else if ks[0].OpenArray? then
      if |ks| > 1 && ks[1].CloseArray? then Some((Arr([]), ks[2..])) else ParseItems(ks[1..], [])
    else if ks[0].OpenObject? then
      if |ks| > 1 && ks[1].CloseObject? then Some((Obj([]), ks[2..])) else ParseFields(ks[1..], [])
    else None
  }

  /** Items up to the closing bracket, after those already read. */
  function ParseItems(ks: seq<Token>, done: seq<Json>): (r: Option<(Json, seq<Token>)>)
    ensures r.Some? ==> |r.value.1| < |ks|
    decreases |ks|, 1
  {
    var item := ParseValue(ks);
    if item.None? || item.value.1 == [] then None
    else if item.value.1[0].CloseArray? then Some((Arr(done + [item.value.0]), item.value.1[1..]))
    else if item.value.1[0].Comma? then ParseItems(item.value.1[1..], done + [item.value.0])
    else None
  }

  /** Fields up to the closing brace; each is put into the object read so far. */
  function ParseFields(ks: seq<Token>, done: seq<Field>): (r: Option<(Json, seq<Token>)>)
    ensures r.Some? ==> |r.value.1| < |ks|
    decreases |ks|, 1
  {
    if |ks| < 2 || !(ks[0].Lit? && ks[0].v.Str?) || !ks[1].Colon? then None
    else
      var value := ParseValue(ks[2..]);
      if value.None? || value.value.1 == [] then None
      else
        var done' := Put(done, (ks[0].v.s, value.value.0));
        if value.value.1[0].CloseObject? then Some((Obj(done'), value.value.1[1..]))
        else if value.value.1[0].Comma? then ParseFields(value.value.1[1..], done')
        else None
  }

  /** `JSON.parse`: the text is one value and nothing else. */
  function Parse(t: string): Option<Json> {
    var ks := Lex(t);
    if ks.None? then None
    else
      var r := ParseValue(ks.value);
      if r.Some? && r.value.1 == [] then Some(r.value.0) else None
  }

  // ----- reading back what was written -----

  lemma HexRoundTrip(n: nat)
    requires n < 16
    ensures HexValue(HexDigit(n)) == Some(n)
  {
    assert n == 0 || n == 1 || n == 2 || n == 3 || n == 4 || n == 5 || n == 6 || n == 7
        || n == 8 || n == 9 || n == 10 || n == 11 || n == 12 || n == 13 || n == 14 || n == 15;
  }

  /** The character c in front of what the rest reads as. */
  function Prepend(c: char, tail: Option<(string, string)>): Option<(string, string)> {
    if tail.None? then None else Some(([c] + tail.value.0, tail.value.1))
  }

  lemma PlainReads(c: char, rest: string)
    requires c >= ' ' && c != '\"' && c != '\\'
    ensures ParseString([c] + rest) == Prepend(c, ParseString(rest))
  {
    assert ([c] + rest)[1..] == rest;
  }

  lemma BackslashReads(t: string, c: char, rest: string)
    requires t != "" && t[0] == '\\' && Unescape(t[1..]) == Some((c, rest))
    ensures ParseString(t) == Prepend(c, ParseString(rest))
  {
  }

  lemma ShortReads(c: char, e: char, rest: string)
    requires Escaped(c) == ['\\', e]
    ensures Unescape([e] + rest) == Some((c, rest))
  {
    assert ([e] + rest)[1..] == rest;
  }

  lemma ControlReads(c: char, rest: string)
    requires c < ' '
    ensures Unescape("u00" + [HexDigit(c as int / 16)] + [HexDigit(c as int % 16)] + rest) == Some((c, rest))
  {
    var h, l := c as int / 16, c as int % 16;
    var u := "u00" + [HexDigit(h)] + [HexDigit(l)] + rest;
    HexRoundTrip(h);
    HexRoundTrip(l);
    HexRoundTrip(0);
    assert u[0] == 'u' && u[1] == HexDigit(0) && u[2] == HexDigit(0) && u[3] == HexDigit(h) && u[4] == HexDigit(l);
    assert u[5..] == rest;
  }

  /** An escaped character reads as itself, whatever follows. */
  lemma EscapedReads(c: char, rest: string)
    ensures ParseString(Escaped(c) + rest) == Prepend(c, ParseString(rest))
  {
    var e := Escaped(c);
    var t := e + rest;
    if |e| == 1 {
      PlainReads(c, rest);
    } else {
      if |e| == 2 {
        ShortReads(c, e[1], rest);
        assert t[1..] == [e[1]] + rest;
      } else {
        ControlReads(c, rest);
        assert t[1..] == "u00" + [HexDigit(c as int / 16)] + [HexDigit(c as int % 16)] + rest;
      }
      BackslashReads(t, c, rest);
    }
  }

  lemma {:induction false} StringReads(s: string, rest: string)
    ensures ParseString(EscapedAll(s) + "\"" + rest) == Some((s, rest))
  {
    var t := EscapedAll(s) + "\"" + rest;
    if s == "" {
      assert t[0] == '\"' && t[1..] == rest;
    } else {
      StringReads(s[1..], rest);
      EscapedReads(s[0], EscapedAll(s[1..]) + "\"" + rest);
      assert t == Escaped(s[0]) + (EscapedAll(s[1..]) + "\"" + rest);
      assert s == [s[0]] + s[1..];
    }
  }

  /** What may follow a value without running into it. */
  predicate Delimited(rest: string) {
    rest == "" || !IsNumberChar(rest[0])
  }

  lemma {:induction false} NumberReads(t: string, rest: string)
    requires (forall c | c in t :: IsNumberChar(c)) && Delimited(rest)
    ensures NumberLength(t + rest) == |t|
  {
    if t == "" {
      assert t + rest == rest;
    } else {
      assert t[0] in t;
      assert (t + rest)[1..] == t[1..] + rest;
      NumberReads(t[1..], rest);
    }
  }

  // ----- tokens read back -----

  predicate Wellformed(k: Token) {
    k.Lit? ==> Scalar(k.v)
  }

  lemma WordReads(word: string, v: Json, rest: string)
    requires word != ""
    ensures Word(word + rest, word, v) == Some((Lit(v), rest))
  {
    assert (word + rest)[..|word|] == word && (word + rest)[|word|..] == rest;
  }

  lemma NumReads(n: string, rest: string)
    requires NumberText(n) && Delimited(rest)
    ensures NextToken(n + rest) == Some((Lit(Num(n)), rest))
  {
    NumberReads(n, rest);
    assert (n + rest)[..|n|] == n && (n + rest)[|n|..] == rest;
  }

  lemma StrReads(s: string, rest: string)
    ensures NextToken(Quoted(s) + rest) == Some((Lit(Str(s)), rest))
  {
    assert (Quoted(s) + rest)[1..] == EscapedAll(s) + "\"" + rest;
    StringReads(s, rest);
  }

  lemma ScalarReads(v: Json, rest: string)
    requires Scalar(v) && (v.Num? ==> Delimited(rest))
    ensures ScalarText(v) != "" && !IsSpace(ScalarText(v)[0])
    ensures NextToken(ScalarText(v) + rest) == Some((Lit(v), rest))
  {
    match v
    case Null => WordReads("null", v, rest);
    case Bool(b) => WordReads(if b then "true" else "false", v, rest);
    case Num(n) => NumReads(n, rest);
    case Str(s) => StrReads(s, rest);
  }

  lemma TokenReads(k: Token, rest: string)
    requires Wellformed(k) && (k.Lit? && k.v.Num? ==> Delimited(rest))
    ensures TokenText(k) != "" && !IsSpace(TokenText(k)[0])
    ensures NextToken(TokenText(k) + rest) == Some((k, rest))
  {
    if k.Lit? {
      ScalarReads(k.v, rest);
    } else {
      assert (TokenText(k) + rest)[1..] == rest;
    }
  }

  /** No two scalars stand next to each other. */
  ghost predicate Separated(ks: seq<Token>) {
    && (forall i {:trigger ks[i]} | 0 <= i < |ks| :: Wellformed(ks[i]))
    && forall i, j {:trigger ks[i], ks[j]} | 0 <= i && j == i + 1 && j < |ks| :: !(ks[i].Lit? && ks[j].Lit?)
  }

  /** The text of separated tokens, with space after it, splits into the same tokens. */
  lemma {:induction false} TextLexes(ks: seq<Token>)
    requires Separated(ks)
    ensures Lex(TextOf(ks) + "\n") == Some(ks)
  {
    var t := TextOf(ks) + "\n";
    if ks == [] {
      assert t == "\n" && t[1..] == "";
      assert Lex("") == Some([]);
    } else {
      var rest := TextOf(ks[1..]) + "\n";
      assert t == TokenText(ks[0]) + rest;
      SeparatedRest(ks);
      TextLexes(ks[1..]);
      if ks[0].Lit? { RestDelimits(ks); }
      TokenReads(ks[0], rest);
      LexStep(t, ks[0], rest);
      assert ks == [ks[0]] + ks[1..];
    }
  }

  lemma SeparatedRest(ks: seq<Token>)
    requires Separated(ks) && ks != []
    ensures Separated(ks[1..])
  {
  }

  /** What follows a number is not part of it. */
  lemma RestDelimits(ks: seq<Token>)
    requires Separated(ks) && ks != [] && ks[0].Lit?
    ensures Delimited(TextOf(ks[1..]) + "\n")
  {
  }

  lemma LexStep(t: string, k: Token, rest: string)
    requires t != "" && !IsSpace(t[0]) && NextToken(t) == Some((k, rest)) && Lex(rest).Some?
    ensures Lex(t) == Some([k] + Lex(rest).value)
  {
  }

  // ----- values read back -----

  /** A value followed by other tokens reads as itself, and reading stops where it ends. */
  lemma {:induction false} ValueReads(v: Json, rest: seq<Token>)
    requires Canonical(v)
    ensures ParseValue(Tokens(v) + rest) == Some((v, rest))
    decreases v, 1, 0
  {
    var ks := Tokens(v) + rest;
    if v.Arr? {
      assert ks[1..] == ItemTokens(v, 0) + rest;
      if v.items == [] {
        assert ks[2..] == rest;
      } else {
        TokensStart(v.items[0]);
        assert ks[1] == Tokens(v.items[0])[0];
        assert ks[1..] == ItemsFrom(v, 0, rest);
        ItemsRead(v, 0, rest);
      }
    } else if v.Obj? {
      assert ks[1..] == FieldTokens(v, 0) + rest;
      if v.fields == [] {
        assert ks[2..] == rest;
      } else {
        assert ks[1..] == FieldsFrom(v, 0, rest);
        FieldsRead(v, 0, rest);
      }
    } else {
      assert ks[1..] == rest;
    }
  }

  lemma TokensStart(v: Json)
    ensures Tokens(v) != [] && !Tokens(v)[0].CloseArray?
  {
  }

  lemma ItemStep(ks: seq<Token>, done: seq<Json>, item: Json, after: seq<Token>)
    requires ParseValue(ks) == Some((item, after))
    requires after != [] && (after[0].CloseArray? || after[0].Comma?)
    ensures ParseItems(ks, done)
            == if after[0].CloseArray? then Some((Arr(done + [item]), after[1..]))
               else ParseItems(after[1..], done + [item])
  {
  }

  /** The tokens of an array from its i-th item on, without the comma before it. */
  function ItemsFrom(v: Json, i: nat, rest: seq<Token>): seq<Token>
    requires v.Arr? && i < |v.items|
  {
    Tokens(v.items[i]) + ItemTokens(v, i + 1) + rest
  }

  lemma ItemsLayout(v: Json, i: nat, rest: seq<Token>)
    requires v.Arr? && i < |v.items|
    ensures var after := ItemTokens(v, i + 1) + rest;
            && ItemsFrom(v, i, rest) == Tokens(v.items[i]) + after
            && if i + 1 == |v.items|
               then after[0].CloseArray? && after[1..] == rest
               else after[0].Comma? && after[1..] == ItemsFrom(v, i + 1, rest)
  {
    if i + 1 < |v.items| {
      assert ItemTokens(v, i + 1)[1..] == Tokens(v.items[i + 1]) + ItemTokens(v, i + 2);
    }
  }

  lemma {:induction false} ItemsRead(v: Json, i: nat, rest: seq<Token>)
    requires v.Arr? && i < |v.items| && Canonical(v)
    ensures ParseItems(ItemsFrom(v, i, rest), v.items[..i]) == Some((v, rest))
    decreases v, 0, |v.items| - i
  {
    var item, after := v.items[i], ItemTokens(v, i + 1) + rest;
    ItemsLayout(v, i, rest);
    assert v.items[..i] + [item] == v.items[..i + 1];
    ValueReads(item, after);
    ItemStep(ItemsFrom(v, i, rest), v.items[..i], item, after);
    if i + 1 == |v.items| {
      assert v.items[..i + 1] == v.items;
    } else {
      ItemsRead(v, i + 1, rest);
    }
  }

  /** The next field of an ordered object goes last. */
  lemma NextFieldGoesLast(fields: seq<Field>, i: nat)
    requires Ascending(fields) && i < |fields|
    ensures Put(fields[..i], fields[i]) == fields[..i + 1]
  {
    forall g | g in fields[..i] ensures KeyLess(g.0, fields[i].0) && g.0 != fields[i].0 {
      var k :| 0 <= k < i && fields[k] == g;
      KeyOrder(fields[i].0, fields[i].0, fields[i].0);
    }
    PutSpec(fields[..i], fields[i]);
    assert fields[..i] + [fields[i]] == fields[..i + 1];
  }

  lemma FieldStep(ks: seq<Token>, done: seq<Field>, key: string, value: Json, after: seq<Token>)
    requires |ks| >= 2 && ks[0] == Lit(Str(key)) && ks[1].Colon? && ParseValue(ks[2..]) == Some((value, after))
    requires after != [] && (after[0].CloseObject? || after[0].Comma?)
    ensures ParseFields(ks, done)
            == if after[0].CloseObject? then Some((Obj(Put(done, (key, value))), after[1..]))
               else ParseFields(after[1..], Put(done, (key, value)))
  {
  }

  /** The tokens of an object from its i-th field on, without the comma before it. */
  function FieldsFrom(v: Json, i: nat, rest: seq<Token>): seq<Token>
    requires v.Obj? && i < |v.fields|
  {
    [Lit(Str(v.fields[i].0)), Colon] + Tokens(v.fields[i].1) + FieldTokens(v, i + 1) + rest
  }

  lemma FieldsLayout(v: Json, i: nat, rest: seq<Token>)
    requires v.Obj? && i < |v.fields|
    ensures var after := FieldTokens(v, i + 1) + rest;
            && FieldsFrom(v, i, rest)[2..] == Tokens(v.fields[i].1) + after
            && if i + 1 == |v.fields|
               then after[0].CloseObject? && after[1..] == rest
               else after[0].Comma? && after[1..] == FieldsFrom(v, i + 1, rest)
  {
  }

  lemma {:induction false} FieldsRead(v: Json, i: nat, rest: seq<Token>)
    requires v.Obj? && i < |v.fields| && Canonical(v)
    ensures ParseFields(FieldsFrom(v, i, rest), v.fields[..i]) == Some((v, rest))
    decreases v, 0, |v.fields| - i
  {
    var after := FieldTokens(v, i + 1) + rest;
    FieldsLayout(v, i, rest);
    NextFieldGoesLast(v.fields, i);
    ValueReads(v.fields[i].1, after);
    FieldStep(FieldsFrom(v, i, rest), v.fields[..i], v.fields[i].0, v.fields[i].1, after);
    if i + 1 == |v.fields| {
      assert v.fields[..i + 1] == v.fields;
    } else {
      FieldsRead(v, i + 1, rest);
    }
  }

  // ----- the tokens of a value are separated -----

  lemma SeparatedAppend(a: seq<Token>, b: seq<Token>)
    requires Separated(a) && Separated(b)
    requires a == [] || b == [] || !a[|a| - 1].Lit? || !b[0].Lit?
    ensures Separated(a + b)
  {
  }

  lemma {:induction false} TokensSeparated(v: Json)
    requires Wf(v)
    ensures Separated(Tokens(v))
    decreases v, 1, 0
  {
    if v.Arr? {
      ItemsSeparated(v, 0);
      SeparatedAppend([OpenArray], ItemTokens(v, 0));
    } else if v.Obj? {
      FieldsSeparated(v, 0);
      SeparatedAppend([OpenObject], FieldTokens(v, 0));
    }
  }

  lemma {:induction false} ItemsSeparated(v: Json, i: nat)
    requires Wf(v) && v.Arr? && i <= |v.items|
    ensures Separated(ItemTokens(v, i)) && ItemTokens(v, i) != []
    ensures i > 0 ==> !ItemTokens(v, i)[0].Lit?
    decreases v, 0, |v.items| - i
  {
    if i < |v.items| {
      TokensSeparated(v.items[i]);
      ItemsSeparated(v, i + 1);
      SeparatedAppend(if i == 0 then [] else [Comma], Tokens(v.items[i]));
      SeparatedAppend((if i == 0 then [] else [Comma]) + Tokens(v.items[i]), ItemTokens(v, i + 1));
    }
  }

  lemma {:induction false} FieldsSeparated(v: Json, i: nat)
    requires Wf(v) && v.Obj? && i <= |v.fields|
    ensures Separated(FieldTokens(v, i)) && FieldTokens(v, i) != []
    ensures i > 0 ==> !FieldTokens(v, i)[0].Lit?
    decreases v, 0, |v.fields| - i
  {
    if i < |v.fields| {
      var head := (if i == 0 then [] else [Comma]) + [Lit(Str(v.fields[i].0)), Colon];
      TokensSeparated(v.fields[i].1);
      FieldsSeparated(v, i + 1);
      SeparatedAppend(head, Tokens(v.fields[i].1));
      SeparatedAppend(head + Tokens(v.fields[i].1), FieldTokens(v, i + 1));
    }
  }

  /** A canonical value written on a line of its own reads back as itself. */
  lemma LineReads(v: Json)
    requires Wf(v) && Canonical(v)
    ensures Parse(Print(v) + "\n") == Some(v)
  {
    TokensSeparated(v);
    TextLexes(Tokens(v));
    ValueReads(v, []);
    assert Tokens(v) + [] == Tokens(v);
  }

  /** So different canonical values have different texts. */
  lemma PrintInjective(v: Json, w: Json)
    requires Wf(v) && Canonical(v) && Wf(w) && Canonical(w) && Print(v) == Print(w)
    ensures v == w
  {
    LineReads(v);
    LineReads(w);
  }

  // ----- the text as RFC 8259 and ECMAScript have it -----

  /** The words, numbers and brackets of a text. */
  lemma PrintedScalars(t: string)
    ensures Print(Null) == "null" && Print(Bool(true)) == "true" && Print(Bool(false)) == "false"
    ensures Print(Num(t)) == t && Print(Arr([])) == "[]" && Print(Obj([])) == "{}"
  {
    assert TextOf([Lit(Num(t))]) == t + TextOf([]);
    assert Tokens(Arr([])) == [OpenArray, CloseArray] && Tokens(Obj([])) == [OpenObject, CloseObject];
    assert [OpenArray, CloseArray][1..] == [CloseArray] && [OpenObject, CloseObject][1..] == [CloseObject];
  }

  /** How each character stands in a quoted text. */
  lemma PrintedCharacters(c: char)
    ensures EscapedAll([c]) ==
              if c == '\"' then "\\\""
              else if c == '\\' then "\\\\"
              else if c == '\n' then "\\n"
              else if c == '\r' then "\\r"
              else if c == '\t' then "\\t"
              else if c as int == 8 then "\\b"
              else if c as int == 12 then "\\f"
              else if c as int < 32 then
                "\\u00" + ["0123456789abcdef"[c as int / 16], "0123456789abcdef"[c as int % 16]]
              else [c]
  {
    assert [c][1..] == "";
  }

  lemma {:induction false} TextAppends(a: seq<Token>, b: seq<Token>)
    ensures TextOf(a + b) == TextOf(a) + TextOf(b)
    decreases |a|
  {
    if a == [] {
      assert a + b == b;
    } else {
      assert (a + b)[1..] == a[1..] + b;
      TextAppends(a[1..], b);
    }
  }

  /** Strings are quoted; items and fields are separated by commas, keys from values by colons. */
  lemma PrintedStructure(s: string, key: string, key': string, v: Json, w: Json)
    ensures Print(Str(s)) == "\"" + EscapedAll(s) + "\""
    ensures Print(Arr([v, w])) == "[" + Print(v) + "," + Print(w) + "]"
    ensures Print(Obj([(key, v), (key', w)]))
            == "{" + (Print(Str(key)) + ":" + Print(v)) + "," + (Print(Str(key')) + ":" + Print(w)) + "}"
  {
    assert TextOf([Lit(Str(s))]) == Quoted(s) + TextOf([]);
    PrintedPair(v, w);
    PrintedFields(key, key', v, w);
  }

  lemma PairTokens(v: Json, w: Json)
    ensures Tokens(Arr([v, w])) == [OpenArray] + (Tokens(v) + ([Comma] + (Tokens(w) + [CloseArray])))
  {
    var a := Arr([v, w]);
    assert ItemTokens(a, 2) == [CloseArray];
    assert ItemTokens(a, 1) == [Comma] + Tokens(w) + ItemTokens(a, 2);
    assert ItemTokens(a, 0) == [] + Tokens(v) + ItemTokens(a, 1);
  }

  lemma PrintedPair(v: Json, w: Json)
    ensures Print(Arr([v, w])) == "[" + Print(v) + "," + Print(w) + "]"
  {
    PairTokens(v, w);
    PairText(Tokens(v), Tokens(w));
  }

  lemma PairText(a: seq<Token>, b: seq<Token>)
    ensures TextOf([OpenArray] + (a + ([Comma] + (b + [CloseArray])))) == "[" + TextOf(a) + "," + TextOf(b) + "]"
  {
    TextAppends(b, [CloseArray]);
    TextAppends([Comma], b + [CloseArray]);
    TextAppends(a, [Comma] + (b + [CloseArray]));
    TextAppends([OpenArray], a + ([Comma] + (b + [CloseArray])));
    OneToken(OpenArray);
    OneToken(Comma);
    OneToken(CloseArray);
  }

  lemma OneToken(k: Token)
    ensures TextOf([k]) == TokenText(k)
  {
    assert [k][1..] == [];
  }

  lemma FieldPairTokens(key: string, key': string, v: Json, w: Json)
    ensures Tokens(Obj([(key, v), (key', w)]))
            == [OpenObject] + (([Lit(Str(key)), Colon] + Tokens(v))
                               + ([Comma] + (([Lit(Str(key')), Colon] + Tokens(w)) + [CloseObject])))
  {
    var o := Obj([(key, v), (key', w)]);
    assert FieldTokens(o, 2) == [CloseObject];
    assert FieldTokens(o, 1) == [Comma] + [Lit(Str(key')), Colon] + Tokens(w) + FieldTokens(o, 2);
    assert FieldTokens(o, 0) == [] + [Lit(Str(key)), Colon] + Tokens(v) + FieldTokens(o, 1);
  }

  lemma FieldPairText(a: seq<Token>, b: seq<Token>)
    ensures TextOf([OpenObject] + (a + ([Comma] + (b + [CloseObject])))) == "{" + TextOf(a) + "," + TextOf(b) + "}"
  {
    TextAppends(b, [CloseObject]);
    TextAppends([Comma], b + [CloseObject]);
    TextAppends(a, [Comma] + (b + [CloseObject]));
    TextAppends([OpenObject], a + ([Comma] + (b + [CloseObject])));
    OneToken(OpenObject);
    OneToken(Comma);
    OneToken(CloseObject);
  }

  lemma FieldText(key: string, v: Json)
    ensures TextOf([Lit(Str(key)), Colon] + Tokens(v)) == Print(Str(key)) + ":" + Print(v)
  {
    TextAppends([Lit(Str(key)), Colon], Tokens(v));
    assert [Lit(Str(key)), Colon] == [Lit(Str(key))] + [Colon];
    TextAppends([Lit(Str(key))], [Colon]);
    OneToken(Colon);
  }

  lemma PrintedFields(key: string, key': string, v: Json, w: Json)
    ensures Print(Obj([(key, v), (key', w)]))
            == "{" + (Print(Str(key)) + ":" + Print(v)) + "," + (Print(Str(key')) + ":" + Print(w)) + "}"
  {
    FieldPairTokens(key, key', v, w);
    FieldPairText([Lit(Str(key)), Colon] + Tokens(v), [Lit(Str(key')), Colon] + Tokens(w));
    FieldText(key, v);
    FieldText(key', w);
  }

  /** Array indices come first, by number; other keys follow by UTF-16 code unit. */
  lemma EnumerationOrder(a: string, b: string)
    ensures IsIndex(a) && !IsIndex(b) ==> KeyLess(a, b) && !KeyLess(b, a)
    ensures KeyLess("9", "10") && KeyLess("10", "9a") && KeyLess("B", "a") && KeyLess("a", "aa")
    ensures !IsIndex("01") && !IsIndex("") && !IsIndex("-1")
    ensures Decimal(a) ==> (IsIndex(a) <==> Value(a) < 0x1_0000_0000 - 1)
    ensures LexLess(['\U{1F600}'], ['\U{FFFF}'])
  {
    assert Value("9") == 9 by { assert "9"[..0] == ""; }
    assert Value("10") == 10 by { assert "10"[..1] == "1" && "1"[..0] == ""; }
    assert "aa"[1..] == "a" && "a"[1..] == "";
  }
}
