/**
 Reading JSON text by the grammar of RFC 8259, and that what is written reads back.

 A reader takes a value off the front of a text and leaves the rest.
 */
module JsonText {
  import opened Index
  import opened Json
  import Decimal

  datatype Taken<T> = Bad | Took(value: T, rest: string)

  predicate IsSpace(c: char) {
    c == ' ' || c == '\t' || c == '\n' || c == '\r'
  }

  function Skip(s: string): (r: string)
    ensures |r| <= |s|
  {
    if s != "" && IsSpace(s[0]) then Skip(s[1..]) else s
  }

  // ---------------------------------------------------------------- numbers

  /** How many digits stand in front. */
  function Run(s: string): (n: nat)
    ensures n <= |s| && Decimal.AllDigits(s[..n])
  {
    if s != "" && Decimal.IsDigit(s[0]) then
      var n := Run(s[1..]);
      assert s[..n + 1] == [s[0]] + s[1..][..n];
      n + 1
    else 0
  }

  /** A number without leading zeros; one with a fraction or an exponent is not an integer. */
  function ReadNat(s: string): (t: Taken<int>)
    ensures t.Took? ==> |t.rest| < |s|
  {
    var n := Run(s);
    if n == 0 || (n > 1 && s[0] == '0') || (n < |s| && s[n] in {'.', 'e', 'E'}) then Bad
    else Took(Decimal.Magnitude(s[..n]), s[n..])
  }

  function ReadInt(s: string): (t: Taken<int>)
    ensures t.Took? ==> |t.rest| < |s|
  {
    if s != "" && s[0] == '-' then
      var t := ReadNat(s[1..]);
      if t.Took? then Took(-t.value, t.rest) else Bad
    else ReadNat(s)
  }

  // ---------------------------------------------------------------- strings

  function HexValue(c: char): Option<nat> {
    if '0' <= c <= '9' then Some(c as int - '0' as int)
    else if 'a' <= c <= 'f' then Some(c as int - 'a' as int + 10)
    else if 'A' <= c <= 'F' then Some(c as int - 'A' as int + 10)
    else None
  }

  /** The code unit of four hexadecimal digits. */
  function ReadUnit(s: string): (t: Taken<nat>)
    ensures t.Took? ==> t.value < 0x1_0000 && |t.rest| < |s|
  {
    if |s| < 4 then Bad
    else
      var (a, b, c, d) := (HexValue(s[0]), HexValue(s[1]), HexValue(s[2]), HexValue(s[3]));
      if a.None? || b.None? || c.None? || d.None? then Bad
      else Took(a.value * 4096 + b.value * 256 + c.value * 16 + d.value, s[4..])
  }

  /** Behind a backslash and a u: one code unit, or a surrogate pair. */
  function ReadCode(s: string): (t: Taken<char>)
    ensures t.Took? ==> |t.rest| < |s|
  {
    var t := ReadUnit(s);
    if t.Bad? then Bad
    else if t.value < 0xD800 || 0xE000 <= t.value then Took(t.value as char, t.rest)
    else if t.value < 0xDC00 && |t.rest| >= 2 && t.rest[0] == '\\' && t.rest[1] == 'u' then
      var low := ReadUnit(t.rest[2..]);
      if low.Took? && 0xDC00 <= low.value < 0xE000 then
        Took((0x1_0000 + (t.value - 0xD800) * 0x400 + (low.value - 0xDC00)) as char, low.rest)
      else Bad
    else Bad
  }

  /** One character of a string, as it is or escaped. */
  function ReadChar(s: string): (t: Taken<char>)
    ensures t.Took? ==> |t.rest| < |s|
  {
    if s == "" || s[0] == '\"' || s[0] < ' ' then Bad
    else if s[0] != '\\' then Took(s[0], s[1..])
    else if |s| == 1 then Bad
    else match s[1]
      case '\"' => Took('\"', s[2..])
      case '\\' => Took('\\', s[2..])
      case '/' => Took('/', s[2..])
      case 'b' => Took('\U{8}', s[2..])
      case 'f' => Took('\U{c}', s[2..])
      case 'n' => Took('\n', s[2..])
      case 'r' => Took('\r', s[2..])
      case 't' => Took('\t', s[2..])
      case 'u' => ReadCode(s[2..])
      case _ => Bad
  }

  /** The characters up to the closing quotation mark. */
  function ReadChars(s: string): (t: Taken<string>)
    ensures t.Took? ==> |t.rest| < |s|
    decreases |s|
  {
    if s != "" && s[0] == '\"' then Took("", s[1..])
    else
      var c := ReadChar(s);
      if c.Bad? then Bad
      else
        var more := ReadChars(c.rest);
        if more.Bad? then Bad else Took([c.value] + more.value, more.rest)
  }

  // ---------------------------------------------------------------- values

  predicate Begins(s: string, word: string) {
    word <= s
  }

  function ReadValue(s: string): (t: Taken<Json>)
    ensures t.Took? ==> |t.rest| < |s|
    decreases |s|, 1
  {
    ReadHere(Skip(s))
  }

  /** A value that stands right in front. */
  function ReadHere(s: string): (t: Taken<Json>)
    ensures t.Took? ==> |t.rest| < |s|
    decreases |s|, 0
  {
    if Begins(s, "null") then Took(Null, s[4..])
    else if Begins(s, "true") then Took(Bool(true), s[4..])
    else if Begins(s, "false") then Took(Bool(false), s[5..])
    else if s == "" then Bad
    else if s[0] == '\"' then
      var t := ReadChars(s[1..]);
      if t.Took? then Took(Text(t.value), t.rest) else Bad
    else if s[0] == '[' then
      var inner := Skip(s[1..]);
      if inner != "" && inner[0] == ']' then Took(Arr([]), inner[1..])
      else
        var t := ReadElems(s[1..]);
        if t.Took? then Took(Arr(t.value), t.rest) else Bad
    else if s[0] == '{' then
      var inner := Skip(s[1..]);
      if inner != "" && inner[0] == '}' then Took(Obj([]), inner[1..])
      else
        var t := ReadFields(s[1..]);
        if t.Took? then Took(Obj(t.value), t.rest) else Bad
    else
      var t := ReadInt(s);
      if t.Took? then Took(Num(t.value), t.rest) else Bad
  }

  /** One element and, behind a comma, more of them, up to the closing bracket. */
  function ReadElems(s: string): (t: Taken<seq<Json>>)
    ensures t.Took? ==> |t.rest| < |s|
    decreases |s|, 2
  {
    var first := ReadValue(s);
    if first.Bad? then Bad
    else
      var rest := Skip(first.rest);
      if rest == "" then Bad
      else if rest[0] == ']' then Took([first.value], rest[1..])
      else if rest[0] != ',' then Bad
      else
        var more := ReadElems(rest[1..]);
        if more.Took? then Took([first.value] + more.value, more.rest) else Bad
  }

  /** A key, a colon and a value. */
  function ReadField(s: string): (t: Taken<Field>)
    ensures t.Took? ==> |t.rest| < |s|
    decreases |s|, 2
  {
    var here := Skip(s);
    if here == "" || here[0] != '\"' then Bad
    else
      var key := ReadChars(here[1..]);
      if key.Bad? then Bad
      else
        var colon := Skip(key.rest);
        if colon == "" || colon[0] != ':' then Bad
        else
          var value := ReadValue(colon[1..]);
          if value.Took? then Took(Field(key.value, value.value), value.rest) else Bad
  }

  function ReadFields(s: string): (t: Taken<seq<Field>>)
    ensures t.Took? ==> |t.rest| < |s|
    decreases |s|, 3
  {
    var first := ReadField(s);
    if first.Bad? then Bad
    else
      var rest := Skip(first.rest);
      if rest == "" then Bad
      else if rest[0] == '}' then Took([first.value], rest[1..])
      else if rest[0] != ',' then Bad
      else
        var more := ReadFields(rest[1..]);
        if more.Took? then Took([first.value] + more.value, more.rest) else Bad
  }

  /** A text that is one value and nothing else. */
  function Read(s: string): Option<Json> {
    var t := ReadValue(s);
    if t.Took? && Skip(t.rest) == "" then Some(t.value) else None
  }

  // ---------------------------------------------------------------- numbers read back

  predicate NoDigitFirst(s: string) {
    s == "" || !Decimal.IsDigit(s[0])
  }

  lemma {:induction false} RunOf(digits: string, tail: string)
    requires Decimal.AllDigits(digits) && NoDigitFirst(tail)
    ensures Run(digits + tail) == |digits|
  {
    if digits == "" {
      assert digits + tail == tail;
    } else {
      RunOf(digits[1..], tail);
      assert (digits + tail)[1..] == digits[1..] + tail;
    }
  }

  /** A text that does not go on with a number. */
  predicate Ends(s: string) {
    s == "" || (!Decimal.IsDigit(s[0]) && s[0] !in {'.', 'e', 'E'})
  }

  lemma ReadDigits(d: string, tail: string)
    requires Decimal.AllDigits(d) && d != "" && (d[0] == '0' ==> |d| == 1) && Ends(tail)
    ensures ReadNat(d + tail) == Took(Decimal.Magnitude(d), tail)
  {
    RunOf(d, tail);
    assert (d + tail)[..|d|] == d && (d + tail)[|d|..] == tail;
  }

  lemma DigitsProper(n: nat)
    ensures var d := Decimal.Digits(n); Decimal.Magnitude(d) == n && (d[0] == '0' ==> |d| == 1)
  {
    Decimal.MagnitudeDigits(n);
    Decimal.DigitsMagnitude(Decimal.Digits(n));
  }

  lemma ReadNegative(s: string)
    ensures ReadInt("-" + s) == if ReadNat(s).Took? then Took(-ReadNat(s).value, ReadNat(s).rest) else Bad
  {
    assert ("-" + s)[1..] == s;
  }

  lemma ReadPrinted(n: int, tail: string)
    requires Ends(tail)
    ensures ReadInt(Decimal.Print(n) + tail) == Took(n, tail)
  {
    var m := if n < 0 then -n else n;
    var d := Decimal.Digits(m);
    DigitsProper(m);
    ReadDigits(d, tail);
    if n < 0 {
      Associative("-", d, tail);
      ReadNegative(d + tail);
    } else {
      NotSigned(d, tail);
    }
  }

  lemma NotSigned(d: string, tail: string)
    requires Decimal.AllDigits(d) && d != ""
    ensures ReadInt(d + tail) == ReadNat(d + tail)
  {
    assert (d + tail)[0] == d[0];
  }

  // ---------------------------------------------------------------- strings read back

  lemma HexDigit(n: nat)
    requires n < 16
    ensures HexValue(HEX_DIGITS[n]) == Some(n)
  {
  }

  lemma ReadLowUnit(a: char, h: char, n: nat, tail: string)
    requires (a == '0' || a == '1') && HexValue(h) == Some(n)
    ensures ReadUnit(['0', '0', a, h] + tail) == Took(if a == '0' then n else n + 16, tail)
  {
    assert (['0', '0', a, h] + tail)[4..] == tail;
  }

  lemma ReadUnitEscape(s: string)
    ensures ReadChar("\\u" + s) == ReadCode(s)
  {
    assert ("\\u" + s)[2..] == s;
  }

  lemma ControlText(c: char, a: char, h: char)
    requires c < ' ' && h == HEX_DIGITS[if c as int < 16 then c as int else c as int - 16]
    requires a == if c as int < 16 then '0' else '1'
    ensures ControlEscape(c) == "\\u" + ['0', '0', a, h]
  {
    assert "\\u000" + [h] == "\\u" + ['0', '0', '0', h];
    assert "\\u001" + [h] == "\\u" + ['0', '0', '1', h];
  }

  lemma ReadEscapedControl(c: char, tail: string)
    requires c < ' '
    ensures ReadChar(ControlEscape(c) + tail) == Took(c, tail)
  {
    var n := c as int;
    var a, h := if n < 16 then '0' else '1', HEX_DIGITS[n % 16];
    HexDigit(n % 16);
    assert n < 16 ==> n % 16 == n;
    assert n >= 16 ==> n % 16 == n - 16;
    ControlText(c, a, h);
    Associative("\\u", ['0', '0', a, h], tail);
    ReadUnitEscape(['0', '0', a, h] + tail);
    ReadLowUnit(a, h, n % 16, tail);
  }

  lemma ReadEscaped(c: char, tail: string)
    ensures ReadChar(EscapeChar(c) + tail) == Took(c, tail)
    ensures EscapeChar(c) != "" && EscapeChar(c)[0] != '\"'
  {
    var s := EscapeChar(c) + tail;
    if |EscapeChar(c)| == 1 {
      assert s[1..] == tail;
    } else if |EscapeChar(c)| == 2 {
      assert s[2..] == tail;
    } else if c < ' ' {
      ReadEscapedControl(c, tail);
    } else {
      assert s[2..][4..] == tail;
    }
  }

  lemma {:induction false} EscapeFirst(s: string)
    requires s != ""
    ensures Escape(s) == EscapeChar(s[0]) + Escape(s[1..])
  {
    var n := |s| - 1;
    if n > 0 {
      EscapeFirst(s[..n]);
      assert s[..n][1..] == s[1..][..n - 1];
      Associative(EscapeChar(s[0]), Escape(s[1..][..n - 1]), EscapeChar(s[n]));
    } else {
      assert s[..0] == "" && s[1..] == "";
    }
  }

  lemma OneMoreChar(s: string, c: char, rest: string, more: string, tail: string)
    requires s != "" && s[0] != '\"' && ReadChar(s) == Took(c, rest) && ReadChars(rest) == Took(more, tail)
    ensures ReadChars(s) == Took([c] + more, tail)
  {
  }

  lemma ClosingQuote(tail: string)
    ensures ReadChars("\"" + tail) == Took("", tail)
  {
    assert ("\"" + tail)[1..] == tail;
  }

  /** A string and its closing quotation mark. */
  lemma {:induction false} ReadEscape(s: string, tail: string)
    ensures ReadChars(Escape(s) + ("\"" + tail)) == Took(s, tail)
  {
    var end := "\"" + tail;
    if s == "" {
      ClosingQuote(tail);
      assert Escape(s) + end == end;
    } else {
      var rest := Escape(s[1..]) + end;
      ReadEscape(s[1..], tail);
      ReadEscaped(s[0], rest);
      OneMoreChar(EscapeChar(s[0]) + rest, s[0], rest, s[1..], tail);
      EscapeFirst(s);
      Associative(EscapeChar(s[0]), Escape(s[1..]), end);
      assert s == [s[0]] + s[1..];
    }
  }

  // ---------------------------------------------------------------- documents read back

  predicate NoSpaceFirst(s: string) {
    s == "" || !IsSpace(s[0])
  }

  /** The text of a value begins with the first character of its kind. */
  lemma MarshalFirst(j: Json)
    ensures Marshal(j) != "" && NoSpaceFirst(Marshal(j)) && Marshal(j)[0] !in {']', '}', ',', ':'}
  {
    var ls := Lexemes(j);
    assert Spell(ls) == SpellOne(ls[0]) + Spell(ls[1..]);
    if j.Num? {
      PrintFirst(j.n);
    }
  }

  lemma PrintFirst(n: int)
    ensures Decimal.Print(n) != "" && (Decimal.Print(n)[0] == '-' || Decimal.IsDigit(Decimal.Print(n)[0]))
  {
    assert Decimal.IsDigit(Decimal.Digits(if n < 0 then -n else n)[0]);
  }

  lemma WrittenArr(elems: seq<Json>)
    ensures Marshal(Arr(elems)) == "[" + Spell(ElemLexemes(elems)) + "]"
  {
    SpellAppend([Raw("[")] + ElemLexemes(elems), [Raw("]")]);
    SpellAppend([Raw("[")], ElemLexemes(elems));
    SpellOnly("[");
    SpellOnly("]");
  }

  lemma WrittenObj(fields: seq<Field>)
    ensures Marshal(Obj(fields)) == "{" + Spell(FieldLexemes(fields)) + "}"
  {
    SpellAppend([Raw("{")] + FieldLexemes(fields), [Raw("}")]);
    SpellAppend([Raw("{")], FieldLexemes(fields));
    SpellOnly("{");
    SpellOnly("}");
  }

  lemma SpellOnly(p: string)
    ensures Spell([Raw(p)]) == p
  {
    SpellCons(Raw(p), []);
  }

  lemma SpellThree(a: seq<Lexeme>, b: seq<Lexeme>, c: seq<Lexeme>)
    ensures Spell(a + b + c) == Spell(a) + Spell(b) + Spell(c)
  {
    SpellAppend(a + b, c);
    SpellAppend(a, b);
  }

  function Comma(more: bool): seq<Lexeme> {
    if more then [Raw(",")] else []
  }

  lemma SpellComma(more: bool)
    ensures Spell(Comma(more)) == if more then "," else ""
  {
    SpellOnly(",");
  }

  lemma WrittenElems(elems: seq<Json>)
    requires elems != []
    ensures Spell(ElemLexemes(elems))
            == Marshal(elems[0]) + (if |elems| > 1 then "," else "") + Spell(ElemLexemes(elems[1..]))
  {
    SpellThree(Lexemes(elems[0]), Comma(|elems| > 1), ElemLexemes(elems[1..]));
    SpellComma(|elems| > 1);
  }

  lemma WrittenKey(key: string)
    ensures Spell([Key(Escape(key)), Raw(":")]) == Quoted(Escape(key)) + ":"
  {
    SpellCons(Key(Escape(key)), [Raw(":")]);
    assert [Key(Escape(key))] + [Raw(":")] == [Key(Escape(key)), Raw(":")];
    SpellOnly(":");
  }

  lemma WrittenFields(fields: seq<Field>)
    requires fields != []
    ensures Spell(FieldLexemes(fields))
            == Quoted(Escape(fields[0].key)) + ":" + Marshal(fields[0].value) + (if |fields| > 1 then "," else "")
               + Spell(FieldLexemes(fields[1..]))
  {
    var key, value := [Key(Escape(fields[0].key)), Raw(":")], Lexemes(fields[0].value);
    SpellAppend(key + value + Comma(|fields| > 1), FieldLexemes(fields[1..]));
    SpellThree(key, value, Comma(|fields| > 1));
    SpellComma(|fields| > 1);
    WrittenKey(fields[0].key);
  }

  lemma ReadLiterals(tail: string)
    ensures ReadHere("null" + tail) == Took(Null, tail)
    ensures ReadHere("true" + tail) == Took(Bool(true), tail)
    ensures ReadHere("false" + tail) == Took(Bool(false), tail)
  {
    assert ("null" + tail)[4..] == tail && ("true" + tail)[4..] == tail && ("false" + tail)[5..] == tail;
    assert Begins("null" + tail, "null") && Begins("true" + tail, "true") && Begins("false" + tail, "false");
    OtherWord("true" + tail, "null");
    OtherWord("false" + tail, "null");
    OtherWord("false" + tail, "true");
  }

  lemma OtherWord(s: string, word: string)
    requires s != "" && word != "" && s[0] != word[0]
    ensures !Begins(s, word)
  {
  }

  /** Only words begin with n, t or f. */
  lemma NotAWord(s: string)
    requires s != "" && s[0] !in {'n', 't', 'f'}
    ensures !Begins(s, "null") && !Begins(s, "true") && !Begins(s, "false")
  {
  }

  lemma ReadNumber(n: int, tail: string)
    requires Ends(tail)
    ensures ReadHere(Decimal.Print(n) + tail) == Took(Num(n), tail)
  {
    var s := Decimal.Print(n) + tail;
    PrintFirst(n);
    ReadPrinted(n, tail);
    assert s[0] == Decimal.Print(n)[0];
    NotAWord(s);
  }

  lemma ReadQuoted(s: string, tail: string)
    ensures var all := Quoted(Escape(s)) + tail; ReadChars(all[1..]) == Took(s, tail) && all[0] == '\"'
  {
    ReadEscape(s, tail);
    BehindQuote(Escape(s), tail);
  }

  lemma BehindQuote(text: string, tail: string)
    ensures (Quoted(text) + tail)[0] == '\"' && (Quoted(text) + tail)[1..] == text + ("\"" + tail)
  {
  }

  lemma ReadString(s: string, tail: string)
    ensures ReadHere(Quoted(Escape(s)) + tail) == Took(Text(s), tail)
  {
    ReadQuoted(s, tail);
    NotAWord(Quoted(Escape(s)) + tail);
  }

  lemma ReadEmpties(tail: string)
    ensures ReadHere("[]" + tail) == Took(Arr([]), tail) && ReadHere("{}" + tail) == Took(Obj([]), tail)
  {
    NotAWord("[]" + tail);
    NotAWord("{}" + tail);
    assert ("[]" + tail)[1..] == "]" + tail && ("{}" + tail)[1..] == "}" + tail;
    assert ("]" + tail)[1..] == tail && ("}" + tail)[1..] == tail;
  }

  lemma ReadArr(x: string, elems: seq<Json>, tail: string)
    requires var inner := x + ("]" + tail);
             inner != "" && !IsSpace(inner[0]) && inner[0] != ']' && ReadElems(inner) == Took(elems, tail)
    ensures ReadHere("[" + x + "]" + tail) == Took(Arr(elems), tail)
  {
    Enclosed("[", x, "]", tail);
    ReadArrHere(x + ("]" + tail));
  }

  lemma ReadArrHere(inner: string)
    requires inner != "" && !IsSpace(inner[0]) && inner[0] != ']' && ReadElems(inner).Took?
    ensures ReadHere("[" + inner) == Took(Arr(ReadElems(inner).value), ReadElems(inner).rest)
  {
    NotAWord("[" + inner);
    assert ("[" + inner)[1..] == inner;
  }

  lemma ReadObj(x: string, fields: seq<Field>, tail: string)
    requires var inner := x + ("}" + tail);
             inner != "" && !IsSpace(inner[0]) && inner[0] != '}' && ReadFields(inner) == Took(fields, tail)
    ensures ReadHere("{" + x + "}" + tail) == Took(Obj(fields), tail)
  {
    Enclosed("{", x, "}", tail);
    ReadObjHere(x + ("}" + tail));
  }

  lemma ReadObjHere(inner: string)
    requires inner != "" && !IsSpace(inner[0]) && inner[0] != '}' && ReadFields(inner).Took?
    ensures ReadHere("{" + inner) == Took(Obj(ReadFields(inner).value), ReadFields(inner).rest)
  {
    NotAWord("{" + inner);
    assert ("{" + inner)[1..] == inner;
  }

  lemma LastElem(s: string, v: Json, tail: string)
    requires ReadValue(s) == Took(v, "]" + tail)
    ensures ReadElems(s) == Took([v], tail)
  {
    assert ("]" + tail)[1..] == tail;
  }

  lemma NextElem(s: string, v: Json, rest: string, more: seq<Json>, tail: string)
    requires ReadValue(s) == Took(v, "," + rest) && ReadElems(rest) == Took(more, tail)
    ensures ReadElems(s) == Took([v] + more, tail)
  {
    assert ("," + rest)[1..] == rest;
  }

  lemma LastField(s: string, f: Field, tail: string)
    requires ReadField(s) == Took(f, "}" + tail)
    ensures ReadFields(s) == Took([f], tail)
  {
    assert ("}" + tail)[1..] == tail;
  }

  lemma NextField(s: string, f: Field, rest: string, more: seq<Field>, tail: string)
    requires ReadField(s) == Took(f, "," + rest) && ReadFields(rest) == Took(more, tail)
    ensures ReadFields(s) == Took([f] + more, tail)
  {
    assert ("," + rest)[1..] == rest;
  }

  lemma OneField(key: string, value: string, v: Json, tail: string)
    requires ReadValue(value) == Took(v, tail)
    ensures ReadField(Quoted(Escape(key)) + (":" + value)) == Took(Field(key, v), tail)
  {
    ReadQuoted(key, ":" + value);
    assert (":" + value)[1..] == value;
  }

  lemma LastNamed(f: Field, value: string, tail: string)
    requires ReadValue(value) == Took(f.value, "}" + tail)
    ensures ReadFields(Quoted(Escape(f.key)) + (":" + value)) == Took([f], tail)
  {
    OneField(f.key, value, f.value, "}" + tail);
    LastField(Quoted(Escape(f.key)) + (":" + value), f, tail);
  }

  lemma NextNamed(f: Field, value: string, rest: string, more: seq<Field>, tail: string)
    requires ReadValue(value) == Took(f.value, "," + rest) && ReadFields(rest) == Took(more, tail)
    ensures ReadFields(Quoted(Escape(f.key)) + (":" + value)) == Took([f] + more, tail)
  {
    OneField(f.key, value, f.value, "," + rest);
    NextField(Quoted(Escape(f.key)) + (":" + value), f, rest, more, tail);
  }

  lemma Here(s: string)
    requires NoSpaceFirst(s)
    ensures ReadValue(s) == ReadHere(s)
  {
  }

  lemma Enclosed(open: string, inner: string, close: string, tail: string)
    ensures open + inner + close + tail == open + (inner + (close + tail))
  {
  }

  /** The first element, and what stands behind it. */
  lemma ElemsText(elems: seq<Json>, end: string)
    requires elems != []
    ensures Spell(ElemLexemes(elems)) + end
            == Marshal(elems[0]) + if |elems| == 1 then end else "," + (Spell(ElemLexemes(elems[1..])) + end)
  {
    var first, more := Marshal(elems[0]), Spell(ElemLexemes(elems[1..]));
    WrittenElems(elems);
    if |elems| == 1 {
      assert first + "" + more == first;
    } else {
      Enclosed(first, ",", more, end);
    }
  }

  lemma FieldsText(fields: seq<Field>, end: string)
    requires fields != []
    ensures Spell(FieldLexemes(fields)) + end
            == Quoted(Escape(fields[0].key))
               + (":" + (Marshal(fields[0].value)
                         + if |fields| == 1 then end else "," + (Spell(FieldLexemes(fields[1..])) + end)))
  {
    var key, value, more := Quoted(Escape(fields[0].key)), Marshal(fields[0].value), Spell(FieldLexemes(fields[1..]));
    WrittenFields(fields);
    if |fields| == 1 {
      FieldAlone(key, value, more, end);
    } else {
      FieldThenMore(key, value, more, end);
    }
  }

  lemma FieldAlone(key: string, value: string, more: string, end: string)
    requires more == ""
    ensures key + ":" + value + "" + more + end == key + (":" + (value + end))
  {
    assert key + ":" + value + "" + more == key + ":" + value;
    Enclosed(key, ":", value, end);
  }

  lemma FieldThenMore(key: string, value: string, more: string, end: string)
    ensures key + ":" + value + "," + more + end == key + (":" + (value + ("," + (more + end))))
  {
    Enclosed(key + ":" + value, ",", more, end);
    Enclosed(key, ":", value, "," + (more + end));
  }

  lemma ElemsFirst(elems: seq<Json>, end: string)
    requires elems != []
    ensures var s := Spell(ElemLexemes(elems)) + end; s != "" && !IsSpace(s[0]) && s[0] != ']'
  {
    ElemsText(elems, end);
    MarshalFirst(elems[0]);
  }

  lemma FieldsFirst(fields: seq<Field>, end: string)
    requires fields != []
    ensures var s := Spell(FieldLexemes(fields)) + end; s != "" && s[0] == '\"'
  {
    FieldsText(fields, end);
  }

  /** What may follow a value does not go on with a number. */
  lemma Delimited(s: string)
    ensures Ends("," + s) && Ends("]" + s) && Ends("}" + s)
  {
  }

  /** Every document reads back from its text, whatever follows it. */
  lemma {:induction false} ReadBack(j: Json, tail: string)
    requires Ends(tail)
    ensures ReadValue(Marshal(j) + tail) == Took(j, tail)
    decreases j, 0
  {
    MarshalFirst(j);
    Here(Marshal(j) + tail);
    match j
    case Arr(elems) => ReadBackArr(elems, tail);
    case Obj(fields) => ReadBackObj(fields, tail);
    case _ => ReadBackLeaf(j, tail);
  }

  lemma SpellText(s: string)
    ensures Marshal(Text(s)) == Quoted(Escape(s))
  {
    SpellQuoted(Escape(s));
  }

  lemma SpellQuoted(text: string)
    ensures Spell([Str(text)]) == Quoted(text)
  {
    SpellCons(Str(text), []);
    assert [Str(text)] + [] == [Str(text)];
    assert Spell([]) == "";
  }

  lemma ReadBackLeaf(j: Json, tail: string)
    requires Ends(tail) && !j.Arr? && !j.Obj?
    ensures ReadHere(Marshal(j) + tail) == Took(j, tail)
  {
    match j
    case Null =>
      SpellOnly("null");
      ReadLiterals(tail);
    case Bool(b) =>
      SpellOnly(if b then "true" else "false");
      ReadLiterals(tail);
    case Num(n) =>
      SpellOnly(Decimal.Print(n));
      ReadNumber(n, tail);
    case Text(s) =>
      SpellText(s);
      ReadString(s, tail);
  }

  lemma {:induction false} ReadBackArr(elems: seq<Json>, tail: string)
    ensures ReadHere(Marshal(Arr(elems)) + tail) == Took(Arr(elems), tail)
    decreases elems, 1
  {
    WrittenArr(elems);
    if elems == [] {
      ReadEmpties(tail);
    } else {
      ReadBackElems(elems, tail);
      ElemsFirst(elems, "]" + tail);
      ReadArr(Spell(ElemLexemes(elems)), elems, tail);
    }
  }

  lemma {:induction false} ReadBackElems(elems: seq<Json>, tail: string)
    requires elems != []
    ensures ReadElems(Spell(ElemLexemes(elems)) + ("]" + tail)) == Took(elems, tail)
    decreases elems, 0
  {
    var end := "]" + tail;
    var rest := Spell(ElemLexemes(elems[1..])) + end;
    ElemsText(elems, end);
    Delimited(tail);
    Delimited(rest);
    if |elems| == 1 {
      ReadBack(elems[0], end);
      LastElem(Marshal(elems[0]) + end, elems[0], tail);
      assert elems == [elems[0]];
    } else {
      ReadBackElems(elems[1..], tail);
      ReadBack(elems[0], "," + rest);
      NextElem(Marshal(elems[0]) + ("," + rest), elems[0], rest, elems[1..], tail);
      assert elems == [elems[0]] + elems[1..];
    }
  }

  lemma {:induction false} ReadBackObj(fields: seq<Field>, tail: string)
    ensures ReadHere(Marshal(Obj(fields)) + tail) == Took(Obj(fields), tail)
    decreases fields, 1
  {
    WrittenObj(fields);
    if fields == [] {
      ReadEmpties(tail);
    } else {
      ReadBackFields(fields, tail);
      FieldsFirst(fields, "}" + tail);
      ReadObj(Spell(FieldLexemes(fields)), fields, tail);
    }
  }

  lemma {:induction false} ReadBackFields(fields: seq<Field>, tail: string)
    requires fields != []
    ensures ReadFields(Spell(FieldLexemes(fields)) + ("}" + tail)) == Took(fields, tail)
    decreases fields, 0
  {
    var end, f := "}" + tail, fields[0];
    var rest := Spell(FieldLexemes(fields[1..])) + end;
    FieldsText(fields, end);
    Delimited(tail);
    Delimited(rest);
    if |fields| == 1 {
      ReadBack(f.value, end);
      LastNamed(f, Marshal(f.value) + end, tail);
      assert fields == [f];
    } else {
      ReadBackFields(fields[1..], tail);
      ReadBack(f.value, "," + rest);
      NextNamed(f, Marshal(f.value) + ("," + rest), rest, fields[1..], tail);
      assert fields == [f] + fields[1..];
    }
  }

  /** Every document reads back from its text. */
  lemma ReadMarshal(j: Json)
    ensures Read(Marshal(j)) == Some(j)
  {
    ReadBack(j, "");
    assert Marshal(j) + "" == Marshal(j);
  }
}
