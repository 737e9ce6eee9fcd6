/** JSON documents and their text, as the encoding/json package writes them. */
module Json {
  import Decimal

  datatype Field = Field(key: string, value: Json)

  /** The fields of an object are in the order they are written. */
  datatype Json =
    | Null
    | Bool(b: bool)
    | Num(n: int)
    | Text(s: string)
    | Arr(elems: seq<Json>)
    | Obj(fields: seq<Field>)

  const HEX_DIGITS := "0123456789abcdef"

  function ControlEscape(c: char): string
    requires c < ' '
  {
    var n := c as int;
    if n < 16 then "\\u000" + [HEX_DIGITS[n]] else "\\u001" + [HEX_DIGITS[n - 16]]
  }

  function EscapeChar(c: char): string {
    if c == '\"' then "\\\""
    else if c == '\\' then "\\\\"
    else if c == '\n' then "\\n"
    else if c == '\r' then "\\r"
    else if c == '\t' then "\\t"
    else if c == '<' then "\\u003c"
    else if c == '>' then "\\u003e"
    else if c == '&' then "\\u0026"
    else if c == '\U{2028}' then "\\u2028"
    else if c == '\U{2029}' then "\\u2029"
    else if c < ' ' then ControlEscape(c)
    else [c]
  }

  function Escape(s: string): string {
    if s == "" then "" else Escape(s[..|s| - 1]) + EscapeChar(s[|s| - 1])
  }

  /** Keys and strings are written in quotes, with the text between them escaped; everything else
      stands as it is. */
  datatype Lexeme = Raw(p: string) | Key(text: string) | Str(text: string)

  function Quoted(text: string): string {
    "\"" + text + "\""
  }

  function SpellOne(l: Lexeme): string {
    if l.Raw? then l.p else Quoted(l.text)
  }

  function Spell(ls: seq<Lexeme>): string {
    if ls == [] then "" else SpellOne(ls[0]) + Spell(ls[1..])
  }

  function Lexemes(j: Json): seq<Lexeme> {
    match j
    case Null => [Raw("null")]
    case Bool(b) => [Raw(if b then "true" else "false")]
    case Num(n) => [Raw(Decimal.Print(n))]
    case Text(s) => [Str(Escape(s))]
    case Arr(elems) => [Raw("[")] + ElemLexemes(elems) + [Raw("]")]
    case Obj(fields) => [Raw("{")] + FieldLexemes(fields) + [Raw("}")]
  }

  function ElemLexemes(elems: seq<Json>): seq<Lexeme> {
    if elems == [] then []
    else Lexemes(elems[0]) + (if |elems| > 1 then [Raw(",")] else []) + ElemLexemes(elems[1..])
  }

  function FieldLexemes(fields: seq<Field>): seq<Lexeme> {
    if fields == [] then []
    else
      [Key(Escape(fields[0].key)), Raw(":")] + Lexemes(fields[0].value)
      + (if |fields| > 1 then [Raw(",")] else []) + FieldLexemes(fields[1..])
  }

  function Marshal(j: Json): string {
    Spell(Lexemes(j))
  }

  lemma Associative<T>(a: seq<T>, b: seq<T>, c: seq<T>)
    ensures a + (b + c) == a + b + c
  {
  }

  lemma SpellCons(l: Lexeme, ls: seq<Lexeme>)
    ensures Spell([l] + ls) == SpellOne(l) + Spell(ls)
  {
    assert ([l] + ls)[1..] == ls;
  }

  lemma SpellAppendStep(l: Lexeme, rest: seq<Lexeme>, b: seq<Lexeme>)
    requires Spell(rest + b) == Spell(rest) + Spell(b)
    ensures Spell([l] + rest + b) == Spell([l] + rest) + Spell(b)
  {
    SpellCons(l, rest);
    SpellCons(l, rest + b);
    Associative([l], rest, b);
    Associative(SpellOne(l), Spell(rest), Spell(b));
  }

  lemma {:induction false} SpellAppend(a: seq<Lexeme>, b: seq<Lexeme>)
    ensures Spell(a + b) == Spell(a) + Spell(b)
  {
    if a == [] {
      assert a + b == b;
    } else {
      SpellAppend(a[1..], b);
      SpellAppendStep(a[0], a[1..], b);
      assert a == [a[0]] + a[1..];
    }
  }

  /** Inside quotes a quotation mark always stands behind a backslash. */
  ghost predicate QuotesBehindBackslash(text: string) {
    forall i :: 0 <= i < |text| && text[i] == '\"' ==> i > 0 && text[i - 1] == '\\'
  }

  lemma QuotesJoin(a: string, b: string)
    requires QuotesBehindBackslash(a) && QuotesBehindBackslash(b)
    ensures QuotesBehindBackslash(a + b)
  {
  }

  lemma CharEscaped(c: char)
    ensures QuotesBehindBackslash(EscapeChar(c))
    ensures EscapeChar(c) == [c] || '\\' in EscapeChar(c)
  {
  }

  lemma {:induction false} QuotesEscaped(s: string)
    ensures QuotesBehindBackslash(Escape(s))
  {
    if s != "" {
      var n := |s| - 1;
      QuotesEscaped(s[..n]);
      CharEscaped(s[n]);
      QuotesJoin(Escape(s[..n]), EscapeChar(s[n]));
    }
  }

  /** Text without a backslash stands for itself. */
  lemma {:induction false} PlainEscape(s: string)
    ensures '\\' !in Escape(s) ==> Escape(s) == s
  {
    if s != "" {
      var n := |s| - 1;
      PlainEscape(s[..n]);
      CharEscaped(s[n]);
      assert s == s[..n] + [s[n]];
    }
  }
}
