/** What resolving and rendering a template means for the document, and the template object itself. */
module QueryTemplate {
  import Decimal
  import JsonText

  import opened Index
  import opened Json
  import opened Sets
  import opened Template

  // ---------------------------------------------------------------- substitution in documents

  /** `values` are by name; a place holder without one stays. */
  function Subst(j: Json, names: map<string, string>, values: map<string, Json>): Json {
    match j
    case Text(s) => if s in names && names[s] in values then values[names[s]] else j
    case Arr(elems) => Arr(SubstAll(elems, names, values))
    case Obj(fields) => Obj(SubstFields(fields, names, values))
    case _ => j
  }

  function SubstAll(elems: seq<Json>, names: map<string, string>, values: map<string, Json>): (r: seq<Json>)
    ensures |r| == |elems|
  {
    if elems == [] then [] else [Subst(elems[0], names, values)] + SubstAll(elems[1..], names, values)
  }

  function SubstFields(fields: seq<Field>, names: map<string, string>, values: map<string, Json>): (r: seq<Field>)
    ensures |r| == |fields|
  {
    if fields == [] then []
    else [Field(fields[0].key, Subst(fields[0].value, names, values))] + SubstFields(fields[1..], names, values)
  }

  lemma {:induction false} EscapeUnneeded(s: string)
    requires forall i :: 0 <= i < |s| ==> EscapeChar(s[i]) == [s[i]]
    ensures Escape(s) == s
  {
    if s != "" {
      EscapeUnneeded(s[..|s| - 1]);
      assert s == s[..|s| - 1] + [s[|s| - 1]];
    }
  }

  lemma TokenUnescaped(s: string)
    requires IsToken(s)
    ensures forall i :: 0 <= i < |s| ==> EscapeChar(s[i]) == [s[i]]
  {
  }

  /** Escaping neither makes nor hides a place holder. */
  lemma EscapedToken(s: string, names: map<string, string>)
    requires Bindings(names)
    ensures Escape(s) in names <==> s in names
    ensures s in names ==> Escape(s) == s
  {
    if s in names {
      TokenUnescaped(s);
      EscapeUnneeded(s);
    }
    TokensPlainlyWritten(names);
    PlainEscape(s);
    assert Escape(s) in names ==> '\\' !in Escape(s);
  }

  lemma FillCons(l: Lexeme, ls: seq<Lexeme>, names: map<string, string>, values: map<string, Json>)
    ensures Fill([l] + ls, names, values) == FillOne(l, names, values) + Fill(ls, names, values)
  {
    assert ([l] + ls)[1..] == ls;
  }

  lemma FillAppendStep(l: Lexeme, rest: seq<Lexeme>, b: seq<Lexeme>, names: map<string, string>,
                       values: map<string, Json>)
    requires Fill(rest + b, names, values) == Fill(rest, names, values) + Fill(b, names, values)
    ensures Fill([l] + rest + b, names, values) == Fill([l] + rest, names, values) + Fill(b, names, values)
  {
    FillCons(l, rest, names, values);
    FillCons(l, rest + b, names, values);
    Associative([l], rest, b);
    Associative(FillOne(l, names, values), Fill(rest, names, values), Fill(b, names, values));
  }

  lemma {:induction false} FillAppend(a: seq<Lexeme>, b: seq<Lexeme>, names: map<string, string>,
                                      values: map<string, Json>)
    ensures Fill(a + b, names, values) == Fill(a, names, values) + Fill(b, names, values)
  {
    if a == [] {
      assert a + b == b;
    } else {
      FillAppend(a[1..], b, names, values);
      FillAppendStep(a[0], a[1..], b, names, values);
      assert a == [a[0]] + a[1..];
    }
  }

  lemma FillOther(l: Lexeme, names: map<string, string>, values: map<string, Json>)
    requires !l.Str?
    ensures Fill([l], names, values) == [l]
  {
  }

  lemma {:induction false} FillLexemes(j: Json, names: map<string, string>, values: map<string, Json>)
    requires Bindings(names)
    ensures Fill(Lexemes(j), names, values) == Lexemes(Subst(j, names, values))
  {
    match j
    case Text(s) =>
      EscapedToken(s, names);
      assert Fill([Str(Escape(s))], names, values) == FillOne(Str(Escape(s)), names, values) + [];
    case Arr(elems) =>
      var inner := ElemLexemes(elems);
      FillElems(elems, names, values);
      FillAppend([Raw("[")] + inner, [Raw("]")], names, values);
      FillAppend([Raw("[")], inner, names, values);
      FillOther(Raw("["), names, values);
      FillOther(Raw("]"), names, values);
    case Obj(fields) =>
      var inner := FieldLexemes(fields);
      FillFields(fields, names, values);
      FillAppend([Raw("{")] + inner, [Raw("}")], names, values);
      FillAppend([Raw("{")], inner, names, values);
      FillOther(Raw("{"), names, values);
      FillOther(Raw("}"), names, values);
    case _ =>
      FillOther(Lexemes(j)[0], names, values);
  }

  function Comma(more: bool): seq<Lexeme> {
    if more then [Raw(",")] else []
  }

  lemma FillComma(more: bool, names: map<string, string>, values: map<string, Json>)
    ensures Fill(Comma(more), names, values) == Comma(more)
  {
    if more {
      FillOther(Raw(","), names, values);
    }
  }

  lemma {:induction false} FillElems(elems: seq<Json>, names: map<string, string>, values: map<string, Json>)
    requires Bindings(names)
    ensures Fill(ElemLexemes(elems), names, values) == ElemLexemes(SubstAll(elems, names, values))
  {
    if elems != [] {
      var first, comma, rest := Lexemes(elems[0]), Comma(|elems| > 1), ElemLexemes(elems[1..]);
      FillLexemes(elems[0], names, values);
      FillElems(elems[1..], names, values);
      assert ElemLexemes(elems) == first + comma + rest;
      FillAppend(first + comma, rest, names, values);
      FillAppend(first, comma, names, values);
      FillComma(|elems| > 1, names, values);
      var after := SubstAll(elems, names, values);
      assert after[0] == Subst(elems[0], names, values) && after[1..] == SubstAll(elems[1..], names, values);
      assert ElemLexemes(after) == Lexemes(after[0]) + comma + ElemLexemes(after[1..]);
    }
  }

  lemma {:induction false} FillFields(fields: seq<Field>, names: map<string, string>, values: map<string, Json>)
    requires Bindings(names)
    ensures Fill(FieldLexemes(fields), names, values) == FieldLexemes(SubstFields(fields, names, values))
  {
    if fields != [] {
      var key, first := [Key(Escape(fields[0].key)), Raw(":")], Lexemes(fields[0].value);
      var comma, rest := Comma(|fields| > 1), FieldLexemes(fields[1..]);
      FillLexemes(fields[0].value, names, values);
      FillFields(fields[1..], names, values);
      assert FieldLexemes(fields) == key + first + comma + rest;
      FillAppend(key + first + comma, rest, names, values);
      FillAppend(key + first, comma, names, values);
      FillAppend(key, first, names, values);
      FillKey(Escape(fields[0].key), names, values);
      FillComma(|fields| > 1, names, values);
      var after := SubstFields(fields, names, values);
      assert after[0].key == fields[0].key && after[0].value == Subst(fields[0].value, names, values);
      assert after[1..] == SubstFields(fields[1..], names, values);
      assert FieldLexemes(after) == key + Lexemes(after[0].value) + comma + FieldLexemes(after[1..]);
    }
  }

  lemma FillKey(text: string, names: map<string, string>, values: map<string, Json>)
    ensures Fill([Key(text), Raw(":")], names, values) == [Key(text), Raw(":")]
  {
    FillAppend([Key(text)], [Raw(":")], names, values);
    FillOther(Key(text), names, values);
    FillOther(Raw(":"), names, values);
    assert [Key(text), Raw(":")] == [Key(text)] + [Raw(":")];
  }

  // ---------------------------------------------------------------- how documents are written

  lemma WrittenAppend(a: seq<Lexeme>, b: seq<Lexeme>)
    requires Written(a) && Written(b)
    ensures Written(a + b)
  {
  }

  lemma DigitsPlain(n: int)
    ensures AllPlain(Decimal.Print(n))
  {
    var s := Decimal.Print(n);
    forall i | 0 <= i < |s|
      ensures Plain(s[i])
    {
      assert s[i] == '-' || Decimal.IsDigit(s[i]);
    }
  }

  lemma {:induction false} DocumentWritten(j: Json)
    ensures Written(Lexemes(j))
  {
    match j
    case Num(n) => DigitsPlain(n);
    case Text(s) => QuotesEscaped(s);
    case Arr(elems) => ElemsWritten(elems);
    case Obj(fields) => FieldsWritten(fields);
    case _ =>
  }

  lemma {:induction false} ElemsWritten(elems: seq<Json>)
    ensures Written(ElemLexemes(elems))
  {
    if elems != [] {
      DocumentWritten(elems[0]);
      ElemsWritten(elems[1..]);
      WrittenAppend(Lexemes(elems[0]), Comma(|elems| > 1));
      WrittenAppend(Lexemes(elems[0]) + Comma(|elems| > 1), ElemLexemes(elems[1..]));
    }
  }

  lemma {:induction false} FieldsWritten(fields: seq<Field>)
    ensures Written(FieldLexemes(fields))
  {
    if fields != [] {
      var key := [Key(Escape(fields[0].key)), Raw(":")];
      QuotesEscaped(fields[0].key);
      assert Written(key);
      DocumentWritten(fields[0].value);
      FieldsWritten(fields[1..]);
      var first := Lexemes(fields[0].value);
      WrittenAppend(key, first);
      WrittenAppend(key + first, Comma(|fields| > 1));
      WrittenAppend(key + first + Comma(|fields| > 1), FieldLexemes(fields[1..]));
    }
  }

  // ---------------------------------------------------------------- when rendering is substitution

  function Rendered(j: Json, names: map<string, string>, values: map<string, Json>): Option<string> {
    var scanned := Scan(Marshal(j), names);
    if scanned.Pieces? then RenderText(scanned.slices, MarshalAll(values)) else None
  }

  ghost predicate Complete(names: map<string, string>, values: map<string, Json>) {
    forall t :: t in names ==> names[t] in values
  }

  /** The rendered text is, whatever the values are, the text of the document with the values in
      place of the place holders. */
  ghost predicate Faithful(j: Json, names: map<string, string>) {
    forall values :: Complete(names, values) ==> Rendered(j, names, values) == Some(Marshal(Subst(j, names, values)))
  }

  lemma ProperRenders(j: Json, names: map<string, string>, values: map<string, Json>)
    requires Bindings(names) && Proper(Lexemes(j), names) && Named(Lexemes(j), names)
    ensures Rendered(j, names, values)
            == if Covered(Lexemes(j), names, values) then Some(Marshal(Subst(j, names, values))) else None
    ensures Scan(Marshal(j), names).Pieces? && Scan(Marshal(j), names).matches == TokensIn(Lexemes(j), names)
  {
    DocumentWritten(j);
    ScanProper("", Lexemes(j), names, values);
    assert "" + Spell(Lexemes(j)) == Marshal(j);
    FillLexemes(j, names, values);
    assert "" + Spell(Fill(Lexemes(j), names, values)) == Marshal(Subst(j, names, values));
  }

  /** How many place holders with a name the scan cuts out. */
  function Cuts(src: string, names: map<string, string>): nat
    decreases |src|
  {
    var v := Find(src);
    if v == -1 || !MatchAt(src, v, names) || Cut(src, v, names).None? then 0
    else
      var (slice, rest) := Cut(src, v, names).value;
      Cuts(rest, names) + if slice.name == "" then 0 else 1
  }

  /** How much text is lost to place holders without a name. */
  function Loss(src: string, names: map<string, string>): nat
    decreases |src|
  {
    var v := Find(src);
    if v == -1 || !MatchAt(src, v, names) || Cut(src, v, names).None? then 0
    else
      var (slice, rest) := Cut(src, v, names).value;
      Loss(rest, names) + if slice.name == "" then v + TOKEN_SIZE + 1 else 0
  }

  /** Pieces hold no prefix, so neither does a rendering with plain values. */
  lemma {:induction false} RenderedFree(src: string, names: map<string, string>, m: map<string, string>)
    requires forall t :: t in names ==> names[t] in m && AllPlain(m[names[t]]) && m[names[t]] != ""
    requires Scan(src, names).Pieces? && Loss(src, names) == 0
    ensures var r := RenderText(Scan(src, names).slices, m); r.Some? && Free(r.value)
    decreases |src|
  {
    var v := Find(src);
    FindFirst(src);
    if v == -1 {
      RenderLast(src, m);
    } else {
      var token, rest := src[v..v + TOKEN_SIZE], src[v + TOKEN_SIZE + 1..];
      var data, name := src[..v - 1], names[src[v..v + TOKEN_SIZE]];
      RenderedFree(rest, names, m);
      ScanStep(src, v, names);
      RenderCons(Slice(name, data), Scan(rest, names).slices, m);
      RenderFirst(name, data, m);
      BeforeFirst(src, v, v - 1);
      PlainTail(data, m[name]);
      FreeJoin(data + m[name], RenderText(Scan(rest, names).slices, m).value);
    }
  }

  /** One or two characters for each of `n` values. */
  function Room(n: nat, long: bool): nat {
    if long then 2 * n else n
  }

  ghost predicate Sized(names: map<string, string>, m: map<string, string>, long: bool) {
    forall t :: t in names && names[t] != "" ==> names[t] in m && |m[names[t]]| == Room(1, long)
  }

  lemma RenderedPiece(slice: Slice, slices: seq<Slice>, m: map<string, string>)
    requires slice.name != "" ==> slice.name in m
    requires RenderText(slices, m).Some?
    ensures var r := RenderText([slice] + slices, m);
            r.Some? && |r.value|
              == |slice.data| + (if slice.name == "" then 0 else |m[slice.name]|) + |RenderText(slices, m).value|
  {
    RenderCons(slice, slices, m);
    assert [slice][..0] == [];
  }

  /** How long a rendering is. */
  lemma {:induction false} RenderedSize(src: string, names: map<string, string>, m: map<string, string>, long: bool)
    requires Sized(names, m, long) && Scan(src, names).Pieces?
    ensures var r := RenderText(Scan(src, names).slices, m);
            r.Some? && |r.value| + Room(Cuts(src, names), true) + 41 * Cuts(src, names) + Loss(src, names)
                       == |src| + Room(Cuts(src, names), long)
    decreases |src|
  {
    var v := Find(src);
    if v == -1 {
      RenderLast(src, m);
    } else {
      var (slice, rest) := Cut(src, v, names).value;
      RenderedSize(rest, names, m, long);
      RenderedPiece(slice, Scan(rest, names).slices, m);
    }
  }

  lemma RenderLast(src: string, m: map<string, string>)
    ensures RenderText(if src == "" then [] else [Slice("", src)], m) == Some(src)
  {
    EndPiece(src, map[]);
    var slices := [Slice("", src)];
    assert slices[..0] == [];
    assert "" + src == src;
  }

  lemma BeforeFirst(src: string, v: int, n: nat)
    requires FirstAt(src, v) && n <= v
    ensures Free(src[..n])
  {
    forall u
      ensures !At(src[..n], u)
    {
      assert At(src[..n], u) ==> At(src, u);
    }
  }

  lemma PrefixInside(a: string, b: string, c: string)
    requires !Free(b)
    ensures !Free(a + b + c)
  {
    var u :| At(b, u);
    assert At(a + b + c, |a| + u);
  }

  lemma {:induction false} PrefixStays(ls: seq<Lexeme>, i: nat, names: map<string, string>, values: map<string, Json>)
    requires i < |ls| && !Holds(ls[i], names) && !ls[i].Raw? && !Free(ls[i].text)
    ensures !Free(Spell(Fill(ls, names, values)))
  {
    var first, rest := FillOne(ls[0], names, values), Fill(ls[1..], names, values);
    if i == 0 {
      SpellCons(ls[0], rest);
      PrefixInside("\"", ls[0].text, "\"");
      PrefixInside("", SpellOne(ls[0]), Spell(rest));
      assert "" + SpellOne(ls[0]) == SpellOne(ls[0]);
    } else {
      SpellAppend(first, rest);
      PrefixStays(ls[1..], i - 1, names, values);
      PrefixInside(Spell(first), Spell(rest), "");
      assert Spell(first) + Spell(rest) + "" == Spell(first) + Spell(rest);
    }
  }

  lemma SmallNumbers()
    ensures Marshal(Num(0)) == "0" && Marshal(Num(10)) == "10" && AllPlain("0")
  {
    assert Decimal.Print(0) == "0" && Decimal.Digits(1) == "1" && Decimal.Print(10) == "10";
    SpellCons(Raw("0"), []);
    SpellCons(Raw("10"), []);
  }

  /** With zeros for values, a document that is not proper renders to something else. */
  lemma ImproperDiffers(j: Json, names: map<string, string>, zeros: map<string, Json>)
    requires Bindings(names) && !Proper(Lexemes(j), names) && Loss(Marshal(j), names) == 0
    requires Complete(names, zeros) && forall n :: n in zeros ==> zeros[n] == Num(0)
    ensures Rendered(j, names, zeros) != Some(Marshal(Subst(j, names, zeros)))
  {
    var ls := Lexemes(j);
    var i :| 0 <= i < |ls| && !ProperOne(ls[i], names);
    TokenReading(ls[i].text, names);
    FindFirst(ls[i].text);
    PrefixStays(ls, i, names, zeros);
    FillLexemes(j, names, zeros);
    SmallNumbers();
    if Scan(Marshal(j), names).Pieces? {
      RenderedFree(Marshal(j), names, MarshalAll(zeros));
    }
  }

  /** How many place holders the document has. */
  function HolderCount(ls: seq<Lexeme>, names: map<string, string>): nat {
    if ls == [] then 0 else HolderCount(ls[1..], names) + if Holds(ls[0], names) then 1 else 0
  }

  ghost predicate SizedValues(names: map<string, string>, values: map<string, Json>, long: bool) {
    forall t :: t in names ==> names[t] in values && |Marshal(values[names[t]])| == Room(1, long)
  }

  lemma {:induction false} FilledSize(ls: seq<Lexeme>, names: map<string, string>, values: map<string, Json>,
                                      long: bool)
    requires Bindings(names) && SizedValues(names, values, long)
    ensures |Spell(Fill(ls, names, values))| + Room(HolderCount(ls, names), true) + 41 * HolderCount(ls, names)
            == |Spell(ls)| + Room(HolderCount(ls, names), long)
  {
    if ls != [] {
      var first, rest := FillOne(ls[0], names, values), Fill(ls[1..], names, values);
      FilledSize(ls[1..], names, values, long);
      SpellAppend(first, rest);
      if Holds(ls[0], names) {
        assert IsToken(ls[0].text);
      } else {
        SpellCons(ls[0], []);
      }
    }
  }

  /** The same value for every name. */
  function Uniform(names: map<string, string>, v: Json): map<string, Json> {
    map n | n in names.Values :: v
  }

  lemma UniformSized(names: map<string, string>)
    ensures SizedValues(names, Uniform(names, Num(0)), false) && SizedValues(names, Uniform(names, Num(10)), true)
    ensures Complete(names, Uniform(names, Num(0))) && Complete(names, Uniform(names, Num(10)))
  {
    SmallNumbers();
  }

  lemma FaithfulFor(j: Json, names: map<string, string>, values: map<string, Json>)
    requires Faithful(j, names) && Complete(names, values)
    ensures Rendered(j, names, values) == Some(Marshal(Subst(j, names, values)))
  {
  }

  /** A document that renders faithfully loses nothing. */
  lemma FaithfulLosesNothing(j: Json, names: map<string, string>)
    requires Bindings(names) && Faithful(j, names)
    ensures Scan(Marshal(j), names).Pieces? && Loss(Marshal(j), names) == 0
  {
    UniformSized(names);
    FaithfulFor(j, names, Uniform(names, Num(0)));
    FaithfulFor(j, names, Uniform(names, Num(10)));
    SizesAgree(j, names, Uniform(names, Num(0)), false);
    SizesAgree(j, names, Uniform(names, Num(10)), true);
  }

  lemma SizesAgree(j: Json, names: map<string, string>, values: map<string, Json>, long: bool)
    requires Bindings(names) && SizedValues(names, values, long)
    requires Rendered(j, names, values) == Some(Marshal(Subst(j, names, values)))
    ensures Scan(Marshal(j), names).Pieces?
    ensures var (cuts, holders) := (Cuts(Marshal(j), names), HolderCount(Lexemes(j), names));
            Room(cuts, true) + 41 * cuts + Loss(Marshal(j), names) + Room(holders, long)
            == Room(holders, true) + 41 * holders + Room(cuts, long)
  {
    RenderedSize(Marshal(j), names, MarshalAll(values), long);
    FilledSize(Lexemes(j), names, values, long);
    FillLexemes(j, names, values);
  }

  lemma {:induction false} EmptyIgnored(slices: seq<Slice>, m: map<string, string>, m': map<string, string>)
    requires m.Keys == m'.Keys && forall n :: n in m && n != "" ==> m[n] == m'[n]
    ensures RenderText(slices, m) == RenderText(slices, m')
  {
    if slices != [] {
      EmptyIgnored(slices[..|slices| - 1], m, m');
    }
  }

  lemma {:induction false} LongerFilled(ls: seq<Lexeme>, names: map<string, string>, a: map<string, Json>,
                                        b: map<string, Json>)
    requires Complete(names, a) && Complete(names, b)
    requires forall t :: t in names ==>
               |Marshal(a[names[t]])| + (if names[t] == "" then 1 else 0) == |Marshal(b[names[t]])|
    ensures |Spell(Fill(ls, names, a))| <= |Spell(Fill(ls, names, b))|
    ensures !Named(ls, names) ==> |Spell(Fill(ls, names, a))| < |Spell(Fill(ls, names, b))|
  {
    if ls != [] {
      LongerFilled(ls[1..], names, a, b);
      SpellAppend(FillOne(ls[0], names, a), Fill(ls[1..], names, a));
      SpellAppend(FillOne(ls[0], names, b), Fill(ls[1..], names, b));
      NamedFirstOrLater(ls, names);
    }
  }

  lemma NamedFirstOrLater(ls: seq<Lexeme>, names: map<string, string>)
    requires ls != []
    ensures Named(ls, names) <==> (Holds(ls[0], names) ==> names[ls[0].text] != "") && Named(ls[1..], names)
  {
    if Named(ls[1..], names) && (Holds(ls[0], names) ==> names[ls[0].text] != "") {
      forall i | 0 <= i < |ls| && Holds(ls[i], names)
        ensures names[ls[i].text] != ""
      {
        assert i > 0 ==> ls[1..][i - 1] == ls[i];
      }
    }
  }

  lemma EmptyRendersAlike(j: Json, names: map<string, string>, a: map<string, Json>, b: map<string, Json>)
    requires a.Keys == b.Keys && forall n :: n in a && n != "" ==> a[n] == b[n]
    ensures Rendered(j, names, a) == Rendered(j, names, b)
  {
    if Scan(Marshal(j), names).Pieces? {
      EmptyIgnored(Scan(Marshal(j), names).slices, MarshalAll(a), MarshalAll(b));
    }
  }

  lemma EmptySubstDiffers(j: Json, names: map<string, string>, a: map<string, Json>, b: map<string, Json>)
    requires Bindings(names) && !Named(Lexemes(j), names) && Complete(names, a) && Complete(names, b)
    requires forall t :: t in names ==>
               |Marshal(a[names[t]])| + (if names[t] == "" then 1 else 0) == |Marshal(b[names[t]])|
    ensures Marshal(Subst(j, names, a)) != Marshal(Subst(j, names, b))
  {
    FillLexemes(j, names, a);
    FillLexemes(j, names, b);
    LongerFilled(Lexemes(j), names, a, b);
  }

  /** A value for the empty name is never put in. */
  lemma UnnamedUnfaithful(j: Json, names: map<string, string>)
    requires Bindings(names) && !Named(Lexemes(j), names)
    ensures !Faithful(j, names)
  {
    SmallNumbers();
    var a := Uniform(names, Num(0));
    var b: map<string, Json> := map n | n in names.Values :: if n == "" then Num(10) else Num(0);
    EmptyRendersAlike(j, names, a, b);
    EmptySubstDiffers(j, names, a, b);
    if Faithful(j, names) {
      FaithfulFor(j, names, a);
      FaithfulFor(j, names, b);
    }
  }

  /** Rendering is substitution exactly if no key holds the prefix, no string does except the place
      holders, and none of these is bound to the empty name. */
  lemma FaithfulExact(j: Json, names: map<string, string>)
    requires Bindings(names)
    ensures Faithful(j, names) <==> Proper(Lexemes(j), names) && Named(Lexemes(j), names)
  {
    if Proper(Lexemes(j), names) && Named(Lexemes(j), names) {
      forall values: map<string, Json> | Complete(names, values)
        ensures Rendered(j, names, values) == Some(Marshal(Subst(j, names, values)))
      {
        ProperRenders(j, names, values);
      }
    }
    if Faithful(j, names) {
      FaithfulLosesNothing(j, names);
      if !Proper(Lexemes(j), names) {
        ImproperDiffers(j, names, Uniform(names, Num(0)));
      }
      if !Named(Lexemes(j), names) {
        UnnamedUnfaithful(j, names);
      }
    }
  }

  // ---------------------------------------------------------------- the template object

  datatype Outcome = Resolved | TokenUndefined | Hangs | Crashes

  datatype RenderError = NotResolved | TokenNotFound

  datatype RenderResult = Rendering(text: string) | Failure(error: RenderError)

  ghost function NameOf(tmap: map<string, string>, token: string): string
    requires token in tmap.Values
  {
    var name :| name in tmap && tmap[name] == token;
    name
  }

  /** From place holders back to names. */
  ghost function Reverse(tmap: map<string, string>): map<string, string> {
    map t | t in tmap.Values :: NameOf(tmap, t)
  }

  /** Place holders are UUIDs behind the prefix, so no two names share one. */
  ghost predicate Tokens(tmap: map<string, string>) {
    && (forall n :: n in tmap ==> IsToken(tmap[n]))
    && (forall n, k :: n in tmap && k in tmap && tmap[n] == tmap[k] ==> n == k)
  }

  lemma ReverseNames(tmap: map<string, string>)
    requires Tokens(tmap)
    ensures forall n :: n in tmap ==> tmap[n] in Reverse(tmap) && Reverse(tmap)[tmap[n]] == n
    ensures Bindings(Reverse(tmap))
  {
  }

  /** Pieces already cut, in front of what the scan of the rest gives. */
  function Behind(slices: seq<Slice>, matches: set<string>, s: Scanned): Scanned {
    if s.Pieces? then Pieces(slices + s.slices, matches + s.matches) else s
  }

  lemma BehindPrepend(slices: seq<Slice>, matches: set<string>, slice: Slice, token: string, s: Scanned)
    ensures Behind(slices, matches, Prepend(slice, token, s)) == Behind(slices + [slice], matches + {token}, s)
  {
    if s.Pieces? {
      assert slices + ([slice] + s.slices) == slices + [slice] + s.slices;
      assert matches + ({token} + s.matches) == matches + {token} + s.matches;
    }
  }

  lemma {:induction false} MatchesBound(src: string, names: map<string, string>)
    ensures Scan(src, names).Pieces? ==> Scan(src, names).matches <= names.Keys
    decreases |src|
  {
    var v := Find(src);
    if v != -1 && MatchAt(src, v, names) && Cut(src, v, names).Some? {
      MatchesBound(Cut(src, v, names).value.1, names);
    }
  }

  lemma ScanCut(src: string, v: int, names: map<string, string>, slice: Slice, rest: string)
    requires Find(src) == v != -1 && MatchAt(src, v, names) && Cut(src, v, names) == Some((slice, rest))
    ensures |rest| < |src| && Scan(src, names) == Prepend(slice, src[v..v + TOKEN_SIZE], Scan(rest, names))
  {
  }

  /** The scanning loop of Resolve. */
  method ScanText(text: string, names: map<string, string>) returns (s: Scanned)
    ensures s == Scan(text, names)
  {
    var src := text;
    var slices: seq<Slice>, matches: set<string> := [], {};
    while Find(src) != -1
      invariant Behind(slices, matches, Scan(src, names)) == Scan(text, names)
      decreases |src|
    {
      var v := Find(src);
      if !MatchAt(src, v, names) {
        // what is kept starts with the prefix again, so every further pass is the same
        return Hang;
      }
      var token, slice := src[v..v + TOKEN_SIZE], Slice(names[src[v..v + TOKEN_SIZE]], src[..v - 1]);
      var rest := src[v + TOKEN_SIZE + 1..];
      if slice.name == "" {
        if v > |rest| {
          return Crash;
        }
        slice, rest := Slice("", rest[..v]), rest[v..];
      }
      ScanCut(src, v, names, slice, rest);
      BehindPrepend(slices, matches, slice, token, Scan(rest, names));
      src, slices, matches := rest, slices + [slice], matches + {token};
    }
    if |src| > 0 {
      slices := slices + [Slice("", src)];
    }
    s := Pieces(slices, matches);
  }

  class Tmpl {
    var tmap: map<string, string>
    var sseq: Option<seq<Slice>>

    constructor ()
      ensures tmap == map[] && sseq == None
    {
      tmap, sseq := map[], None;
    }

    /** `uuid` is the text of a new random UUID. */
    method Bind(name: string, uuid: string) returns (token: string)
      requires Tokens(tmap) && |uuid| == 36 && forall i :: 0 <= i < |uuid| ==> UuidChar(uuid[i])
      requires "TMPL." + uuid !in tmap.Values
      modifies this`tmap
      ensures token == "TMPL." + uuid && tmap == old(tmap)[name := token]
      ensures Tokens(tmap)
    {
      token := "TMPL." + uuid;
      tmap := tmap[name := token];
    }

    method ReverseMap() returns (rmap: map<string, string>)
      requires Tokens(tmap)
      ensures rmap == Reverse(tmap)
    {
      rmap := map[];
      var todo := tmap.Keys;
      while todo != {}
        invariant todo <= tmap.Keys
        invariant forall t :: t in rmap ==> rmap[t] in tmap.Keys - todo && tmap[rmap[t]] == t
        invariant forall n :: n in tmap.Keys - todo ==> tmap[n] in rmap
        decreases |todo|
      {
        var name :| name in todo;
        rmap := rmap[tmap[name] := name];
        todo := todo - {name};
      }
      assert rmap.Keys == tmap.Values;
    }

    method Resolve(doc: Json) returns (outcome: Outcome)
      requires Tokens(tmap)
      modifies this`sseq
      ensures match Scan(Marshal(doc), Reverse(tmap))
              case Hang => outcome == Hangs
              case Crash => outcome == Crashes
              case Pieces(slices, matches) =>
                if matches == tmap.Values then outcome == Resolved && sseq == Some(slices)
                else outcome == TokenUndefined
      ensures outcome != Resolved ==> sseq == old(sseq)
    {
      var names := ReverseMap();
      var scanned := ScanText(Marshal(doc), names);
      MatchesBound(Marshal(doc), names);
      if scanned == Hang {
        return Hangs;
      }
      if scanned == Crash {
        return Crashes;
      }
      assert names.Keys == tmap.Values;
      SubsetSize(scanned.matches, names.Keys);
      if |scanned.matches| != |names.Keys| {
        return TokenUndefined;
      }
      sseq := Some(scanned.slices);
      outcome := Resolved;
    }

    method Render(values: map<string, Json>) returns (r: RenderResult)
      ensures match sseq
              case None => r == Failure(NotResolved)
              case Some(slices) =>
                var text := RenderText(slices, MarshalAll(values));
                r == if text.Some? then Rendering(text.value) else Failure(TokenNotFound)
    {
      r := RenderMarshalled(MarshalAll(values));
    }

    method RenderOne(name: string, value: Json) returns (r: RenderResult)
      ensures match sseq
              case None => r == Failure(NotResolved)
              case Some(slices) =>
                var text := RenderText(slices, MarshalAll(map[name := value]));
                r == if text.Some? then Rendering(text.value) else Failure(TokenNotFound)
    {
      assert MarshalAll(map[name := value]) == map[name := Marshal(value)];
      r := RenderMarshalled(map[name := Marshal(value)]);
    }

    method RenderMarshalled(m: map<string, string>) returns (r: RenderResult)
      ensures match sseq
              case None => r == Failure(NotResolved)
              case Some(slices) =>
                var text := RenderText(slices, m);
                r == if text.Some? then Rendering(text.value) else Failure(TokenNotFound)
    {
      if sseq == None {
        return Failure(NotResolved);
      }
      var slices, buf := sseq.value, "";
      for i := 0 to |slices|
        invariant RenderText(slices[..i], m) == Some(buf)
      {
        assert slices[..i + 1][..i] == slices[..i];
        buf := buf + slices[i].data;
        if slices[i].name != "" {
          if slices[i].name !in m {
            MissingStays(slices, i, m);
            return Failure(TokenNotFound);
          }
          buf := buf + m[slices[i].name];
        }
      }
      assert slices[..|slices|] == slices;
      r := Rendering(buf);
    }
  }

  lemma {:induction false} MissingStays(slices: seq<Slice>, i: nat, m: map<string, string>)
    requires i < |slices| && RenderText(slices[..i + 1], m).None?
    ensures RenderText(slices, m).None?
    decreases |slices|
  {
    if i + 1 < |slices| {
      var n := |slices| - 1;
      assert slices[..n][..i + 1] == slices[..i + 1];
      MissingStays(slices[..n], i, m);
    } else {
      assert slices[..i + 1] == slices;
    }
  }

  /** A proper document in which every bound place holder occurs resolves, and renders to the
      document with the values put in exactly if every bound name has a value; a document in which
      one does not occur is refused. */
  lemma TemplateCorrect(doc: Json, tmap: map<string, string>, values: map<string, Json>)
    requires Tokens(tmap) && Proper(Lexemes(doc), Reverse(tmap)) && Named(Lexemes(doc), Reverse(tmap))
    ensures var (scanned, names, occurring) :=
              (Scan(Marshal(doc), Reverse(tmap)), Reverse(tmap), TokensIn(Lexemes(doc), Reverse(tmap)));
            && scanned.Pieces?
            && (scanned.matches == tmap.Values <==> forall n :: n in tmap ==> tmap[n] in occurring)
            && (scanned.matches == tmap.Values ==>
                 RenderText(scanned.slices, MarshalAll(values))
                 == if tmap.Keys <= values.Keys then Some(Marshal(Subst(doc, names, values))) else None)
  {
    var names, ls := Reverse(tmap), Lexemes(doc);
    ReverseNames(tmap);
    ProperRenders(doc, names, values);
    MatchesBound(Marshal(doc), names);
    if TokensIn(ls, names) == tmap.Values {
      if Covered(ls, names, values) {
        forall n | n in tmap
          ensures n in values
        {
          assert tmap[n] in TokensIn(ls, names);
        }
      }
    }
  }

  /** Read as JSON, the rendered text is the document with the values in place. */
  lemma RenderingReads(doc: Json, tmap: map<string, string>, values: map<string, Json>)
    requires Tokens(tmap) && Proper(Lexemes(doc), Reverse(tmap)) && Named(Lexemes(doc), Reverse(tmap))
    requires Scan(Marshal(doc), Reverse(tmap)).Pieces? && Scan(Marshal(doc), Reverse(tmap)).matches == tmap.Values
    ensures var text := RenderText(Scan(Marshal(doc), Reverse(tmap)).slices, MarshalAll(values));
            && (text.Some? <==> tmap.Keys <= values.Keys)
            && (text.Some? ==> JsonText.Read(text.value) == Some(Subst(doc, Reverse(tmap), values)))
  {
    TemplateCorrect(doc, tmap, values);
    JsonText.ReadMarshal(Subst(doc, Reverse(tmap), values));
  }
}
