/**
 Query templates: a document is marshalled once with place holders in it, cut at the place holders,
 and rendered many times with values between the pieces.
 */
module Template {
  import opened Index
  import opened Json

  const TOKEN_SIZE := 41  // the prefix and the text of a UUID

  /** The place holder prefix, TMPL and a dot, stands at position `v`. */
  predicate At(s: string, v: int) {
    && 0 <= v && v + 5 <= |s|
    && s[v] == 'T' && s[v + 1] == 'M' && s[v + 2] == 'P' && s[v + 3] == 'L' && s[v + 4] == '.'
  }

  predicate Plain(c: char) {
    c != 'T' && c != 'M' && c != 'P' && c != 'L' && c != '.'
  }

  predicate UuidChar(c: char) {
    '0' <= c <= '9' || 'a' <= c <= 'f' || c == '-'
  }

  predicate IsToken(t: string) {
    |t| == TOKEN_SIZE && At(t, 0) && forall i :: 5 <= i < |t| ==> UuidChar(t[i])
  }

  function FindFrom(s: string, from: nat): (r: int)
    ensures r == -1 || (r >= from && At(s, r))
    ensures forall v :: from <= v && (r == -1 || v < r) ==> !At(s, v)
    decreases |s| - from
  {
    if from + 5 > |s| then -1 else if At(s, from) then from else FindFrom(s, from + 1)
  }

  /** The first place the prefix stands, or -1. */
  function Find(s: string): int {
    FindFrom(s, 0)
  }

  ghost predicate Free(s: string) {
    forall v :: !At(s, v)
  }

  // ---------------------------------------------------------------- the scan

  datatype Slice = Slice(name: string, data: string)

  /** What scanning comes to: the pieces and the place holders met, a loop that never ends, or a
      slice out of range. */
  datatype Scanned = Pieces(slices: seq<Slice>, matches: set<string>) | Hang | Crash

  /** A bound place holder, in quotes, starts at `v`; `names` maps place holders to names. */
  predicate MatchAt(src: string, v: int, names: map<string, string>)
    requires At(src, v)
  {
    && v > 0 && src[v - 1] == '\"' && |src| >= v + TOKEN_SIZE + 1 && src[v + TOKEN_SIZE] == '\"'
    && src[v..v + TOKEN_SIZE] in names
  }

  function Prepend(slice: Slice, token: string, s: Scanned): Scanned {
    if s.Pieces? then Pieces([slice] + s.slices, {token} + s.matches) else s
  }

  /** The piece in front of a matched place holder and what is left behind it.  An empty name reads
      as no match at all, with the place holder already cut off. */
  function Cut(src: string, v: int, names: map<string, string>): (c: Option<(Slice, string)>)
    requires At(src, v) && MatchAt(src, v, names)
    ensures c.Some? ==> |c.value.1| < |src|
  {
    var name, rest := names[src[v..v + TOKEN_SIZE]], src[v + TOKEN_SIZE + 1..];
    if name != "" then Some((Slice(name, src[..v - 1]), rest))
    else if v > |rest| then None
    else Some((Slice("", rest[..v]), rest[v..]))
  }

  function Scan(src: string, names: map<string, string>): Scanned
    decreases |src|
  {
    var v := Find(src);
    if v == -1 then Pieces(if src == "" then [] else [Slice("", src)], {})
    else if !MatchAt(src, v, names) then Hang
    else
      var cut := Cut(src, v, names);
      if cut.None? then Crash else Prepend(cut.value.0, src[v..v + TOKEN_SIZE], Scan(cut.value.1, names))
  }

  /** How far the loop has come after some number of passes. */
  datatype Progress = Running(src: string) | Left | Crashed

  /** One pass of the loop: without a match it keeps everything from the prefix on. */
  function Pass(p: Progress, names: map<string, string>): Progress {
    if !p.Running? then p
    else
      var v := Find(p.src);
      if v == -1 then Left
      else if !MatchAt(p.src, v, names) then Running(p.src[v..])
      else
        var cut := Cut(p.src, v, names);
        if cut.None? then Crashed else Running(cut.value.1)
  }

  function Passes(p: Progress, names: map<string, string>, n: nat): Progress
    decreases n
  {
    if n == 0 then p else Passes(Pass(p, names), names, n - 1)
  }

  /** A prefix that starts the text and is not matched is found again and again. */
  lemma {:induction false} StuckForever(src: string, names: map<string, string>, n: nat)
    requires At(src, 0)
    ensures Passes(Running(src), names, n) == Running(src)
  {
    assert src[0..] == src;
    if n > 0 {
      StuckForever(src, names, n - 1);
    }
  }

  lemma {:induction false} PassesEnd(p: Progress, names: map<string, string>, n: nat)
    requires !p.Running?
    ensures Passes(p, names, n) == p
  {
    if n > 0 {
      PassesEnd(p, names, n - 1);
    }
  }

  lemma {:induction false} HangForever(src: string, names: map<string, string>, n: nat)
    requires Scan(src, names).Hang?
    ensures Passes(Running(src), names, n).Running?
    decreases n
  {
    if n > 0 {
      var v := Find(src);
      if !MatchAt(src, v, names) {
        StuckForever(src[v..], names, n - 1);
      } else {
        HangForever(Pass(Running(src), names).src, names, n - 1);
      }
    }
  }

  /** A pass that goes on leaves less to scan, with the same end. */
  lemma PassShrinks(src: string, names: map<string, string>)
    requires !Scan(src, names).Hang?
    ensures var next := Pass(Running(src), names);
            if next.Running? then
              && |next.src| < |src| && !Scan(next.src, names).Hang?
              && (Scan(next.src, names).Crash? <==> Scan(src, names).Crash?)
            else next == if Scan(src, names).Crash? then Crashed else Left
  {
  }

  lemma {:induction false} EndsInTime(src: string, names: map<string, string>)
    requires !Scan(src, names).Hang?
    ensures Passes(Running(src), names, |src| + 1) == if Scan(src, names).Crash? then Crashed else Left
    decreases |src|
  {
    var next := Pass(Running(src), names);
    PassShrinks(src, names);
    assert Passes(Running(src), names, |src| + 1) == Passes(next, names, |src|);
    if next.Running? {
      EndsInTime(next.src, names);
      Longer(next, names, |next.src| + 1, |src|);
    } else {
      PassesEnd(next, names, |src|);
    }
  }

  lemma {:induction false} Longer(p: Progress, names: map<string, string>, m: nat, n: nat)
    requires m <= n && !Passes(p, names, m).Running?
    ensures Passes(p, names, n) == Passes(p, names, m)
    decreases m
  {
    if m == 0 {
      PassesEnd(p, names, n);
    } else {
      Longer(Pass(p, names), names, m - 1, n - 1);
    }
  }

  /** The scan runs forever exactly if it comes upon a prefix that is not a bound place holder. */
  lemma HangExact(src: string, names: map<string, string>)
    ensures Scan(src, names).Hang? <==> forall n: nat :: Passes(Running(src), names, n).Running?
  {
    if Scan(src, names).Hang? {
      forall n: nat
        ensures Passes(Running(src), names, n).Running?
      {
        HangForever(src, names, n);
      }
    } else {
      EndsInTime(src, names);
    }
  }

  // ---------------------------------------------------------------- rendering

  function RenderText(slices: seq<Slice>, values: map<string, string>): Option<string> {
    if slices == [] then Some("")
    else
      var n := |slices| - 1;
      var (before, last) := (RenderText(slices[..n], values), slices[n]);
      if before.None? then None
      else if last.name == "" then Some(before.value + last.data)
      else if last.name in values then Some(before.value + last.data + values[last.name])
      else None
  }

  lemma {:induction false} RenderCons(first: Slice, slices: seq<Slice>, values: map<string, string>)
    ensures var (head, tail) := (RenderText([first], values), RenderText(slices, values));
            RenderText([first] + slices, values)
            == if head.None? || tail.None? then None else Some(head.value + tail.value)
  {
    if slices == [] {
      assert [first] + slices == [first];
      assert RenderText([first], values).Some? ==>
             RenderText([first], values).value + "" == RenderText([first], values).value;
    } else {
      var n := |slices| - 1;
      RenderCons(first, slices[..n], values);
      assert ([first] + slices)[..n + 1] == [first] + slices[..n];
      assert ([first] + slices)[n + 1] == slices[n];
      var head, before, last := RenderText([first], values), RenderText(slices[..n], values), slices[n];
      if head.Some? && before.Some? {
        assert head.value + before.value + last.data == head.value + (before.value + last.data);
        if last.name in values {
          assert head.value + before.value + last.data + values[last.name]
              == head.value + (before.value + last.data + values[last.name]);
        }
      }
    }
  }

  // ---------------------------------------------------------------- where the prefix stands

  predicate EndsPlain(s: string) {
    s == "" || Plain(s[|s| - 1])
  }

  predicate AllPlain(s: string) {
    forall i :: 0 <= i < |s| ==> Plain(s[i])
  }

  lemma FreeJoin(a: string, b: string)
    requires Free(a) && EndsPlain(a)
    ensures forall v :: At(a + b, v) <==> v >= |a| && At(b, v - |a|)
  {
    var c := a + b;
    forall v
      ensures At(c, v) <==> v >= |a| && At(b, v - |a|)
    {
      assert !At(a, v);
      if 0 <= v < |a| {
        assert c[|a| - 1] == a[|a| - 1];
        assert v + 5 <= |a| && At(c, v) ==> At(a, v);
      }
      assert At(c, v) && v >= |a| ==> At(b, v - |a|);
    }
  }

  lemma PlainTail(a: string, p: string)
    requires Free(a) && AllPlain(p)
    ensures Free(a + p)
    ensures EndsPlain(a) ==> EndsPlain(a + p)
  {
    var c := a + p;
    forall v
      ensures !At(c, v)
    {
      assert !At(a, v);
      assert 0 <= v && v + 5 <= |a| && At(c, v) ==> At(a, v);
      assert |a| <= v + 4 < |c| ==> c[v + 4] == p[v + 4 - |a|];
    }
  }

  /** How the text between quotes looks to the scan. */
  datatype Reading = Clean | Token | Misread | Foreign

  function ReadingOf(e: string, names: map<string, string>): Reading {
    var v := Find(e);
    if v == -1 then Clean
    else if |e| != v + TOKEN_SIZE || e[v..] !in names then Foreign
    else if v == 0 then Token
    else if e[v - 1] == '\"' then Misread
    else Foreign
  }

  ghost predicate Bindings(names: map<string, string>) {
    forall t :: t in names ==> IsToken(t)
  }

  /** The text is not taken for a place holder that is bound to the empty name. */
  predicate NamedText(e: string, names: map<string, string>) {
    var r := ReadingOf(e, names);
    r.Token? || r.Misread? ==> names[e[Find(e)..]] != ""
  }

  ghost predicate FirstAt(s: string, v: int) {
    At(s, v) && forall u :: u < v ==> !At(s, u)
  }

  lemma FindFirst(s: string)
    ensures Find(s) == -1 <==> Free(s)
    ensures Find(s) != -1 ==> FirstAt(s, Find(s))
    ensures forall v :: FirstAt(s, v) ==> Find(s) == v
  {
  }

  lemma CleanString(acc: string, e: string)
    requires Free(acc) && Free(e)
    ensures Free(acc + Quoted(e)) && EndsPlain(acc + Quoted(e))
  {
    PlainTail(acc, "\"");
    var a := acc + "\"";
    FreeJoin(a, e);
    assert Free(a + e);
    PlainTail(a + e, "\"");
    assert acc + Quoted(e) == a + e + "\"";
  }

  lemma FirstExtends(e: string, v: int, tail: string)
    requires FirstAt(e, v)
    ensures FirstAt(e + tail, v)
  {
    forall u | u < v
      ensures !At(e + tail, u)
    {
      assert !At(e, u);
    }
  }

  lemma FirstBehind(a: string, b: string, v: int)
    requires Free(a) && EndsPlain(a) && FirstAt(b, v)
    ensures FirstAt(a + b, |a| + v)
  {
    FreeJoin(a, b);
  }

  lemma FoundInString(acc: string, e: string, v: int, tail: string)
    requires Free(acc) && FirstAt(e, v)
    ensures FirstAt(acc + Quoted(e) + tail, |acc| + 1 + v)
  {
    PlainTail(acc, "\"");
    FirstExtends(e, v, "\"" + tail);
    FirstBehind(acc + "\"", e + ("\"" + tail), v);
    assert acc + Quoted(e) + tail == acc + "\"" + (e + ("\"" + tail));
  }

  /** A place holder has no quotation mark and no backslash in it. */
  predicate TokenChars(t: string) {
    forall i :: 0 <= i < |t| ==> t[i] != '\"' && t[i] != '\\'
  }

  lemma TokensPlainlyWritten(names: map<string, string>)
    requires Bindings(names)
    ensures forall t :: t in names ==> TokenChars(t)
  {
    forall t | t in names
      ensures TokenChars(t)
    {
      assert IsToken(t);
    }
  }

  /** The scan takes a string for a place holder exactly if its text ends in one that stands behind
      a quotation mark. */
  lemma MatchInString(src: string, acc: string, e: string, w: int, tail: string, names: map<string, string>)
    requires src == acc + Quoted(e) + tail && At(e, w) && At(src, |acc| + 1 + w)
    requires Bindings(names) && QuotesBehindBackslash(e)
    ensures MatchAt(src, |acc| + 1 + w, names)
            <==> |e| == w + TOKEN_SIZE && e[w..] in names && (w == 0 || e[w - 1] == '\"')
  {
    var v := |acc| + 1 + w;
    Placed(acc, e, tail);
    if |e| == w + TOKEN_SIZE {
      assert src[v..v + TOKEN_SIZE] == e[w..];
    } else {
      NoMatch(src, v, e, w, names);
    }
  }

  lemma Placed(acc: string, e: string, tail: string)
    ensures var src := acc + Quoted(e) + tail;
            && |src| > |acc| + 1 + |e| && src[|acc|] == '\"' && src[|acc| + 1 + |e|] == '\"'
            && forall i :: 0 <= i < |e| ==> src[|acc| + 1 + i] == e[i]
  {
  }

  /** Text that a quotation mark cuts short, or that goes on behind one, is no place holder. */
  lemma NoMatch(src: string, v: int, e: string, w: nat, names: map<string, string>)
    requires At(src, v) && Bindings(names) && QuotesBehindBackslash(e) && w <= |e| && |e| != w + TOKEN_SIZE
    requires |src| > v + |e| - w && src[v + |e| - w] == '\"'
    requires forall i :: w <= i < |e| ==> src[v - w + i] == e[i]
    ensures !MatchAt(src, v, names)
  {
    if |src| >= v + TOKEN_SIZE + 1 {
      TokensPlainlyWritten(names);
      var t := src[v..v + TOKEN_SIZE];
      if |e| < w + TOKEN_SIZE {
        assert t[|e| - w] == '\"';
      } else if src[v + TOKEN_SIZE] == '\"' {
        assert src[v - w + (w + TOKEN_SIZE)] == e[w + TOKEN_SIZE];
        assert src[v - w + (w + TOKEN_SIZE - 1)] == e[w + TOKEN_SIZE - 1];
        assert t[TOKEN_SIZE - 1] == '\\';
      }
    }
  }

  // ---------------------------------------------------------------- scanning a document

  function Reads(l: Lexeme, names: map<string, string>): Reading {
    if l.Raw? then Clean else ReadingOf(l.text, names)
  }

  ghost predicate WrittenOne(l: Lexeme) {
    if l.Raw? then AllPlain(l.p) else QuotesBehindBackslash(l.text)
  }

  /** What documents are written with. */
  ghost predicate Written(ls: seq<Lexeme>) {
    forall i :: 0 <= i < |ls| ==> WrittenOne(ls[i])
  }

  lemma ScanStep(src: string, v: int, names: map<string, string>)
    requires FirstAt(src, v)
    ensures !MatchAt(src, v, names) ==> Scan(src, names) == Hang
    ensures MatchAt(src, v, names) && names[src[v..v + TOKEN_SIZE]] != "" ==>
              var token := src[v..v + TOKEN_SIZE];
              Scan(src, names)
                == Prepend(Slice(names[token], src[..v - 1]), token, Scan(src[v + TOKEN_SIZE + 1..], names))
  {
    FindFirst(src);
  }

  /** The parts of a text in which a place holder of text `e[w..]` ends a string. */
  lemma PartsOfMatch(acc: string, e: string, w: nat, tail: string)
    requires |e| == w + TOKEN_SIZE
    ensures var (src, v) := (acc + Quoted(e) + tail, |acc| + 1 + w);
            && src[v..v + TOKEN_SIZE] == e[w..]
            && src[v + TOKEN_SIZE + 1..] == tail
            && src[..v - 1] == (acc + "\"" + e)[..|acc| + w]
  {
  }

  lemma ScanHere(src: string, v: int, data: string, token: string, tail: string, names: map<string, string>)
    requires FirstAt(src, v) && MatchAt(src, v, names) && token in names && names[token] != ""
    requires src[v..v + TOKEN_SIZE] == token && src[v + TOKEN_SIZE + 1..] == tail && src[..v - 1] == data
    ensures Scan(src, names) == Prepend(Slice(names[token], data), token, Scan(tail, names))
  {
    ScanStep(src, v, names);
  }

  lemma ScanQuoted(acc: string, e: string, w: int, tail: string, names: map<string, string>)
    requires Free(acc) && Bindings(names) && FirstAt(e, w) && QuotesBehindBackslash(e)
    ensures var scanned := Scan(acc + Quoted(e) + tail, names);
            if |e| == w + TOKEN_SIZE && e[w..] in names && (w == 0 || e[w - 1] == '\"') then
              names[e[w..]] != "" ==>
                scanned == Prepend(Slice(names[e[w..]], (acc + "\"" + e)[..|acc| + w]), e[w..], Scan(tail, names))
            else scanned == Hang
  {
    var src, v := acc + Quoted(e) + tail, |acc| + 1 + w;
    FoundInString(acc, e, w, tail);
    MatchInString(src, acc, e, w, tail, names);
    if !MatchAt(src, v, names) {
      ScanStep(src, v, names);
    } else if names[e[w..]] != "" {
      PartsOfMatch(acc, e, w, tail);
      ScanHere(src, v, (acc + "\"" + e)[..|acc| + w], e[w..], tail, names);
    }
  }

  lemma ScanString(acc: string, e: string, tail: string, names: map<string, string>)
    requires Free(acc) && Bindings(names) && QuotesBehindBackslash(e)
    requires !ReadingOf(e, names).Clean? && NamedText(e, names)
    ensures var (scanned, w) := (Scan(acc + Quoted(e) + tail, names), Find(e));
            if ReadingOf(e, names).Foreign? then scanned == Hang
            else scanned == Prepend(Slice(names[e[w..]], (acc + "\"" + e)[..|acc| + w]), e[w..], Scan(tail, names))
  {
    FindFirst(e);
    ScanQuoted(acc, e, Find(e), tail, names);
  }

  /** Past a string that is taken for a place holder, the scan ends as the scan of the rest does. */
  lemma ScanPast(acc: string, e: string, tail: string, names: map<string, string>)
    requires Free(acc) && Bindings(names) && QuotesBehindBackslash(e)
    requires !ReadingOf(e, names).Clean? && NamedText(e, names)
    ensures var (scanned, rest) := (Scan(acc + Quoted(e) + tail, names), Scan(tail, names));
            && (scanned.Hang? <==> ReadingOf(e, names).Foreign? || rest.Hang?)
            && (scanned.Crash? ==> rest.Crash?)
  {
    ScanString(acc, e, tail, names);
  }

  lemma ScanClean(acc: string, l: Lexeme, names: map<string, string>)
    requires Free(acc) && Reads(l, names).Clean? && WrittenOne(l)
    ensures Free(acc + SpellOne(l))
  {
    if l.Raw? {
      PlainTail(acc, l.p);
    } else {
      FindFirst(l.text);
      CleanString(acc, l.text);
    }
  }

  ghost predicate HasForeign(ls: seq<Lexeme>, names: map<string, string>) {
    exists i :: 0 <= i < |ls| && Reads(ls[i], names).Foreign?
  }

  lemma ForeignFirstOrLater(ls: seq<Lexeme>, names: map<string, string>)
    requires ls != []
    ensures HasForeign(ls, names) <==> Reads(ls[0], names).Foreign? || HasForeign(ls[1..], names)
  {
    if HasForeign(ls[1..], names) {
      var i :| 0 <= i < |ls[1..]| && Reads(ls[1..][i], names).Foreign?;
      assert ls[i + 1] == ls[1..][i];
    }
    if i :| 0 <= i < |ls| && Reads(ls[i], names).Foreign? && i > 0 {
      assert ls[1..][i - 1] == ls[i];
    }
  }

  ghost predicate AllNamed(ls: seq<Lexeme>, names: map<string, string>) {
    forall i :: 0 <= i < |ls| && !ls[i].Raw? ==> NamedText(ls[i].text, names)
  }

  /** The scan of a document runs forever exactly if one of its strings or keys is foreign; it never
      slices out of range. */
  lemma {:induction false} DocumentHangs(acc: string, ls: seq<Lexeme>, names: map<string, string>)
    requires Free(acc) && Written(ls) && Bindings(names) && AllNamed(ls, names)
    ensures Scan(acc + Spell(ls), names).Hang? <==> HasForeign(ls, names)
    ensures !Scan(acc + Spell(ls), names).Crash?
    decreases |ls|
  {
    if ls == [] {
      FindFirst(acc);
      assert acc + Spell(ls) == acc;
    } else {
      ForeignFirstOrLater(ls, names);
      var one, tail := SpellOne(ls[0]), Spell(ls[1..]);
      Associative(acc, one, tail);
      if Reads(ls[0], names).Clean? {
        ScanClean(acc, ls[0], names);
        DocumentHangs(acc + one, ls[1..], names);
      } else {
        ScanPast(acc, ls[0].text, tail, names);
        DocumentHangs("", ls[1..], names);
        assert "" + tail == tail;
      }
    }
  }

  /** Why names must not be empty: a document that is just a place holder bound to the empty name is
      sliced out of range. */
  lemma EmptyNameCrashes(token: string, names: map<string, string>)
    requires Bindings(names) && token in names && names[token] == ""
    ensures Scan(Quoted(token), names) == Crash
  {
    FindFirst(Quoted(token));
    assert FirstAt(Quoted(token), 1);
    assert Quoted(token)[1..1 + TOKEN_SIZE] == token;
  }

  // ---------------------------------------------------------------- rendering is substitution

  /** A key is written out, a string is either written out or a place holder. */
  predicate ProperOne(l: Lexeme, names: map<string, string>) {
    Reads(l, names).Clean? || (l.Str? && Reads(l, names).Token?)
  }

  ghost predicate Proper(ls: seq<Lexeme>, names: map<string, string>) {
    forall i :: 0 <= i < |ls| ==> ProperOne(ls[i], names)
  }

  predicate Holds(l: Lexeme, names: map<string, string>) {
    l.Str? && l.text in names
  }

  /** No place holder in the document is bound to the empty name. */
  ghost predicate Named(ls: seq<Lexeme>, names: map<string, string>) {
    forall i :: 0 <= i < |ls| && Holds(ls[i], names) ==> names[ls[i].text] != ""
  }

  function FillOne(l: Lexeme, names: map<string, string>, values: map<string, Json>): seq<Lexeme> {
    if Holds(l, names) && names[l.text] in values then Lexemes(values[names[l.text]]) else [l]
  }

  function Fill(ls: seq<Lexeme>, names: map<string, string>, values: map<string, Json>): seq<Lexeme> {
    if ls == [] then [] else FillOne(ls[0], names, values) + Fill(ls[1..], names, values)
  }

  function TokensIn(ls: seq<Lexeme>, names: map<string, string>): set<string> {
    set i | 0 <= i < |ls| && Holds(ls[i], names) :: ls[i].text
  }

  ghost predicate Covered(ls: seq<Lexeme>, names: map<string, string>, values: map<string, Json>) {
    forall i :: 0 <= i < |ls| && Holds(ls[i], names) ==> names[ls[i].text] in values
  }

  function MarshalAll(values: map<string, Json>): map<string, string> {
    map n | n in values :: Marshal(values[n])
  }

  /** The text of a string reads as a place holder exactly if it is one. */
  lemma TokenReading(e: string, names: map<string, string>)
    requires Bindings(names)
    ensures ReadingOf(e, names).Token? <==> e in names
    ensures e in names ==> Find(e) == 0
  {
    FindFirst(e);
    assert e[0..] == e;
    if e in names {
      assert IsToken(e);
      assert FirstAt(e, 0);
    }
  }

  lemma CoveredFirstOrLater(ls: seq<Lexeme>, names: map<string, string>, values: map<string, Json>)
    requires ls != []
    ensures Covered(ls, names, values)
            <==> (Holds(ls[0], names) ==> names[ls[0].text] in values) && Covered(ls[1..], names, values)
    ensures TokensIn(ls, names) == TokensIn(ls[1..], names) + if Holds(ls[0], names) then {ls[0].text} else {}
  {
    assert forall i :: 0 <= i < |ls[1..]| ==> ls[1..][i] == ls[i + 1];
    if Covered(ls[1..], names, values) && (Holds(ls[0], names) ==> names[ls[0].text] in values) {
      forall i | 0 <= i < |ls| && Holds(ls[i], names)
        ensures names[ls[i].text] in values
      {
        assert i > 0 ==> ls[1..][i - 1] == ls[i];
      }
    }
    forall t | t in TokensIn(ls, names)
      ensures t in TokensIn(ls[1..], names) || (Holds(ls[0], names) && t == ls[0].text)
    {
      var i :| 0 <= i < |ls| && Holds(ls[i], names) && ls[i].text == t;
      assert i > 0 ==> ls[1..][i - 1] == ls[i];
    }
  }

  /** What the scan of a proper document stands for, over what is already behind the last cut. */
  ghost predicate Stands(scanned: Scanned, acc: string, ls: seq<Lexeme>, names: map<string, string>,
                         values: map<string, Json>)
  {
    && scanned.Pieces?
    && scanned.matches == TokensIn(ls, names)
    && RenderText(scanned.slices, MarshalAll(values))
       == if Covered(ls, names, values) then Some(acc + Spell(Fill(ls, names, values))) else None
  }

  lemma StandsClean(scanned: Scanned, acc: string, ls: seq<Lexeme>, names: map<string, string>,
                    values: map<string, Json>)
    requires ls != [] && !Holds(ls[0], names)
    requires Stands(scanned, acc + SpellOne(ls[0]), ls[1..], names, values)
    ensures Stands(scanned, acc, ls, names, values)
  {
    CoveredFirstOrLater(ls, names, values);
    SpellAppend([ls[0]], Fill(ls[1..], names, values));
    assert Spell([ls[0]]) == SpellOne(ls[0]) + Spell([]);
    assert Spell([ls[0]]) == SpellOne(ls[0]);
    assert acc + SpellOne(ls[0]) + Spell(Fill(ls[1..], names, values))
        == acc + (SpellOne(ls[0]) + Spell(Fill(ls[1..], names, values)));
  }

  lemma RenderFirst(name: string, acc: string, m: map<string, string>)
    requires name != ""
    ensures RenderText([Slice(name, acc)], m) == if name in m then Some(acc + m[name]) else None
  {
    assert [Slice(name, acc)][..0] == [];
    assert "" + acc == acc;
  }

  lemma StandsToken(scanned: Scanned, acc: string, ls: seq<Lexeme>, names: map<string, string>,
                    values: map<string, Json>)
    requires ls != [] && Holds(ls[0], names) && names[ls[0].text] != ""
    requires Stands(scanned, "", ls[1..], names, values)
    ensures Stands(Prepend(Slice(names[ls[0].text], acc), ls[0].text, scanned), acc, ls, names, values)
  {
    CoveredFirstOrLater(ls, names, values);
    var name, rest, m := names[ls[0].text], Fill(ls[1..], names, values), MarshalAll(values);
    RenderCons(Slice(name, acc), scanned.slices, m);
    RenderFirst(name, acc, m);
    if name in values {
      SpellAppend(Lexemes(values[name]), rest);
      assert Fill(ls, names, values) == Lexemes(values[name]) + rest;
      assert "" + Spell(rest) == Spell(rest);
      Associative(acc, m[name], Spell(rest));
    }
  }

  lemma ScanToken(acc: string, e: string, tail: string, names: map<string, string>)
    requires Free(acc) && Bindings(names) && QuotesBehindBackslash(e) && e in names && names[e] != ""
    ensures Scan(acc + Quoted(e) + tail, names) == Prepend(Slice(names[e], acc), e, Scan(tail, names))
  {
    TokenReading(e, names);
    assert e[0..] == e;
    ScanString(acc, e, tail, names);
    assert (acc + "\"" + e)[..|acc|] == acc;
  }

  lemma {:induction false} ScanProper(acc: string, ls: seq<Lexeme>, names: map<string, string>,
                                      values: map<string, Json>)
    requires Free(acc) && Written(ls) && Bindings(names) && Proper(ls, names) && Named(ls, names)
    ensures Stands(Scan(acc + Spell(ls), names), acc, ls, names, values)
    decreases |ls|
  {
    if ls == [] {
      FindFirst(acc);
      assert acc + Spell(ls) == acc;
      EndPiece(acc, values);
    } else {
      var one, tail := SpellOne(ls[0]), Spell(ls[1..]);
      Associative(acc, one, tail);
      assert ProperOne(ls[0], names);
      if !ls[0].Raw? {
        TokenReading(ls[0].text, names);
      }
      if Reads(ls[0], names).Clean? {
        ScanClean(acc, ls[0], names);
        ScanProper(acc + one, ls[1..], names, values);
        StandsClean(Scan(acc + one + tail, names), acc, ls, names, values);
      } else {
        ScanToken(acc, ls[0].text, tail, names);
        ScanProper("", ls[1..], names, values);
        assert "" + tail == tail;
        StandsToken(Scan(tail, names), acc, ls, names, values);
      }
    }
  }

  lemma EndPiece(acc: string, values: map<string, Json>)
    ensures RenderText(if acc == "" then [] else [Slice("", acc)], MarshalAll(values)) == Some(acc + "")
  {
    assert acc + "" == acc;
    if acc != "" {
      var slices := [Slice("", acc)];
      assert slices[..0] == [];
      assert "" + acc == acc;
    }
  }
}
