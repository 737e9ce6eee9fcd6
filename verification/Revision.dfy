/** Decimal integers as `strconv` prints and parses them. */
module Decimal {
  import opened Index

  const MIN_INT64 := -0x8000_0000_0000_0000
  const MAX_INT64 := 0x7fff_ffff_ffff_ffff

  predicate IsInt64(n: int) {
    MIN_INT64 <= n <= MAX_INT64
  }

  predicate IsDigit(c: char) {
    '0' <= c <= '9'
  }

  predicate AllDigits(s: string) {
    forall i :: 0 <= i < |s| ==> IsDigit(s[i])
  }

  function Digit(d: nat): (c: char)
    requires d < 10
    ensures IsDigit(c) && c as int == 48 + d
  {
    (48 + d) as char
  }

  function Digits(n: nat): (s: string)
    ensures s != "" && AllDigits(s)
  {
    if n < 10 then [Digit(n)] else Digits(n / 10) + [Digit(n % 10)]
  }

  function Print(n: int): string {
    if n < 0 then "-" + Digits(-n) else Digits(n)
  }

  function Magnitude(s: string): nat
    requires AllDigits(s)
  {
    if s == "" then 0 else Magnitude(s[..|s| - 1]) * 10 + (s[|s| - 1] as int - 48)
  }

  /** The digits behind an optional sign. */
  function Body(s: string): string {
    if s != "" && (s[0] == '-' || s[0] == '+') then s[1..] else s
  }

  /** Base ten, 64 bits: an optional sign, at least one digit, and a value in range. */
  function Parse(s: string): Option<int> {
    var body := Body(s);
    if body == "" || !AllDigits(body) then None
    else
      var m: int := Magnitude(body);
      var n := if s[0] == '-' then -m else m;
      if IsInt64(n) then Some(n) else None
  }

  lemma {:induction false} MagnitudeDigits(n: nat)
    ensures Magnitude(Digits(n)) == n
  {
    if n < 10 {
      assert Digits(n)[..0] == "";
    } else {
      MagnitudeDigits(n / 10);
      assert Digits(n)[..|Digits(n)| - 1] == Digits(n / 10);
    }
  }

  lemma ParsePrint(n: int)
    ensures Parse(Print(n)) == if IsInt64(n) then Some(n) else None
    ensures Print(n) != "" && ':' !in Print(n)
  {
    var m := if n < 0 then -n else n;
    MagnitudeDigits(m);
    assert IsDigit(Digits(m)[0]);
    assert Print(n)[1..] == if n < 0 then Digits(m) else Digits(m)[1..];
    assert forall c :: c in Digits(m) ==> IsDigit(c);
  }

  /** No plus sign, no leading zero and no negative zero. */
  predicate Canonical(s: string) {
    && s != "" && s[0] != '+'
    && Body(s) != "" && (Body(s)[0] == '0' ==> s == "0")
  }

  lemma {:induction false} DigitsMagnitude(s: string)
    requires s != "" && AllDigits(s)
    ensures Digits(Magnitude(s)) == s <==> (s[0] == '0' ==> s == "0")
    ensures s[0] != '0' ==> Magnitude(s) > 0
  {
    var init, last := s[..|s| - 1], s[|s| - 1];
    assert s == init + [last];
    if init == "" {
      assert Digits(Magnitude(s)) == [Digit(last as int - 48)];
    } else {
      DigitsMagnitude(init);
      assert init[0] == s[0];
      var d := last as int - 48;
      assert Magnitude(s) == Magnitude(init) * 10 + d;
      if Magnitude(s) >= 10 {
        assert Magnitude(s) / 10 == Magnitude(init) && Magnitude(s) % 10 == d;
        assert Digits(Magnitude(s)) == Digits(Magnitude(init)) + [last];
        if Digits(Magnitude(init)) + [last] == init + [last] {
          assert (Digits(Magnitude(init)) + [last])[..|init|] == init;
        }
      } else {
        assert |Digits(Magnitude(s))| == 1;
      }
    }
  }

  /** Parsing and printing again gives the same text exactly when the text is canonical. */
  lemma PrintParse(s: string)
    requires Parse(s).Some?
    ensures Print(Parse(s).value) == s <==> Canonical(s)
  {
    var body := Body(s);
    DigitsMagnitude(body);
    if s[0] == '-' {
      assert s == "-" + body;
      var m: int := Magnitude(body);
      if m > 0 {
        assert Print(-m) == "-" + Digits(m);
        if "-" + Digits(m) == "-" + body {
          assert ("-" + Digits(m))[1..] == Digits(m) && ("-" + body)[1..] == body;
        }
      } else {
        assert Print(0) == Digits(0) && IsDigit(Digits(0)[0]);
      }
    } else if s[0] == '+' {
      assert IsDigit(Digits(Magnitude(body))[0]);
    }
  }
}

/**
 Policy revisions: the action id a policy change is delivered under, printed into the response and
 parsed back from the agent's ack.
 */
module Revision {
  import opened Index
  import opened Decimal

  datatype Revision = Revision(policyId: string, revisionIdx: int, coordinatorIdx: int)

  const SEPARATOR := ':'

  function Split(s: string): (parts: seq<string>)
    ensures parts != []
  {
    if s == "" then [""]
    else
      var rest := Split(s[1..]);
      if s[0] == SEPARATOR then [""] + rest else [[s[0]] + rest[0]] + rest[1..]
  }

  function Join(parts: seq<string>): string
    requires parts != []
  {
    if |parts| == 1 then parts[0] else parts[0] + [SEPARATOR] + Join(parts[1..])
  }

  function FromString(actionId: string): Option<Revision> {
    var split := Split(actionId);
    if |split| != 4 then None
    else if split[0] != "policy" then None
    else
      var revIdx := Parse(split[2]);
      var coordIdx := Parse(split[3]);
      if revIdx.None? || coordIdx.None? then None
      else Some(Revision(split[1], revIdx.value, coordIdx.value))
  }

  function String(r: Revision): string {
    Join(["policy", r.policyId, Print(r.revisionIdx), Print(r.coordinatorIdx)])
  }

  predicate IsNumbered(r: Revision) {
    IsInt64(r.revisionIdx) && IsInt64(r.coordinatorIdx)
  }

  lemma SplitCons(c: char, s: string)
    ensures Split([c] + s) == if c == SEPARATOR then [""] + Split(s) else [[c] + Split(s)[0]] + Split(s)[1..]
  {
    assert ([c] + s)[1..] == s;
  }

  lemma {:induction false} SplitAppend(a: string, b: string)
    ensures Split(a + [SEPARATOR] + b) == Split(a) + Split(b)
  {
    if a == "" {
      assert a + [SEPARATOR] + b == [SEPARATOR] + b;
      SplitCons(SEPARATOR, b);
    } else {
      var rest := a[1..];
      SplitAppend(rest, b);
      assert a + [SEPARATOR] + b == [a[0]] + (rest + [SEPARATOR] + b);
      SplitCons(a[0], rest + [SEPARATOR] + b);
      assert a == [a[0]] + rest;
      SplitCons(a[0], rest);
      SplitShift(a[0], Split(rest), Split(b));
    }
  }

  lemma SplitShift(c: char, p: seq<string>, q: seq<string>)
    requires p != []
    ensures [""] + (p + q) == [""] + p + q
    ensures [[c] + (p + q)[0]] + (p + q)[1..] == [[c] + p[0]] + p[1..] + q
  {
  }

  lemma {:induction false} SplitWhole(a: string)
    ensures Split(a) == [a] <==> SEPARATOR !in a
    ensures SEPARATOR in a ==> |Split(a)| >= 2
  {
    if a != "" {
      SplitWhole(a[1..]);
      assert a == [a[0]] + a[1..];
    }
  }

  lemma JoinCons(p: string, rest: seq<string>)
    requires rest != []
    ensures Join([p] + rest) == p + [SEPARATOR] + Join(rest)
  {
    assert ([p] + rest)[1..] == rest;
  }

  lemma ShiftLeft(a: string, b: string, c: string, d: string)
    ensures a + b + c + d == a + (b + c + d)
  {
  }

  /** Putting a character in front of the first part puts it in front of the whole. */
  lemma JoinShift(c: char, parts: seq<string>)
    requires parts != []
    ensures Join([[c] + parts[0]] + parts[1..]) == [c] + Join(parts)
  {
    if |parts| == 1 {
      assert [[c] + parts[0]] + parts[1..] == [[c] + parts[0]];
    } else {
      JoinCons([c] + parts[0], parts[1..]);
      JoinCons(parts[0], parts[1..]);
      assert parts == [parts[0]] + parts[1..];
      ShiftLeft([c], parts[0], [SEPARATOR], Join(parts[1..]));
    }
  }

  lemma {:induction false} SplitParts(s: string)
    ensures forall i :: 0 <= i < |Split(s)| ==> SEPARATOR !in Split(s)[i]
    ensures Join(Split(s)) == s
  {
    if s != "" {
      var rest := Split(s[1..]);
      SplitParts(s[1..]);
      SplitCons(s[0], s[1..]);
      assert s == [s[0]] + s[1..];
      if s[0] == SEPARATOR {
        JoinCons("", rest);
      } else {
        JoinShift(s[0], rest);
      }
    }
  }

  lemma JoinFour(a: string, b: string, c: string, d: string)
    ensures Join([a, b, c, d]) == a + [SEPARATOR] + (b + [SEPARATOR] + (c + [SEPARATOR] + d))
  {
    assert [c, d][1..] == [d];
    assert Join([c, d]) == c + [SEPARATOR] + d;
    assert [b, c, d][1..] == [c, d];
    assert Join([b, c, d]) == b + [SEPARATOR] + Join([c, d]);
    assert [a, b, c, d][1..] == [b, c, d];
  }

  lemma SplitFour(a: string, b: string, c: string, d: string)
    ensures Split(Join([a, b, c, d])) == Split(a) + (Split(b) + (Split(c) + Split(d)))
  {
    JoinFour(a, b, c, d);
    SplitAppend(a, b + [SEPARATOR] + (c + [SEPARATOR] + d));
    SplitAppend(b, c + [SEPARATOR] + d);
    SplitAppend(c, d);
  }

  /** `s` spells revision `r`, its numbers written as `rev` and `coord`. */
  ghost predicate Spells(s: string, r: Revision, rev: string, coord: string) {
    && s == "policy:" + (r.policyId + ":" + (rev + ":" + coord))
    && SEPARATOR !in r.policyId && Parse(rev) == Some(r.revisionIdx) && Parse(coord) == Some(r.coordinatorIdx)
  }

  lemma JoinSpelled(id: string, rev: string, coord: string)
    ensures Join(["policy", id, rev, coord]) == "policy:" + (id + ":" + (rev + ":" + coord))
  {
    JoinFour("policy", id, rev, coord);
    assert "policy" + [SEPARATOR] == "policy:";
  }

  lemma FourWhole(a: string, b: string, c: string, d: string)
    requires SEPARATOR !in a && SEPARATOR !in b && SEPARATOR !in c && SEPARATOR !in d
    ensures Split(Join([a, b, c, d])) == [a, b, c, d]
  {
    SplitFour(a, b, c, d);
    SplitWhole(a);
    SplitWhole(b);
    SplitWhole(c);
    SplitWhole(d);
  }

  lemma SpelledParses(s: string, r: Revision, rev: string, coord: string)
    requires Spells(s, r, rev, coord)
    ensures FromString(s) == Some(r) && Split(s) == ["policy", r.policyId, rev, coord]
  {
    NumeralNoSeparator(rev);
    NumeralNoSeparator(coord);
    JoinSpelled(r.policyId, rev, coord);
    FourWhole("policy", r.policyId, rev, coord);
  }

  /** For every 64-bit pair, the least one included, parsing the printed id gives the revision back
      if and only if the policy id has no colon. */
  lemma RoundTrip(r: Revision)
    requires IsNumbered(r)
    ensures String(r) == "policy:" + (r.policyId + ":" + (Print(r.revisionIdx) + ":" + Print(r.coordinatorIdx)))
    ensures FromString(String(r)) == Some(r) <==> SEPARATOR !in r.policyId
    ensures SEPARATOR in r.policyId ==> FromString(String(r)) == None
  {
    var rev, coord := Print(r.revisionIdx), Print(r.coordinatorIdx);
    JoinSpelled(r.policyId, rev, coord);
    ParsePrint(r.revisionIdx);
    ParsePrint(r.coordinatorIdx);
    if SEPARATOR in r.policyId {
      SplitFour("policy", r.policyId, rev, coord);
      SplitWhole(r.policyId);
      assert |Split(String(r))| > 4;
    } else {
      SpelledParses(String(r), r, rev, coord);
    }
  }

  /** Exactly the strings of four colon-separated parts, the first `policy` and the last two 64-bit
      numerals, are accepted. */
  lemma Accepted(s: string, r: Revision)
    ensures FromString(s) == Some(r) <==> exists rev: string, coord: string :: Spells(s, r, rev, coord)
  {
    if FromString(s) == Some(r) {
      SplitParts(s);
      var parts := Split(s);
      assert parts == ["policy", parts[1], parts[2], parts[3]];
      JoinSpelled(parts[1], parts[2], parts[3]);
      assert Spells(s, r, parts[2], parts[3]);
    }
    if rev: string, coord: string :| Spells(s, r, rev, coord) {
      SpelledParses(s, r, rev, coord);
    }
  }

  lemma NumeralNoSeparator(s: string)
    requires Parse(s).Some?
    ensures SEPARATOR !in s
  {
    assert forall i :: 0 <= i < |Body(s)| ==> IsDigit(Body(s)[i]);
    assert s == Body(s) || s == [s[0]] + Body(s);
    assert SEPARATOR !in Body(s);
  }

  /** Whatever is accepted, signs and leading zeros included, prints to an id that is accepted with
      the same meaning; printing gives the same text back exactly when both numerals are canonical. */
  lemma Normalises(s: string)
    requires FromString(s).Some?
    ensures var r := FromString(s).value;
            && IsNumbered(r) && FromString(String(r)) == Some(r)
            && (String(r) == s <==> Canonical(Split(s)[2]) && Canonical(Split(s)[3]))
  {
    var r := FromString(s).value;
    var parts := Split(s);
    SplitParts(s);
    RoundTrip(r);
    assert parts == ["policy", parts[1], parts[2], parts[3]];
    PrintParse(parts[2]);
    PrintParse(parts[3]);
    ParsePrint(r.revisionIdx);
    ParsePrint(r.coordinatorIdx);
    SpelledParses(String(r), r, Print(r.revisionIdx), Print(r.coordinatorIdx));
  }
}
