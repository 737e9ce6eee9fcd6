/** The queries of the monitor and of the check-in handler, from builder calls to rendered text. */
module QueryWindows {
  import opened Index
  import opened Json
  import JsonText
  import opened Template
  import opened QueryTemplate
  import opened QueryDsl

  const SEQ_NO := "_seq_no"
  const MAX_SEQ_NO := "max_seq_no"
  const EXPIRATION := "expiration"
  const AGENTS := "agents"

  /** An action as Elasticsearch indexes it. */
  function Indexed(k: int, a: Action): Doc {
    Doc(map[SEQ_NO := k, EXPIRATION := a.expiration], map[AGENTS := a.agents])
  }

  function RangeCalls(lower: Json, upper: Json): seq<Call> {
    [Range(SEQ_NO, [GT(lower)]), Range(SEQ_NO, [LTE(upper)])]
  }

  function ExpirationCalls(asOf: Option<Json>): seq<Call> {
    if asOf.Some? then [Range(EXPIRATION, [GT(asOf.value)])] else []
  }

  function AgentCalls(agents: Option<Json>): seq<Call> {
    if agents.Some? then [Terms(AGENTS, agents.value, None)] else []
  }

  /** The calls on the filter node, with the values or the place holders for them. */
  function WindowCalls(lower: Json, upper: Json, asOf: Option<Json>, agents: Option<Json>): seq<Call> {
    RangeCalls(lower, upper) + ExpirationCalls(asOf) + AgentCalls(agents)
  }

  function AsOf(w: Window): Option<Json> {
    if w.asOf.Some? then Some(Num(w.asOf.value)) else None
  }

  function AgentList(w: Window): Option<Json> {
    if w.agent.Some? then Some(Arr([Text(w.agent.value)])) else None
  }

  function CallsFor(w: Window): seq<Call> {
    WindowCalls(Num(w.lower), Num(w.upper), AsOf(w), AgentList(w))
  }

  lemma RangeAsks(field: string, b: Bound, d: Doc)
    ensures Asks(Range(field, [b]), d)
            <==> field in d.nums && if b.GT? then IsBelow(b.v, d.nums[field]) else IsAtLeast(b.v, d.nums[field])
  {
    assert [b][..0] == [];
    assert LastGT([b][..0]) == None && LastLTE([b][..0]) == None;
  }

  lemma OneAgent(d: Doc, agent: string)
    requires AGENTS in d.words
    ensures HasAny(d, AGENTS, Arr([Text(agent)])) <==> agent in d.words[AGENTS]
  {
    assert Arr([Text(agent)]).elems[0] == Text(agent);
  }

  /** All calls together ask for exactly the window. */
  lemma CallsSelectWindow(w: Window, docs: Docs, k: int)
    requires k in docs
    ensures AsksAll(CallsFor(w), Indexed(k, docs[k])) <==> Selects(w, docs, k)
  {
    var calls, d := CallsFor(w), Indexed(k, docs[k]);
    RangeAsks(SEQ_NO, GT(Num(w.lower)), d);
    RangeAsks(SEQ_NO, LTE(Num(w.upper)), d);
    assert Asks(calls[0], d) <==> w.lower < k;
    assert Asks(calls[1], d) <==> k <= w.upper;
    if w.asOf.Some? {
      RangeAsks(EXPIRATION, GT(Num(w.asOf.value)), d);
      assert Asks(calls[2], d) <==> docs[k].expiration > w.asOf.value;
    }
    if w.agent.Some? {
      OneAgent(d, w.agent.value);
      assert Asks(calls[|calls| - 1], d) <==> w.agent.value in docs[k].agents;
    }
  }

  // ---------------------------------------------------------------- the document

  function One(key: string, value: Json): Json {
    Obj([Field(key, value)])
  }

  /** The search body: sorted by sequence number, ascending being the default order, and cut at
      `size`; the pending-action query also leaves the agents out of the hits. */
  function QueryDoc(clauses: seq<Json>, size: nat, excludeAgents: bool): Json {
    Obj(SourceFields(excludeAgents) + [Field("query", FilterDoc(clauses))] + OrderFields(size))
  }

  function FilterDoc(clauses: seq<Json>): Json {
    One("bool", One("filter", Arr(clauses)))
  }

  function SourceFields(excludeAgents: bool): seq<Field> {
    if excludeAgents then [Field("_source", One("excludes", Arr([Text(AGENTS)])))] else []
  }

  function OrderFields(size: nat): seq<Field> {
    [Field("seq_no_primary_term", Bool(true)), Field("size", Num(size)), Field("sort", Arr([Text(SEQ_NO)]))]
  }

  /** Which names a query binds. */
  function Names(withExpiration: bool, withAgent: bool): set<string> {
    {SEQ_NO, MAX_SEQ_NO} + (if withExpiration then {EXPIRATION} else {}) + (if withAgent then {AGENTS} else {})
  }

  function Holder(tmap: map<string, string>, name: string): Option<Json> {
    if name in tmap then Some(Text(tmap[name])) else None
  }

  /** The calls as they are made when the template is prepared. */
  function PreparedCalls(tmap: map<string, string>): seq<Call>
    requires SEQ_NO in tmap && MAX_SEQ_NO in tmap
  {
    WindowCalls(Text(tmap[SEQ_NO]), Text(tmap[MAX_SEQ_NO]), Holder(tmap, EXPIRATION), Holder(tmap, AGENTS))
  }

  /** The values a search for the window is rendered with. */
  function ValuesFor(w: Window): map<string, Json> {
    map[SEQ_NO := Num(w.lower), MAX_SEQ_NO := Num(w.upper)]
    + (if w.asOf.Some? then map[EXPIRATION := Num(w.asOf.value)] else map[])
    + (if w.agent.Some? then map[AGENTS := Arr([Text(w.agent.value)])] else map[])
  }

  // ---------------------------------------------------------------- documents without stray prefixes

  /** No key and no string but the place holders has a capital T in it. */
  predicate Tidy(j: Json, names: map<string, string>) {
    match j
    case Text(s) => s in names || 'T' !in s
    case Arr(elems) => forall i :: 0 <= i < |elems| ==> Tidy(elems[i], names)
    case Obj(fields) => forall i :: 0 <= i < |fields| ==> 'T' !in fields[i].key && Tidy(fields[i].value, names)
    case _ => true
  }

  lemma EscapeCharClean(c: char)
    requires c != 'T'
    ensures 'T' !in EscapeChar(c)
  {
  }

  lemma {:induction false} EscapeKeepsClean(s: string)
    requires 'T' !in s
    ensures 'T' !in Escape(s)
  {
    if s != "" {
      EscapeKeepsClean(s[..|s| - 1]);
      assert s[|s| - 1] in s;
      EscapeCharClean(s[|s| - 1]);
    }
  }

  lemma CleanReading(s: string, names: map<string, string>)
    requires 'T' !in s
    ensures ReadingOf(Escape(s), names).Clean?
  {
    EscapeKeepsClean(s);
    FindFirst(Escape(s));
  }

  lemma ProperAppend(a: seq<Lexeme>, b: seq<Lexeme>, names: map<string, string>)
    requires Proper(a, names) && Proper(b, names)
    ensures Proper(a + b, names)
  {
  }

  lemma {:induction false} TidyProper(j: Json, names: map<string, string>)
    requires Bindings(names) && Tidy(j, names)
    ensures Proper(Lexemes(j), names)
  {
    match j
    case Text(s) =>
      if s in names {
        EscapedToken(s, names);
        TokenReading(s, names);
      } else {
        CleanReading(s, names);
      }
    case Arr(elems) => TidyElems(elems, names);
    case Obj(fields) => TidyFields(fields, names);
    case _ =>
  }

  lemma {:induction false} TidyElems(elems: seq<Json>, names: map<string, string>)
    requires Bindings(names) && forall i :: 0 <= i < |elems| ==> Tidy(elems[i], names)
    ensures Proper(ElemLexemes(elems), names)
  {
    if elems != [] {
      TidyProper(elems[0], names);
      TidyElems(elems[1..], names);
      var first, comma := Lexemes(elems[0]), Comma(|elems| > 1);
      ProperAppend(first, comma, names);
      ProperAppend(first + comma, ElemLexemes(elems[1..]), names);
    }
  }

  lemma {:induction false} TidyFields(fields: seq<Field>, names: map<string, string>)
    requires Bindings(names)
    requires forall i :: 0 <= i < |fields| ==> 'T' !in fields[i].key && Tidy(fields[i].value, names)
    ensures Proper(FieldLexemes(fields), names)
  {
    if fields != [] {
      TidyProper(fields[0].value, names);
      TidyFields(fields[1..], names);
      CleanReading(fields[0].key, names);
      var key, first, comma := [Key(Escape(fields[0].key)), Raw(":")], Lexemes(fields[0].value), Comma(|fields| > 1);
      assert Proper(key, names);
      ProperAppend(key, first, names);
      ProperAppend(key + first, comma, names);
      ProperAppend(key + first + comma, FieldLexemes(fields[1..]), names);
    }
  }

  // ---------------------------------------------------------------- where place holders occur

  predicate Mentions(j: Json, t: string) {
    match j
    case Text(s) => s == t
    case Arr(elems) => exists i :: 0 <= i < |elems| && Mentions(elems[i], t)
    case Obj(fields) => exists i :: 0 <= i < |fields| && Mentions(fields[i].value, t)
    case _ => false
  }

  lemma {:induction false} MentionOccurs(j: Json, t: string)
    requires Mentions(j, t)
    ensures Str(Escape(t)) in Lexemes(j)
  {
    match j
    case Arr(elems) =>
      var i :| 0 <= i < |elems| && Mentions(elems[i], t);
      ElemOccurs(elems, i, t);
    case Obj(fields) =>
      var i :| 0 <= i < |fields| && Mentions(fields[i].value, t);
      FieldOccurs(fields, i, t);
    case _ =>
  }

  lemma {:induction false} ElemOccurs(elems: seq<Json>, i: nat, t: string)
    requires i < |elems| && Mentions(elems[i], t)
    ensures Str(Escape(t)) in ElemLexemes(elems)
  {
    if i == 0 {
      MentionOccurs(elems[0], t);
    } else {
      ElemOccurs(elems[1..], i - 1, t);
    }
  }

  lemma {:induction false} FieldOccurs(fields: seq<Field>, i: nat, t: string)
    requires i < |fields| && Mentions(fields[i].value, t)
    ensures Str(Escape(t)) in FieldLexemes(fields)
  {
    if i == 0 {
      MentionOccurs(fields[0].value, t);
    } else {
      FieldOccurs(fields[1..], i - 1, t);
    }
  }

  lemma MentionedToken(j: Json, t: string, names: map<string, string>)
    requires Bindings(names) && t in names && Mentions(j, t)
    ensures t in TokensIn(Lexemes(j), names)
  {
    MentionOccurs(j, t);
    EscapedToken(t, names);
    var ls := Lexemes(j);
    var i :| 0 <= i < |ls| && ls[i] == Str(t);
    assert Holds(ls[i], names);
  }

  // ---------------------------------------------------------------- from prepared to rendered

  /** A range with one bound, written out. */
  lemma RangeClause(field: string, b: Bound)
    ensures Clause(Range(field, [b])) == One("range", One(field, One(BoundKey(b), b.v)))
  {
    assert [b][..0] == [];
    assert RangeFields([b][..0]) == [];
    assert Set([], BoundKey(b), b.v) == [Field(BoundKey(b), b.v)];
  }

  lemma SubstOne(key: string, value: Json, names: map<string, string>, values: map<string, Json>)
    ensures Subst(One(key, value), names, values) == One(key, Subst(value, names, values))
  {
    assert [Field(key, value)][1..] == [];
  }

  function SubstCall(call: Call, names: map<string, string>, values: map<string, Json>): Call {
    match call
    case Range(field, bounds) => Range(field, SubstBounds(bounds, names, values))
    case Term(field, value, boost) => Term(field, Subst(value, names, values), SubstOption(boost, names, values))
    case Terms(field, value, boost) => Terms(field, Subst(value, names, values), SubstOption(boost, names, values))
  }

  function SubstBounds(bounds: seq<Bound>, names: map<string, string>, values: map<string, Json>): (r: seq<Bound>)
    ensures |r| == |bounds|
  {
    seq(|bounds|, i requires 0 <= i < |bounds| => bounds[i].(v := Subst(bounds[i].v, names, values)))
  }

  lemma {:induction false} SubstSet(fields: seq<Field>, key: string, v: Json, names: map<string, string>,
                                    values: map<string, Json>)
    ensures SubstFields(Set(fields, key, v), names, values)
            == Set(SubstFields(fields, names, values), key, Subst(v, names, values))
  {
    if fields == [] {
      assert [Field(key, v)][1..] == [];
    } else {
      SubstSet(fields[1..], key, v, names, values);
      var after := SubstFields(fields, names, values);
      assert after[0].key == fields[0].key && after[1..] == SubstFields(fields[1..], names, values);
      var now := Set(fields, key, v);
      assert SubstFields(now, names, values)
          == [Field(now[0].key, Subst(now[0].value, names, values))] + SubstFields(now[1..], names, values);
      if Less(key, fields[0].key) {
        assert now[1..] == fields;
      } else if fields[0].key == key {
        assert now[1..] == fields[1..];
      } else {
        assert now[1..] == Set(fields[1..], key, v);
      }
    }
  }

  lemma {:induction false} SubstRange(bounds: seq<Bound>, names: map<string, string>, values: map<string, Json>)
    ensures SubstFields(RangeFields(bounds), names, values) == RangeFields(SubstBounds(bounds, names, values))
  {
    if bounds != [] {
      var n := |bounds| - 1;
      SubstRange(bounds[..n], names, values);
      SubstSet(RangeFields(bounds[..n]), BoundKey(bounds[n]), bounds[n].v, names, values);
      assert SubstBounds(bounds, names, values)[..n] == SubstBounds(bounds[..n], names, values);
    }
  }

  lemma SubstTermArg(value: Json, boost: Option<Json>, names: map<string, string>, values: map<string, Json>)
    ensures Subst(TermArg(value, boost), names, values)
            == TermArg(Subst(value, names, values), SubstOption(boost, names, values))
  {
    if boost.Some? {
      var fields := [Field("value", value), Field("boost", boost.value)];
      SubstFieldsAt(fields, 0, names, values);
      SubstFieldsAt(fields, 1, names, values);
      var after := SubstFields(fields, names, values);
      assert after == [after[0], after[1]];
    }
  }

  lemma SubstBody(call: Call, names: map<string, string>, values: map<string, Json>)
    ensures Subst(Body(call), names, values) == Body(SubstCall(call, names, values))
  {
    match call
    case Range(field, bounds) =>
      SubstRange(bounds, names, values);
      SubstOne(field, Obj(RangeFields(bounds)), names, values);
    case Term(field, value, boost) =>
      SubstTermArg(value, boost, names, values);
      SubstOne(field, TermArg(value, boost), names, values);
    case Terms(field, value, boost) =>
      SubstOne(field, value, names, values);
      if boost.Some? {
        SubstSet([Field(field, value)], "boost", boost.value, names, values);
        SubstFieldsCons(Field(field, value), [], names, values);
      }
  }

  /** Substituting in a clause is making the call with the values. */
  lemma SubstClause(call: Call, names: map<string, string>, values: map<string, Json>)
    ensures Subst(Clause(call), names, values) == Clause(SubstCall(call, names, values))
  {
    SubstBody(call, names, values);
    SubstOne(Keyword(call), Body(call), names, values);
  }

  lemma {:induction false} SubstAllAt(elems: seq<Json>, i: nat, names: map<string, string>, values: map<string, Json>)
    requires i < |elems|
    ensures SubstAll(elems, names, values)[i] == Subst(elems[i], names, values)
  {
    if i > 0 {
      SubstAllAt(elems[1..], i - 1, names, values);
    }
  }

  function SubstCalls(calls: seq<Call>, names: map<string, string>, values: map<string, Json>): seq<Call> {
    seq(|calls|, i requires 0 <= i < |calls| => SubstCall(calls[i], names, values))
  }

  lemma SubstClauses(calls: seq<Call>, names: map<string, string>, values: map<string, Json>)
    ensures SubstAll(Clauses(calls), names, values) == Clauses(SubstCalls(calls, names, values))
  {
    var (before, after) := (Clauses(calls), Clauses(SubstCalls(calls, names, values)));
    forall i | 0 <= i < |calls|
      ensures SubstAll(before, names, values)[i] == after[i]
    {
      SubstAllAt(before, i, names, values);
      SubstClause(calls[i], names, values);
    }
  }

  lemma SubstFieldsCons(f: Field, fields: seq<Field>, names: map<string, string>, values: map<string, Json>)
    ensures SubstFields([f] + fields, names, values)
            == [Field(f.key, Subst(f.value, names, values))] + SubstFields(fields, names, values)
  {
    assert ([f] + fields)[1..] == fields;
  }

  lemma SubstFieldsAppendStep(f: Field, rest: seq<Field>, b: seq<Field>, names: map<string, string>,
                              values: map<string, Json>)
    requires SubstFields(rest + b, names, values) == SubstFields(rest, names, values) + SubstFields(b, names, values)
    ensures SubstFields([f] + rest + b, names, values)
            == SubstFields([f] + rest, names, values) + SubstFields(b, names, values)
  {
    SubstFieldsCons(f, rest, names, values);
    SubstFieldsCons(f, rest + b, names, values);
    Associative([f], rest, b);
    Associative([Field(f.key, Subst(f.value, names, values))], SubstFields(rest, names, values),
      SubstFields(b, names, values));
  }

  lemma {:induction false} SubstFieldsAppend(a: seq<Field>, b: seq<Field>, names: map<string, string>,
                                             values: map<string, Json>)
    ensures SubstFields(a + b, names, values) == SubstFields(a, names, values) + SubstFields(b, names, values)
  {
    if a == [] {
      assert a + b == b;
    } else {
      SubstFieldsAppend(a[1..], b, names, values);
      SubstFieldsAppendStep(a[0], a[1..], b, names, values);
      assert a == [a[0]] + a[1..];
    }
  }

  lemma SubstWords(word: string, names: map<string, string>, values: map<string, Json>)
    requires word !in names
    ensures Subst(Arr([Text(word)]), names, values) == Arr([Text(word)])
  {
    var words := [Text(word)];
    assert words[1..] == [];
    assert SubstAll(words, names, values) == [Subst(words[0], names, values)] + SubstAll(words[1..], names, values);
  }

  lemma {:induction false} SubstFieldsAt(fields: seq<Field>, i: nat, names: map<string, string>,
                                         values: map<string, Json>)
    requires i < |fields|
    ensures SubstFields(fields, names, values)[i] == Field(fields[i].key, Subst(fields[i].value, names, values))
  {
    if i > 0 {
      SubstFieldsAt(fields[1..], i - 1, names, values);
    }
  }

  lemma SubstSource(excludeAgents: bool, names: map<string, string>, values: map<string, Json>)
    requires AGENTS !in names
    ensures SubstFields(SourceFields(excludeAgents), names, values) == SourceFields(excludeAgents)
  {
    if excludeAgents {
      SubstWords(AGENTS, names, values);
      SubstOne("excludes", Arr([Text(AGENTS)]), names, values);
      SubstOne("_source", One("excludes", Arr([Text(AGENTS)])), names, values);
      assert SourceFields(true) == One("_source", One("excludes", Arr([Text(AGENTS)]))).fields;
    }
  }

  lemma SubstOrder(size: nat, names: map<string, string>, values: map<string, Json>)
    requires SEQ_NO !in names
    ensures SubstFields(OrderFields(size), names, values) == OrderFields(size)
  {
    SubstWords(SEQ_NO, names, values);
    var (before, after) := (OrderFields(size), SubstFields(OrderFields(size), names, values));
    SubstFieldsAt(before, 0, names, values);
    SubstFieldsAt(before, 1, names, values);
    SubstFieldsAt(before, 2, names, values);
    assert after == [after[0], after[1], after[2]];
  }

  lemma SubstFilterDoc(clauses: seq<Json>, names: map<string, string>, values: map<string, Json>)
    ensures SubstFields([Field("query", FilterDoc(clauses))], names, values)
            == [Field("query", FilterDoc(SubstAll(clauses, names, values)))]
  {
    SubstOne("filter", Arr(clauses), names, values);
    SubstOne("bool", One("filter", Arr(clauses)), names, values);
    SubstOne("query", FilterDoc(clauses), names, values);
    assert [Field("query", FilterDoc(clauses))] == One("query", FilterDoc(clauses)).fields;
  }

  lemma SubstQueryDoc(clauses: seq<Json>, size: nat, excludeAgents: bool, names: map<string, string>,
                      values: map<string, Json>)
    requires SEQ_NO !in names && AGENTS !in names
    ensures Subst(QueryDoc(clauses, size, excludeAgents), names, values)
            == QueryDoc(SubstAll(clauses, names, values), size, excludeAgents)
  {
    var a, b, c := SourceFields(excludeAgents), [Field("query", FilterDoc(clauses))], OrderFields(size);
    SubstFieldsAppend(a + b, c, names, values);
    SubstFieldsAppend(a, b, names, values);
    SubstSource(excludeAgents, names, values);
    SubstFilterDoc(clauses, names, values);
    SubstOrder(size, names, values);
  }

  /** The names a window needs. */
  ghost predicate Fits(tmap: map<string, string>, w: Window) {
    tmap.Keys == Names(w.asOf.Some?, w.agent.Some?)
  }

  lemma SubstHolder(tmap: map<string, string>, name: string, values: map<string, Json>)
    requires Tokens(tmap) && name in tmap && name in values
    ensures Subst(Text(tmap[name]), Reverse(tmap), values) == values[name]
  {
    ReverseNames(tmap);
  }

  lemma SubstSingle(field: string, b: Bound, names: map<string, string>, values: map<string, Json>)
    ensures SubstCall(Range(field, [b]), names, values) == Range(field, [b.(v := Subst(b.v, names, values))])
  {
  }

  lemma SubstCallsAppend(a: seq<Call>, b: seq<Call>, names: map<string, string>, values: map<string, Json>)
    ensures SubstCalls(a + b, names, values) == SubstCalls(a, names, values) + SubstCalls(b, names, values)
  {
  }

  function SubstOption(v: Option<Json>, names: map<string, string>, values: map<string, Json>): Option<Json> {
    if v.Some? then Some(Subst(v.value, names, values)) else None
  }

  lemma SubstRangeCalls(lower: Json, upper: Json, names: map<string, string>, values: map<string, Json>)
    ensures SubstCalls(RangeCalls(lower, upper), names, values)
            == RangeCalls(Subst(lower, names, values), Subst(upper, names, values))
  {
    SubstSingle(SEQ_NO, GT(lower), names, values);
    SubstSingle(SEQ_NO, LTE(upper), names, values);
  }

  lemma SubstOptionalCalls(asOf: Option<Json>, agents: Option<Json>, names: map<string, string>,
                           values: map<string, Json>)
    ensures SubstCalls(ExpirationCalls(asOf), names, values) == ExpirationCalls(SubstOption(asOf, names, values))
    ensures SubstCalls(AgentCalls(agents), names, values) == AgentCalls(SubstOption(agents, names, values))
  {
    if asOf.Some? {
      SubstSingle(EXPIRATION, GT(asOf.value), names, values);
    }
  }

  lemma SubstWindowCalls(lower: Json, upper: Json, asOf: Option<Json>, agents: Option<Json>,
                         names: map<string, string>, values: map<string, Json>)
    ensures SubstCalls(WindowCalls(lower, upper, asOf, agents), names, values)
            == WindowCalls(Subst(lower, names, values), Subst(upper, names, values),
                           SubstOption(asOf, names, values), SubstOption(agents, names, values))
  {
    var a, b, c := RangeCalls(lower, upper), ExpirationCalls(asOf), AgentCalls(agents);
    SubstCallsAppend(a + b, c, names, values);
    SubstCallsAppend(a, b, names, values);
    SubstRangeCalls(lower, upper, names, values);
    SubstOptionalCalls(asOf, agents, names, values);
  }

  lemma ValuesAt(w: Window)
    ensures var values := ValuesFor(w);
            && SEQ_NO in values && values[SEQ_NO] == Num(w.lower)
            && MAX_SEQ_NO in values && values[MAX_SEQ_NO] == Num(w.upper)
            && (w.asOf.Some? ==> EXPIRATION in values && values[EXPIRATION] == Num(w.asOf.value))
            && (w.agent.Some? ==> AGENTS in values && values[AGENTS] == Arr([Text(w.agent.value)]))
  {
  }

  lemma BoundNames(tmap: map<string, string>, w: Window)
    requires Fits(tmap, w)
    ensures SEQ_NO in tmap && MAX_SEQ_NO in tmap
    ensures (EXPIRATION in tmap <==> w.asOf.Some?) && (AGENTS in tmap <==> w.agent.Some?)
  {
  }

  lemma HoldersBecome(tmap: map<string, string>, w: Window)
    requires Tokens(tmap) && Fits(tmap, w)
    ensures var (names, values) := (Reverse(tmap), ValuesFor(w));
            && Subst(Text(tmap[SEQ_NO]), names, values) == Num(w.lower)
            && Subst(Text(tmap[MAX_SEQ_NO]), names, values) == Num(w.upper)
            && SubstOption(Holder(tmap, EXPIRATION), names, values) == AsOf(w)
            && SubstOption(Holder(tmap, AGENTS), names, values) == AgentList(w)
  {
    var values := ValuesFor(w);
    ValuesAt(w);
    BoundNames(tmap, w);
    SubstHolder(tmap, SEQ_NO, values);
    SubstHolder(tmap, MAX_SEQ_NO, values);
    if w.asOf.Some? {
      SubstHolder(tmap, EXPIRATION, values);
    }
    if w.agent.Some? {
      SubstHolder(tmap, AGENTS, values);
    }
  }

  /** Filling in the values turns the prepared calls into the calls for the window. */
  lemma PreparedBecome(tmap: map<string, string>, w: Window)
    requires Tokens(tmap) && Fits(tmap, w)
    ensures SubstCalls(PreparedCalls(tmap), Reverse(tmap), ValuesFor(w)) == CallsFor(w)
  {
    HoldersBecome(tmap, w);
    SubstWindowCalls(Text(tmap[SEQ_NO]), Text(tmap[MAX_SEQ_NO]), Holder(tmap, EXPIRATION), Holder(tmap, AGENTS),
                     Reverse(tmap), ValuesFor(w));
  }

  lemma TidyOne(key: string, value: Json, names: map<string, string>)
    requires 'T' !in key && Tidy(value, names)
    ensures Tidy(One(key, value), names)
  {
  }

  lemma WordsTidy()
    ensures forall s :: s in {SEQ_NO, MAX_SEQ_NO, EXPIRATION, AGENTS, "range", "terms", "gt", "lte"} ==> 'T' !in s
    ensures forall s :: s in {"_source", "excludes", "query", "bool", "filter", "seq_no_primary_term", "size",
            "sort"} ==> 'T' !in s
  {
  }

  lemma RangeTidy(field: string, b: Bound, names: map<string, string>)
    requires 'T' !in field && Tidy(b.v, names)
    ensures Tidy(Clause(Range(field, [b])), names)
  {
    WordsTidy();
    RangeClause(field, b);
    TidyOne(BoundKey(b), b.v, names);
    TidyOne(field, One(BoundKey(b), b.v), names);
    TidyOne("range", One(field, One(BoundKey(b), b.v)), names);
  }

  lemma TermsTidy(field: string, v: Json, names: map<string, string>)
    requires 'T' !in field && Tidy(v, names)
    ensures Tidy(Clause(Terms(field, v, None)), names)
  {
    WordsTidy();
    TidyOne(field, v, names);
    TidyOne("terms", One(field, v), names);
  }

  lemma ClausesTidy(tmap: map<string, string>, w: Window, names: map<string, string>)
    requires Fits(tmap, w) && forall n :: n in tmap ==> tmap[n] in names
    ensures forall i :: 0 <= i < |Clauses(PreparedCalls(tmap))| ==> Tidy(Clauses(PreparedCalls(tmap))[i], names)
  {
    WordsTidy();
    RangeTidy(SEQ_NO, GT(Text(tmap[SEQ_NO])), names);
    RangeTidy(SEQ_NO, LTE(Text(tmap[MAX_SEQ_NO])), names);
    if w.asOf.Some? {
      RangeTidy(EXPIRATION, GT(Text(tmap[EXPIRATION])), names);
    }
    if w.agent.Some? {
      TermsTidy(AGENTS, Text(tmap[AGENTS]), names);
    }
  }

  lemma QueryTidy(clauses: seq<Json>, size: nat, excludeAgents: bool, names: map<string, string>)
    requires forall i :: 0 <= i < |clauses| ==> Tidy(clauses[i], names)
    ensures Tidy(QueryDoc(clauses, size, excludeAgents), names)
  {
    FilterTidy(clauses, names);
    WordsTidy();
    TidyWords(AGENTS, names);
    TidyWords(SEQ_NO, names);
    TidyOne("excludes", Arr([Text(AGENTS)]), names);
    TidySides(size, excludeAgents, names);
  }

  lemma FilterTidy(clauses: seq<Json>, names: map<string, string>)
    requires forall i :: 0 <= i < |clauses| ==> Tidy(clauses[i], names)
    ensures Tidy(FilterDoc(clauses), names)
  {
    WordsTidy();
    assert Tidy(Arr(clauses), names);
    TidyOne("filter", Arr(clauses), names);
    TidyOne("bool", One("filter", Arr(clauses)), names);
  }

  lemma TidyWords(word: string, names: map<string, string>)
    requires 'T' !in word
    ensures Tidy(Arr([Text(word)]), names)
  {
    assert Tidy(Text(word), names);
  }

  lemma TidySides(size: nat, excludeAgents: bool, names: map<string, string>)
    requires Tidy(One("excludes", Arr([Text(AGENTS)])), names) && Tidy(Arr([Text(SEQ_NO)]), names)
    ensures forall f :: f in SourceFields(excludeAgents) || f in OrderFields(size) ==>
            'T' !in f.key && Tidy(f.value, names)
  {
    WordsTidy();
    assert Tidy(Bool(true), names) && Tidy(Num(size), names);
  }

  lemma OneMentions(key: string, value: Json, t: string)
    requires Mentions(value, t)
    ensures Mentions(One(key, value), t)
  {
    assert Mentions(One(key, value).fields[0].value, t);
  }

  lemma RangeMentions(field: string, b: Bound, t: string)
    requires b.v == Text(t)
    ensures Mentions(Clause(Range(field, [b])), t)
  {
    RangeClause(field, b);
    OneMentions(BoundKey(b), b.v, t);
    OneMentions(field, One(BoundKey(b), b.v), t);
    OneMentions("range", One(field, One(BoundKey(b), b.v)), t);
  }

  lemma ClauseMentions(tmap: map<string, string>, w: Window, n: string)
    requires Fits(tmap, w) && n in tmap
    ensures exists i :: 0 <= i < |Clauses(PreparedCalls(tmap))| && Mentions(Clauses(PreparedCalls(tmap))[i], tmap[n])
  {
    var clauses, t := Clauses(PreparedCalls(tmap)), tmap[n];
    if n == SEQ_NO {
      RangeMentions(SEQ_NO, GT(Text(t)), t);
      assert Mentions(clauses[0], t);
    } else if n == MAX_SEQ_NO {
      RangeMentions(SEQ_NO, LTE(Text(t)), t);
      assert Mentions(clauses[1], t);
    } else if n == EXPIRATION {
      RangeMentions(EXPIRATION, GT(Text(t)), t);
      assert Mentions(clauses[2], t);
    } else {
      OneMentions(AGENTS, Text(t), t);
      OneMentions("terms", One(AGENTS, Text(t)), t);
      assert Mentions(clauses[|clauses| - 1], t);
    }
  }

  lemma QueryMentions(clauses: seq<Json>, size: nat, excludeAgents: bool, i: nat, t: string)
    requires i < |clauses| && Mentions(clauses[i], t)
    ensures Mentions(QueryDoc(clauses, size, excludeAgents), t)
  {
    OneMentions("filter", Arr(clauses), t);
    OneMentions("bool", One("filter", Arr(clauses)), t);
    var fields := QueryDoc(clauses, size, excludeAgents).fields;
    assert Mentions(fields[if excludeAgents then 1 else 0].value, t);
  }

  /** The template of a document resolves, and renders to another document. */
  ghost predicate Compiles(doc: Json, tmap: map<string, string>, values: map<string, Json>, result: Json) {
    var scanned := Scan(Marshal(doc), Reverse(tmap));
    && scanned.Pieces? && scanned.matches == tmap.Values
    && RenderText(scanned.slices, MarshalAll(values)) == Some(Marshal(result))
  }

  lemma TidyCompiles(doc: Json, tmap: map<string, string>, values: map<string, Json>)
    requires Tokens(tmap) && "" !in tmap && Tidy(doc, Reverse(tmap)) && tmap.Keys <= values.Keys
    requires forall n :: n in tmap ==> Mentions(doc, tmap[n])
    ensures Compiles(doc, tmap, values, Subst(doc, Reverse(tmap), values))
  {
    var names := Reverse(tmap);
    ReverseNames(tmap);
    TidyProper(doc, names);
    assert Named(Lexemes(doc), names);
    forall n | n in tmap
      ensures tmap[n] in TokensIn(Lexemes(doc), names)
    {
      MentionedToken(doc, tmap[n], names);
    }
    TemplateCorrect(doc, tmap, values);
  }

  lemma PreparedMentions(tmap: map<string, string>, w: Window, size: nat, excludeAgents: bool, n: string)
    requires Fits(tmap, w) && n in tmap
    ensures Mentions(QueryDoc(Clauses(PreparedCalls(tmap)), size, excludeAgents), tmap[n])
  {
    var clauses := Clauses(PreparedCalls(tmap));
    ClauseMentions(tmap, w, n);
    var i :| 0 <= i < |clauses| && Mentions(clauses[i], tmap[n]);
    QueryMentions(clauses, size, excludeAgents, i, tmap[n]);
  }

  lemma PreparedSubst(tmap: map<string, string>, w: Window, size: nat, excludeAgents: bool)
    requires Tokens(tmap) && Fits(tmap, w)
    ensures Subst(QueryDoc(Clauses(PreparedCalls(tmap)), size, excludeAgents), Reverse(tmap), ValuesFor(w))
            == QueryDoc(Clauses(CallsFor(w)), size, excludeAgents)
  {
    var names, values := Reverse(tmap), ValuesFor(w);
    ReverseNames(tmap);
    assert !IsToken(SEQ_NO) && !IsToken(AGENTS);
    SubstQueryDoc(Clauses(PreparedCalls(tmap)), size, excludeAgents, names, values);
    SubstClauses(PreparedCalls(tmap), names, values);
    PreparedBecome(tmap, w);
  }

  lemma PreparedTidy(tmap: map<string, string>, w: Window, size: nat, excludeAgents: bool)
    requires Tokens(tmap) && Fits(tmap, w)
    ensures Tidy(QueryDoc(Clauses(PreparedCalls(tmap)), size, excludeAgents), Reverse(tmap))
    ensures forall n :: n in tmap ==> Mentions(QueryDoc(Clauses(PreparedCalls(tmap)), size, excludeAgents), tmap[n])
  {
    ReverseNames(tmap);
    ClausesTidy(tmap, w, Reverse(tmap));
    QueryTidy(Clauses(PreparedCalls(tmap)), size, excludeAgents, Reverse(tmap));
    forall n | n in tmap
      ensures Mentions(QueryDoc(Clauses(PreparedCalls(tmap)), size, excludeAgents), tmap[n])
    {
      PreparedMentions(tmap, w, size, excludeAgents, n);
    }
  }

  /** The values name everything the query binds. */
  lemma ValuesCover(tmap: map<string, string>, w: Window)
    requires Fits(tmap, w)
    ensures "" !in tmap && tmap.Keys <= ValuesFor(w).Keys
  {
  }

  /** A prepared query resolves, and rendered with the values of a window it is the text of the query
      for that window. */
  lemma PreparedRenders(tmap: map<string, string>, w: Window, size: nat, excludeAgents: bool)
    requires Tokens(tmap) && Fits(tmap, w)
    ensures Compiles(QueryDoc(Clauses(PreparedCalls(tmap)), size, excludeAgents), tmap, ValuesFor(w),
                     QueryDoc(Clauses(CallsFor(w)), size, excludeAgents))
  {
    PreparedTidy(tmap, w, size, excludeAgents);
    PreparedSubst(tmap, w, size, excludeAgents);
    ValuesCover(tmap, w);
    TidyCompiles(QueryDoc(Clauses(PreparedCalls(tmap)), size, excludeAgents), tmap, ValuesFor(w));
  }

  // ---------------------------------------------------------------- what a search answers

  function Member(j: Json, key: string): Option<Json> {
    if j.Obj? then Lookup(j.fields, key) else None
  }

  function FilterOf(q: Json): Option<Json> {
    var query := Member(q, "query");
    var inner := if query.Some? then Member(query.value, "bool") else None;
    if inner.Some? then Member(inner.value, "filter") else None
  }

  ghost predicate Satisfies(filter: Json, docs: Docs, k: int) {
    k in docs && FilterHolds(filter, Indexed(k, docs[k]))
  }

  /** The answer Elasticsearch gives to a search body sorted by sequence number: what passes the
      filter, ascending, and all of it unless the page is full. */
  ghost predicate AnswersQuery(hits: seq<int>, docs: Docs, q: Json) {
    && FilterOf(q).Some? && Member(q, "sort") == Some(Arr([Text(SEQ_NO)])) && Member(q, "size").Some?
       && Member(q, "size").value.Num?
    && var (filter, size) := (FilterOf(q).value, Member(q, "size").value.n);
       && Ascending(hits) && |hits| <= size
       && (forall k :: k in hits ==> Satisfies(filter, docs, k))
       && (forall k :: Satisfies(filter, docs, k) ==> k in hits || (|hits| == size && forall h :: h in hits ==> h < k))
  }

  lemma LookupCons(f: Field, rest: seq<Field>, key: string)
    ensures Lookup([f] + rest, key) == if f.key == key then Some(f.value) else Lookup(rest, key)
  {
    assert ([f] + rest)[1..] == rest;
  }

  lemma LookupOrder(size: nat)
    ensures Lookup(OrderFields(size), "size") == Some(Num(size))
    ensures Lookup(OrderFields(size), "sort") == Some(Arr([Text(SEQ_NO)]))
    ensures Lookup(OrderFields(size), "seq_no_primary_term") == Some(Bool(true))
    ensures Lookup(OrderFields(size), "_source") == None
  {
    var o := OrderFields(size);
    assert o == [o[0]] + ([o[1]] + ([o[2]] + []));
    forall key
      ensures Lookup(o, key) == if key == "seq_no_primary_term" then Some(o[0].value)
                                else if key == "size" then Some(o[1].value)
                                else if key == "sort" then Some(o[2].value) else None
    {
      LookupCons(o[0], [o[1]] + ([o[2]] + []), key);
      LookupCons(o[1], [o[2]] + [], key);
      LookupCons(o[2], [], key);
    }
  }

  lemma LookupPart(clauses: seq<Json>, size: nat, excludeAgents: bool, key: string)
    requires key != "_source"
    ensures Lookup(QueryDoc(clauses, size, excludeAgents).fields, key)
            == if key == "query" then Some(FilterDoc(clauses)) else Lookup(OrderFields(size), key)
  {
    var fields, query := QueryDoc(clauses, size, excludeAgents).fields, Field("query", FilterDoc(clauses));
    LookupCons(query, OrderFields(size), key);
    if excludeAgents {
      LookupCons(SourceFields(true)[0], [query] + OrderFields(size), key);
      assert fields == [SourceFields(true)[0]] + ([query] + OrderFields(size));
    } else {
      assert fields == [query] + OrderFields(size);
    }
  }

  lemma PartsOfQuery(clauses: seq<Json>, size: nat, excludeAgents: bool)
    ensures var q := QueryDoc(clauses, size, excludeAgents);
            && FilterOf(q) == Some(Arr(clauses))
            && Member(q, "sort") == Some(Arr([Text(SEQ_NO)])) && Member(q, "size") == Some(Num(size))
  {
    LookupPart(clauses, size, excludeAgents, "query");
    LookupPart(clauses, size, excludeAgents, "size");
    LookupPart(clauses, size, excludeAgents, "sort");
    LookupOrder(size);
  }

  lemma WindowFilter(w: Window, docs: Docs, k: int)
    ensures Satisfies(Arr(Clauses(CallsFor(w))), docs, k) <==> Selects(w, docs, k)
  {
    if k in docs {
      var n := NodeState(None, None, Some([]), false);
      FilterIsConjunction(n, CallsFor(w), Indexed(k, docs[k]));
      ListModeAppends(n, CallsFor(w));
      assert [] + Clauses(CallsFor(w)) == Clauses(CallsFor(w));
      CallsSelectWindow(w, docs, k);
    }
  }

  /** Searching with the query for a window is the windowed search the protocols are built on. */
  lemma QueryIsWindow(hits: seq<int>, docs: Docs, w: Window, size: nat, excludeAgents: bool)
    ensures AnswersQuery(hits, docs, QueryDoc(Clauses(CallsFor(w)), size, excludeAgents))
            <==> IsSearch(hits, docs, w, size)
  {
    PartsOfQuery(Clauses(CallsFor(w)), size, excludeAgents);
    forall k: int
      ensures Satisfies(Arr(Clauses(CallsFor(w))), docs, k) <==> Selects(w, docs, k)
    {
      WindowFilter(w, docs, k);
    }
  }

  // ---------------------------------------------------------------- preparing the templates

  /** The text reads as a search body whose answers are those of the windowed search, whatever the
      index holds, with sequence numbers in the hits, and with the agents left out of them or not. */
  ghost predicate IsQueryFor(text: string, w: Window, size: nat, excludeAgents: bool) {
    && JsonText.Read(text).Some?
    && var q := JsonText.Read(text).value;
       && (forall hits: seq<int>, docs: Docs :: AnswersQuery(hits, docs, q) <==> IsSearch(hits, docs, w, size))
       && Member(q, "seq_no_primary_term") == Some(Bool(true))
       && Member(q, "_source")
          == if excludeAgents then Some(Obj([Field("excludes", Arr([Text("agents")]))])) else None
  }

  /** Rendered for the window, the pieces are a query for it. */
  ghost predicate Serves(sseq: Option<seq<Slice>>, w: Window, size: nat, excludeAgents: bool) {
    && sseq.Some?
    && var text := RenderText(sseq.value, MarshalAll(ValuesFor(w)));
       text.Some? && IsQueryFor(text.value, w, size, excludeAgents)
  }

  lemma QueryServes(w: Window, size: nat, excludeAgents: bool)
    ensures IsQueryFor(Marshal(QueryDoc(Clauses(CallsFor(w)), size, excludeAgents)), w, size, excludeAgents)
  {
    var q := QueryDoc(Clauses(CallsFor(w)), size, excludeAgents);
    JsonText.ReadMarshal(q);
    forall hits: seq<int>, docs: Docs
      ensures AnswersQuery(hits, docs, q) <==> IsSearch(hits, docs, w, size)
    {
      QueryIsWindow(hits, docs, w, size, excludeAgents);
    }
    LookupPart(Clauses(CallsFor(w)), size, excludeAgents, "seq_no_primary_term");
    LookupOrder(size);
    LookupSource(Clauses(CallsFor(w)), size, excludeAgents);
  }

  lemma LookupSource(clauses: seq<Json>, size: nat, excludeAgents: bool)
    ensures Lookup(QueryDoc(clauses, size, excludeAgents).fields, "_source")
            == if excludeAgents then Some(Obj([Field("excludes", Arr([Text("agents")]))])) else None
  {
    var fields, query := QueryDoc(clauses, size, excludeAgents).fields, Field("query", FilterDoc(clauses));
    if excludeAgents {
      LookupCons(SourceFields(true)[0], [query] + OrderFields(size), "_source");
      assert fields == [SourceFields(true)[0]] + ([query] + OrderFields(size));
    } else {
      LookupCons(query, OrderFields(size), "_source");
      LookupOrder(size);
      assert fields == [query] + OrderFields(size);
    }
  }

  predicate IsUuid(u: string) {
    |u| == 36 && forall i :: 0 <= i < |u| ==> UuidChar(u[i])
  }

  ghost predicate FreshUuids(uuids: seq<string>) {
    && (forall i :: 0 <= i < |uuids| ==> IsUuid(uuids[i]))
    && (forall i, j :: 0 <= i < j < |uuids| ==> uuids[i] != uuids[j])
  }

  lemma DifferentTokens(a: string, b: string)
    requires a != b
    ensures "TMPL." + a != "TMPL." + b
  {
    assert ("TMPL." + a)[5..] == a && ("TMPL." + b)[5..] == b;
  }

  lemma AllServed(tmap: map<string, string>, size: nat, excludeAgents: bool, slices: seq<Slice>, matches: set<string>)
    requires Tokens(tmap) && SEQ_NO in tmap && MAX_SEQ_NO in tmap
    requires Scan(Marshal(QueryDoc(Clauses(PreparedCalls(tmap)), size, excludeAgents)), Reverse(tmap))
             == Pieces(slices, matches)
    ensures forall w :: Fits(tmap, w) ==> Serves(Some(slices), w, size, excludeAgents)
  {
    forall w | Fits(tmap, w)
      ensures Serves(Some(slices), w, size, excludeAgents)
    {
      PreparedRenders(tmap, w, size, excludeAgents);
      QueryServes(w, size, excludeAgents);
    }
  }

  function TokenFor(uuid: string): string {
    "TMPL." + uuid
  }

  function TokensFor(uuids: seq<string>): set<string> {
    set i | 0 <= i < |uuids| :: TokenFor(uuids[i])
  }

  lemma NewToken(tokens: set<string>, uuids: seq<string>, uuid: string)
    requires tokens <= TokensFor(uuids) && uuid !in uuids
    ensures TokenFor(uuid) !in tokens
  {
    if TokenFor(uuid) in TokensFor(uuids) {
      var i :| 0 <= i < |uuids| && TokenFor(uuids[i]) == TokenFor(uuid);
      DifferentTokens(uuids[i], uuid);
    }
  }

  lemma TokensGrow(uuids: seq<string>, tokens: set<string>)
    requires |uuids| == 3 && tokens <= TokensFor(uuids[..2]) + {TokenFor(uuids[2])}
    ensures tokens <= TokensFor(uuids)
  {
    forall t | t in tokens
      ensures t in TokensFor(uuids)
    {
      if t in TokensFor(uuids[..2]) {
        var i :| 0 <= i < 2 && TokenFor(uuids[..2][i]) == t;
        assert uuids[i] == uuids[..2][i];
      }
    }
  }

  /** One range with one bound, its value still a place holder. */
  function RangeOn(field: string, atMost: bool, token: string): Json {
    Clause(Range(field, [if atMost then LTE(Text(token)) else GT(Text(token))]))
  }

  method BindRange(tmpl: Tmpl, filter: Node, name: string, field: string, atMost: bool, uuid: string)
    requires Tokens(tmpl.tmap) && IsUuid(uuid) && TokenFor(uuid) !in tmpl.tmap.Values
    requires filter.leaf == None && filter.nodeList.Some?
    modifies tmpl`tmap, filter`nodeMap, filter`nodeList
    ensures Tokens(tmpl.tmap) && tmpl.tmap == old(tmpl.tmap)[name := TokenFor(uuid)]
    ensures filter.nodeMap == old(filter.nodeMap)
    ensures filter.nodeList == Some(old(filter.nodeList).value + [RangeOn(field, atMost, TokenFor(uuid))])
  {
    var token := tmpl.Bind(name, uuid);
    filter.Range(field, [if atMost then LTE(Text(token)) else GT(Text(token))]);
  }

  function RangeClauses(tmap: map<string, string>): seq<Json>
    requires SEQ_NO in tmap && MAX_SEQ_NO in tmap
  {
    [RangeOn(SEQ_NO, false, tmap[SEQ_NO]), RangeOn(SEQ_NO, true, tmap[MAX_SEQ_NO])]
    + if EXPIRATION in tmap then [RangeOn(EXPIRATION, false, tmap[EXPIRATION])] else []
  }

  lemma PreparedClauses(tmap: map<string, string>)
    requires SEQ_NO in tmap && MAX_SEQ_NO in tmap
    ensures Clauses(PreparedCalls(tmap))
            == RangeClauses(tmap) + if AGENTS in tmap then [Clause(Terms(AGENTS, Text(tmap[AGENTS]), None))] else []
  {
  }

  lemma ExpirationAdded(tmap: map<string, string>, token: string)
    requires tmap.Keys == Names(false, false)
    ensures RangeClauses(tmap[EXPIRATION := token]) == RangeClauses(tmap) + [RangeOn(EXPIRATION, false, token)]
    ensures tmap[EXPIRATION := token].Keys == Names(true, false)
    ensures tmap[EXPIRATION := token].Values <= tmap.Values + {token}
  {
    assert tmap[EXPIRATION := token].Keys == tmap.Keys + {EXPIRATION};
  }

  /** The ranges both queries start with. */
  method PrepareRanges(withExpiration: bool, uuids: seq<string>) returns (tmpl: Tmpl, filter: Node)
    requires |uuids| == 3 && FreshUuids(uuids)
    ensures fresh(tmpl) && fresh(filter)
    ensures Tokens(tmpl.tmap) && tmpl.tmap.Keys == Names(withExpiration, false)
    ensures tmpl.tmap.Values <= TokensFor(uuids)
    ensures filter.leaf == None && filter.nodeMap == None && filter.nodeList == Some(RangeClauses(tmpl.tmap))
  {
    tmpl, filter := PrepareWindow(uuids[..2]);
    if withExpiration {
      NewToken(tmpl.tmap.Values, uuids[..2], uuids[2]);
      ExpirationAdded(tmpl.tmap, TokenFor(uuids[2]));
      BindRange(tmpl, filter, EXPIRATION, EXPIRATION, false, uuids[2]);
    }
    TokensGrow(uuids, tmpl.tmap.Values);
  }

  method PrepareWindow(uuids: seq<string>) returns (tmpl: Tmpl, filter: Node)
    requires |uuids| == 2 && FreshUuids(uuids)
    ensures fresh(tmpl) && fresh(filter)
    ensures Tokens(tmpl.tmap) && tmpl.tmap.Keys == Names(false, false)
    ensures tmpl.tmap.Values <= TokensFor(uuids)
    ensures filter.leaf == None && filter.nodeMap == None && filter.nodeList == Some(RangeClauses(tmpl.tmap))
  {
    tmpl := new Tmpl();
    filter := new Node();
    filter.ListMode();
    DifferentTokens(uuids[0], uuids[1]);
    BindRange(tmpl, filter, SEQ_NO, SEQ_NO, false, uuids[0]);
    BindRange(tmpl, filter, MAX_SEQ_NO, SEQ_NO, true, uuids[1]);
    assert filter.nodeList.value == RangeClauses(tmpl.tmap);
  }

  /** Some window fits whatever names a query binds. */
  function SomeWindow(withExpiration: bool, withAgent: bool): Window {
    Window(0, 0, if withExpiration then Some(0) else None, if withAgent then Some("") else None)
  }

  method ResolveQuery(tmpl: Tmpl, clauses: seq<Json>, size: nat, withExpiration: bool, withAgent: bool)
    returns (outcome: Outcome)
    requires Tokens(tmpl.tmap) && tmpl.tmap.Keys == Names(withExpiration, withAgent)
    requires clauses == Clauses(PreparedCalls(tmpl.tmap))
    modifies tmpl`sseq
    ensures outcome == Resolved
    ensures forall w: Window :: w.asOf.Some? == withExpiration && w.agent.Some? == withAgent ==>
            Serves(tmpl.sseq, w, size, withAgent)
  {
    PreparedRenders(tmpl.tmap, SomeWindow(withExpiration, withAgent), size, withAgent);
    outcome := tmpl.Resolve(QueryDoc(clauses, size, withAgent));
    AllServed(tmpl.tmap, size, withAgent, tmpl.sseq.value, tmpl.tmap.Values);
  }

  /** The monitor's query: rendered for any window without an agent, it is that window's query. */
  method PrepareMonitorQuery(withExpiration: bool, fetchSize: nat, uuids: seq<string>)
    returns (tmpl: Tmpl, outcome: Outcome)
    requires |uuids| == 3 && FreshUuids(uuids)
    ensures outcome == Resolved
    ensures forall w: Window :: w.asOf.Some? == withExpiration && w.agent == None ==>
            Serves(tmpl.sseq, w, fetchSize, false)
  {
    var filter;
    tmpl, filter := PrepareRanges(withExpiration, uuids);
    PreparedClauses(tmpl.tmap);
    assert filter.nodeList.value == Clauses(PreparedCalls(tmpl.tmap));
    outcome := ResolveQuery(tmpl, filter.nodeList.value, fetchSize, withExpiration, false);
  }

  /** The pending-action query: always with an expiration and an agent. */
  method PrepareAgentActions(uuids: seq<string>) returns (tmpl: Tmpl, outcome: Outcome)
    requires |uuids| == 4 && FreshUuids(uuids)
    ensures outcome == Resolved
    ensures forall w: Window :: w.asOf.Some? && w.agent.Some? ==> Serves(tmpl.sseq, w, 100, true)
  {
    var filter;
    tmpl, filter := PrepareRanges(true, uuids[..3]);
    NewToken(tmpl.tmap.Values, uuids[..3], uuids[3]);
    AgentsAdded(tmpl.tmap, TokenFor(uuids[3]));
    var token := tmpl.Bind(AGENTS, uuids[3]);
    filter.Terms(AGENTS, Text(token), None);
    outcome := ResolveQuery(tmpl, filter.nodeList.value, MAX_AGENT_ACTIONS, true, true);
  }

  lemma AgentsAdded(tmap: map<string, string>, token: string)
    requires tmap.Keys == Names(true, false)
    ensures Clauses(PreparedCalls(tmap[AGENTS := token]))
            == RangeClauses(tmap) + [Clause(Terms(AGENTS, Text(token), None))]
    ensures tmap[AGENTS := token].Keys == Names(true, true)
  {
    assert tmap[AGENTS := token].Keys == tmap.Keys + {AGENTS};
    PreparedClauses(tmap[AGENTS := token]);
    assert RangeClauses(tmap[AGENTS := token]) == RangeClauses(tmap);
  }
}
