/**
 The query builder: nodes that collect clauses, and what the queries built with them select.

 Child nodes are held by value, as the JSON they marshal to; the fields of a map node are kept in the
 order they are marshalled in, ascending by key.
 */
module QueryDsl {
  import opened Index
  import opened Json
  import JsonText

  // ---------------------------------------------------------------- map nodes

  predicate Less(a: string, b: string) {
    b != "" && (a == "" || a[0] < b[0] || (a[0] == b[0] && Less(a[1..], b[1..])))
  }

  function Lookup(fields: seq<Field>, key: string): Option<Json> {
    if fields == [] then None
    else if fields[0].key == key then Some(fields[0].value)
    else Lookup(fields[1..], key)
  }

  /** Assigning to a key of the map. */
  function Set(fields: seq<Field>, key: string, value: Json): seq<Field> {
    if fields == [] || Less(key, fields[0].key) then [Field(key, value)] + fields
    else if fields[0].key == key then [Field(key, value)] + fields[1..]
    else [fields[0]] + Set(fields[1..], key, value)
  }

  ghost predicate Sorted(fields: seq<Field>) {
    forall i, j :: 0 <= i < j < |fields| ==> Less(fields[i].key, fields[j].key)
  }

  lemma {:induction false} LessTotal(a: string, b: string)
    ensures a == b || Less(a, b) || Less(b, a)
  {
    if a != "" && b != "" && a[0] == b[0] {
      LessTotal(a[1..], b[1..]);
      assert a == [a[0]] + a[1..] && b == [b[0]] + b[1..];
    }
  }

  lemma {:induction false} LessTransitive(a: string, b: string, c: string)
    requires Less(a, b) && Less(b, c)
    ensures Less(a, c)
  {
    if a != "" && a[0] == b[0] == c[0] {
      LessTransitive(a[1..], b[1..], c[1..]);
    }
  }

  lemma {:induction false} SetKeys(fields: seq<Field>, key: string, value: Json, low: string)
    requires Less(low, key) && forall i :: 0 <= i < |fields| ==> Less(low, fields[i].key)
    ensures forall f :: f in Set(fields, key, value) ==> Less(low, f.key)
  {
    if fields != [] {
      SetKeys(fields[1..], key, value, low);
    }
  }

  lemma {:induction false} SetSorted(fields: seq<Field>, key: string, value: Json)
    requires Sorted(fields)
    ensures Sorted(Set(fields, key, value))
  {
    if fields != [] {
      var first, rest := fields[0], fields[1..];
      LessTotal(key, first.key);
      if Less(key, first.key) {
        forall j | 1 <= j < |fields|
          ensures Less(key, fields[j].key)
        {
          LessTransitive(key, first.key, fields[j].key);
        }
      } else if first.key != key {
        SetSorted(rest, key, value);
        SetKeys(rest, key, value, first.key);
        var after := Set(rest, key, value);
        assert forall j :: 0 <= j < |after| ==> after[j] in after;
      }
    }
  }

  lemma {:induction false} LookupSet(fields: seq<Field>, key: string, value: Json, k: string)
    ensures Lookup(Set(fields, key, value), k) == if k == key then Some(value) else Lookup(fields, k)
  {
    if fields != [] {
      LookupSet(fields[1..], key, value, k);
    }
  }

  // ---------------------------------------------------------------- calls on a node

  datatype Bound = GT(v: Json) | LTE(v: Json)

  /** A boost is a number, given as the JSON it marshals to. */
  datatype Call =
    | Range(field: string, bounds: seq<Bound>)
    | Term(field: string, value: Json, boost: Option<Json>)
    | Terms(field: string, value: Json, boost: Option<Json>)

  function BoundKey(b: Bound): string {
    if b.GT? then "gt" else "lte"
  }

  function RangeFields(bounds: seq<Bound>): seq<Field> {
    if bounds == [] then []
    else
      var n := |bounds| - 1;
      Set(RangeFields(bounds[..n]), BoundKey(bounds[n]), bounds[n].v)
  }

  function Keyword(call: Call): string {
    match call
    case Range(_, _) => "range"
    case Term(_, _, _) => "term"
    case Terms(_, _, _) => "terms"
  }

  /** A boosted term is written in the long form. */
  function TermArg(value: Json, boost: Option<Json>): Json {
    if boost.Some? then Obj([Field("value", value), Field("boost", boost.value)]) else value
  }

  /** The boost of several terms stands beside the field. */
  function TermsFields(field: string, value: Json, boost: Option<Json>): seq<Field> {
    if boost.Some? then Set([Field(field, value)], "boost", boost.value) else [Field(field, value)]
  }

  function BodyFields(call: Call): seq<Field> {
    match call
    case Range(field, bounds) => [Field(field, Obj(RangeFields(bounds)))]
    case Term(field, value, boost) => [Field(field, TermArg(value, boost))]
    case Terms(field, value, boost) => TermsFields(field, value, boost)
  }

  /** What the call puts under its keyword. */
  function Body(call: Call): Json {
    Obj(BodyFields(call))
  }

  function Clause(call: Call): Json {
    Obj([Field(Keyword(call), Body(call))])
  }

  datatype NodeState = NodeState(
    leaf: Option<Json>, nodeMap: Option<seq<Field>>, nodeList: Option<seq<Json>>, preventNull: bool)

  const EMPTY := NodeState(None, None, None, false)
  const FILTER := NodeState(None, None, Some([]), false)

  /** The JSON a node marshals to. */
  function Document(n: NodeState): Json {
    if n.leaf.Some? then n.leaf.value
    else if n.nodeMap.Some? then Obj(n.nodeMap.value)
    else if n.nodeList.Some? then Arr(n.nodeList.value)
    else if n.preventNull then Obj([]) else Null
  }

  /** A list takes the call as one more element, a map under the keyword. */
  function After(n: NodeState, call: Call): NodeState {
    if n.nodeList.Some? then n.(nodeList := Some(n.nodeList.value + [Clause(call)]))
    else
      var fields := if n.nodeMap.Some? then n.nodeMap.value else [];
      n.(nodeMap := Some(Set(fields, Keyword(call), Body(call))))
  }

  function AfterAll(n: NodeState, calls: seq<Call>): NodeState {
    if calls == [] then n
    else After(AfterAll(n, calls[..|calls| - 1]), calls[|calls| - 1])
  }

  class Node {
    var leaf: Option<Json>
    var nodeMap: Option<seq<Field>>
    var nodeList: Option<seq<Json>>
    var preventNull: bool

    ghost function State(): NodeState
      reads this
    {
      NodeState(leaf, nodeMap, nodeList, preventNull)
    }

    constructor ()
      ensures State() == NodeState(None, None, None, false)
    {
      leaf, nodeMap, nodeList, preventNull := None, None, None, false;
    }

    /** What Filter does to the child it finds or makes. */
    method ListMode()
      modifies this`nodeList
      ensures nodeList == Some([])
    {
      nodeList := Some([]);
    }

    method AppendOrSetChildNode(keyword: string, child: Json)
      requires leaf.None?
      modifies this`nodeMap, this`nodeList
      ensures if old(nodeList).Some? then
                nodeMap == old(nodeMap) && nodeList == Some(old(nodeList).value + [Obj([Field(keyword, child)])])
              else
                && nodeList == None
                && nodeMap == Some(Set(if old(nodeMap).Some? then old(nodeMap).value else [], keyword, child))
    {
      if nodeList.Some? {
        nodeList := Some(nodeList.value + [Obj([Field(keyword, child)])]);
      } else if nodeMap == None {
        assert [Field(keyword, child)] + [] == [Field(keyword, child)];
        nodeMap := Some([Field(keyword, child)]);
      } else {
        nodeMap := Some(Set(nodeMap.value, keyword, child));
      }
    }

    method Range(field: string, bounds: seq<Bound>)
      requires leaf.None?
      modifies this`nodeMap, this`nodeList
      ensures State() == After(old(State()), Call.Range(field, bounds))
    {
      var fields := [];
      for i := 0 to |bounds|
        invariant fields == RangeFields(bounds[..i])
      {
        assert bounds[..i + 1][..i] == bounds[..i];
        fields := Set(fields, BoundKey(bounds[i]), bounds[i].v);
      }
      assert bounds[..|bounds|] == bounds;
      AppendOrSetChildNode("range", Obj([Field(field, Obj(fields))]));
    }

    method Term(field: string, value: Json, boost: Option<Json>)
      requires leaf.None?
      modifies this`nodeMap, this`nodeList
      ensures State() == After(old(State()), Call.Term(field, value, boost))
    {
      var arg := value;
      if boost.Some? {
        arg := Obj([Field("value", value), Field("boost", boost.value)]);
      }
      AppendOrSetChildNode("term", Obj([Field(field, arg)]));
    }

    method Terms(field: string, value: Json, boost: Option<Json>)
      requires leaf.None?
      modifies this`nodeMap, this`nodeList
      ensures State() == After(old(State()), Call.Terms(field, value, boost))
    {
      var fields := [Field(field, value)];
      if boost.Some? {
        fields := Set(fields, "boost", boost.value);
      }
      AppendOrSetChildNode("terms", Obj(fields));
    }

    /** A leaf marshals to its value whatever else the node has; calls on a filter node to the array
        of their clauses, in order; calls on an empty node to an object with ascending keys that has
        the last call of each keyword; and a node without calls to null, or to an empty object. */
    method MarshalJSON() returns (text: string)
      ensures leaf.Some? ==> JsonText.Read(text) == Some(leaf.value)
      ensures forall calls :: State() == AfterAll(FILTER, calls) ==> JsonText.Read(text) == Some(Arr(Clauses(calls)))
      ensures forall calls :: calls != [] && State() == AfterAll(EMPTY, calls) ==> MarshalsLast(text, calls)
      ensures State() == EMPTY ==> text == "null"
      ensures State() == EMPTY.(preventNull := true) ==> text == "{}"
    {
      JsonText.ReadMarshal(Document(State()));
      forall calls
        ensures Document(AfterAll(FILTER, calls)) == Arr(Clauses(calls))
      {
        ListModeAppends(FILTER, calls);
        assert [] + Clauses(calls) == Clauses(calls);
      }
      forall calls | calls != []
        ensures MarshalsLast(Marshal(Document(AfterAll(EMPTY, calls))), calls)
      {
        MapModeMarshals(calls);
      }
      NoCallsText();
      if leaf.Some? {
        return Marshal(leaf.value);
      } else if nodeMap.Some? {
        return Marshal(Obj(nodeMap.value));
      } else if nodeList.Some? {
        return Marshal(Arr(nodeList.value));
      }
      if preventNull {
        return Marshal(Obj([]));
      }
      return Marshal(Null);
    }
  }

  /** The text reads as an object with ascending keys that has the last call of each keyword. */
  ghost predicate MarshalsLast(text: string, calls: seq<Call>) {
    && JsonText.Read(text).Some? && JsonText.Read(text).value.Obj?
    && var fields := JsonText.Read(text).value.fields;
       Sorted(fields) && forall keyword :: Lookup(fields, keyword) == LastBody(calls, keyword)
  }

  lemma NoCallsText()
    ensures Marshal(Null) == "null" && Marshal(Obj([])) == "{}"
  {
    SpellCons(Raw("null"), []);
    SpellCons(Raw("{"), [Raw("}")]);
    SpellCons(Raw("}"), []);
    assert Lexemes(Obj([])) == [Raw("{")] + [Raw("}")];
    assert [Raw("null")] + [] == [Raw("null")] && [Raw("}")] + [] == [Raw("}")];
  }

  // ---------------------------------------------------------------- what is selected

  /** The indexed fields of a document. */
  datatype Doc = Doc(nums: map<string, int>, words: map<string, seq<string>>)

  predicate IsBelow(bound: Json, x: int) {
    bound.Num? && bound.n < x
  }

  predicate IsAtLeast(bound: Json, x: int) {
    bound.Num? && x <= bound.n
  }

  predicate Has(d: Doc, field: string, value: Json) {
    match value
    case Num(n) => field in d.nums && d.nums[field] == n
    case Text(s) => field in d.words && s in d.words[field]
    case _ => false
  }

  predicate HasAny(d: Doc, field: string, value: Json) {
    value.Arr? && exists i :: 0 <= i < |value.elems| && Has(d, field, value.elems[i])
  }

  predicate InRange(d: Doc, field: string, bounds: seq<Field>) {
    var (gt, lte) := (Lookup(bounds, "gt"), Lookup(bounds, "lte"));
    && field in d.nums
    && (gt.Some? ==> IsBelow(gt.value, d.nums[field]))
    && (lte.Some? ==> IsAtLeast(lte.value, d.nums[field]))
  }

  /** In the long form the value stands beside its boost. */
  predicate TermHolds(d: Doc, field: string, arg: Json) {
    if arg.Obj? then Lookup(arg.fields, "value").Some? && Has(d, field, Lookup(arg.fields, "value").value)
    else Has(d, field, arg)
  }

  /** The field of a terms clause, beside its boost if it has one. */
  function FieldBesideBoost(fields: seq<Field>): Option<Field> {
    if |fields| == 1 then Some(fields[0])
    else if |fields| == 2 && fields[0].key == "boost" then Some(fields[1])
    else if |fields| == 2 && fields[1].key == "boost" then Some(fields[0])
    else None
  }

  /** The Elasticsearch meaning of a clause; boosts do not select. */
  predicate ClauseHolds(c: Json, d: Doc) {
    && c.Obj? && |c.fields| == 1 && c.fields[0].value.Obj?
    && var (keyword, fields) := (c.fields[0].key, c.fields[0].value.fields);
       if keyword == "terms" then
         FieldBesideBoost(fields).Some?
         && HasAny(d, FieldBesideBoost(fields).value.key, FieldBesideBoost(fields).value.value)
       else
         && |fields| == 1
         && if keyword == "range" then fields[0].value.Obj? && InRange(d, fields[0].key, fields[0].value.fields)
            else keyword == "term" && TermHolds(d, fields[0].key, fields[0].value)
  }

  /** A document passes a filter if every clause of the list holds of it. */
  ghost predicate FilterHolds(filter: Json, d: Doc) {
    filter.Arr? && forall i :: 0 <= i < |filter.elems| ==> ClauseHolds(filter.elems[i], d)
  }

  /** The bound of a kind that is given last, which is the one that counts. */
  function LastGT(bounds: seq<Bound>): Option<Json> {
    if bounds == [] then None
    else if bounds[|bounds| - 1].GT? then Some(bounds[|bounds| - 1].v)
    else LastGT(bounds[..|bounds| - 1])
  }

  function LastLTE(bounds: seq<Bound>): Option<Json> {
    if bounds == [] then None
    else if bounds[|bounds| - 1].LTE? then Some(bounds[|bounds| - 1].v)
    else LastLTE(bounds[..|bounds| - 1])
  }

  /** What a call asks for, said without the tree. */
  predicate Asks(call: Call, d: Doc) {
    match call
    case Range(field, bounds) =>
      && field in d.nums
      && (LastGT(bounds).Some? ==> IsBelow(LastGT(bounds).value, d.nums[field]))
      && (LastLTE(bounds).Some? ==> IsAtLeast(LastLTE(bounds).value, d.nums[field]))
    // a value that is an object is the long form, written by the caller
    case Term(field, value, boost) =>
      if boost.None? && value.Obj? then TermHolds(d, field, value) else Has(d, field, value)
    // a field called boost is overwritten by the boost
    case Terms(field, value, boost) => HasAny(d, field, if boost.Some? && field == "boost" then boost.value else value)
  }

  lemma {:induction false} RangeKeepsLast(bounds: seq<Bound>)
    ensures Lookup(RangeFields(bounds), "gt") == LastGT(bounds)
    ensures Lookup(RangeFields(bounds), "lte") == LastLTE(bounds)
    ensures Sorted(RangeFields(bounds))
  {
    if bounds != [] {
      var n := |bounds| - 1;
      RangeKeepsLast(bounds[..n]);
      LookupSet(RangeFields(bounds[..n]), BoundKey(bounds[n]), bounds[n].v, "gt");
      LookupSet(RangeFields(bounds[..n]), BoundKey(bounds[n]), bounds[n].v, "lte");
      SetSorted(RangeFields(bounds[..n]), BoundKey(bounds[n]), bounds[n].v);
    }
  }

  lemma ClauseMeans(call: Call, d: Doc)
    ensures ClauseHolds(Clause(call), d) <==> Asks(call, d)
  {
    match call
    case Range(_, bounds) => RangeKeepsLast(bounds);
    case Term(field, value, boost) =>
      if boost.Some? {
        var rest := [Field("boost", boost.value)];
        assert Lookup([Field("value", value)] + rest, "value") == Some(value);
        assert TermArg(value, boost) == Obj([Field("value", value)] + rest);
      }
    case Terms(field, value, boost) =>
      if boost.Some? {
        BoostBeside(field, value, boost.value);
      }
  }

  lemma BoostBeside(field: string, value: Json, boost: Json)
    ensures FieldBesideBoost(Set([Field(field, value)], "boost", boost))
            == Some(Field(field, if field == "boost" then boost else value))
  {
    var one := [Field(field, value)];
    assert one[1..] == [];
    assert Set([], "boost", boost) == [Field("boost", boost)];
  }

  function Clauses(calls: seq<Call>): seq<Json> {
    seq(|calls|, i requires 0 <= i < |calls| => Clause(calls[i]))
  }

  lemma {:induction false} ListModeAppends(n: NodeState, calls: seq<Call>)
    requires n.leaf == None && n.nodeMap == None && n.nodeList.Some?
    ensures AfterAll(n, calls) == n.(nodeList := Some(n.nodeList.value + Clauses(calls)))
  {
    if calls == [] {
      assert n.nodeList.value + Clauses(calls) == n.nodeList.value;
    } else {
      var k := |calls| - 1;
      ListModeAppends(n, calls[..k]);
      assert Clauses(calls) == Clauses(calls[..k]) + [Clause(calls[k])];
      assert n.nodeList.value + Clauses(calls[..k]) + [Clause(calls[k])] == n.nodeList.value + Clauses(calls);
    }
  }

  lemma ClauseAt(calls: seq<Call>, i: nat, d: Doc)
    requires i < |calls|
    ensures ClauseHolds(Clauses(calls)[i], d) <==> Asks(calls[i], d)
  {
    ClauseMeans(calls[i], d);
  }

  ghost predicate AsksAll(calls: seq<Call>, d: Doc) {
    forall i :: 0 <= i < |calls| ==> Asks(calls[i], d)
  }

  lemma ClausesMean(calls: seq<Call>, d: Doc)
    ensures FilterHolds(Arr(Clauses(calls)), d) <==> AsksAll(calls, d)
  {
    var list := Clauses(calls);
    if FilterHolds(Arr(list), d) {
      forall i | 0 <= i < |calls|
        ensures Asks(calls[i], d)
      {
        assert ClauseHolds(list[i], d);
        ClauseAt(calls, i, d);
      }
    }
    if AsksAll(calls, d) {
      forall i | 0 <= i < |list|
        ensures ClauseHolds(list[i], d)
      {
        ClauseAt(calls, i, d);
      }
    }
  }

  /** Any calls on a filter node make a filter that asks for all of them together. */
  lemma FilterIsConjunction(n: NodeState, calls: seq<Call>, d: Doc)
    requires n == NodeState(None, None, Some([]), n.preventNull)
    ensures FilterHolds(Document(AfterAll(n, calls)), d) <==> AsksAll(calls, d)
  {
    ListModeAppends(n, calls);
    assert [] + Clauses(calls) == Clauses(calls);
    ClausesMean(calls, d);
  }

  /** The last call with a keyword. */
  function LastBody(calls: seq<Call>, keyword: string): Option<Json> {
    if calls == [] then None
    else
      var k := |calls| - 1;
      if Keyword(calls[k]) == keyword then Some(Body(calls[k])) else LastBody(calls[..k], keyword)
  }

  lemma {:induction false} MapModeKeepsLast(n: NodeState, calls: seq<Call>, keyword: string)
    requires n == NodeState(None, None, None, n.preventNull) && calls != []
    ensures var after := AfterAll(n, calls);
            after.nodeList == None && after.nodeMap.Some?
              && Lookup(after.nodeMap.value, keyword) == LastBody(calls, keyword)
  {
    var k := |calls| - 1;
    if k == 0 {
      assert AfterAll(n, calls[..0]) == n;
      LookupSet([], Keyword(calls[0]), Body(calls[0]), keyword);
      assert LastBody(calls[..0], keyword) == None;
    } else {
      MapModeKeepsLast(n, calls[..k], keyword);
      LookupSet(AfterAll(n, calls[..k]).nodeMap.value, Keyword(calls[k]), Body(calls[k]), keyword);
    }
  }

  lemma {:induction false} MapModeSorted(calls: seq<Call>)
    requires calls != []
    ensures AfterAll(EMPTY, calls).leaf == None && AfterAll(EMPTY, calls).nodeMap.Some?
    ensures Sorted(AfterAll(EMPTY, calls).nodeMap.value)
  {
    var k := |calls| - 1;
    MapModeKeepsLast(EMPTY, calls, "range");
    if k == 0 {
      assert AfterAll(EMPTY, calls[..0]) == EMPTY;
      SetSorted([], Keyword(calls[0]), Body(calls[0]));
    } else {
      MapModeSorted(calls[..k]);
      MapModeKeepsLast(EMPTY, calls[..k], "range");
      SetSorted(AfterAll(EMPTY, calls[..k]).nodeMap.value, Keyword(calls[k]), Body(calls[k]));
    }
  }

  lemma MapModeMarshals(calls: seq<Call>)
    requires calls != []
    ensures MarshalsLast(Marshal(Document(AfterAll(EMPTY, calls))), calls)
  {
    MapModeSorted(calls);
    var fields := AfterAll(EMPTY, calls).nodeMap.value;
    forall keyword
      ensures Lookup(fields, keyword) == LastBody(calls, keyword)
    {
      MapModeKeepsLast(EMPTY, calls, keyword);
    }
    assert Document(AfterAll(EMPTY, calls)) == Obj(fields);
    JsonText.ReadMarshal(Obj(fields));
  }

  ghost predicate KeepsAll(fields: seq<Field>, calls: seq<Call>) {
    forall i :: 0 <= i < |calls| ==> Lookup(fields, Keyword(calls[i])) == Some(Body(calls[i]))
  }

  lemma {:induction false} LastBodyIs(calls: seq<Call>, i: nat, keyword: string)
    requires i < |calls| && Keyword(calls[i]) == keyword
    requires forall j :: i < j < |calls| && Keyword(calls[j]) == keyword ==> Body(calls[j]) == Body(calls[i])
    ensures LastBody(calls, keyword) == Some(Body(calls[i]))
  {
    var k := |calls| - 1;
    if i < k && Keyword(calls[k]) != keyword {
      LastBodyIs(calls[..k], i, keyword);
    }
  }

  /** Outside list mode every call survives exactly if no two calls say different things under one
      keyword: two ranges on one node, say, leave only the second. */
  lemma MapModeKeepsAll(n: NodeState, calls: seq<Call>)
    requires n == NodeState(None, None, None, n.preventNull) && calls != []
    ensures AfterAll(n, calls).nodeMap.Some?
    ensures KeepsAll(AfterAll(n, calls).nodeMap.value, calls)
            <==> forall i, j :: 0 <= i < j < |calls| && Keyword(calls[i]) == Keyword(calls[j]) ==>
                 Body(calls[i]) == Body(calls[j])
  {
    MapModeKeepsLast(n, calls, "range");
    var fields := AfterAll(n, calls).nodeMap.value;
    if forall i, j :: 0 <= i < j < |calls| && Keyword(calls[i]) == Keyword(calls[j]) ==>
       Body(calls[i]) == Body(calls[j]) {
      forall i | 0 <= i < |calls|
        ensures Lookup(fields, Keyword(calls[i])) == Some(Body(calls[i]))
      {
        MapModeKeepsLast(n, calls, Keyword(calls[i]));
        LastBodyIs(calls, i, Keyword(calls[i]));
      }
    }
  }
}
