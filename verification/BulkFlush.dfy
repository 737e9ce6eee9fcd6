/**
 Flushing a batch: one request to Elasticsearch for all of its items, and one answer to each item
 from the position it has in the reply.
 */
module BulkFlush {
  import opened Index
  import opened Bulker
  import opened Picks
  import opened Json
  import JsonText

  datatype Result = Failed | Got(reply: int)

  /** What is sent on a request's channel. */
  datatype Answer = Answer(ch: nat, idx: nat, result: Result)

  /** A bulk reply holds, for each item, a map with one entry; `elements[i]` lists the entries of the
      i-th map in the order the range loop meets them. */
  datatype BulkReply = NoBulkReply | Elements(elements: seq<seq<int>>)

  datatype Reply = NoReply | Replies(replies: seq<int>)

  function Concat(items: seq<Item>): string {
    if items == [] then "" else Concat(items[..|items| - 1]) + items[|items| - 1].data
  }

  predicate AnyRefresh(items: seq<Item>) {
    items != [] && (items[|items| - 1].refresh || AnyRefresh(items[..|items| - 1]))
  }

  function AnswerTo(item: Item, r: Result): Answer {
    Answer(item.ch, item.idx, r)
  }

  function NonEmpty(elements: seq<seq<int>>): nat -> bool {
    (i: nat) => i < |elements| && elements[i] != []
  }

  /** Of the first `n` items, every one whose element is not empty is answered with the first entry of
      its own element, in the order of the items, and no other is; `at` tells which items these are. */
  ghost predicate AnswersUpTo(items: seq<Item>, elements: seq<seq<int>>, n: nat, at: seq<nat>, answers: seq<Answer>) {
    && n <= |items| == |elements| && |answers| == |at|
    && IsPick(at, n, NonEmpty(elements))
    && (forall j :: 0 <= j < |at| ==> AnswersAt(items, elements, at[j], answers[j]))
  }

  predicate AnswersAt(items: seq<Item>, elements: seq<seq<int>>, i: nat, a: Answer) {
    && i < |items| && i < |elements| && elements[i] != []
    && a == Answer(items[i].ch, items[i].idx, Got(elements[i][0]))
  }

  ghost predicate AnswersByPosition(items: seq<Item>, elements: seq<seq<int>>, at: seq<nat>, answers: seq<Answer>) {
    AnswersUpTo(items, elements, |items|, at, answers)
  }

  lemma AnswerNext(items: seq<Item>, elements: seq<seq<int>>, n: nat, at: seq<nat>, answers: seq<Answer>)
    requires n < |items| && AnswersUpTo(items, elements, n, at, answers)
    ensures if elements[n] == [] then AnswersUpTo(items, elements, n + 1, at, answers)
            else AnswersUpTo(items, elements, n + 1, at + [n], answers + [AnswerTo(items[n], Got(elements[n][0]))])
  {
    PickNext(at, n, NonEmpty(elements));
  }

  function FailAll(items: seq<Item>): seq<Answer> {
    seq(|items|, i requires 0 <= i < |items| => AnswerTo(items[i], Failed))
  }

  /** The request a batch of writes is sent as. */
  method BulkRequest(items: seq<Item>) returns (body: string, refresh: bool)
    ensures body == Concat(items) && refresh == AnyRefresh(items)
    ensures refresh <==> exists i :: 0 <= i < |items| && items[i].refresh
  {
    body, refresh := "", false;
    for i := 0 to |items|
      invariant body == Concat(items[..i]) && refresh == AnyRefresh(items[..i])
      invariant refresh <==> exists j :: 0 <= j < i && items[j].refresh
    {
      assert items[..i + 1][..i] == items[..i];
      body := body + items[i].data;
      if items[i].refresh {
        refresh := true;
      }
    }
    assert items[..|items|] == items;
  }

  /** None if the flush failed, which it does only before any answer. */
  method FlushBulk(items: seq<Item>, transport: (string, bool) -> BulkReply)
    returns (answers: Option<seq<Answer>>, ghost at: seq<nat>)
    ensures var r := transport(Concat(items), AnyRefresh(items));
            if r.NoBulkReply? || |r.elements| != |items| then answers == None
            else answers.Some? && AnswersByPosition(items, r.elements, at, answers.value)
  {
    at := [];
    var body, refresh := BulkRequest(items);
    var r := transport(body, refresh);
    if r.NoBulkReply? || |r.elements| != |items| {
      return None, [];
    }
    var sent: seq<Answer> := [];
    for i := 0 to |items|
      invariant AnswersUpTo(items, r.elements, i, at, sent)
    {
      AnswerNext(items, r.elements, i, at, sent);
      if r.elements[i] != [] {
        sent, at := sent + [AnswerTo(items[i], Got(r.elements[i][0]))], at + [i];
      }
    }
    answers := Some(sent);
  }

  const READ_PREFIX := "{\"docs\": ["
  const READ_SUFFIX := "]}"

  /** Reads and searches are answered position by position too; `payload` is what is sent. */
  method AnswerReplies(items: seq<Item>, payload: string, transport: string -> Reply)
    returns (answers: Option<seq<Answer>>)
    ensures var r := transport(payload);
            if r.NoReply? || |r.replies| != |items| then answers == None
            else
              && answers.Some? && |answers.value| == |items|
              && forall i :: 0 <= i < |items| ==>
                   answers.value[i] == Answer(items[i].ch, items[i].idx, Got(r.replies[i]))
  {
    var r := transport(payload);
    if r.NoReply? || |r.replies| != |items| {
      return None;
    }
    var sent: seq<Answer> := [];
    for i := 0 to |items|
      invariant |sent| == i && forall j :: 0 <= j < i ==> sent[j] == AnswerTo(items[j], Got(r.replies[j]))
    {
      sent := sent + [AnswerTo(items[i], Got(r.replies[i]))];
    }
    answers := Some(sent);
  }

  /** Documents separated by commas, as a JSON array body has them. */
  function Commas(docs: seq<string>): string {
    if docs == [] then "" else if |docs| == 1 then docs[0]
    else Commas(docs[..|docs| - 1]) + "," + docs[|docs| - 1]
  }

  /** Each item of a read is one document and a comma. */
  predicate Separated(items: seq<Item>, docs: seq<string>) {
    |items| == |docs| && items != [] && forall i :: 0 <= i < |items| ==> items[i].data == docs[i] + ","
  }

  lemma {:induction false} ConcatCommas(items: seq<Item>, docs: seq<string>)
    requires Separated(items, docs)
    ensures Concat(items) == Commas(docs) + ","
  {
    var n := |items| - 1;
    if n > 0 {
      ConcatCommas(items[..n], docs[..n]);
    } else {
      assert items[..0] == [];
    }
  }

  lemma StripLast(prefix: string, body: string)
    ensures (prefix + (body + ","))[..|prefix| + |body|] == prefix + body
  {
  }

  function Texts(js: seq<Json>): seq<string> {
    seq(|js|, i requires 0 <= i < |js| => Marshal(js[i]))
  }

  lemma {:induction false} CommasFirst(docs: seq<string>)
    requires |docs| > 1
    ensures Commas(docs) == docs[0] + "," + Commas(docs[1..])
  {
    var n := |docs| - 1;
    if n > 1 {
      CommasFirst(docs[..n]);
      assert docs[..n][1..] == docs[1..][..n - 1];
      Associative(docs[0] + ",", Commas(docs[1..][..n - 1]), "," + docs[n]);
      Associative(Commas(docs[1..][..n - 1]), ",", docs[n]);
      Associative(docs[0] + "," + Commas(docs[1..][..n - 1]), ",", docs[n]);
    }
  }

  /** Documents with commas between them are what stands between the brackets of an array. */
  lemma {:induction false} CommasElems(js: seq<Json>)
    requires js != []
    ensures Commas(Texts(js)) == Spell(ElemLexemes(js))
  {
    JsonText.WrittenElems(js);
    if |js| > 1 {
      CommasFirst(Texts(js));
      assert Texts(js)[1..] == Texts(js[1..]);
      CommasElems(js[1..]);
    } else {
      assert Spell(ElemLexemes(js)) == Marshal(js[0]);
    }
  }

  lemma QuotedDocs()
    ensures Quoted(Escape("docs")) == "\"docs\""
  {
    JsonText.EscapeFirst("docs");
    JsonText.EscapeFirst("ocs");
    JsonText.EscapeFirst("cs");
    JsonText.EscapeFirst("s");
  }

  lemma SpaceSkipped(s: string)
    ensures JsonText.ReadValue(" " + s) == JsonText.ReadValue(s)
  {
    assert (" " + s)[1..] == s;
  }

  lemma PayloadArray(js: seq<Json>)
    ensures JsonText.ReadValue(" " + (Marshal(Arr(js)) + "}")) == JsonText.Took(Arr(js), "}" + "")
  {
    JsonText.ReadBack(Arr(js), "}");
    SpaceSkipped(Marshal(Arr(js)) + "}");
    assert "}" == "}" + "";
  }

  /** What stands behind the opening brace. */
  lemma PayloadInner(js: seq<Json>)
    requires js != []
    ensures JsonText.ReadFields("\"docs\"" + (":" + (" " + (Marshal(Arr(js)) + "}"))))
            == JsonText.Took([Field("docs", Arr(js))], "")
  {
    PayloadArray(js);
    JsonText.LastNamed(Field("docs", Arr(js)), " " + (Marshal(Arr(js)) + "}"), "");
    QuotedDocs();
  }

  lemma PayloadText(js: seq<Json>)
    requires js != []
    ensures READ_PREFIX + Commas(Texts(js)) + READ_SUFFIX
            == "{" + ("\"docs\"" + (":" + (" " + (Marshal(Arr(js)) + "}"))))
  {
    var elems := Spell(ElemLexemes(js));
    CommasElems(js);
    JsonText.WrittenArr(js);
    assert READ_PREFIX == "{" + ("\"docs\"" + (":" + (" " + "[")));
    PrefixText(elems);
  }

  lemma PrefixText(elems: string)
    ensures "{" + ("\"docs\"" + (":" + (" " + "["))) + elems + "]}"
            == "{" + ("\"docs\"" + (":" + (" " + ("[" + elems + "]" + "}"))))
  {
  }

  /** Read as JSON, the body asks for the documents, in order. */
  lemma PayloadReads(js: seq<Json>)
    requires js != []
    ensures JsonText.Read(READ_PREFIX + Commas(Texts(js)) + READ_SUFFIX) == Some(Obj([Field("docs", Arr(js))]))
  {
    var inner := "\"docs\"" + (":" + (" " + (Marshal(Arr(js)) + "}")));
    PayloadText(js);
    PayloadInner(js);
    JsonText.ReadObjHere(inner);
    JsonText.Here("{" + inner);
  }

  /** The body of a read request lists its documents, whatever they are, with single commas between
      them, and if they are JSON texts it reads as an object with these documents, in order. */
  method ReadPayload(items: seq<Item>) returns (payload: string)
    ensures forall docs :: Separated(items, docs) ==> payload == READ_PREFIX + Commas(docs) + READ_SUFFIX
    ensures forall js :: Separated(items, Texts(js)) ==>
              JsonText.Read(payload) == Some(Obj([Field("docs", Arr(js))]))
  {
    var buf := READ_PREFIX;
    for i := 0 to |items|
      invariant buf == READ_PREFIX + Concat(items[..i])
    {
      assert items[..i + 1][..i] == items[..i];
      buf := buf + items[i].data;
    }
    assert items[..|items|] == items;
    forall docs | Separated(items, docs)
      ensures buf[..|buf| - 1] == READ_PREFIX + Commas(docs)
    {
      ConcatCommas(items, docs);
      StripLast(READ_PREFIX, Commas(docs));
    }
    payload := buf[..|buf| - 1] + READ_SUFFIX;
    forall js | Separated(items, Texts(js))
      ensures JsonText.Read(payload) == Some(Obj([Field("docs", Arr(js))]))
    {
      PayloadReads(js);
    }
  }

  /** Who an answer is for. */
  function Addressees(answers: seq<Answer>): seq<(nat, nat)> {
    seq(|answers|, i requires 0 <= i < |answers| => (answers[i].ch, answers[i].idx))
  }

  function Senders(items: seq<Item>): seq<(nat, nat)> {
    seq(|items|, i requires 0 <= i < |items| => (items[i].ch, items[i].idx))
  }

  /** A flush answers each of its items exactly once, in order, if and only if no element of the
      reply is empty. */
  lemma PositionalAnswersAll(items: seq<Item>, elements: seq<seq<int>>, at: seq<nat>, answers: seq<Answer>)
    requires AnswersByPosition(items, elements, at, answers)
    ensures |answers| <= |items|
    ensures Addressees(answers) == Senders(items) <==> forall i :: 0 <= i < |elements| ==> elements[i] != []
    ensures Addressees(answers) == Senders(items) ==>
              forall i :: 0 <= i < |items| ==>
                elements[i] != [] && answers[i] == AnswerTo(items[i], Got(elements[i][0]))
  {
    PickWhole(at, |items|, NonEmpty(elements));
    assert forall i :: 0 <= i < |elements| ==> (NonEmpty(elements)(i) <==> elements[i] != []);
    assert forall j :: 0 <= j < |at| ==> AnswersAt(items, elements, at[j], answers[j]);
    assert |Addressees(answers)| == |answers| && |Senders(items)| == |items|;
    if |at| == |items| {
      assert forall i :: 0 <= i < |items| ==> at[i] == i && Addressees(answers)[i] == Senders(items)[i];
    }
  }

  /** The flush goroutine of a batch of writes: a flush that fails answers every item with the
      failure; any other answers each item with its own entry, leaving out exactly the items whose
      element is empty. */
  method FlushWrites(items: seq<Item>, transport: (string, bool) -> BulkReply)
    returns (answers: seq<Answer>, ghost at: seq<nat>)
    ensures var r := transport(Concat(items), AnyRefresh(items));
            if r.NoBulkReply? || |r.elements| != |items| then
              && |answers| == |items|
              && forall i :: 0 <= i < |items| ==> answers[i] == Answer(items[i].ch, items[i].idx, Failed)
            else
              && AnswersByPosition(items, r.elements, at, answers)
              && (Addressees(answers) == Senders(items) <==> forall i :: 0 <= i < |r.elements| ==> r.elements[i] != [])
  {
    var flushed;
    flushed, at := FlushBulk(items, transport);
    if flushed.None? {
      return FailAll(items), [];
    }
    PositionalAnswersAll(items, transport(Concat(items), AnyRefresh(items)).elements, at, flushed.value);
    answers := flushed.value;
  }

  lemma {:induction false} SameRefresh(items: seq<Item>, refresh: bool)
    requires items != [] && forall i :: 0 <= i < |items| ==> items[i].refresh == refresh
    ensures AnyRefresh(items) == refresh
  {
    if |items| > 1 {
      SameRefresh(items[..|items| - 1], refresh);
    }
  }

  /** The refresh flag of a write request is the refresh option of each of its items. */
  lemma RefreshAgrees(b: Batch)
    requires FromOneQueue(b) && b.action == Writes
    ensures forall i :: 0 <= i < |b.items| ==> b.items[i].refresh == AnyRefresh(b.items)
  {
    var k :| 0 <= k < NUM_QUEUES && BatchInv(b, k);
    assert forall i :: 0 <= i < |b.items| ==> QueueOf(b.items[i]) == k;
    SameRefresh(b.items, k == QUEUE_REFRESH);
  }
}
