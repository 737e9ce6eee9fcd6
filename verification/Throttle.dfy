/**
 The throttle: at most one token per key at a time and at most `max` unexpired tokens in all.
 Tokens expire lazily; an expired entry stays in the map until something needs its place.
 */
module Throttle {
  import opened Index
  import opened Sets

  const U64 := 0x1_0000_0000_0000_0000

  datatype Entry = Entry(id: nat, expire: int)

  datatype Token = Token(id: nat, key: string)

  type Entries = map<string, Entry>

  predicate Expired(e: Entry, now: int) {
    e.expire < now
  }

  /** The view a caller cares about: the tokens still in force. */
  function Live(m: Entries, now: int): Entries {
    map k | k in m && !Expired(m[k], now) :: m[k]
  }

  predicate AtCapacity(max: int, m: Entries) {
    max != 0 && |m| >= max
  }

  /** The entries `checkAtMaxPending` may delete: the key's own if it has expired, otherwise any
      expired one, and none below capacity. */
  predicate MayEject(max: int, m: Entries, key: string, now: int, ejected: Option<string>) {
    if !AtCapacity(max, m) then ejected == None
    else if key in m && Expired(m[key], now) then ejected == Some(key)
    else if exists k :: k in m && Expired(m[k], now) then
      ejected.Some? && ejected.value in m && Expired(m[ejected.value], now)
    else ejected == None
  }

  function Eject(m: Entries, ejected: Option<string>): Entries {
    if ejected.Some? then m - {ejected.value} else m
  }

  /** The id that follows a count, and so that of the token issued after `cnt` others. */
  function NextId(cnt: nat): nat {
    (cnt + 1) % U64
  }

  /** An acquisition once the choice of ejected entry is made; `now` is the clock reading of the test
      of the key. */
  function Acquired(max: int, m: Entries, cnt: nat, key: string, ttl: int, now: int, ejected: Option<string>)
    : (Option<Token>, Entries, nat)
  {
    var rest := Eject(m, ejected);
    if AtCapacity(max, m) && ejected == None then (None, m, cnt)
    else if key in rest && !Expired(rest[key], now) then (None, rest, cnt)
    else
      var id := NextId(cnt);
      (Some(Token(id, key)), rest[key := Entry(id, now + ttl)], id)
  }

  predicate WithinCapacity(max: int, m: Entries) {
    max != 0 ==> |m| <= (if max > 0 then max else 0)
  }

  class Throttle {
    const maxParallel: int
    var tokenCnt: nat
    var tokenMap: Entries

    predicate Valid()
      reads this
    {
      tokenCnt < U64 && WithinCapacity(maxParallel, tokenMap)
    }

    constructor (max: int)
      ensures Valid() && maxParallel == max && tokenCnt == 0 && tokenMap == map[]
    {
      maxParallel, tokenCnt, tokenMap := max, 0, map[];
    }

    method Acquire(key: string, ttl: int, checked: int, now: int)
      returns (token: Option<Token>, ghost ejected: Option<string>)
      requires Valid() && checked <= now
      modifies this
      ensures Valid()
      ensures MayEject(maxParallel, old(tokenMap), key, checked, ejected)
      ensures (token, tokenMap, tokenCnt) == Acquired(maxParallel, old(tokenMap), old(tokenCnt), key, ttl, now, ejected)
      ensures token.Some? <==>
                && key !in Live(old(tokenMap), now)
                && (maxParallel == 0 || |Live(old(tokenMap), checked)| < maxParallel)
    {
      AcquireDecision(maxParallel, tokenMap, key, checked, now);
      ghost var before := tokenMap;
      var full;
      full, ejected := CheckAtMaxPending(key, checked);
      AcquireKeepsCapacity(maxParallel, before, tokenCnt, key, ttl, checked, now, ejected);
      if full {
        return None, ejected;
      }
      if key !in tokenMap || Expired(tokenMap[key], now) {
        tokenCnt := NextId(tokenCnt);
        token := Some(Token(tokenCnt, key));
        tokenMap := tokenMap[key := Entry(tokenCnt, now + ttl)];
        return;
      }
      token := None;
    }

    method CheckAtMaxPending(key: string, now: int) returns (full: bool, ghost ejected: Option<string>)
      modifies this`tokenMap
      ensures MayEject(maxParallel, old(tokenMap), key, now, ejected)
      ensures full <==> AtCapacity(maxParallel, old(tokenMap)) && ejected == None
      ensures tokenMap == Eject(old(tokenMap), ejected)
    {
      ejected := None;
      if maxParallel == 0 || |tokenMap| < maxParallel {
        return false, None;
      }
      if key in tokenMap && Expired(tokenMap[key], now) {
        tokenMap := tokenMap - {key};
        return false, Some(key);
      }
      var rest := tokenMap.Keys;
      while rest != {}
        invariant tokenMap == old(tokenMap) && rest <= tokenMap.Keys
        invariant forall k :: k in tokenMap && k !in rest ==> !Expired(tokenMap[k], now)
        decreases |rest|
      {
        var k :| k in rest;
        if Expired(tokenMap[k], now) {
          ejected := Some(k);
          tokenMap := tokenMap - {k};
          return false, ejected;
        }
        rest := rest - {k};
      }
      return true, None;
    }

    method Release(id: nat, key: string) returns (found: bool)
      requires Valid()
      modifies this`tokenMap
      ensures Valid()
      ensures found <==> key in old(tokenMap) && old(tokenMap)[key].id == id
      ensures tokenMap == if found then old(tokenMap) - {key} else old(tokenMap)
    {
      if key !in tokenMap {
        return false;
      }
      if tokenMap[key].id == id {
        CardRemove(tokenMap, key);
        tokenMap := tokenMap - {key};
        return true;
      }
      return false;
    }
  }

  lemma KeysCard(m: Entries)
    ensures |m.Keys| == |m|
  {
  }

  lemma CardRemove(m: Entries, key: string)
    requires key in m
    ensures |m - {key}| == |m| - 1
  {
    assert (m - {key}).Keys == m.Keys - {key};
    KeysCard(m);
    KeysCard(m - {key});
  }

  lemma CardPut(m: Entries, key: string, e: Entry)
    ensures |m[key := e]| == if key in m then |m| else |m| + 1
  {
    assert m[key := e].Keys == m.Keys + {key};
    KeysCard(m);
    KeysCard(m[key := e]);
    assert key in m ==> m.Keys + {key} == m.Keys;
  }

  lemma LiveSmaller(m: Entries, now: int)
    ensures |Live(m, now)| <= |m|
    ensures |Live(m, now)| < |m| <==> exists k :: k in m && Expired(m[k], now)
  {
    var live := Live(m, now);
    var dead := set k | k in m && Expired(m[k], now);
    assert live.Keys <= m.Keys && m.Keys - live.Keys == dead;
    SubsetSize(live.Keys, m.Keys);
    KeysCard(m);
    KeysCard(live);
    assert (exists k :: k in m && Expired(m[k], now)) <==> dead != {};
  }

  lemma AcquireKeepsCapacity(max: int, m: Entries, cnt: nat, key: string, ttl: int, checked: int, now: int,
                             ejected: Option<string>)
    requires WithinCapacity(max, m) && MayEject(max, m, key, checked, ejected)
    ensures WithinCapacity(max, Acquired(max, m, cnt, key, ttl, now, ejected).1)
  {
    if ejected.Some? {
      CardRemove(m, ejected.value);
    }
    CardPut(Eject(m, ejected), key, Entry(NextId(cnt), now + ttl));
  }

  /** Whatever entry is ejected, the decision is the one the live view alone determines. */
  lemma AcquireDecision(max: int, m: Entries, key: string, checked: int, now: int)
    requires WithinCapacity(max, m) && checked <= now
    ensures forall cnt: nat, ttl: int, ejected: Option<string> :: MayEject(max, m, key, checked, ejected) ==>
              (Acquired(max, m, cnt, key, ttl, now, ejected).0.Some? <==>
                 key !in Live(m, now) && (max == 0 || |Live(m, checked)| < max))
  {
    LiveSmaller(m, checked);
  }

  /** The eager specification: it drops expired tokens as soon as the clock is read. */
  function EagerAcquire(max: int, m: Entries, cnt: nat, key: string, ttl: int, checked: int, now: int)
    : (Option<Token>, Entries, nat)
  {
    var live := Live(m, checked);
    if max != 0 && |live| >= max then (None, live, cnt)
    else if key in Live(live, now) then (None, Live(live, now), cnt)
    else
      var id := NextId(cnt);
      (Some(Token(id, key)), Live(live, now)[key := Entry(id, now + ttl)], id)
  }

  lemma LiveLater(m: Entries, t: int, now: int)
    requires t <= now
    ensures Live(Live(m, t), now) == Live(m, now)
  {
  }

  lemma EjectLive(m: Entries, ejected: Option<string>, now: int)
    requires ejected.Some? ==> ejected.value in m && Expired(m[ejected.value], now)
    ensures Live(Eject(m, ejected), now) == Live(m, now)
  {
  }

  lemma PutLive(m: Entries, key: string, e: Entry, now: int)
    ensures Live(m[key := e], now) == if Expired(e, now) then Live(m, now) - {key} else Live(m, now)[key := e]
  {
  }

  /** The lazy throttle refines the eager one: same answer, same counter, same live view after,
      for every choice of ejected entry. */
  lemma AcquireRefines(max: int, m: Entries, eager: Entries, cnt: nat, key: string, ttl: int, checked: int, now: int,
                       ejected: Option<string>)
    requires WithinCapacity(max, m) && checked <= now && MayEject(max, m, key, checked, ejected)
    requires Live(m, checked) == Live(eager, checked)
    ensures var lazy := Acquired(max, m, cnt, key, ttl, now, ejected);
            var spec := EagerAcquire(max, eager, cnt, key, ttl, checked, now);
            lazy.0 == spec.0 && lazy.2 == spec.2 && Live(lazy.1, now) == Live(spec.1, now)
  {
    AcquireDecision(max, m, key, checked, now);
    LiveLater(m, checked, now);
    LiveLater(eager, checked, now);
    EjectLive(m, ejected, now);
    var lazy := Acquired(max, m, cnt, key, ttl, now, ejected);
    var spec := EagerAcquire(max, eager, cnt, key, ttl, checked, now);
    assert lazy.0.Some? <==> spec.0.Some?;
    if lazy.0.Some? {
      var e := Entry(NextId(cnt), now + ttl);
      PutLive(Eject(m, ejected), key, e, now);
      PutLive(Live(eager, now), key, e, now);
      LiveLater(eager, now, now);
    }
  }

  function Released(m: Entries, id: nat, key: string): (bool, Entries) {
    if key in m && m[key].id == id then (true, m - {key}) else (false, m)
  }

  /** A release acts on the live view as the eager specification would; its answer differs exactly
      when the token has expired and its entry is still in the map. */
  lemma ReleaseRefines(m: Entries, eager: Entries, id: nat, key: string, now: int)
    requires Live(m, now) == Live(eager, now)
    ensures Live(Released(m, id, key).1, now) == Live(Released(Live(eager, now), id, key).1, now)
    ensures Released(m, id, key).0 == Released(Live(eager, now), id, key).0 <==>
              !(key in m && m[key].id == id && Expired(m[key], now))
  {
    var live := Live(eager, now);
    assert key in live <==> key in m && !Expired(m[key], now);
    assert Live(live, now) == live;
    assert key in live ==> live[key] == m[key];
  }

  // ---------------------------------------------------------------- histories

  /** A token handed out: when, for which key, and until when. */
  datatype Issue = Issue(key: string, id: nat, at: int, expire: int)

  /** `held` tells, for each entry in the map, which of the tokens issued it was made for. */
  datatype History = History(
    max: int, entries: Entries, cnt: nat, issued: seq<Issue>, held: map<string, nat>, released: set<nat>, clock: int)

  datatype Op =
    | Acquire(key: string, ttl: int, checked: int, now: int, ejected: Option<string>)
    | Release(i: nat)  // of the i-th token issued

  predicate Start(h: History) {
    h.entries == map[] && h.cnt == 0 && h.issued == [] && h.held == map[] && h.released == {}
  }

  predicate Enabled(h: History, op: Op) {
    match op
    case Acquire(key, _, checked, now, ejected) =>
      h.clock <= checked <= now && MayEject(h.max, h.entries, key, checked, ejected)
    case Release(i) => i < |h.issued|
  }

  /** The entry that goes, if any, had expired. */
  function Ejected(h: History, ejected: Option<string>, now: int): History {
    h.(entries := Eject(h.entries, ejected), clock := now,
       held := if ejected.Some? then h.held - {ejected.value} else h.held)
  }

  function Issued(h: History, key: string, expire: int): History {
    var id := NextId(h.cnt);
    h.(entries := h.entries[key := Entry(id, expire)], cnt := id, held := h.held[key := |h.issued|],
       issued := h.issued + [Issue(key, id, h.clock, expire)])
  }

  predicate Finds(h: History, i: nat)
    requires i < |h.issued|
  {
    h.issued[i].key in h.entries && h.entries[h.issued[i].key].id == h.issued[i].id
  }

  function GivenBack(h: History, i: nat): History
    requires i < |h.issued|
  {
    var key := h.issued[i].key;
    h.(entries := h.entries - {key}, held := h.held - {key}, released := h.released + {i})
  }

  function Step(h: History, op: Op): History
    requires Enabled(h, op)
  {
    match op
    case Acquire(key, ttl, checked, now, ejected) =>
      var mid := Ejected(h, ejected, now);
      if Acquired(h.max, h.entries, h.cnt, key, ttl, now, ejected).0.Some? then Issued(mid, key, now + ttl) else mid
    case Release(i) => if Finds(h, i) then GivenBack(h, i) else h
  }

  /** The map, the counter and the answer are those of the throttle's own operations. */
  lemma StepIsThrottle(h: History, op: Op)
    requires Enabled(h, op)
    ensures match op
            case Acquire(key, ttl, _, now, ejected) =>
              var (token, entries, cnt) := Acquired(h.max, h.entries, h.cnt, key, ttl, now, ejected);
              && Step(h, op).entries == entries && Step(h, op).cnt == cnt
              && Step(h, op).max == h.max && Step(h, op).clock == now
              && Step(h, op).issued
                 == if token.Some? then h.issued + [Issue(key, token.value.id, now, now + ttl)] else h.issued
            case Release(i) =>
              Step(h, op) == h.(entries := Released(h.entries, h.issued[i].id, h.issued[i].key).1,
                                held := Step(h, op).held, released := Step(h, op).released)
  {
  }

  /** The history after `ops`, if each was possible when its turn came. */
  function End(h: History, ops: seq<Op>): Option<History> {
    if ops == [] then Some(h)
    else
      var mid := End(h, ops[..|ops| - 1]);
      var op := ops[|ops| - 1];
      if mid.Some? && Enabled(mid.value, op) then Some(Step(mid.value, op)) else None
  }

  /** The same operation on the eager specification, which has no entry to choose. */
  function EagerStep(h: History, op: Op): History
    requires op.Release? ==> op.i < |h.issued|
  {
    match op
    case Acquire(key, ttl, checked, now, _) =>
      var (token, entries, cnt) := EagerAcquire(h.max, h.entries, h.cnt, key, ttl, checked, now);
      var h' := h.(entries := entries, cnt := cnt, clock := now);
      if token.Some? then h'.(issued := h.issued + [Issue(key, token.value.id, now, now + ttl)]) else h'
    case Release(i) =>
      var (found, entries) := Released(Live(h.entries, h.clock), h.issued[i].id, h.issued[i].key);
      h.(entries := entries, released := if found then h.released + {i} else h.released)
  }

  function EagerEnd(h: History, ops: seq<Op>): Option<History> {
    if ops == [] then Some(h)
    else
      var mid := EagerEnd(h, ops[..|ops| - 1]);
      var op := ops[|ops| - 1];
      if mid.Some? && (op.Release? ==> op.i < |mid.value.issued|) then Some(EagerStep(mid.value, op)) else None
  }

  /** Indistinguishable to callers: same tokens issued so far, same tokens in force. */
  predicate Alike(a: History, b: History) {
    && a.max == b.max && a.cnt == b.cnt && a.issued == b.issued && a.clock == b.clock
    && Live(a.entries, a.clock) == Live(b.entries, b.clock)
  }

  lemma AcquireAlike(h: History, e: History, op: Op)
    requires Alike(h, e) && op.Acquire? && Enabled(h, op) && WithinCapacity(h.max, h.entries)
    ensures Alike(Step(h, op), EagerStep(e, op)) && WithinCapacity(h.max, Step(h, op).entries)
  {
    LiveLater(h.entries, h.clock, op.checked);
    LiveLater(e.entries, e.clock, op.checked);
    StepIsThrottle(h, op);
    AcquireRefines(h.max, h.entries, e.entries, h.cnt, op.key, op.ttl, op.checked, op.now, op.ejected);
    AcquireKeepsCapacity(h.max, h.entries, h.cnt, op.key, op.ttl, op.checked, op.now, op.ejected);
  }

  lemma ReleaseAlike(h: History, e: History, i: nat)
    requires Alike(h, e) && i < |h.issued| && WithinCapacity(h.max, h.entries)
    ensures Alike(Step(h, Release(i)), EagerStep(e, Release(i)))
    ensures WithinCapacity(h.max, Step(h, Release(i)).entries)
  {
    StepIsThrottle(h, Release(i));
    ReleaseRefines(h.entries, e.entries, h.issued[i].id, h.issued[i].key, h.clock);
    if h.issued[i].key in h.entries {
      CardRemove(h.entries, h.issued[i].key);
    }
  }

  lemma StepsAlike(h: History, e: History, op: Op)
    requires Alike(h, e) && Enabled(h, op) && WithinCapacity(h.max, h.entries)
    ensures Alike(Step(h, op), EagerStep(e, op)) && WithinCapacity(h.max, Step(h, op).entries)
  {
    match op
    case Acquire(_, _, _, _, _) => AcquireAlike(h, e, op);
    case Release(i) => ReleaseAlike(h, e, i);
  }

  /** Over every history and every choice of ejected entries, the lazy throttle issues the tokens
      the eager one issues, and the same tokens are in force after it. */
  lemma {:induction false} LazyRefinesEager(h: History, ops: seq<Op>)
    requires Start(h) && End(h, ops).Some?
    ensures EagerEnd(h, ops).Some? && Alike(End(h, ops).value, EagerEnd(h, ops).value)
    ensures WithinCapacity(h.max, End(h, ops).value.entries) && End(h, ops).value.max == h.max
    decreases |ops|
  {
    if ops != [] {
      var init, op := ops[..|ops| - 1], ops[|ops| - 1];
      LazyRefinesEager(h, init);
      StepsAlike(End(h, init).value, EagerEnd(h, init).value, op);
    }
  }

  // ---------------------------------------------------------------- what histories keep

  predicate InForce(h: History, i: nat)
    requires i < |h.issued|
  {
    i !in h.released && h.issued[i].expire >= h.clock
  }

  /** The release takes the entry of another token, which has the same id. */
  predicate Clashes(h: History, op: Op) {
    && op.Release? && op.i < |h.issued| && Finds(h, op.i)
    && h.issued[op.i].key in h.held && h.held[h.issued[op.i].key] != op.i
  }

  ghost predicate NeverClashes(h: History, ops: seq<Op>) {
    ops != [] ==>
      && NeverClashes(h, ops[..|ops| - 1])
      && (End(h, ops[..|ops| - 1]).Some? ==> !Clashes(End(h, ops[..|ops| - 1]).value, ops[|ops| - 1]))
  }

  /** No token was issued for `key` after the i-th. */
  ghost predicate LastFor(issued: seq<Issue>, key: string, i: int) {
    forall j :: 0 <= j < |issued| && issued[j].key == key ==> j <= i
  }

  /** The entry of `key` belongs to the last token issued for the key, not released. */
  ghost predicate EntryInv(h: History, key: string, e: Entry) {
    && key in h.held && h.held[key] < |h.issued| && h.held[key] !in h.released
    && h.issued[h.held[key]] == Issue(key, e.id, h.issued[h.held[key]].at, e.expire)
    && LastFor(h.issued, key, h.held[key])
  }

  ghost predicate Holds(h: History, i: nat)
    requires i < |h.issued|
  {
    h.issued[i].key in h.held && h.held[h.issued[i].key] == i
  }

  /** A token issued after another of the same key finds the other released or expired. */
  ghost predicate Succeeds(issued: seq<Issue>, released: set<nat>, i: nat, j: nat)
    requires i < |issued| && j < |issued|
  {
    i < j && issued[i].key == issued[j].key ==> i in released || issued[i].expire < issued[j].at
  }

  ghost predicate Numbered(h: History) {
    && h.cnt == |h.issued| % U64 && WithinCapacity(h.max, h.entries) && h.held.Keys == h.entries.Keys
    && (forall i :: 0 <= i < |h.issued| ==> h.issued[i].id == NextId(i))
    && (forall i :: i in h.released ==> i < |h.issued|)
  }

  ghost predicate EntriesInv(h: History) {
    forall key :: key in h.entries ==> EntryInv(h, key, h.entries[key])
  }

  ghost predicate ForceInv(h: History) {
    forall i :: 0 <= i < |h.issued| && InForce(h, i) ==> Holds(h, i)
  }

  ghost predicate PairsInv(h: History) {
    forall i, j :: 0 <= i < |h.issued| && 0 <= j < |h.issued| ==> Succeeds(h.issued, h.released, i, j)
  }

  ghost predicate HistoryInv(h: History) {
    Numbered(h) && EntriesInv(h) && ForceInv(h) && PairsInv(h)
  }

  /** A step that issues nothing: the entry that goes had expired. */
  lemma EjectKeeps(h: History, ejected: Option<string>, now: int)
    requires HistoryInv(h) && h.clock <= now
    requires ejected.Some? ==> ejected.value in h.entries && Expired(h.entries[ejected.value], now)
    ensures HistoryInv(Ejected(h, ejected, now))
  {
    var h' := Ejected(h, ejected, now);
    if ejected.Some? {
      CardRemove(h.entries, ejected.value);
    }
    EjectKeepsEntries(h, ejected, now);
    EjectKeepsForce(h, ejected, now);
  }

  lemma EjectKeepsEntries(h: History, ejected: Option<string>, now: int)
    requires EntriesInv(h)
    ensures EntriesInv(Ejected(h, ejected, now))
  {
    var h' := Ejected(h, ejected, now);
    forall key | key in h'.entries
      ensures EntryInv(h', key, h'.entries[key])
    {
      assert EntryInv(h, key, h.entries[key]);
    }
  }

  lemma EjectKeepsForce(h: History, ejected: Option<string>, now: int)
    requires EntriesInv(h) && ForceInv(h) && h.clock <= now && h.held.Keys == h.entries.Keys
    requires ejected.Some? ==> ejected.value in h.entries && Expired(h.entries[ejected.value], now)
    ensures ForceInv(Ejected(h, ejected, now))
  {
    var h' := Ejected(h, ejected, now);
    forall i | 0 <= i < |h.issued| && InForce(h', i)
      ensures Holds(h', i)
    {
      assert InForce(h, i) && Holds(h, i);
      assert EntryInv(h, h.issued[i].key, h.entries[h.issued[i].key]);
    }
  }

  lemma IdAfter(n: nat)
    ensures NextId(n % U64) == NextId(n)
  {
  }

  /** Issuing a token for a key that has no token in force. */
  lemma IssueKeeps(h: History, key: string, expire: int)
    requires HistoryInv(h)
    requires key in h.entries ==> Expired(h.entries[key], h.clock)
    requires h.max != 0 && key !in h.entries ==> |h.entries| < h.max
    ensures HistoryInv(Issued(h, key, expire))
  {
    IssueNumbered(h, key, expire);
    IssueKeepsEntries(h, key, expire);
    forall i | 0 <= i < |h.issued| && h.issued[i].key == key
      ensures !InForce(h, i)
    {
      NoneInForce(h, key, i);
    }
    IssueKeepsForce(h, key, expire);
    IssueKeepsPairs(h, key, expire);
  }

  lemma IssueKeepsEntries(h: History, key: string, expire: int)
    requires EntriesInv(h) && forall i :: i in h.released ==> i < |h.issued|
    ensures EntriesInv(Issued(h, key, expire))
  {
    var h' := Issued(h, key, expire);
    forall k | k in h'.entries
      ensures EntryInv(h', k, h'.entries[k])
    {
      if k != key {
        assert EntryInv(h, k, h.entries[k]);
        assert LastFor(h.issued, k, h.held[k]);
      }
    }
  }

  lemma NoneInForce(h: History, key: string, i: nat)
    requires EntriesInv(h) && ForceInv(h) && h.held.Keys == h.entries.Keys && i < |h.issued| && h.issued[i].key == key
    requires key in h.entries ==> Expired(h.entries[key], h.clock)
    ensures !InForce(h, i)
  {
    assert InForce(h, i) ==> Holds(h, i);
    if key in h.entries {
      assert EntryInv(h, key, h.entries[key]);
    }
  }

  lemma IssueKeepsForce(h: History, key: string, expire: int)
    requires ForceInv(h)
    requires forall i :: 0 <= i < |h.issued| && h.issued[i].key == key ==> !InForce(h, i)
    ensures ForceInv(Issued(h, key, expire))
  {
    var h' := Issued(h, key, expire);
    forall i | 0 <= i < |h'.issued| && InForce(h', i)
      ensures Holds(h', i)
    {
      if i < |h.issued| {
        assert InForce(h, i) && Holds(h, i);
      }
    }
  }

  lemma IssueKeepsPairs(h: History, key: string, expire: int)
    requires PairsInv(h)
    requires forall i :: 0 <= i < |h.issued| && h.issued[i].key == key ==> !InForce(h, i)
    ensures PairsInv(Issued(h, key, expire))
  {
    var h' := Issued(h, key, expire);
    forall i, j | 0 <= i < |h'.issued| && 0 <= j < |h'.issued|
      ensures Succeeds(h'.issued, h'.released, i, j)
    {
      if i < |h.issued| && j < |h.issued| {
        assert Succeeds(h.issued, h.released, i, j);
      }
    }
  }

  lemma IssueNumbered(h: History, key: string, expire: int)
    requires Numbered(h)
    requires h.max != 0 && key !in h.entries ==> |h.entries| < h.max
    ensures Numbered(Issued(h, key, expire))
  {
    IdAfter(|h.issued|);
    CardPut(h.entries, key, Entry(NextId(h.cnt), expire));
  }

  lemma ReleaseKeepsEntries(h: History, i: nat)
    requires EntriesInv(h) && i < |h.issued| && Holds(h, i)
    ensures EntriesInv(GivenBack(h, i))
  {
    var h' := GivenBack(h, i);
    forall k | k in h'.entries
      ensures EntryInv(h', k, h'.entries[k])
    {
      assert EntryInv(h, k, h.entries[k]);
    }
  }

  lemma ReleaseKeepsPairs(h: History, i: nat)
    requires PairsInv(h) && i < |h.issued|
    ensures PairsInv(GivenBack(h, i))
  {
    var h' := GivenBack(h, i);
    forall a, b | 0 <= a < |h'.issued| && 0 <= b < |h'.issued|
      ensures Succeeds(h'.issued, h'.released, a, b)
    {
      assert Succeeds(h.issued, h.released, a, b);
    }
  }

  lemma ReleaseKeepsForce(h: History, i: nat)
    requires ForceInv(h) && i < |h.issued| && Holds(h, i)
    ensures ForceInv(GivenBack(h, i))
  {
    var h' := GivenBack(h, i);
    forall j | 0 <= j < |h.issued| && InForce(h', j)
      ensures Holds(h', j)
    {
      assert InForce(h, j) && Holds(h, j);
    }
  }

  lemma ReleaseNumbered(h: History, i: nat)
    requires Numbered(h) && i < |h.issued| && h.issued[i].key in h.entries
    ensures Numbered(GivenBack(h, i))
  {
    CardRemove(h.entries, h.issued[i].key);
  }

  /** Any release that does not clash, stale ones included. */
  lemma ReleaseKeeps(h: History, i: nat)
    requires HistoryInv(h) && i < |h.issued| && !Clashes(h, Release(i))
    ensures HistoryInv(Step(h, Release(i)))
  {
    if Finds(h, i) {
      ReleaseNumbered(h, i);
      ReleaseKeepsEntries(h, i);
      ReleaseKeepsForce(h, i);
      ReleaseKeepsPairs(h, i);
    }
  }

  /** The key has no token in force and there is room. */
  predicate MayIssue(h: History, key: string) {
    && (key in h.entries ==> Expired(h.entries[key], h.clock))
    && (h.max != 0 && key !in h.entries ==> |h.entries| < h.max)
  }

  predicate Grants(h: History, op: Op)
    requires op.Acquire?
  {
    Acquired(h.max, h.entries, h.cnt, op.key, op.ttl, op.now, op.ejected).0.Some?
  }

  /** What an acquisition finds after ejecting. */
  lemma AcquireShape(h: History, op: Op)
    requires op.Acquire? && Enabled(h, op) && WithinCapacity(h.max, h.entries) && Grants(h, op)
    ensures MayIssue(Ejected(h, op.ejected, op.now), op.key)
  {
    if op.ejected.Some? {
      CardRemove(h.entries, op.ejected.value);
    }
  }

  lemma MidKeeps(h: History, op: Op)
    requires HistoryInv(h) && op.Acquire? && Enabled(h, op)
    ensures HistoryInv(Ejected(h, op.ejected, op.now))
  {
    EjectKeeps(h, op.ejected, op.now);
  }

  lemma AcquireStep(h: History, op: Op)
    requires op.Acquire? && Enabled(h, op)
    ensures var mid := Ejected(h, op.ejected, op.now);
            Step(h, op) == if Grants(h, op) then Issued(mid, op.key, op.now + op.ttl) else mid
  {
  }

  lemma MayIssueKeeps(h: History, key: string, expire: int, after: History)
    requires HistoryInv(h) && MayIssue(h, key) && after == Issued(h, key, expire)
    ensures HistoryInv(after)
  {
    IssueKeeps(h, key, expire);
  }

  lemma KeepsWithin(h: History)
    requires HistoryInv(h)
    ensures WithinCapacity(h.max, h.entries)
  {
  }

  lemma RefusalKeeps(h: History, op: Op)
    requires HistoryInv(h) && op.Acquire? && Enabled(h, op) && !Grants(h, op)
    ensures HistoryInv(Step(h, op))
  {
    MidKeeps(h, op);
    AcquireStep(h, op);
  }

  /** The history a token is issued in, once an entry has been ejected for it. */
  lemma MidOf(h: History, op: Op) returns (mid: History)
    requires HistoryInv(h) && op.Acquire? && Enabled(h, op) && Grants(h, op)
    ensures HistoryInv(mid) && MayIssue(mid, op.key)
    ensures Step(h, op) == Issued(mid, op.key, op.now + op.ttl)
  {
    mid := Ejected(h, op.ejected, op.now);
    KeepsWithin(h);
    MidKeeps(h, op);
    AcquireShape(h, op);
    AcquireStep(h, op);
  }

  lemma GrantKeeps(h: History, op: Op)
    requires HistoryInv(h) && op.Acquire? && Enabled(h, op) && Grants(h, op)
    ensures HistoryInv(Step(h, op))
  {
    var mid := MidOf(h, op);
    MayIssueKeeps(mid, op.key, op.now + op.ttl, Step(h, op));
  }

  lemma AcquireKeeps(h: History, op: Op)
    requires HistoryInv(h) && op.Acquire? && Enabled(h, op)
    ensures HistoryInv(Step(h, op))
  {
    if Grants(h, op) {
      GrantKeeps(h, op);
    } else {
      RefusalKeeps(h, op);
    }
  }

  lemma {:induction false} ReachableInv(h: History, ops: seq<Op>)
    requires Start(h) && End(h, ops).Some? && NeverClashes(h, ops)
    ensures HistoryInv(End(h, ops).value) && End(h, ops).value.max == h.max
    decreases |ops|
  {
    if ops != [] {
      var init, op := ops[..|ops| - 1], ops[|ops| - 1];
      var mid := End(h, init).value;
      ReachableInv(h, init);
      match op
      case Acquire(_, _, _, _, _) => AcquireKeeps(mid, op);
      case Release(i) => ReleaseKeeps(mid, i);
    }
  }

  lemma {:induction false} ImageSize<A, B>(s: set<A>, f: A -> B, t: set<B>)
    requires forall i :: i in s ==> f(i) in t
    requires forall i, j :: i in s && j in s && f(i) == f(j) ==> i == j
    ensures |s| <= |t|
    decreases s
  {
    if i :| i in s {
      ImageSize(s - {i}, f, t - {f(i)});
    }
  }

  /** The tokens in force at `t`: issued, not given back, and not expired by then. */
  function ForcedAt(h: History, t: int): set<nat> {
    set i: nat | i < |h.issued| && i !in h.released && h.issued[i].expire >= t
  }

  function Forced(h: History): set<nat> {
    ForcedAt(h, h.clock)
  }

  lemma ForcedBound(h: History)
    requires HistoryInv(h)
    ensures |Forced(h)| <= |h.entries|
  {
    assert forall i :: i in Forced(h) ==> InForce(h, i) && Holds(h, i);
    var keyOf := (i: nat) => if i < |h.issued| then h.issued[i].key else "";
    KeysCard(h.entries);
    ImageSize(Forced(h), keyOf, h.entries.Keys);
  }

  /** One token in force for a key at a time, and never more than `max` in all. */
  ghost predicate Safe(h: History) {
    && (forall i, j :: 0 <= i < j < |h.issued| && h.issued[i].key == h.issued[j].key ==>
          i in h.released || h.issued[i].expire < h.issued[j].at)
    && (h.max > 0 ==> |Forced(h)| <= h.max)
  }

  lemma InvSafe(h: History)
    requires HistoryInv(h)
    ensures Safe(h)
  {
    forall i, j | 0 <= i < j < |h.issued| && h.issued[i].key == h.issued[j].key
      ensures i in h.released || h.issued[i].expire < h.issued[j].at
    {
      assert Succeeds(h.issued, h.released, i, j);
    }
    ForcedBound(h);
  }

  /** Over every history without a clash: ids count the tokens modulo 2^64; a second token for a key
      is issued only after the first was released or had expired; and never more than `max` tokens
      are in force. */
  lemma HistoriesSafe(h: History, ops: seq<Op>)
    requires Start(h) && End(h, ops).Some? && NeverClashes(h, ops)
    ensures Safe(End(h, ops).value)
    ensures forall i :: 0 <= i < |End(h, ops).value.issued| ==> End(h, ops).value.issued[i].id == NextId(i)
  {
    ReachableInv(h, ops);
    InvSafe(End(h, ops).value);
  }

  /** A token in force can always be released, whatever the throttle ejected meanwhile; a release
      that comes after the token was released or replaced changes nothing, unless it clashes. */
  lemma ReleaseRemovesOwnOnly(h: History, ops: seq<Op>, i: nat)
    requires Start(h) && End(h, ops).Some? && NeverClashes(h, ops) && i < |End(h, ops).value.issued|
    ensures var h' := End(h, ops).value;
            && (InForce(h', i) ==> Finds(h', i))
            && (i in h'.released || !LastFor(h'.issued, h'.issued[i].key, i) ==>
                 (Finds(h', i) <==> Clashes(h', Release(i)))
                   && (!Clashes(h', Release(i)) ==> Step(h', Release(i)) == h'))
  {
    ReachableInv(h, ops);
    var h' := End(h, ops).value;
    var key := h'.issued[i].key;
    if key in h'.entries {
      assert EntryInv(h', key, h'.entries[key]);
    }
    assert InForce(h', i) ==> Holds(h', i);
  }

  // ---------------------------------------------------------------- when a token is issued

  /** From now on, the tokens in force are those of the live entries. */
  lemma ForcedIsLive(h: History, t: int)
    requires HistoryInv(h) && h.clock <= t
    ensures forall i :: i in ForcedAt(h, t) ==> h.issued[i].key in Live(h.entries, t) && Holds(h, i)
    ensures forall key :: key in Live(h.entries, t) ==>
              key in h.held && h.held[key] in ForcedAt(h, t) && h.issued[h.held[key]].key == key
  {
    forall i | i in ForcedAt(h, t)
      ensures h.issued[i].key in Live(h.entries, t) && Holds(h, i)
    {
      assert InForce(h, i) && Holds(h, i);
      assert EntryInv(h, h.issued[i].key, h.entries[h.issued[i].key]);
    }
    forall key | key in Live(h.entries, t)
      ensures key in h.held && h.held[key] in ForcedAt(h, t) && h.issued[h.held[key]].key == key
    {
      assert EntryInv(h, key, h.entries[key]);
    }
  }

  lemma ForcedCount(h: History, t: int)
    requires HistoryInv(h) && h.clock <= t
    ensures |ForcedAt(h, t)| == |Live(h.entries, t)|
  {
    var live := Live(h.entries, t);
    ForcedIsLive(h, t);
    var keyOf := (i: nat) => if i < |h.issued| then h.issued[i].key else "";
    var heldBy := (key: string) => if key in h.held then h.held[key] else 0;
    ImageSize(ForcedAt(h, t), keyOf, live.Keys);
    ImageSize(live.Keys, heldBy, ForcedAt(h, t));
    KeysCard(live);
  }

  /** Over every history without a clash: an acquisition issues a token if and only if no token of the
      key is in force when it is made and, unless there is no limit, fewer than `max` tokens are in
      force when the limit is checked; the token then lives for the time asked for. */
  lemma IssuesExactly(h: History, ops: seq<Op>, key: string, ttl: int, checked: int, now: int, ejected: Option<string>)
    requires Start(h) && End(h, ops).Some? && NeverClashes(h, ops)
    requires Enabled(End(h, ops).value, Acquire(key, ttl, checked, now, ejected))
    ensures var before := End(h, ops).value;
            var after := Step(before, Acquire(key, ttl, checked, now, ejected));
            if (forall i :: i in ForcedAt(before, now) ==> before.issued[i].key != key)
               && (h.max == 0 || |ForcedAt(before, checked)| < h.max) then
              && |after.issued| == |before.issued| + 1 && after.issued[..|before.issued|] == before.issued
              && after.issued[|before.issued|].key == key && after.issued[|before.issued|].at == now
              && after.issued[|before.issued|].expire == now + ttl
            else after.issued == before.issued
  {
    ReachableInv(h, ops);
    var before := End(h, ops).value;
    StepIsThrottle(before, Acquire(key, ttl, checked, now, ejected));
    AcquireDecision(before.max, before.entries, key, checked, now);
    ForcedCount(before, checked);
    ForcedIsLive(before, now);
  }

  // ---------------------------------------------------------------- clashes

  lemma SameId(i: nat, j: nat)
    requires i < U64 && j < U64 && NextId(i) == NextId(j)
    ensures i == j
  {
  }

  lemma NoClashNow(h: History, i: nat)
    requires HistoryInv(h) && i < |h.issued| <= U64
    ensures !Clashes(h, Release(i))
  {
    var key := h.issued[i].key;
    if Finds(h, i) {
      assert EntryInv(h, key, h.entries[key]);
      SameId(i, h.held[key]);
    }
  }

  lemma IssuedGrows(h: History, op: Op)
    requires Enabled(h, op)
    ensures |h.issued| <= |Step(h, op).issued|
  {
  }

  /** Nothing clashes until more than 2^64 tokens have been issued. */
  lemma {:induction false} NoClashBefore(h: History, ops: seq<Op>)
    requires Start(h) && End(h, ops).Some? && |End(h, ops).value.issued| <= 0x1_0000_0000_0000_0000
    ensures NeverClashes(h, ops)
    decreases |ops|
  {
    if ops != [] {
      var init, op := ops[..|ops| - 1], ops[|ops| - 1];
      var mid := End(h, init).value;
      IssuedGrows(mid, op);
      NoClashBefore(h, init);
      ReachableInv(h, init);
      if op.Release? {
        NoClashNow(mid, op.i);
      }
    }
  }

  const KEY := "key"

  /** Tokens that expire at once, one at each tick of the clock. */
  function Burn(n: nat): seq<Op> {
    seq(n, i => Acquire(KEY, -1, i, i, None))
  }

  function Fresh(): History {
    History(0, map[], 0, [], map[], {}, 0)
  }

  function Burnt(n: nat): History
    requires n > 0
  {
    History(0, map[KEY := Entry(n % U64, n - 2)], n % U64,
            seq(n, i requires 0 <= i < n => Issue(KEY, NextId(i), i, i - 1)), map[KEY := n - 1], {}, n - 1)
  }

  lemma {:induction false} BurnDown(n: nat)
    requires n > 0
    ensures End(Fresh(), Burn(n)) == Some(Burnt(n))
  {
    assert Burn(n)[..n - 1] == Burn(n - 1);
    if n == 1 {
      assert Burn(0) == [];
      assert Step(Fresh(), Burn(1)[0]) == Burnt(1);
    } else {
      BurnDown(n - 1);
      BurnStep(n - 1);
    }
  }

  lemma BurnStep(n: nat)
    requires n > 0
    ensures Enabled(Burnt(n), Acquire(KEY, -1, n, n, None))
    ensures Step(Burnt(n), Acquire(KEY, -1, n, n, None)) == Burnt(n + 1)
  {
    IdAfter(n);
    assert Burnt(n + 1).issued == Burnt(n).issued + [Issue(KEY, NextId(n), n, n - 1)];
  }

  /** The last of these has the id of the first token, whose release takes its entry. */
  lemma ClashSteps(n: nat, h1: History, h2: History)
    requires n == U64 && h1 == Step(Burnt(n), Acquire(KEY, 10, n, n, None)) && h2 == Step(h1, Release(0))
    ensures Enabled(Burnt(n), Acquire(KEY, 10, n, n, None)) && Enabled(h2, Acquire(KEY, 10, n, n, None))
    ensures |h2.issued| == n + 1 && h2.issued[n] == Issue(KEY, NextId(n), n, n + 10) && h2.released == {0}
    ensures h2.entries == map[] && h2.clock == n && h2.max == 0
  {
    var h := Burnt(n);
    assert h1 == Issued(Ejected(h, None, n), KEY, n + 10);
    assert h1.issued[0] == Issue(KEY, 1, 0, -1);
    assert h1.entries[KEY] == Entry(1, n + 10);
    assert h2 == GivenBack(h1, 0);
  }

  /** After 2^64 tokens the first token's id comes up again, and a late release of the first takes the
      entry of a token in force. */
  lemma ClashUnsafe() returns (ops: seq<Op>)
    ensures Start(Fresh()) && End(Fresh(), ops).Some? && !Safe(End(Fresh(), ops).value)
    ensures |End(Fresh(), ops).value.issued| == 0x1_0000_0000_0000_0002
  {
    var n: nat, take := U64, Acquire(KEY, 10, U64, U64, None);
    BurnDown(n);
    var h1 := Step(Burnt(n), take);
    var h2 := Step(h1, Release(0));
    ClashSteps(n, h1, h2);
    EndPush(Fresh(), Burn(n), take);
    EndPush(Fresh(), Burn(n) + [take], Release(0));
    EndPush(Fresh(), Burn(n) + [take] + [Release(0)], take);
    ops := Burn(n) + [take] + [Release(0)] + [take];
    TwoInForce(n, h2, Step(h2, take));
  }

  lemma TwoInForce(n: nat, h: History, h': History)
    requires |h.issued| == n + 1 && h.issued[n].key == KEY && h.issued[n].expire == n + 10 && n > 0 && h.released == {0}
    requires h.entries == map[] && h.clock == n && h.max == 0 && h' == Step(h, Acquire(KEY, 10, n, n, None))
    ensures |h'.issued| == n + 2 && !Safe(h')
  {
    assert h' == Issued(Ejected(h, None, n), KEY, n + 10);
    assert h'.issued[n].key == h'.issued[n + 1].key == KEY && n !in h'.released;
    assert h'.issued[n].expire == n + 10 && h'.issued[n + 1].at == n;
  }

  lemma EndPush(h: History, ops: seq<Op>, op: Op)
    requires End(h, ops).Some? && Enabled(End(h, ops).value, op)
    ensures End(h, ops + [op]) == Some(Step(End(h, ops).value, op))
  {
    assert (ops + [op])[..|ops|] == ops;
  }

  /** Releases and refusals, clashes included, endanger nothing by themselves. */
  lemma SafeUnlessIssued(h: History, op: Op)
    requires Safe(h) && Enabled(h, op) && |Step(h, op).issued| == |h.issued|
    ensures Safe(Step(h, op))
  {
    SubsetSize(Forced(Step(h, op)), Forced(h));
  }

  lemma {:induction false} SafeBefore(h: History, ops: seq<Op>)
    requires Start(h) && End(h, ops).Some? && |End(h, ops).value.issued| <= U64 + 1
    ensures Safe(End(h, ops).value)
    decreases |ops|
  {
    if ops == [] {
      assert Forced(h) == {};
      return;
    }
    var init, op := ops[..|ops| - 1], ops[|ops| - 1];
    var mid := End(h, init).value;
    IssuedGrows(mid, op);
    if |Step(mid, op).issued| == |mid.issued| {
      SafeBefore(h, init);
      SafeUnlessIssued(mid, op);
    } else {
      NoClashBefore(h, init);
      ReachableInv(h, init);
      AcquireKeeps(mid, op);
      InvSafe(Step(mid, op));
    }
  }

  /** Histories of up to `n` tokens are all safe, clashes or not, if and only if `n` is at most
      2^64 + 1: the token that takes an id again is the last one that may be issued. */
  lemma TokenBoundExact(n: nat)
    ensures (forall h: History, ops: seq<Op> ::
               Start(h) && End(h, ops).Some? && |End(h, ops).value.issued| <= n ==> Safe(End(h, ops).value))
            <==> n <= 0x1_0000_0000_0000_0001
  {
    if n > U64 + 1 {
      var ops := ClashUnsafe();
    } else {
      forall h: History, ops: seq<Op> | Start(h) && End(h, ops).Some? && |End(h, ops).value.issued| <= n
        ensures Safe(End(h, ops).value)
      {
        SafeBefore(h, ops);
      }
    }
  }
}
