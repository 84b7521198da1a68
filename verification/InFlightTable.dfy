/** The in-flight table: which calls run, and which of them a duplicate would hit
    (src/pipeline/InFlight.cpp). Ids come from the caller, who never reuses one. */
module InFlightTable {
  import opened Options
  import opened ToolKeys

  datatype Entry =
    Entry(id: nat, startedAt: nat, taskId: Option<nat>, key: ToolKey, agent: string, hash: string)

  /** The two maps and the inflightHeld counter. */
  datatype Table = Table(byId: map<nat, Entry>, keyToId: map<string, nat>, held: int)

  const EMPTY := Table(map[], map[], 0)

  function MapKey(agent: string, tool: string, hash: string): string {
    agent + ['\n'] + tool + ['\n'] + hash
  }

  function KeyOf(e: Entry): string {
    MapKey(e.agent, Str(e.key), e.hash)
  }

  function Lookup(t: Table, agent: string, tool: string, hash: string): Option<Entry> {
    var mk := MapKey(agent, tool, hash);
    if mk in t.keyToId && t.keyToId[mk] in t.byId then Some(t.byId[t.keyToId[mk]]) else None
  }

  function Insert(t: Table, e: Entry): Table {
    Table(t.byId[e.id := e], t.keyToId[KeyOf(e) := e.id], t.held + 1)
  }

  function SetTaskId(t: Table, id: nat, taskId: nat): Table {
    if id in t.byId then t.(byId := t.byId[id := t.byId[id].(taskId := Some(taskId))]) else t
  }

  /** Drops the key mapping whichever entry it points to. */
  function Erase(t: Table, id: nat): Table {
    if id in t.byId then
      Table(t.byId - {id}, t.keyToId - {KeyOf(t.byId[id])}, t.held - 1)
    else t
  }

  class InFlight {
    var byId: map<nat, Entry>
    var keyToId: map<string, nat>
    var held: int

    function Contents(): Table reads this { Table(byId, keyToId, held) }

    constructor ()
      ensures Contents() == EMPTY
    {
      byId, keyToId, held := map[], map[], 0;
    }

    method Find(agent: string, tool: string, hash: string) returns (e: Option<Entry>)
      ensures e == Lookup(Contents(), agent, tool, hash)
    {
      var mk := MapKey(agent, tool, hash);
      if mk !in keyToId { return None; }
      if keyToId[mk] !in byId { return None; }
      return Some(byId[keyToId[mk]]);
    }

    method Add(id: nat, agent: string, key: ToolKey, hash: string, now: nat)
      modifies this
      ensures Contents() == Insert(old(Contents()), Entry(id, now, None, key, agent, hash))
    {
      var e := Entry(id, now, None, key, agent, hash);
      var mk := MapKey(agent, Str(key), hash);
      keyToId := keyToId[mk := id];
      byId := byId[id := e];
      held := held + 1;
    }

    method AttachTask(id: nat, taskId: nat)
      modifies this
      ensures Contents() == SetTaskId(old(Contents()), id, taskId)
    {
      if id !in byId { return; }
      byId := byId[id := byId[id].(taskId := Some(taskId))];
    }

    method Remove(id: nat)
      modifies this
      ensures Contents() == Erase(old(Contents()), id)
    {
      if id !in byId { return; }
      var e := byId[id];
      keyToId := keyToId - {MapKey(e.agent, Str(e.key), e.hash)};
      byId := byId - {id};
      held := held - 1;
    }
  }

  // ------------------------------------------------------------------ keys

  predicate NoNewline(s: string) { '\n' !in s }

  lemma SplitLast(a: string, b: string, x: string, y: string)
    requires NoNewline(a) && NoNewline(b)
    requires x + ['\n'] + a == y + ['\n'] + b
    ensures a == b && x == y
  {
    var l, r := x + ['\n'] + a, y + ['\n'] + b;
    assert l[|x|] == '\n' && r[|y|] == '\n';
    assert forall i :: |x| < i < |l| ==> l[i] == a[i - |x| - 1] && l[i] in a;
    assert forall i :: |y| < i < |r| ==> r[i] == b[i - |y| - 1] && r[i] in b;
    assert |x| == |y|;
    assert x == l[..|x|] && y == r[..|y|];
    assert a == l[|x| + 1..] && b == r[|y| + 1..];
  }

  /** The joined key keeps agent, tool and hash apart whenever tool name and hash are free of newlines,
      whatever the agent is called. The front end takes only tool names that equal a header value
      (src/frontend/HttpMcp.cpp:413-419), and the hash is printed in hexadecimal. */
  lemma MapKeyInjective(a1: string, t1: string, h1: string, a2: string, t2: string, h2: string)
    requires NoNewline(t1) && NoNewline(h1) && NoNewline(t2) && NoNewline(h2)
    requires MapKey(a1, t1, h1) == MapKey(a2, t2, h2)
    ensures a1 == a2 && t1 == t2 && h1 == h2
  {
    SplitLast(h1, h2, a1 + ['\n'] + t1, a2 + ['\n'] + t2);
    SplitLast(t1, t2, a1, a2);
  }

  predicate SharesKey(agent: string, tool: string, hash: string, a: string, t: string) {
    (a != agent || t != tool) && MapKey(a, t, hash) == MapKey(agent, tool, hash)
  }

  lemma CutInAgent(agent: string, tool: string, hash: string, i: nat)
    requires i < |agent| && agent[i] == '\n'
    ensures SharesKey(agent, tool, hash, agent[..i], agent[i + 1..] + ['\n'] + tool)
  {
    var a, t := agent[..i], agent[i + 1..] + ['\n'] + tool;
    assert agent == a + ['\n'] + agent[i + 1..];
    assert agent + ['\n'] + tool == a + ['\n'] + t;
  }

  lemma CutInTool(agent: string, tool: string, hash: string, i: nat)
    requires i < |tool| && tool[i] == '\n'
    ensures SharesKey(agent, tool, hash, agent + ['\n'] + tool[..i], tool[i + 1..])
  {
    var a, t := agent + ['\n'] + tool[..i], tool[i + 1..];
    assert tool == tool[..i] + ['\n'] + t;
    assert agent + ['\n'] + tool == a + ['\n'] + t;
  }

  lemma SharedIsCut(agent: string, tool: string, hash: string, a: string, t: string)
    requires SharesKey(agent, tool, hash, a, t)
    ensures '\n' in agent || '\n' in tool
  {
    var tail := ['\n'] + hash;
    assert MapKey(a, t, hash) == a + ['\n'] + t + tail && MapKey(agent, tool, hash) == agent + ['\n'] + tool + tail;
    CutAt(agent + ['\n'] + tool, a + ['\n'] + t, tail);
    if NoNewline(agent) && NoNewline(tool) { OnlyCut(agent, tool, a, t); }
  }

  /** The same triple under another name: the key of (agent, tool, hash) is also the key of another agent
      and tool exactly when the agent or the tool holds a newline to cut at. */
  lemma SharedKeyHasNewline(agent: string, tool: string, hash: string)
    ensures (exists a, t :: SharesKey(agent, tool, hash, a, t)) <==> '\n' in agent || '\n' in tool
  {
    if a, t :| SharesKey(agent, tool, hash, a, t) { SharedIsCut(agent, tool, hash, a, t); }
    if '\n' in agent {
      var i :| 0 <= i < |agent| && agent[i] == '\n';
      CutInAgent(agent, tool, hash, i);
    } else if '\n' in tool {
      var i :| 0 <= i < |tool| && tool[i] == '\n';
      CutInTool(agent, tool, hash, i);
    }
  }

  lemma CutAt(x: string, y: string, tail: string)
    requires x + tail == y + tail
    ensures x == y
  {
    assert |x + tail| == |y + tail|;
    assert x == (x + tail)[..|x|] && y == (y + tail)[..|y|];
  }

  /** Around a single newline there is one way to cut. */
  lemma OnlyCut(agent: string, tool: string, a: string, t: string)
    requires NoNewline(agent) && NoNewline(tool) && agent + ['\n'] + tool == a + ['\n'] + t
    ensures a == agent && t == tool
  {
    var l, r := agent + ['\n'] + tool, a + ['\n'] + t;
    assert r[|a|] == '\n';
    assert forall i :: 0 <= i < |l| && i != |agent| ==> l[i] in agent || l[i] in tool;
    assert |a| == |agent|;
    assert agent == l[..|agent|] && a == r[..|a|];
    assert tool == l[|agent| + 1..] && t == r[|a| + 1..];
  }

  // ------------------------------------------------------------------ tokens

  /** Every mapping points to a live entry that was filed under exactly that key. */
  ghost predicate Sound(t: Table) {
    Filed(t) && Numbered(t.byId) && t.held == |t.byId|
  }

  predicate Numbered(byId: map<nat, Entry>) {
    forall id :: id in byId ==> byId[id].id == id
  }

  ghost predicate Filed(t: Table) {
    forall mk :: mk in t.keyToId ==> t.keyToId[mk] in t.byId && KeyOf(t.byId[t.keyToId[mk]]) == mk
  }

  predicate Mapped(t: Table, id: nat) {
    exists mk :: mk in t.keyToId && t.keyToId[mk] == id
  }

  /** The test of handleCall: the duplicate hits an entry and presents that entry's token. */
  predicate Confirms(t: Table, agent: string, tool: string, hash: string, token: nat) {
    Lookup(t, agent, tool, hash).Some? && Lookup(t, agent, tool, hash).value.id == token
  }

  datatype Op = DoInsert(e: Entry) | DoSetTask(id: nat, taskId: nat) | DoErase(id: nat)

  function Do(t: Table, op: Op): Table {
    match op
    case DoInsert(e) => Insert(t, e)
    case DoSetTask(id, tid) => SetTaskId(t, id, tid)
    case DoErase(id) => Erase(t, id)
  }

  /** An insert uses an id above every id used before. */
  predicate Fresh(op: Op, bound: nat) { op.DoInsert? ==> op.e.id >= bound }

  function Bound(op: Op, bound: nat): nat {
    if op.DoInsert? && op.e.id >= bound then op.e.id + 1 else bound
  }

  lemma SoundKept(t: Table, op: Op)
    requires Sound(t) && (op.DoInsert? ==> op.e.id !in t.byId)
    ensures Sound(Do(t, op))
  {
    match op
    case DoInsert(e) => InsertKeepsSound(t, e);
    case DoSetTask(id, tid) => SetTaskKeepsSound(t, id, tid);
    case DoErase(id) => EraseKeepsSound(t, id);
  }

  lemma InsertFiled(t: Table, e: Entry)
    requires Filed(t) && e.id !in t.byId
    ensures Filed(Insert(t, e))
  {
    var u, key := Insert(t, e), KeyOf(e);
    forall mk | mk in u.keyToId ensures u.keyToId[mk] in u.byId && KeyOf(u.byId[u.keyToId[mk]]) == mk {
      if mk != key { assert u.byId[t.keyToId[mk]] == t.byId[t.keyToId[mk]]; }
    }
  }

  lemma InsertCounted(byId: map<nat, Entry>, e: Entry)
    requires e.id !in byId
    ensures |byId[e.id := e]| == |byId| + 1
    ensures Numbered(byId) ==> Numbered(byId[e.id := e])
  {
    assert byId[e.id := e].Keys == byId.Keys + {e.id};
  }

  lemma InsertKeepsSound(t: Table, e: Entry)
    requires Sound(t) && e.id !in t.byId
    ensures Sound(Insert(t, e))
  {
    InsertFiled(t, e);
    InsertCounted(t.byId, e);
  }

  lemma SetTaskKeepsSound(t: Table, id: nat, taskId: nat)
    requires Sound(t)
    ensures Sound(SetTaskId(t, id, taskId))
  {
    assert SetTaskId(t, id, taskId).byId.Keys == t.byId.Keys;
  }

  lemma EraseKeepsSound(t: Table, id: nat)
    requires Sound(t)
    ensures Sound(Erase(t, id))
  {
    if id in t.byId {
      assert Erase(t, id).byId.Keys == t.byId.Keys - {id};
    }
  }

  /** In a sound table a hit is a running entry of exactly the asking agent, tool and hash, and a token
      is accepted exactly when it is the id that key is mapped to. */
  lemma LookupSound(t: Table, agent: string, tool: string, hash: string, token: nat)
    requires Sound(t) && NoNewline(tool) && NoNewline(hash)
    requires forall id :: id in t.byId ==> NoNewline(Str(t.byId[id].key)) && NoNewline(t.byId[id].hash)
    ensures var hit := Lookup(t, agent, tool, hash);
            hit.Some? ==> hit.value.id in t.byId && hit.value.agent == agent
                          && Str(hit.value.key) == tool && hit.value.hash == hash
    ensures var mk := MapKey(agent, tool, hash);
            Confirms(t, agent, tool, hash, token) <==> mk in t.keyToId && t.keyToId[mk] == token
  {
    var hit := Lookup(t, agent, tool, hash);
    if hit.Some? {
      MapKeyInjective(hit.value.agent, Str(hit.value.key), hit.value.hash, agent, tool, hash);
    }
  }

  /** Erasing an entry takes the mapping of its key away, also when a newer entry of that key had it, and no
      other mapping. */
  lemma EraseDropsKey(t: Table, id: nat, mk: string)
    requires id in t.byId
    ensures mk in Erase(t, id).keyToId <==> mk in t.keyToId && mk != KeyOf(t.byId[id])
    ensures mk in Erase(t, id).keyToId ==> Erase(t, id).keyToId[mk] == t.keyToId[mk]
  {
  }

  /** Inserting a newer entry for the key, or erasing any entry of the key, leaves the old id unmapped. */
  lemma SupersededIsUnmapped(t: Table, id: nat, op: Op)
    requires Sound(t) && id in t.byId
    requires op.DoInsert? ==> op.e.id !in t.byId && KeyOf(op.e) == KeyOf(t.byId[id])
    requires op.DoErase? ==> op.id in t.byId && KeyOf(t.byId[op.id]) == KeyOf(t.byId[id])
    requires !op.DoSetTask?
    ensures !Mapped(Do(t, op), id)
  {
  }

  function DoAll(t: Table, ops: seq<Op>): Table
    decreases |ops|
  {
    if ops == [] then t else DoAll(Do(t, ops[0]), ops[1..])
  }

  predicate AllFresh(ops: seq<Op>, bound: nat)
    decreases |ops|
  {
    ops == [] || (Fresh(ops[0], bound) && AllFresh(ops[1..], Bound(ops[0], bound)))
  }

  /** Once unmapped, an id is never accepted as a token again, for any key, through any operations. */
  lemma {:induction false} TokenNeverReturns(t: Table, ops: seq<Op>, bound: nat, id: nat,
                                             agent: string, tool: string, hash: string)
    requires Sound(t) && AllFresh(ops, bound) && id < bound && !Mapped(t, id)
    requires forall i :: i in t.byId ==> i < bound
    ensures !Mapped(DoAll(t, ops), id)
    ensures !Confirms(DoAll(t, ops), agent, tool, hash, id)
    decreases |ops|
  {
    if ops == [] {
      assert Confirms(t, agent, tool, hash, id) ==> Mapped(t, id);
    } else {
      SoundKept(t, ops[0]);
      var u := Do(t, ops[0]);
      assert forall mk :: mk in u.keyToId && u.keyToId[mk] == id ==> mk in t.keyToId && t.keyToId[mk] == id;
      TokenNeverReturns(u, ops[1..], Bound(ops[0], bound), id, agent, tool, hash);
    }
  }
}
