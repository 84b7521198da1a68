/** The invariant of the engine, table by table. Each part reads only the tables it is about, so a step
    that leaves them alone keeps it for free. `P` lists the permits and `R` the requests that are on
    the call stack rather than in a table: both are empty between two turns of the loop. */
module EngineInvariant {
  import opened Options
  import opened ToolKeys
  import opened Bags
  import opened Engine
  import InFlightTable
  import Tasks
  import Retry

  // ------------------------------------------------------------------ what each call contributes

  function ToolOf(c: Call): multiset<string> { multiset{Str(c.key)} }

  function AgentOf(c: Call): multiset<string> { multiset{c.req.who.agentId} }

  function KeyOf(c: Call): string { KeyFor(c.req, c.key) }

  function KeyIn(c: Call): multiset<string> { multiset{KeyOf(c)} }

  function UnansweredIn(c: Call): multiset<nat> {
    if c.responded then multiset{} else multiset{c.req.id}
  }

  /** How many requests with this id sit unanswered in a live call. */
  ghost function Unanswered(calls: map<nat, Call>, r: nat): nat {
    MapBag(calls, UnansweredIn)[r]
  }

  /** How many requests with this id wait in a governor queue. */
  ghost function Waiting(queues: map<string, seq<Waiter>>, r: nat): nat {
    WaitingBag(queues)[r]
  }

  /** How many live calls run on one (agent, tool, hash). */
  ghost function Running(calls: map<nat, Call>, mapKey: string): nat {
    MapBag(calls, KeyIn)[mapKey]
  }

  function ToolsHeld(P: seq<Permit>, t: string): nat {
    if P == [] then 0
    else
      var p := P[|P| - 1];
      ToolsHeld(P[..|P| - 1], t) + if p.Held? && Str(p.key) == t then 1 else 0
  }

  function AgentsHeld(P: seq<Permit>, a: string): nat {
    if P == [] then 0
    else
      var p := P[|P| - 1];
      AgentsHeld(P[..|P| - 1], a) + if p.Held? && p.agent == a then 1 else 0
  }

  lemma HeldPush(P: seq<Permit>, p: Permit)
    ensures forall t :: ToolsHeld(P + [p], t) == ToolsHeld(P, t) + if p.Held? && Str(p.key) == t then 1 else 0
    ensures forall a :: AgentsHeld(P + [p], a) == AgentsHeld(P, a) + if p.Held? && p.agent == a then 1 else 0
  {
    assert (P + [p])[..|P|] == P;
  }

  // ------------------------------------------------------------------ what the log records

  predicate RepliesTo(a: Action, r: nat) { a.Replied? && a.req.id == r }

  predicate Overwrote(a: Action, mapKey: string) { a.Inserted? && a.overwrote && a.mapKey == mapKey }

  predicate FiredBy(a: Action, id: nat) { a.Fired? && a.id == id }

  predicate ReturnedTo(a: Action, id: nat) { a.Returned? && a.id == id }

  predicate TimedOut(a: Action, id: nat) { a.Returned? && a.id == id && a.klass == Retry.Timeout }

  predicate HandsOut(a: Action) { a.Replied? && a.reply.Handle? }

  function Replies(log: seq<Action>, r: nat): nat {
    if log == [] then 0
    else Replies(log[..|log| - 1], r) + if RepliesTo(log[|log| - 1], r) then 1 else 0
  }

  /** Inserts that found the key already mapped. */
  function Overwrites(log: seq<Action>, mapKey: string): nat {
    if log == [] then 0
    else Overwrites(log[..|log| - 1], mapKey) + if Overwrote(log[|log| - 1], mapKey) then 1 else 0
  }

  function FiredCount(log: seq<Action>, id: nat): nat {
    if log == [] then 0
    else FiredCount(log[..|log| - 1], id) + if FiredBy(log[|log| - 1], id) then 1 else 0
  }

  function ReturnedCount(log: seq<Action>, id: nat): nat {
    if log == [] then 0
    else ReturnedCount(log[..|log| - 1], id) + if ReturnedTo(log[|log| - 1], id) then 1 else 0
  }

  lemma RepliesPush(log: seq<Action>, a: Action)
    ensures forall r :: Replies(log + [a], r) == Replies(log, r) + if RepliesTo(a, r) then 1 else 0
  {
    assert (log + [a])[..|log|] == log;
  }

  lemma OverwritesPush(log: seq<Action>, a: Action)
    ensures forall mk :: Overwrites(log + [a], mk) == Overwrites(log, mk) + if Overwrote(a, mk) then 1 else 0
  {
    assert (log + [a])[..|log|] == log;
  }

  lemma AttemptsPush(log: seq<Action>, a: Action)
    ensures forall id :: FiredCount(log + [a], id) == FiredCount(log, id) + if FiredBy(a, id) then 1 else 0
    ensures forall id :: ReturnedCount(log + [a], id) == ReturnedCount(log, id) + if ReturnedTo(a, id) then 1 else 0
  {
    assert (log + [a])[..|log|] == log;
  }

  lemma {:induction false} NoReplyInLog(log: seq<Action>, r: nat)
    requires Replies(log, r) == 0
    ensures forall i :: 0 <= i < |log| ==> !RepliesTo(log[i], r)
  {
    if log != [] {
      var front := log[..|log| - 1];
      NoReplyInLog(front, r);
      assert forall i :: 0 <= i < |front| ==> front[i] == log[i];
    }
  }

  // ------------------------------------------------------------------ tables

  predicate SameKeys(calls: map<nat, Call>, live: set<nat>, byId: map<nat, InFlightTable.Entry>) {
    && (forall id :: id in calls ==> id in live && id in byId)
    && (forall id :: id in live ==> id in calls)
    && (forall id :: id in byId ==> id in calls)
  }

  predicate Matches(c: Call, e: InFlightTable.Entry) {
    && e.key == c.key && e.agent == c.req.who.agentId && e.hash == c.req.hash
    && e.taskId == c.taskId && e.startedAt == c.startedAt
  }

  /** The call and its in-flight entry agree, on the task handle too. */
  predicate Linked(calls: map<nat, Call>, byId: map<nat, InFlightTable.Entry>, nextId: nat) {
    forall id :: id in calls && id in byId ==> id < nextId && Matches(calls[id], byId[id])
  }

  /** byTask points from each handle to the call that carries it, and nowhere else. */
  predicate TaskLinks(calls: map<nat, Call>, byTask: map<nat, nat>, nextId: nat) {
    && (forall tid :: tid in byTask ==> byTask[tid] in calls && calls[byTask[tid]].taskId == Some(tid))
    && (forall id :: id in calls && calls[id].taskId.Some? ==>
          calls[id].taskId.value < nextId
          && calls[id].taskId.value in byTask && byTask[calls[id].taskId.value] == id)
  }

  // ------------------------------------------------------------------ ledger

  function Max(a: int, b: int): int { if a > b then a else b }

  /** The most a tool may ever use, whichever way its configuration is validated. */
  function Ceiling(cfg: Config, ts: string): int {
    Max(0, Max(cfg.perTool, if ts in cfg.tools then cfg.tools[ts].maxConcurrency else 0))
  }

  ghost predicate ToolLedger(toolUse: map<string, int>, calls: map<nat, Call>, P: seq<Permit>) {
    forall t :: Get(toolUse, t) == MapBag(calls, ToolOf)[t] + ToolsHeld(P, t)
  }

  ghost predicate AgentLedger(agentUse: map<string, int>, calls: map<nat, Call>, P: seq<Permit>) {
    forall a :: Get(agentUse, a) == MapBag(calls, AgentOf)[a] + AgentsHeld(P, a)
  }

  ghost predicate ToolsWithin(cfg: Config, toolUse: map<string, int>) {
    forall t :: Get(toolUse, t) <= Ceiling(cfg, t)
  }

  ghost predicate AgentsWithin(cfg: Config, agentUse: map<string, int>) {
    forall a :: Get(agentUse, a) <= Max(0, cfg.perPrincipal)
  }

  predicate SameLimits(cfg: Config, tools: map<string, ToolCfg>) {
    && (forall ts :: ts in cfg.tools ==> ts in tools)
    && (forall ts :: ts in tools ==> ts in cfg.tools && tools[ts].maxConcurrency == cfg.tools[ts].maxConcurrency
                                     && tools[ts].queueWaitMs == cfg.tools[ts].queueWaitMs)
  }

  // ------------------------------------------------------------------ conservation

  /** Every arrived request is answered, waiting, unanswered in a call, or on the stack: exactly once. */
  ghost predicate Conserved(log: seq<Action>, queues: map<string, seq<Waiter>>, calls: map<nat, Call>,
                            arrivals: nat, R: multiset<nat>)
  {
    forall r: nat :: Replies(log, r) + Waiting(queues, r) + Unanswered(calls, r) + R[r]
                  == if r < arrivals then 1 else 0
  }

  predicate CleanRequest(req: Request) {
    InFlightTable.NoNewline(req.name) && InFlightTable.NoNewline(req.hash)
  }

  /** A waiter queues for the tool it named. `clean` adds that its name and hash are free of newlines. */
  predicate Keyed(clean: bool, queues: map<string, seq<Waiter>>) {
    forall ts, i :: ts in queues && 0 <= i < |queues[ts]| ==>
      Str(queues[ts][i].key) == ts == queues[ts][i].req.name && (clean ==> CleanRequest(queues[ts][i].req))
  }

  // ------------------------------------------------------------------ calls and attempts

  function MaxAttempts(cfg: Config): int { Max(1, cfg.retry.maxAttempts) }

  predicate Disciplined(cfg: Config, clean: bool, c: Call) {
    && c.permit == Held(c.key, c.req.who.agentId)
    && c.req.name == Str(c.key)
    && c.outstanding <= 1
    && 1 <= c.attempt <= MaxAttempts(cfg)
    && (c.cancelled ==> c.responded)
    && (c.upstreamDone <==> c.outstanding == 0)
    && (c.upstreamDone ==> c.responded)
    && (clean ==> CleanRequest(c.req))
  }

  predicate Discipline(cfg: Config, clean: bool, calls: map<nat, Call>) {
    forall id :: id in calls ==> Disciplined(cfg, clean, calls[id])
  }

  /** The log knows how often each call was sent upstream and how often an answer came back. */
  ghost predicate Counted(log: seq<Action>, calls: map<nat, Call>, nextId: nat) {
    && (forall id :: id in calls ==> FiredCount(log, id) == calls[id].attempt)
    && (forall id :: id in calls ==> ReturnedCount(log, id) == calls[id].attempt - calls[id].outstanding)
    && (forall id: nat :: id >= nextId ==> FiredCount(log, id) == 0 && ReturnedCount(log, id) == 0)
  }

  ghost predicate FewAttempts(cfg: Config, log: seq<Action>) {
    forall id: nat :: FiredCount(log, id) <= MaxAttempts(cfg)
  }

  /** A call that timed out has nothing outstanding and never will. */
  ghost predicate TimeoutsFinal(log: seq<Action>, calls: map<nat, Call>, nextId: nat) {
    forall i :: 0 <= i < |log| && log[i].Returned? && log[i].klass == Retry.Timeout ==>
      log[i].id < nextId && (log[i].id in calls ==> calls[log[i].id].outstanding == 0)
  }

  /** No attempt follows a reply to its request, or a timeout of its call. */
  ghost predicate Ordered(log: seq<Action>) {
    forall i, j :: 0 <= i < j < |log| && log[j].Fired? ==>
      !RepliesTo(log[i], log[j].req.id) && !TimedOut(log[i], log[j].id)
  }

  // ------------------------------------------------------------------ tasks and handles

  predicate Settled(t: Tasks.Task) { t.status.Completed? || t.status.Failed? }

  ghost predicate TaskBounds(cfg: Config, tasks: Tasks.Store, nextId: nat) {
    && |tasks| <= cfg.maxTasks
    && (forall t :: t in tasks ==> t < nextId)
  }

  predicate Consistent(clean: bool, c: Call, t: Tasks.Task) {
    && (t.status.Cancelled? ==> c.cancelled)
    && (Settled(t) ==> c.upstreamDone)
    && t.key == c.key && t.createdAt == c.startedAt
    && (clean ==> t.agent == c.req.who.agentId)
  }

  /** A task is of the tool and the time of its call, if it still has one, and one that is settled or cancelled has a
      call that is done or cancelled. */
  predicate TaskStates(clean: bool, tasks: Tasks.Store, calls: map<nat, Call>) {
    forall id :: id in calls && calls[id].taskId.Some? && calls[id].taskId.value in tasks ==>
      Consistent(clean, calls[id], tasks[calls[id].taskId.value])
  }

  /** A handle names the task of its call as long as the call lives. */
  predicate HandlesLive(log: seq<Action>, calls: map<nat, Call>, nextId: nat) {
    forall i :: 0 <= i < |log| && HandsOut(log[i]) ==>
      && log[i].reply.inflightId < nextId
      && (log[i].reply.inflightId in calls ==> calls[log[i].reply.inflightId].taskId == Some(log[i].reply.taskId))
  }

  /** All task ids handed out for one in-flight id are equal. */
  predicate OneHandle(log: seq<Action>) {
    forall i, j :: 0 <= i < |log| && 0 <= j < |log| && HandsOut(log[i]) && HandsOut(log[j])
                   && log[i].reply.inflightId == log[j].reply.inflightId ==>
      log[i].reply.taskId == log[j].reply.taskId
  }

  /** Every handle went to the agent that owns the task. */
  predicate HandlesOwned(clean: bool, log: seq<Action>) {
    clean ==> forall i :: 0 <= i < |log| && HandsOut(log[i]) ==>
      log[i].reply.task.agent == log[i].req.who.agentId
  }

  /** A handle only ever goes to a request that declared the tasks capability itself. */
  predicate HandlesDeclared(log: seq<Action>) {
    forall i :: 0 <= i < |log| && HandsOut(log[i]) ==> log[i].req.tasksCap
  }

  // ------------------------------------------------------------------ amplification

  /** Live calls on one key: at most one more than the inserts that overwrote that key. */
  ghost predicate Amplified(log: seq<Action>, keyToId: map<string, nat>, calls: map<nat, Call>) {
    forall mk :: Running(calls, mk) <= Overwrites(log, mk) + if mk in keyToId then 1 else 0
  }

  predicate OverwritesExplained(log: seq<Action>) {
    forall i :: 0 <= i < |log| && log[i].Inserted? && log[i].overwrote ==> !log[i].via.Direct?
  }
}
