/** The governor's own tables, updated in place (src/govern/LocalGovernor.cpp). Each method is proved
    against the specification function of the same step; the callbacks that a release runs belong to the
    pipeline, which owns this object. */
module Governor {
  import opened Options
  import opened ToolKeys
  import opened Engine

  class LocalGovernor {
    const cfg: Config
    var tools: map<string, ToolCfg>
    var toolUse: map<string, int>
    var agentUse: map<string, int>
    var held: int
    var queues: map<string, seq<Waiter>>
    var nextWait: nat

    ghost function Contents(): Gov
      reads this
    {
      Gov(tools, toolUse, agentUse, held, queues, nextWait)
    }

    /** Everyone queues for the tool it wants. */
    ghost predicate Valid()
      reads this
    {
      forall ts, i :: ts in queues && 0 <= i < |queues[ts]| ==> Str(queues[ts][i].key) == ts
    }

    constructor (cfg: Config)
      ensures Valid() && this.cfg == cfg && Contents() == Init(cfg).gov
    {
      this.cfg := cfg;
      tools, toolUse, agentUse, held, queues, nextWait := cfg.tools, map[], map[], 0, map[], 1;
    }

    method ToolLimitOf(ts: string) returns (limit: int)
      ensures limit == ToolLimit(cfg, Contents(), ts)
    {
      if ts in tools && tools[ts].status.Active? && tools[ts].maxConcurrency > 0 {
        return tools[ts].maxConcurrency;
      }
      return cfg.perTool;
    }

    method ToolWaitOf(ts: string) returns (wait: nat)
      ensures wait == ToolWait(cfg, Contents(), ts)
    {
      if ts in tools && tools[ts].status.Active? && tools[ts].queueWaitMs > 0 {
        return tools[ts].queueWaitMs;
      }
      return cfg.queueWaitMs;
    }

    method MayTake(ts: string, agent: string) returns (ok: bool)
      ensures ok == CanTake(cfg, Contents(), ts, agent)
    {
      var t, p := 0, 0;
      if ts in toolUse { t := toolUse[ts]; }
      if agent in agentUse { p := agentUse[agent]; }
      var limit := ToolLimitOf(ts);
      return t < limit && p < cfg.perPrincipal;
    }

    method Issue(key: ToolKey, agent: string) returns (permit: Permit)
      requires Valid()
      modifies this
      ensures Valid() && Contents() == Take(old(Contents()), Str(key), agent)
      ensures permit == Held(key, agent)
    {
      var ts := Str(key);
      toolUse := toolUse[ts := (if ts in toolUse then toolUse[ts] else 0) + 1];
      agentUse := agentUse[agent := (if agent in agentUse then agentUse[agent] else 0) + 1];
      held := held + 1;
      permit := Held(key, agent);
    }

    /** releaseSlot, before it goes on to wake the queue of its tool. */
    method ReturnSlot(ts: string, agent: string)
      requires Valid()
      modifies this
      ensures Valid() && Contents() == GiveBack(old(Contents()), ts, agent)
    {
      if ts in toolUse && toolUse[ts] > 0 { toolUse := toolUse[ts := toolUse[ts] - 1]; }
      if agent in agentUse && agentUse[agent] > 0 { agentUse := agentUse[agent := agentUse[agent] - 1]; }
      held := held - 1;
    }

    method Enqueue(req: Request, key: ToolKey, deadline: nat)
      requires Valid()
      modifies this
      ensures Valid() && Contents() == Push(old(Contents()), Str(key), req, key, deadline)
    {
      var ts := Str(key);
      var q := if ts in queues then queues[ts] else [];
      queues := queues[ts := q + [Waiter(nextWait, req, key, deadline)]];
      nextWait := nextWait + 1;
    }

    method PopFront(ts: string) returns (w: Waiter)
      requires Valid() && Queue(Contents(), ts) != []
      modifies this
      ensures Valid() && w == Queue(old(Contents()), ts)[0] && Str(w.key) == ts
      ensures Contents() == SetQueue(old(Contents()), ts, Queue(old(Contents()), ts)[1..])
    {
      w := queues[ts][0];
      queues := queues[ts := queues[ts][1..]];
    }

    /** The wait timer: looks for its waiter, which may have left, and takes it out. */
    method RemoveWaiter(ts: string, id: nat) returns (w: Option<Waiter>)
      requires Valid()
      modifies this
      ensures Valid()
      ensures var q := Queue(old(Contents()), ts);
              var i := FindWaiter(q, id);
              if i == |q| then w == None && Contents() == old(Contents())
              else w == Some(q[i]) && Contents() == SetQueue(old(Contents()), ts, q[..i] + q[i + 1..])
    {
      if ts !in queues { return None; }
      var q := queues[ts];
      var i := 0;
      while i < |q|
        invariant 0 <= i <= |q|
        invariant forall j :: 0 <= j < i ==> q[j].id != id
      {
        if q[i].id == id {
          queues := queues[ts := q[..i] + q[i + 1..]];
          return Some(q[i]);
        }
        i := i + 1;
      }
      return None;
    }

    /** Validates the configured tools of one upstream against what it lists. */
    method OnToolsListed(backend: string, listed: set<string>)
      requires Valid()
      modifies this
      ensures Valid() && Contents() == Engine.OnToolsListed(cfg, old(Contents()), backend, listed)
    {
      var todo := tools.Keys;
      while todo != {}
        invariant Valid() && todo <= tools.Keys == old(tools).Keys
        invariant forall ts :: ts in tools ==>
          tools[ts] == if ts in todo then old(tools)[ts]
                       else Listing(backend, listed, ts, old(tools)[ts])
        invariant Contents() == old(Contents()).(tools := tools)
        decreases todo
      {
        var ts :| ts in todo;
        todo := todo - {ts};
        var parsed := Parse(ts);
        if parsed.None? || parsed.value.backend != backend { continue; }
        if parsed.value.tool in listed {
          tools := tools[ts := tools[ts].(status := Active)];
        } else {
          tools := tools[ts := tools[ts].(status := Invalid)];
        }
      }
      assert tools == Engine.OnToolsListed(cfg, old(Contents()), backend, listed).tools;
    }
  }
}
