/** What holds in every state that any run of the engine can reach: the invariant put in the words of
    someone who looks at the gateway from outside. */
module EngineResults {
  import opened ToolKeys
  import opened Bags
  import opened Engine
  import opened EngineInvariant
  import opened EngineMoves
  import opened EngineKeeps
  import opened EngineTurns
  import opened EngineOffer

  // ------------------------------------------------------------------ exactly one reply

  predicate InQueue(s: St, r: nat) {
    exists ts, i :: ts in s.gov.queues && 0 <= i < |s.gov.queues[ts]| && s.gov.queues[ts][i].req.id == r
  }

  predicate InCall(s: St, r: nat) {
    exists id :: id in s.calls && s.calls[id].req.id == r && !s.calls[id].responded
  }

  lemma WaitingIsQueued(s: St, r: nat)
    ensures Waiting(s.gov.queues, r) > 0 <==> InQueue(s, r)
  {
    MapBagMember(s.gov.queues, WaitingIn, r);
    forall ts | ts in s.gov.queues
      ensures r in WaitingIn(s.gov.queues[ts])
         <==> exists i :: 0 <= i < |s.gov.queues[ts]| && s.gov.queues[ts][i].req.id == r
    {
      var q := s.gov.queues[ts];
      assert r in WaitingIn(q) <==> r in Ids(q);
      assert forall i :: 0 <= i < |q| ==> Ids(q)[i] == q[i].req.id;
    }
  }

  lemma UnansweredIsCalled(s: St, r: nat)
    ensures Unanswered(s.calls, r) > 0 <==> InCall(s, r)
  {
    MapBagMember(s.calls, UnansweredIn, r);
  }

  /** JSON-RPC 2.0, section 5: a request gets one reply and no more, and lacks it exactly as long as it
      waits in a governor queue or in a live call that has not answered. */
  lemma ExactlyOneReply(cfg: Config, turns: seq<Turn>, r: nat)
    ensures var s := Run(cfg, turns);
            && Replies(s.log, r) <= 1
            && (r < s.arrivals ==> (Replies(s.log, r) == 0 <==> InQueue(s, r) || InCall(s, r)))
            && (r >= s.arrivals ==> Replies(s.log, r) == 0)
  {
    var s := Run(cfg, turns);
    RunInv(cfg, false, turns);
    assert ConservedOf(Idle(s, false));
    WaitingIsQueued(s, r);
    UnansweredIsCalled(s, r);
    assert Replies(s.log, r) + Waiting(s.gov.queues, r) + Unanswered(s.calls, r) + multiset{}[r]
        == if r < s.arrivals then 1 else 0;
  }

  /** A request is never in two places at once. */
  lemma QueuedOrCalled(cfg: Config, turns: seq<Turn>, r: nat)
    ensures var s := Run(cfg, turns); !(InQueue(s, r) && InCall(s, r))
  {
    var s := Run(cfg, turns);
    RunInv(cfg, false, turns);
    WaitingIsQueued(s, r);
    UnansweredIsCalled(s, r);
    assert Replies(s.log, r) + Waiting(s.gov.queues, r) + Unanswered(s.calls, r) + multiset{}[r]
        == if r < s.arrivals then 1 else 0;
  }

  /** A call is destroyed only after it answered, so the destructor's own reply is never sent. */
  lemma DestructorIsSilent(cfg: Config, turns: seq<Turn>, id: nat)
    requires Enabled(Run(cfg, turns), Drop(id))
    ensures Engine.Destroy(Run(cfg, turns), id).log == Run(cfg, turns).log
  {
    RunInv(cfg, false, turns);
    assert Disciplined(cfg, false, Run(cfg, turns).calls[id]);
  }

  // ------------------------------------------------------------------ ledgers

  lemma LedgerSums(s: St)
    requires ToolLedger(s.gov.toolUse, s.calls, []) && AgentLedger(s.gov.agentUse, s.calls, [])
    ensures SumValues(s.gov.toolUse) == |s.calls| && SumValues(s.gov.agentUse) == |s.calls|
  {
    var tools, agents := MapBag(s.calls, ToolOf), MapBag(s.calls, AgentOf);
    forall t ensures Get(s.gov.toolUse, t) == tools[t] {
      assert ToolsHeld([], t) == 0;
    }
    forall a ensures Get(s.gov.agentUse, a) == agents[a] {
      assert AgentsHeld([], a) == 0;
    }
    assert forall t :: t in s.gov.toolUse ==> Get(s.gov.toolUse, t) == s.gov.toolUse[t];
    assert forall a :: a in s.gov.agentUse ==> Get(s.gov.agentUse, a) == s.gov.agentUse[a];
    SumIsSize(s.gov.toolUse, tools);
    SumIsSize(s.gov.agentUse, agents);
    MapBagSize(s.calls, ToolOf);
    MapBagSize(s.calls, AgentOf);
  }

  /** Between two turns all five ledgers agree with the calls that exist: nothing is held otherwise. */
  lemma LedgersAgree(cfg: Config, turns: seq<Turn>)
    ensures var s := Run(cfg, turns);
            && s.gov.held == |s.calls| == SumValues(s.gov.toolUse) == SumValues(s.gov.agentUse)
            && s.inflight.held == |s.inflight.byId| == |s.live| == |s.calls|
            && s.live == s.calls.Keys == s.inflight.byId.Keys
  {
    var s := Run(cfg, turns);
    RunInv(cfg, false, turns);
    LedgerSums(s);
    SameSizes(s);
  }

  lemma SameSizes(s: St)
    requires SameKeys(s.calls, s.live, s.inflight.byId)
    ensures s.live == s.calls.Keys == s.inflight.byId.Keys
    ensures |s.inflight.byId| == |s.live| == |s.calls|
  {
    assert s.live == s.calls.Keys == s.inflight.byId.Keys;
  }

  /** Each permit is held by one call, for that call's own tool and agent. */
  lemma PermitsAreHeld(cfg: Config, turns: seq<Turn>, id: nat)
    requires id in Run(cfg, turns).calls
    ensures var c := Run(cfg, turns).calls[id]; c.permit == Held(c.key, c.req.who.agentId)
  {
    RunInv(cfg, false, turns);
    assert Disciplined(cfg, false, Run(cfg, turns).calls[id]);
  }

  /** With no call left, every counter of every tool and principal is back at zero. */
  lemma NothingLeaks(cfg: Config, turns: seq<Turn>, ts: string, agent: string)
    requires Run(cfg, turns).calls == map[]
    ensures var s := Run(cfg, turns);
            s.gov.held == 0 && s.inflight.held == 0
            && Get(s.gov.toolUse, ts) == 0 && Get(s.gov.agentUse, agent) == 0
  {
    var s := Run(cfg, turns);
    RunInv(cfg, false, turns);
    assert Get(s.gov.toolUse, ts) == MapBag(s.calls, ToolOf)[ts] + ToolsHeld([], ts);
    assert Get(s.gov.agentUse, agent) == MapBag(s.calls, AgentOf)[agent] + AgentsHeld([], agent);
  }

  /** However the upstream lists flip the validation of a tool, its running calls stay within the larger
      of its own limit and the default, and each principal stays within its limit. */
  lemma LimitsHold(cfg: Config, turns: seq<Turn>, ts: string, agent: string)
    ensures var s := Run(cfg, turns);
            && Get(s.gov.toolUse, ts) == MapBag(s.calls, ToolOf)[ts] <= Ceiling(cfg, ts)
            && Get(s.gov.agentUse, agent) == MapBag(s.calls, AgentOf)[agent] <= Max(0, cfg.perPrincipal)
  {
    var s := Run(cfg, turns);
    RunInv(cfg, false, turns);
    assert Get(s.gov.toolUse, ts) == MapBag(s.calls, ToolOf)[ts] + ToolsHeld([], ts);
    assert Get(s.gov.agentUse, agent) == MapBag(s.calls, AgentOf)[agent] + AgentsHeld([], agent);
    assert Get(s.gov.toolUse, ts) <= Ceiling(cfg, ts);
    assert Get(s.gov.agentUse, agent) <= Max(0, cfg.perPrincipal);
  }

  // ------------------------------------------------------------------ attempts

  /** At most one attempt is outstanding, at most max(1, maxAttempts) are ever made, and none follows a
      reply to the request or a timeout of the call; a cancelled call has replied. */
  lemma BoundedAttempts(cfg: Config, turns: seq<Turn>, id: nat)
    ensures var s := Run(cfg, turns);
            && FiredCount(s.log, id) <= MaxAttempts(cfg)
            && (id in s.calls ==>
                  && FiredCount(s.log, id) - ReturnedCount(s.log, id) == s.calls[id].outstanding <= 1
                  && (s.calls[id].cancelled ==> s.calls[id].responded))
            && Ordered(s.log)
  {
    var s := Run(cfg, turns);
    RunInv(cfg, false, turns);
    assert AttemptsOf(cfg, Idle(s, false));
    assert FiredCount(s.log, id) <= MaxAttempts(cfg);
    if id in s.calls {
      assert Disciplined(cfg, false, s.calls[id]);
    }
  }

  // ------------------------------------------------------------------ permits are linear

  /** Move-assignment gives back exactly the slot of its left side, waiters and all, and carries the slot
      of its right side over: with both permits on the books before, the one that is left is on them after. */
  lemma MoveAssignKeepsBooks(cfg: Config, s: St, dst: Permit, src: Permit, env: Env)
    requires Inv(cfg, Mach(s, [src, dst], multiset{}, false)) && dst.Held? && src.Held?
    ensures var moved := MoveAssign(cfg, s, dst, src, env);
            && Inv(cfg, Mach(moved.0, [moved.1], multiset{}, false))
            && moved.1 == src && moved.2 == NotHeld
            && moved.0.gov.held == |moved.0.calls| + 1
  {
    var m := Mach(s, [src, dst], multiset{}, false);
    KeepsInvClosed(cfg);
    ReleaseTurn(cfg, (a, b) => KeepsInv(cfg, a, b), ALL, m, dst, env);
    DropIsRelease(cfg, s, dst, env);
    var n := m.(s := TryDequeue(cfg, Released(s, dst), Str(dst.key), env), permits := [src]);
    assert m.permits[..1] == [src];
    assert KeepsInv(cfg, m, n);
  }

  /** The guards of releaseSlot are never needed: when a call ends, both counters of its slot are positive,
      and after the turn, with every release nested in it, each counter of each tool and agent is down by
      exactly that slot and up by the slot of whoever keeps it. */
  lemma GuardsNeverBite(cfg: Config, turns: seq<Turn>, id: nat, env: Env, tool: string, agent: string)
    requires Enabled(Run(cfg, turns), Drop(id))
    ensures var s := Run(cfg, turns);
            var t, c := Step(cfg, s, Drop(id), env), s.calls[id];
            && Get(s.gov.toolUse, Str(c.key)) >= 1 && Get(s.gov.agentUse, c.req.who.agentId) >= 1
            && Settles(s.gov, c, t.gov, DropOffer(cfg, s, c, env), tool, agent)
  {
    var s := Run(cfg, turns);
    RunInv(cfg, false, turns);
    CallIsCounted(cfg, s, id);
    DropCounts(cfg, s, id, env, tool, agent);
  }
}
