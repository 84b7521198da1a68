/** Temporary grants, and how long a list that was served under them may be cached
    (src/policy/JsonlGrantStore.cpp:86-111, src/pipeline/Pipeline.cpp:98-107). */
module Grants {
  import opened ToolKeys
  import opened Access

  const NEVER: nat := 0xFFFF_FFFF_FFFF_FFFF

  /** Milliseconds in 64 bits; NEVER doubles as "no grant is running". */
  type Millis = t: nat | t <= NEVER

  datatype Status = Pending | Approved | Denied

  datatype Grant = Grant(agent: string, rank: nat, status: Status, expiresAt: Millis)

  type Table = map<string, Grant>

  predicate Active(g: Grant, agent: string, now: nat) {
    g.agent == agent && g.status.Approved? && now < g.expiresAt
  }

  /** The highest rank among the grants that run for the agent, and 0 without any. */
  ghost predicate IsBump(table: Table, agent: string, now: nat, bump: nat) {
    && (forall id :: id in table && Active(table[id], agent, now) ==> table[id].rank <= bump)
    && (bump == 0 || exists id :: id in table && Active(table[id], agent, now) && table[id].rank == bump)
  }

  /** How long until the first of the agent's running grants ends. */
  ghost predicate IsShortest(table: Table, agent: string, now: nat, rem: nat) {
    && (forall id :: id in table && Active(table[id], agent, now) ==> now + rem <= table[id].expiresAt)
    && (rem == NEVER || exists id :: id in table && Active(table[id], agent, now) && table[id].expiresAt == now + rem)
  }

  /** A snapshot of the store. The grants are visited in any order. */
  class GrantStore {
    var table: Table

    constructor (table: Table)
      ensures this.table == table
    {
      this.table := table;
    }

    method EffectiveBump(agent: string, now: Millis) returns (bump: nat)
      ensures IsBump(table, agent, now, bump)
    {
      bump := 0;
      var todo := table.Keys;
      while todo != {}
        invariant todo <= table.Keys
        invariant forall id :: id in table && id !in todo && Active(table[id], agent, now) ==> table[id].rank <= bump
        invariant bump == 0 || exists id :: id in table && Active(table[id], agent, now) && table[id].rank == bump
        decreases todo
      {
        var id :| id in todo;
        todo := todo - {id};
        var g := table[id];
        if g.agent != agent { continue; }
        if g.status != Approved { continue; }
        if now >= g.expiresAt { continue; }
        if g.rank > bump { bump := g.rank; }
      }
    }

    method ShortestRemaining(agent: string, now: Millis) returns (best: Millis)
      ensures IsShortest(table, agent, now, best)
    {
      best := NEVER;
      var todo := table.Keys;
      while todo != {}
        invariant todo <= table.Keys
        invariant forall id :: id in table && id !in todo && Active(table[id], agent, now) ==>
          now + best <= table[id].expiresAt
        invariant best == NEVER || exists id ::
          id in table && Active(table[id], agent, now) && table[id].expiresAt == now + best
        decreases todo
      {
        var id :| id in todo;
        todo := todo - {id};
        var g := table[id];
        if g.agent != agent || g.status != Approved { continue; }
        if now >= g.expiresAt { continue; }
        var rem := g.expiresAt - now;
        if rem < best { best := rem; }
      }
    }

    /** listBody: the visible tools of the principal, as authenticated, and how long they stay right. */
    method ListBody(catalog: Catalog, index: Index, who: Principal, backends: seq<string>, listTtl: Millis,
                    cold: bool, now: Millis)
      returns (names: seq<string>, ttl: Millis)
      ensures names == Listed(catalog, index, who, backends)
      ensures cold ==> ttl == 0
      ensures !cold ==> exists rem: nat :: IsShortest(table, who.agentId, now, rem) &&
                          ttl == if rem < listTtl then rem else listTtl
      ensures forall t :: now <= t < now + ttl ==> SameActive(table, who.agentId, now, t)
    {
      names := ListTools(catalog, index, who, backends);
      ttl := listTtl;
      if cold { ttl := 0; }
      var rem := ShortestRemaining(who.agentId, now);
      if rem != NEVER && rem < ttl { ttl := rem; }
    }
  }

  // ------------------------------------------------------------------ the two scans agree

  lemma BumpUnique(table: Table, agent: string, now: nat, a: nat, b: nat)
    requires IsBump(table, agent, now, a) && IsBump(table, agent, now, b)
    ensures a == b
  {
  }

  /** The bump reaches a rank exactly when an approved grant of the agent has that rank or more, and has not
      ended; before that, denied and pending ones, those of others and those that ended count for nothing. */
  lemma BumpReaches(table: Table, agent: string, now: nat, bump: nat, rank: nat)
    requires IsBump(table, agent, now, bump) && rank > 0
    ensures bump >= rank <==>
            exists id :: id in table && table[id].agent == agent && table[id].status == Approved
                         && now < table[id].expiresAt && table[id].rank >= rank
  {
    if bump >= rank {
      var id :| id in table && Active(table[id], agent, now) && table[id].rank == bump;
      assert table[id].agent == agent && now < table[id].expiresAt;
    }
    if id :| id in table && table[id].agent == agent && table[id].status == Approved
             && now < table[id].expiresAt && table[id].rank >= rank {
      assert Active(table[id], agent, now);
    }
  }

  predicate SameActive(table: Table, agent: string, t: nat, u: nat) {
    forall id :: id in table ==> (Active(table[id], agent, t) <==> Active(table[id], agent, u))
  }

  /** The remaining time is exact: until then the very same grants run, and from then on they do not. */
  lemma ActiveUntilShortest(table: Table, agent: string, now: Millis, rem: nat, t: nat)
    requires IsShortest(table, agent, now, rem) && rem < NEVER && now <= t
    ensures SameActive(table, agent, now, t) <==> t < now + rem
  {
    if t >= now + rem {
      var id :| id in table && Active(table[id], agent, now) && table[id].expiresAt == now + rem;
      assert !Active(table[id], agent, t);
    }
  }

  lemma SameBump(table: Table, agent: string, t: nat, u: nat, bump: nat)
    requires SameActive(table, agent, t, u)
    ensures IsBump(table, agent, t, bump) <==> IsBump(table, agent, u, bump)
  {
    if IsBump(table, agent, t, bump) { SameBumpOneWay(table, agent, t, u, bump); }
    if IsBump(table, agent, u, bump) { SameBumpOneWay(table, agent, u, t, bump); }
  }

  lemma SameBumpOneWay(table: Table, agent: string, t: nat, u: nat, bump: nat)
    requires SameActive(table, agent, t, u) && IsBump(table, agent, t, bump)
    ensures IsBump(table, agent, u, bump)
  {
    forall id | id in table && Active(table[id], agent, u) ensures table[id].rank <= bump {
      assert Active(table[id], agent, t);
    }
    if bump > 0 {
      var id :| id in table && Active(table[id], agent, t) && table[id].rank == bump;
      assert Active(table[id], agent, u);
    }
  }

  // ------------------------------------------------------------------ the list is right for its whole TTL

  /** As long as the grant table stands, the agent's bump, and with it the list of tools, is at every
      moment of the time-to-live what it was when the list was built. */
  lemma ListRightForItsTtl(table: Table, catalog: Catalog, index: Index, who: Principal, backends: seq<string>,
                           now: Millis, rem: nat, ttl: nat, t: nat, later: nat)
    requires IsShortest(table, who.agentId, now, rem) && ttl <= rem <= NEVER
    requires IsBump(table, who.agentId, now, who.grantBump)
    requires now <= t < now + ttl && IsBump(table, who.agentId, t, later)
    ensures later == who.grantBump
    ensures Listed(catalog, index, who.(grantBump := later), backends) == Listed(catalog, index, who, backends)
  {
    if rem < NEVER {
      ActiveUntilShortest(table, who.agentId, now, rem, t);
    }
    assert SameActive(table, who.agentId, now, t);
    SameBump(table, who.agentId, now, t, who.grantBump);
    BumpUnique(table, who.agentId, t, later, who.grantBump);
  }

  // ------------------------------------------------------------------ a list built on an older bump

  /** A backend that the principal sees with the bump it was authenticated with, and not with the bump `low`. */
  predicate Lost(catalog: Catalog, who: Principal, low: nat, backend: string) {
    && backend != BUILTIN && backend in catalog && who.hasLevel
    && who.level < catalog[backend].level && low < catalog[backend].level <= who.grantBump
  }

  lemma LostDecides(catalog: Catalog, who: Principal, low: nat, key: ToolKey)
    requires low <= who.grantBump
    ensures (Authorize(catalog, who.(grantBump := low), key) == Allow)
            == (Authorize(catalog, who, key) == Allow && !Lost(catalog, who, low, key.backend))
  {
  }

  /** Either all of one backend's tools go, or none does. */
  lemma {:induction false} LosesAllOrNone(catalog: Catalog, who: Principal, low: nat, backend: string,
                                          tools: seq<string>)
    requires low <= who.grantBump
    ensures VisibleOf(catalog, who.(grantBump := low), backend, tools)
         == if Lost(catalog, who, low, backend) then [] else VisibleOf(catalog, who, backend, tools)
    ensures Lost(catalog, who, low, backend) ==> |VisibleOf(catalog, who, backend, tools)| == |tools|
  {
    if tools != [] {
      LostDecides(catalog, who, low, ToolKey(backend, tools[0]));
      LosesAllOrNone(catalog, who, low, backend, tools[1..]);
    }
  }

  predicate LosesOne(catalog: Catalog, index: Index, who: Principal, low: nat, backends: seq<string>) {
    exists b :: b in backends && b in index && index[b] != [] && Lost(catalog, who, low, b)
  }

  lemma {:induction false} LosesTools(catalog: Catalog, index: Index, who: Principal, low: nat, backends: seq<string>)
    requires low <= who.grantBump
    ensures var was, left := VisibleIn(catalog, index, who, backends),
                             VisibleIn(catalog, index, who.(grantBump := low), backends);
            && |left| <= |was|
            && (LosesOne(catalog, index, who, low, backends) ==> |left| < |was|)
            && (!LosesOne(catalog, index, who, low, backends) ==> left == was)
  {
    if backends != [] {
      var b, rest := backends[0], backends[1..];
      LosesTools(catalog, index, who, low, rest);
      assert LosesOne(catalog, index, who, low, backends)
        <==> (b in index && index[b] != [] && Lost(catalog, who, low, b)) || LosesOne(catalog, index, who, low, rest);
      if b in index { LosesAllOrNone(catalog, who, low, b, index[b]); }
    }
  }

  /** Exactly then the list is another one. */
  lemma ListChanges(catalog: Catalog, index: Index, who: Principal, low: nat, backends: seq<string>)
    requires low <= who.grantBump
    ensures Listed(catalog, index, who.(grantBump := low), backends) != Listed(catalog, index, who, backends)
            <==> LosesOne(catalog, index, who, low, backends)
  {
    LosesTools(catalog, index, who, low, backends);
    LosesAllOrNone(catalog, who, low, BUILTIN, [ELEVATION, STATUS]);
  }

  lemma BumpFalls(table: Table, agent: string, t: nat, u: nat, bump: nat, low: nat)
    requires t <= u && IsBump(table, agent, t, bump) && IsBump(table, agent, u, low)
    ensures low <= bump
  {
    if low > 0 {
      var id :| id in table && Active(table[id], agent, u) && table[id].rank == low;
      assert Active(table[id], agent, t);
    }
  }

  /** The principal's bump is read at authentication, the time-to-live a little later, at `now`. The list is
      right for its whole time-to-live if and only if no listed backend lies above what the principal has with
      the grants that still run at `now`, and not above what it had at authentication. */
  lemma StaleBump(table: Table, catalog: Catalog, index: Index, who: Principal, backends: seq<string>,
                  auth: Millis, now: Millis, rem: nat, ttl: nat, low: nat)
    requires auth <= now && IsBump(table, who.agentId, auth, who.grantBump) && IsBump(table, who.agentId, now, low)
    requires IsShortest(table, who.agentId, now, rem) && 0 < ttl <= rem <= NEVER
    ensures (forall t, later :: now <= t < now + ttl && IsBump(table, who.agentId, t, later) ==>
               Listed(catalog, index, who.(grantBump := later), backends) == Listed(catalog, index, who, backends))
            <==> !LosesOne(catalog, index, who, low, backends)
  {
    var lowered := who.(grantBump := low);
    BumpFalls(table, who.agentId, auth, now, who.grantBump, low);
    ListChanges(catalog, index, who, low, backends);
    forall t, later | now <= t < now + ttl && IsBump(table, who.agentId, t, later)
      ensures later == low
    {
      ListRightForItsTtl(table, catalog, index, lowered, backends, now, rem, ttl, t, later);
    }
    assert now <= now < now + ttl;
  }

  /** The gap is real: a grant that ends between the two readings leaves a list with a tool that the
      principal may no longer call, and a positive time-to-live. */
  lemma StaleListExample()
    ensures var table: Table := map["g" := Grant("bot", 2, Approved, 100)];
            var catalog: Catalog := map["db" := Meta(2, false, [])];
            var index: Index := map["db" := ["drop"]];
            var who := Principal("bot", 0, 2, true, false);
            && IsBump(table, "bot", 99, who.grantBump)
            && IsBump(table, "bot", 100, 0) && IsShortest(table, "bot", 100, NEVER)
            && "db__drop" in Listed(catalog, index, who, ["db"])
            && "db__drop" !in VisibleIn(catalog, index, who.(grantBump := 0), ["db"])
  {
    var table: Table := map["g" := Grant("bot", 2, Approved, 100)];
    var catalog: Catalog := map["db" := Meta(2, false, [])];
    var index: Index := map["db" := ["drop"]];
    var who := Principal("bot", 0, 2, true, false);
    assert "g" in table && Active(table["g"], "bot", 99);
    var k := ToolKey("db", "drop");
    assert Str(k) == "db__drop" && Indexed(index, k) && k.backend in ["db"];
    VisibleInMembers(catalog, index, who, ["db"], "db__drop");
    VisibleInMembers(catalog, index, who.(grantBump := 0), ["db"], "db__drop");
    assert forall x :: Authorize(catalog, who.(grantBump := 0), x) == Allow ==> x.backend == BUILTIN;
  }
}
