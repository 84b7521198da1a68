/** Who may see and call what: rank comparison, the built-in tools, and the projected list
    (include/perfacet/ir/Request.h, src/policy/RankPolicy.cpp, src/catalog/FacetView.cpp). */
module Access {
  import opened Options
  import opened ToolKeys

  datatype Principal =
    Principal(agentId: string, level: nat, grantBump: nat, hasLevel: bool, admin: bool)

  datatype Meta = Meta(level: nat, secret: bool, idempotentTools: seq<string>)

  type Catalog = map<string, Meta>

  /** Tool names per backend, as last listed by the upstream. */
  type Index = map<string, seq<string>>

  datatype Decision = Allow | Deny | Unknown

  const BUILTIN := "perfacet"
  const ELEVATION := "request_elevation"
  const STATUS := "upstream_status"

  function EffectiveRank(who: Principal): nat {
    if who.level > who.grantBump then who.level else who.grantBump
  }

  function BuiltinDecision(who: Principal, key: ToolKey): Decision {
    if key.tool == ELEVATION then (if who.hasLevel then Allow else Deny)
    else if key.tool == STATUS then (if who.admin then Allow else Deny)
    else if who.admin then Allow else Unknown
  }

  function Authorize(catalog: Catalog, who: Principal, key: ToolKey): Decision {
    if key.backend == BUILTIN then BuiltinDecision(who, key)
    else if key.backend !in catalog then Unknown
    else if !who.hasLevel then Deny
    else if EffectiveRank(who) < catalog[key.backend].level then
      if catalog[key.backend].secret then Unknown else Deny
    else Allow
  }

  /** Who may use a tool: a built-in one needs a level, or the admin right; an upstream one needs a backend
      whose level is within the principal's own level, or within the rank of its grants. */
  predicate MayUse(catalog: Catalog, who: Principal, key: ToolKey) {
    if key.backend == BUILTIN then if key.tool == ELEVATION then who.hasLevel else who.admin
    else
      && key.backend in catalog && who.hasLevel
      && (catalog[key.backend].level <= who.level || catalog[key.backend].level <= who.grantBump)
  }

  /** Who must not even learn that there is such a tool. */
  predicate MustNotKnow(catalog: Catalog, who: Principal, key: ToolKey) {
    if key.backend == BUILTIN then key.tool != ELEVATION && key.tool != STATUS && !who.admin
    else
      || key.backend !in catalog
      || (who.hasLevel && catalog[key.backend].secret
          && who.level < catalog[key.backend].level && who.grantBump < catalog[key.backend].level)
  }

  /** The three answers of the policy, each with its exact condition. */
  lemma DecidedExactly(catalog: Catalog, who: Principal, key: ToolKey)
    ensures Authorize(catalog, who, key).Allow? <==> MayUse(catalog, who, key)
    ensures Authorize(catalog, who, key).Unknown? <==> MustNotKnow(catalog, who, key)
    ensures !(MayUse(catalog, who, key) && MustNotKnow(catalog, who, key))
  {
  }

  // ------------------------------------------------------------------ the projected list

  predicate Indexed(index: Index, key: ToolKey) {
    key.backend in index && key.tool in index[key.backend]
  }

  /** Names of the visible tools of one backend, in listing order. */
  function VisibleOf(catalog: Catalog, who: Principal, backend: string, tools: seq<string>): seq<string> {
    if tools == [] then []
    else
      var k := ToolKey(backend, tools[0]);
      (if Authorize(catalog, who, k) == Allow then [Str(k)] else [])
      + VisibleOf(catalog, who, backend, tools[1..])
  }

  function VisibleIn(catalog: Catalog, index: Index, who: Principal, backends: seq<string>): seq<string> {
    if backends == [] then []
    else
      (if backends[0] in index then VisibleOf(catalog, who, backends[0], index[backends[0]]) else [])
      + VisibleIn(catalog, index, who, backends[1..])
  }

  function Listed(catalog: Catalog, index: Index, who: Principal, backends: seq<string>): seq<string> {
    VisibleIn(catalog, index, who, backends) + VisibleOf(catalog, who, BUILTIN, [ELEVATION, STATUS])
  }

  /** The inner loop of listTools: push the visible tools of one backend. */
  method PushVisible(catalog: Catalog, who: Principal, backend: string, tools: seq<string>, listed: seq<string>)
    returns (names: seq<string>)
    ensures names == listed + VisibleOf(catalog, who, backend, tools)
  {
    names := listed;
    var j := 0;
    while j < |tools|
      invariant 0 <= j <= |tools|
      invariant names + VisibleOf(catalog, who, backend, tools[j..])
             == listed + VisibleOf(catalog, who, backend, tools)
    {
      assert tools[j..][1..] == tools[j + 1..];
      ghost var rest := VisibleOf(catalog, who, backend, tools[j + 1..]);
      ghost var before := names;
      var k := ToolKey(backend, tools[j]);
      if Authorize(catalog, who, k) == Allow {
        names := names + [Str(k)];
        assert names + rest == before + ([Str(k)] + rest);
      } else {
        assert [] + rest == rest;
      }
      j := j + 1;
    }
    assert names + [] == names;
  }

  /** listTools; `backends` is the iteration order of the index. */
  method ListTools(catalog: Catalog, index: Index, who: Principal, backends: seq<string>)
    returns (names: seq<string>)
    ensures names == Listed(catalog, index, who, backends)
  {
    names := [];
    var i := 0;
    while i < |backends|
      invariant 0 <= i <= |backends|
      invariant names + VisibleIn(catalog, index, who, backends[i..])
             == VisibleIn(catalog, index, who, backends)
    {
      assert backends[i..][1..] == backends[i + 1..];
      ghost var rest := VisibleIn(catalog, index, who, backends[i + 1..]);
      ghost var before := names;
      var b := backends[i];
      if b in index {
        names := PushVisible(catalog, who, b, index[b], names);
        assert names + rest == before + (VisibleOf(catalog, who, b, index[b]) + rest);
      } else {
        assert [] + rest == rest;
      }
      i := i + 1;
    }
    assert names + [] == names;
    names := PushVisible(catalog, who, BUILTIN, [ELEVATION, STATUS], names);
  }

  lemma {:induction false} VisibleOfMembers(catalog: Catalog, who: Principal, backend: string,
                                            tools: seq<string>, name: string)
    ensures name in VisibleOf(catalog, who, backend, tools) <==>
            exists t :: t in tools && name == Str(ToolKey(backend, t))
                        && Authorize(catalog, who, ToolKey(backend, t)) == Allow
  {
    if tools != [] {
      VisibleOfMembers(catalog, who, backend, tools[1..], name);
      assert forall t :: t in tools <==> t == tools[0] || t in tools[1..];
    }
  }

  lemma {:induction false} VisibleInMembers(catalog: Catalog, index: Index, who: Principal,
                                            backends: seq<string>, name: string)
    ensures name in VisibleIn(catalog, index, who, backends) <==>
            exists k: ToolKey :: k.backend in backends && Indexed(index, k) && name == Str(k)
                        && Authorize(catalog, who, k) == Allow
  {
    if backends != [] {
      var b, rest := backends[0], backends[1..];
      VisibleInMembers(catalog, index, who, rest, name);
      assert forall x :: x in backends <==> x == b || x in rest;
      if b in index {
        VisibleOfMembers(catalog, who, b, index[b], name);
        if t :| t in index[b] && name == Str(ToolKey(b, t))
                && Authorize(catalog, who, ToolKey(b, t)) == Allow {
          assert Indexed(index, ToolKey(b, t));
        }
      }
      if k: ToolKey :| (k.backend in backends && Indexed(index, k) && name == Str(k)
                        && Authorize(catalog, who, k) == Allow) {
        if k.backend == b { assert k == ToolKey(b, k.tool); }
      }
    }
  }

  /** Of a backend that the principal may use, every tool is listed, by its full name and in order; of any
      other backend, none. */
  lemma {:induction false} VisibleOfExactly(catalog: Catalog, who: Principal, backend: string, tools: seq<string>)
    requires backend != BUILTIN
    ensures VisibleOf(catalog, who, backend, tools)
         == if MayUse(catalog, who, ToolKey(backend, ""))
            then seq(|tools|, i requires 0 <= i < |tools| => Str(ToolKey(backend, tools[i]))) else []
  {
    if tools != [] {
      VisibleOfExactly(catalog, who, backend, tools[1..]);
    }
  }

  /** A name is listed exactly when it is that of an indexed tool the principal may use. */
  lemma ListedExactly(catalog: Catalog, index: Index, who: Principal, backends: seq<string>, name: string)
    ensures name in VisibleIn(catalog, index, who, backends) <==>
            exists k: ToolKey :: k.backend in backends && Indexed(index, k) && name == Str(k)
                                 && MayUse(catalog, who, k)
  {
    VisibleInMembers(catalog, index, who, backends, name);
    forall k: ToolKey ensures Authorize(catalog, who, k) == Allow <==> MayUse(catalog, who, k) {
      DecidedExactly(catalog, who, k);
    }
  }

  /** The list ends with the built-in tools the principal may use. */
  lemma BuiltinsListed(catalog: Catalog, index: Index, who: Principal, backends: seq<string>)
    ensures Listed(catalog, index, who, backends)
         == VisibleIn(catalog, index, who, backends)
            + ((if who.hasLevel then [Str(ToolKey("perfacet", "request_elevation"))] else [])
               + (if who.admin then [Str(ToolKey("perfacet", "upstream_status"))] else []))
  {
    var last := VisibleOf(catalog, who, BUILTIN, [STATUS]);
    assert [ELEVATION, STATUS][1..] == [STATUS];
    assert VisibleOf(catalog, who, BUILTIN, [STATUS][1..]) == [];
    assert last == if who.admin then [Str(ToolKey(BUILTIN, STATUS))] else [];
  }

  /** Whether sending `name` back as a tools/call gets past the first two steps of handleCall as `k`. */
  predicate Callable(catalog: Catalog, who: Principal, name: string, k: ToolKey) {
    Parse(name) == Some(k) && Authorize(catalog, who, k) == Allow
  }

  /** List and call agree: a business name is listed exactly when it names an indexed tool and a call
      with that very name resolves to that tool and is allowed. The condition is on the backends that
      are indexed: addressable names, and tools that are not empty. */
  lemma ListCallAgree(catalog: Catalog, index: Index, who: Principal, backends: seq<string>, name: string)
    requires forall b :: b in backends <==> b in index
    requires forall b :: b in index ==> Addressable(b) && "" !in index[b]
    ensures name in VisibleIn(catalog, index, who, backends) <==>
            exists k :: Indexed(index, k) && Callable(catalog, who, name, k)
  {
    VisibleInMembers(catalog, index, who, backends, name);
    forall k | Indexed(index, k)
      ensures Parse(Str(k)) == Some(k)
    {
      ParseStr(k);
    }
    if k :| Indexed(index, k) && name == Str(k) && Authorize(catalog, who, k) == Allow {
      assert Callable(catalog, who, name, k);
    }
  }

  /** Without an addressable backend the agreement breaks: the tool is listed, and the very name that
      was listed is refused as unknown. */
  lemma ListedButNotCallable()
    ensures var catalog: Catalog := map["a_" := Meta(0, false, [])];
            var index: Index := map["a_" := ["t"]];
            var who := Principal("bot", 0, 0, true, false);
            "a___t" in Listed(catalog, index, who, ["a_"])
            && Parse("a___t") == Some(ToolKey("a", "_t"))
            && Authorize(catalog, who, ToolKey("a", "_t")) == Unknown
  {
    TrailingUnderscoreMisparses();
    var catalog: Catalog := map["a_" := Meta(0, false, [])];
    var index: Index := map["a_" := ["t"]];
    var who := Principal("bot", 0, 0, true, false);
    var k := ToolKey("a_", "t");
    assert Str(k) == "a___t";
    assert Authorize(catalog, who, k) == Allow;
    VisibleInMembers(catalog, index, who, ["a_"], "a___t");
    assert k.backend in ["a_"] && Indexed(index, k);
  }

  /** The backend gives no sign of its existence to this principal. */
  predicate Hidden(catalog: Catalog, who: Principal, backend: string) {
    || backend == BUILTIN
    || backend !in catalog
    || (who.hasLevel && catalog[backend].secret
        && who.level < catalog[backend].level && who.grantBump < catalog[backend].level)
  }

  /** Secrecy with its exact condition: taking a backend out of the catalogue leaves every decision for
      this principal unchanged if and only if the backend is hidden from it. */
  lemma HiddenBackendLeavesNoTrace(catalog: Catalog, who: Principal, backend: string)
    ensures (forall k :: Authorize(catalog - {backend}, who, k) == Authorize(catalog, who, k))
            <==> Hidden(catalog, who, backend)
  {
    if !Hidden(catalog, who, backend) {
      var k := ToolKey(backend, "t");
      assert Authorize(catalog - {backend}, who, k) != Authorize(catalog, who, k);
    }
  }

  /** Taking a hidden upstream backend out of the catalogue, and out of the index as well, changes
      nothing in the list, name by name and in order. */
  lemma {:induction false} HiddenBackendNotListed(catalog: Catalog, index: Index, who: Principal,
                                                  backends: seq<string>, hidden: string)
    requires Hidden(catalog, who, hidden) && hidden != BUILTIN
    ensures VisibleIn(catalog - {hidden}, index - {hidden}, who, backends)
         == VisibleIn(catalog, index, who, backends)
    ensures VisibleIn(catalog - {hidden}, index, who, backends)
         == VisibleIn(catalog, index, who, backends)
    ensures Listed(catalog - {hidden}, index - {hidden}, who, backends)
         == Listed(catalog, index, who, backends)
  {
    HiddenBackendLeavesNoTrace(catalog, who, hidden);
    VisibleOfSame(catalog, catalog - {hidden}, who, BUILTIN, [ELEVATION, STATUS]);
    if backends != [] {
      HiddenBackendNotListed(catalog, index, who, backends[1..], hidden);
      var b := backends[0];
      if b in index {
        VisibleOfSame(catalog, catalog - {hidden}, who, b, index[b]);
        if b == hidden {
          VisibleOfNone(catalog, who, b, index[b]);
        }
      }
    }
  }

  lemma {:induction false} VisibleOfSame(c1: Catalog, c2: Catalog, who: Principal, backend: string,
                                         tools: seq<string>)
    requires forall k :: Authorize(c1, who, k) == Authorize(c2, who, k)
    ensures VisibleOf(c1, who, backend, tools) == VisibleOf(c2, who, backend, tools)
  {
    if tools != [] { VisibleOfSame(c1, c2, who, backend, tools[1..]); }
  }

  lemma {:induction false} VisibleOfNone(catalog: Catalog, who: Principal, backend: string, tools: seq<string>)
    requires forall t :: Authorize(catalog, who, ToolKey(backend, t)) != Allow
    ensures VisibleOf(catalog, who, backend, tools) == []
  {
    if tools != [] { VisibleOfNone(catalog, who, backend, tools[1..]); }
  }
}
