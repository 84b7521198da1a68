/** The in-memory task table: bounded, and swept of expired tasks by every operation
    (src/task/MemTaskStore.cpp, include/perfacet/task/Task.h). */
module Tasks {
  import opened Options
  import opened ToolKeys

  datatype Status = Working | Completed | Failed | Cancelled

  datatype Task =
    Task(agent: string, key: ToolKey, status: Status, createdAt: nat, updatedAt: nat, ttl: nat)

  type Store = map<nat, Task>

  predicate Expired(t: Task, now: nat) {
    t.ttl > 0 && now >= t.createdAt + t.ttl
  }

  function Sweep(m: Store, now: nat): Store {
    map id | id in m && !Expired(m[id], now) :: m[id]
  }

  predicate HasRoom(m: Store, maxTasks: nat, id: nat, now: nat) {
    |Sweep(m, now)| < maxTasks || id in Sweep(m, now)
  }

  function Insert(m: Store, maxTasks: nat, id: nat, t: Task, now: nat): Store {
    if HasRoom(m, maxTasks, id, now) then Sweep(m, now)[id := t] else Sweep(m, now)
  }

  function Find(m: Store, id: nat, now: nat): Option<Task> {
    if id in Sweep(m, now) then Some(m[id]) else None
  }

  function SetStatus(m: Store, id: nat, status: Status, now: nat): Store {
    var swept := Sweep(m, now);
    if id in swept then swept[id := swept[id].(status := status, updatedAt := now)] else swept
  }

  class MemTaskStore {
    const maxTasks: nat
    var byId: Store

    constructor (maxTasks: nat)
      ensures this.maxTasks == (if maxTasks == 0 then 1 else maxTasks) && byId == map[]
    {
      this.maxTasks := if maxTasks == 0 then 1 else maxTasks;
      byId := map[];
    }

    /** Erases while iterating; the order of iteration does not matter. */
    method SweepExpired(now: nat)
      modifies this
      ensures byId == Sweep(old(byId), now)
    {
      var todo := byId.Keys;
      while todo != {}
        invariant todo <= old(byId).Keys
        invariant byId == map id | id in old(byId) && (id in todo || !Expired(old(byId)[id], now)) :: old(byId)[id]
        decreases todo
      {
        var id :| id in todo;
        todo := todo - {id};
        if Expired(byId[id], now) {
          byId := byId - {id};
        }
      }
    }

    method Add(id: nat, t: Task, now: nat) returns (ok: bool)
      modifies this
      ensures ok == HasRoom(old(byId), maxTasks, id, now)
      ensures byId == Insert(old(byId), maxTasks, id, t, now)
    {
      SweepExpired(now);
      if |byId| >= maxTasks && id !in byId { return false; }
      byId := byId[id := t];
      return true;
    }

    method Get(id: nat, now: nat) returns (t: Option<Task>)
      modifies this
      ensures byId == Sweep(old(byId), now)
      ensures t == Find(old(byId), id, now)
    {
      SweepExpired(now);
      if id !in byId { return None; }
      return Some(byId[id]);
    }

    method UpdateStatus(id: nat, status: Status, now: nat)
      modifies this
      ensures byId == SetStatus(old(byId), id, status, now)
    {
      SweepExpired(now);
      if id !in byId { return; }
      var t := byId[id];
      t := t.(status := status);
      t := t.(updatedAt := now);
      byId := byId[id := t];
    }
  }

  /** A task lives until its time is over, counted from its creation; without a time to live, for ever. */
  predicate Alive(t: Task, now: nat) {
    t.ttl == 0 || now < t.createdAt + t.ttl
  }

  function AliveIds(m: Store, now: nat): set<nat> {
    set id | id in m && Alive(m[id], now)
  }

  /** What any operation at `now` leaves of the tasks of before: those that are alive, and no others; and what
      it does to its own: a new one is stored exactly when the living ones leave room for it. */
  lemma LivesExactly(m: Store, maxTasks: nat, id: nat, t: Task, status: Status, now: nat, x: nat)
    ensures x in Sweep(m, now) <==> x in m && Alive(m[x], now)
    ensures Find(m, x, now) == if x in m && Alive(m[x], now) then Some(m[x]) else None
    ensures x in SetStatus(m, id, status, now) <==> x in m && Alive(m[x], now)
    ensures x != id ==> (x in Insert(m, maxTasks, id, t, now) <==> x in m && Alive(m[x], now))
    ensures x != id && x in m && Alive(m[x], now) ==>
              Insert(m, maxTasks, id, t, now)[x] == SetStatus(m, id, status, now)[x] == m[x]
    ensures x == id && x in m && Alive(m[x], now) ==>
              SetStatus(m, id, status, now)[x] == m[x].(status := status, updatedAt := now)
    ensures id !in m ==> (id in Insert(m, maxTasks, id, t, now) <==> |AliveIds(m, now)| < maxTasks)
    ensures id !in m && |AliveIds(m, now)| < maxTasks ==> Insert(m, maxTasks, id, t, now)[id] == t
  {
    assert Sweep(m, now).Keys == AliveIds(m, now);
  }

  lemma SweepShrinks(m: Store, now: nat)
    ensures |Sweep(m, now)| <= |m|
  {
    assert Sweep(m, now).Keys <= m.Keys;
    var gone := m.Keys - Sweep(m, now).Keys;
    assert m.Keys == Sweep(m, now).Keys + gone;
  }

  lemma SizeWith(m: Store, id: nat, t: Task)
    ensures |m[id := t]| == |m| + if id in m then 0 else 1
  {
    assert m[id := t].Keys == m.Keys + {id};
  }

  lemma InsertBounded(m: Store, maxTasks: nat, id: nat, t: Task, now: nat)
    requires |m| <= maxTasks
    ensures |Insert(m, maxTasks, id, t, now)| <= maxTasks
  {
    SweepShrinks(m, now);
    SizeWith(Sweep(m, now), id, t);
  }

  lemma SetStatusBounded(m: Store, id: nat, status: Status, now: nat)
    ensures |SetStatus(m, id, status, now)| <= |m|
  {
    SweepShrinks(m, now);
    assert SetStatus(m, id, status, now).Keys == Sweep(m, now).Keys;
  }

  /** No operation takes the table over its bound, whatever time it is called at. */
  lemma BoundKept(m: Store, maxTasks: nat, id: nat, t: Task, status: Status, now: nat)
    requires |m| <= maxTasks
    ensures |Insert(m, maxTasks, id, t, now)| <= maxTasks
    ensures |SetStatus(m, id, status, now)| <= maxTasks
    ensures |Sweep(m, now)| <= maxTasks
  {
    InsertBounded(m, maxTasks, id, t, now);
    SetStatusBounded(m, id, status, now);
    SweepShrinks(m, now);
  }
}
