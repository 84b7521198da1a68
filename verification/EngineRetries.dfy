/** When an answer is followed by another attempt, told from the log and the configuration
    (src/pipeline/Pipeline.cpp:567-595, src/health/RetryPolicy.cpp:11-34). */
module EngineRetries {
  import opened Engine
  import opened EngineInvariant
  import opened EngineMoves
  import opened EngineKeeps
  import opened EngineTurns
  import EngineHistory
  import Circuit
  import Retry

  /** The answer may be tried again: nobody was answered or has cancelled, its class is on the one list and not on
      the other and is no timeout, attempts and time are left, and the breaker is not open. */
  predicate MayFireAgain(cfg: Config, s: St, id: nat, klass: Retry.Klass, now: nat)
    requires id in s.calls
  {
    var c := s.calls[id];
    && !c.responded && !c.cancelled
    && klass in cfg.retry.retryable && klass !in cfg.retry.never && klass != Retry.Timeout
    && FiredCount(s.log, id) < cfg.retry.maxAttempts
    && (c.req.deadline == 0 || now < c.req.deadline)
    && !(c.key.backend in s.slots && s.slots[c.key.backend].st == Circuit.Open
         && now < s.slots[c.key.backend].openUntil)
  }

  lemma RetriesExactly(cfg: Config, s: St, id: nat, klass: Retry.Klass, now: nat)
    requires id in s.calls && s.calls[id].outstanding > 0 && FiredCount(s.log, id) == s.calls[id].attempt
    ensures RetriesOn(cfg, s, id, klass, now) <==> MayFireAgain(cfg, s, id, klass, now)
  {
  }

  /** The log of a turn in which an answer came in. */
  lemma AnswerLogged(cfg: Config, s: St, id: nat, klass: Retry.Klass, isError: bool, now: nat)
    requires id in s.calls && s.calls[id].outstanding > 0
    ensures var c, t := s.calls[id], OnUpstream(cfg, s, id, klass, isError, now);
            t.log == s.log + [Returned(id, klass)]
                     + if c.cancelled then []
                       else if RetriesOn(cfg, s, id, klass, now) then [Fired(id, c.req)]
                       else if c.responded then []
                       else [Replied(c.req, Result(klass, isError))]
  {
    if !s.calls[id].cancelled {
      OnUpstreamIs(cfg, s, id, klass, isError, now);
      var s1 := Judged(cfg, s, id, klass, isError, now);
      ConcludedIs(s1, id, klass, isError, now);
    }
  }

  /** In every run an answer is followed by a further attempt in its turn if and only if it may be; if not, the
      request gets its result, unless it was answered or cancelled before. */
  lemma RetriedExactly(cfg: Config, turns: seq<Turn>, id: nat, klass: Retry.Klass, isError: bool, env: Env)
    requires Enabled(Run(cfg, turns), Upstream(id, klass, isError))
    ensures var s := Run(cfg, turns);
            var t, c := Step(cfg, s, Upstream(id, klass, isError), env), s.calls[id];
            t.log == s.log + [Returned(id, klass)]
                     + if MayFireAgain(cfg, s, id, klass, env.now) then [Fired(id, c.req)]
                       else if c.cancelled || c.responded then []
                       else [Replied(c.req, Result(klass, isError))]
  {
    var s := Run(cfg, turns);
    RunInv(cfg, false, turns);
    EngineHistory.UpstreamIs(cfg, s, id, klass, isError, env);
    AttemptsCounted(cfg, s, id);
    RetriesExactly(cfg, s, id, klass, env.now);
    AnswerLogged(cfg, s, id, klass, isError, env.now);
  }

  lemma AttemptsCounted(cfg: Config, s: St, id: nat)
    requires AttemptsOf(cfg, Idle(s, false)) && id in s.calls
    ensures FiredCount(s.log, id) == s.calls[id].attempt
  {
  }

  // ------------------------------------------------------------------ and at no other time

  const UNRETRIED: set<Kind> := ALL - {Again}

  ghost predicate NoFurther(s: St, t: St) {
    && s.nextId <= t.nextId
    && forall id: nat :: id < s.nextId ==> FiredCount(t.log, id) == FiredCount(s.log, id)
  }

  lemma NoneFired(log: seq<Action>, later: seq<Action>, n: nat)
    requires log <= later && |later| <= |log| + 2
    requires forall i :: |log| <= i < |later| && later[i].Fired? ==> later[i].id >= n
    ensures forall id: nat :: id < n ==> FiredCount(later, id) == FiredCount(log, id)
  {
    if |later| == |log| + 1 {
      assert later == log + [later[|log|]];
      AttemptsPush(log, later[|log|]);
    } else if later != log {
      assert later == log + [later[|log|]] + [later[|log| + 1]];
      AttemptsPush(log, later[|log|]);
      AttemptsPush(log + [later[|log|]], later[|log| + 1]);
    }
  }

  lemma NoFurtherOne(cfg: Config, m: Mach, v: Move)
    requires Valid(cfg, m, v) && KindOf(v) in UNRETRIED
    ensures NoFurther(m.s, Do(cfg, m, v).s)
  {
    NoneFired(m.s.log, LogAfter(cfg, m, v), m.s.nextId);
  }

  lemma NoFurtherClosed(cfg: Config)
    ensures Closed(cfg, (m: Mach, n: Mach) => NoFurther(m.s, n.s), UNRETRIED)
  {
    forall m, v | Valid(cfg, m, v) && KindOf(v) in UNRETRIED ensures NoFurther(m.s, Do(cfg, m, v).s) {
      NoFurtherOne(cfg, m, v);
    }
  }

  lemma UnretriedKinds(cfg: Config, s: St, e: Event)
    requires !e.Upstream?
    ensures TurnKinds(cfg, s, e) <= UNRETRIED
  {
  }

  /** A call that exists is sent again only in a turn in which an answer to it comes in. */
  lemma OnlyAnswersRetry(cfg: Config, turns: seq<Turn>, e: Event, env: Env, id: nat)
    requires id < Run(cfg, turns).nextId && !(e.Upstream? && e.id == id)
    ensures var s := Run(cfg, turns); FiredCount(Step(cfg, s, e, env).log, id) == FiredCount(s.log, id)
  {
    var s := Run(cfg, turns);
    RunInv(cfg, false, turns);
    if !e.Upstream? {
      var R := (m: Mach, n: Mach) => NoFurther(m.s, n.s);
      NoFurtherClosed(cfg);
      UnretriedKinds(cfg, s, e);
      StepTurn(cfg, R, UNRETRIED, false, s, e, env);
      assert R(Idle(s, false), Idle(Step(cfg, s, e, env), false));
    } else if Enabled(s, e) {
      OtherAnswer(cfg, s, e, env, id);
    }
  }

  lemma OtherAnswer(cfg: Config, s: St, e: Event, env: Env, id: nat)
    requires e.Upstream? && Enabled(s, e) && e.id != id
    ensures FiredCount(Step(cfg, s, e, env).log, id) == FiredCount(s.log, id)
  {
    EngineHistory.UpstreamIs(cfg, s, e.id, e.klass, e.isError, env);
    AnswerLogged(cfg, s, e.id, e.klass, e.isError, env.now);
    var log, c := s.log + [Returned(e.id, e.klass)], s.calls[e.id];
    AttemptsPush(s.log, Returned(e.id, e.klass));
    AttemptsPush(log, Fired(e.id, c.req));
    AttemptsPush(log, Replied(c.req, Result(e.klass, e.isError)));
    assert log + [] == log;
  }
}
