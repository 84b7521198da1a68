/** Runs in which a completed task is cancelled after all, by its owner and by requestStop. */
module EngineOutcomeRuns {
  import opened Options
  import opened Engine
  import opened EngineTurns
  import opened EngineFifoRuns
  import opened EngineHistory
  import opened EngineOutcomes
  import Tasks
  import Retry

  const PROMOTE := Turn(Promote(0), NOW)
  const STOP := Turn(Stop([0], []), NOW)

  function CancelBy(agent: string): Turn {
    Turn(TaskCancel(1, agent), NOW)
  }

  /** The call has become task 1, and its answer is still to come. */
  predicate Promoted(s: St, agent: string) {
    && s.live == {0} && s.gov.queues == map[] && s.byTask == map[1 := 0]
    && 1 in s.tasks && s.tasks[1].agent == agent && s.tasks[1].status.Working? && !Tasks.Expired(s.tasks[1], 0)
    && 0 in s.calls
    && var c := s.calls[0];
    c.taskId == Some(1) && c.outstanding == 1 && c.attempt == 1 && !c.cancelled
  }

  lemma PromoteIs(s: St, agent: string)
    requires Busy(s, agent) && Unpromoted(s)
    ensures Promoted(Step(ONE_EACH, s, PROMOTE.event, NOW), agent)
  {
    var task := Engine.NewTask(ONE_EACH, agent, X, s.calls[0].startedAt, 0);
    var s1 := AddTask(ONE_EACH, s, task, 0);
    assert Tasks.Sweep(s.tasks, 0) == map[];
    assert s1.tasks == map[1 := task];
    assert OnPromote(ONE_EACH, s, 0, 0) == PromoteTo(AttachTask(s1, 0, 1), 0, 1, 0);
  }

  /** The answer is in, and the call object is still there. */
  predicate Done(s: St, agent: string) {
    && s.live == {0} && s.gov.queues == map[] && s.byTask == map[1 := 0]
    && 1 in s.tasks && s.tasks[1].agent == agent && s.tasks[1].status.Completed? && !Tasks.Expired(s.tasks[1], 0)
  }

  lemma AnswerCompletes(s: St, agent: string)
    requires Promoted(s, agent)
    ensures Done(Step(ONE_EACH, s, ANSWER.event, NOW), agent)
  {
    OnUpstreamIs(ONE_EACH, s, 0, Retry.Ok, false, 0);
    ConcludedIs(Judged(ONE_EACH, s, 0, Retry.Ok, false, 0), 0, Retry.Ok, false, 0);
  }

  lemma Completed(agent: string)
    ensures Done(Run(ONE_EACH, [Ask(agent, X)] + [PROMOTE] + [ANSWER]), agent)
  {
    assert [] + [Ask(agent, X)] == [Ask(agent, X)];
    assert Run(ONE_EACH, []) == Init(ONE_EACH);
    RunMore([], Ask(agent, X));
    FirstCall(agent);
    RunMore([Ask(agent, X)], PROMOTE);
    PromoteIs(Run(ONE_EACH, [Ask(agent, X)]), agent);
    RunMore([Ask(agent, X)] + [PROMOTE], ANSWER);
    AnswerCompletes(Run(ONE_EACH, [Ask(agent, X)] + [PROMOTE]), agent);
  }

  /** A completed task, cancelled by its owner; and the same one, cancelled by a stop that comes while the
      finished call is not destroyed yet. */
  lemma CompletedIsCancelled(agent: string)
    ensures var done := [Ask(agent, X)] + [PROMOTE] + [ANSWER];
            var s, byOwner, byStop := Run(ONE_EACH, done), Run(ONE_EACH, done + [CancelBy(agent)]),
                                      Run(ONE_EACH, done + [STOP]);
            && 1 in s.tasks && s.tasks[1].status.Completed?
            && 1 in byOwner.tasks && byOwner.tasks[1].status.Cancelled?
            && Enabled(s, STOP.event) && 1 in byStop.tasks && byStop.tasks[1].status.Cancelled?
  {
    var done := [Ask(agent, X)] + [PROMOTE] + [ANSWER];
    var s := Run(ONE_EACH, done);
    Completed(agent);
    RunMore(done, CancelBy(agent));
    RunMore(done, STOP);
    CancelOverwrites(ONE_EACH, done, 1, NOW);
    RunInv(ONE_EACH, false, done);
    StopTasks(ONE_EACH, s, STOP.event, NOW, 1);
  }
}
