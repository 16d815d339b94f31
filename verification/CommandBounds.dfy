/** The agent's duplicate suppression put to use end to end: what the bounds of its cache buy the
    row and the browser, and what happens beyond them. */
module CommandBounds {
  import opened Prelude
  import opened Protocol
  import opened CommandPath
  import CA = CommandAgreement
  import D = DedupeCache
  import A = Dispatcher
  import CE = ChunkEmitter
  import R = CommandRow
  import ES = EventStream

  // ---- The start ----

  /** A new agent and a live row nobody was told about meet every hypothesis. */
  lemma StartMeets(w: Subject, now: int, row: R.Row)
    requires !R.Terminal(row.status)
    ensures
      var s := System(A.Start(now), [], R.Server(row, []), [], [], []);
      Inv(w, s) && Told(w, s) && Traced(w, s) && CA.ChunksTraced(w, s) && OneRun(w, s) && CA.Undelivered(s)
  {
    A.StartInv(w.lim, now);
  }

  // ---- The agent's part of a run ----

  function AgentSteps(steps: seq<Step>): seq<A.Step> {
    if steps == [] then []
    else (if steps[0].AgentStep? then [steps[0].s] else []) + AgentSteps(steps[1..])
  }

  lemma {:induction false} Projected(w: Subject, s: System, steps: seq<Step>)
    requires Legal(w, s, steps)
    ensures A.Legal(w.lim, s.agent, AgentSteps(steps))
    ensures A.Run(w.lim, s.agent, AgentSteps(steps)) == Run(w, s, steps).agent
    decreases |steps|
  {
    if steps != [] {
      Projected(w, Next(w, s, steps[0]), steps[1..]);
      if steps[0].AgentStep? {
        assert AgentSteps(steps)[1..] == AgentSteps(steps[1..]);
      } else {
        assert AgentSteps(steps) == AgentSteps(steps[1..]);
      }
    }
  }

  /** The bounds under which the cache remembers the id: it is not forgotten for a full queue,
      less than the ttl passes, and at most capacity - 2 other ids are recorded. */
  predicate WithinBounds(w: Subject, a: A.Agent, first: A.Step, steps: seq<A.Step>)
    requires first.Record? && A.Enabled(w.lim, a, first) && A.Legal(w.lim, A.Next(w.lim, a, first), steps)
  {
    var b := A.Next(w.lim, a, first);
    && A.NeverForgotten(w.lim, b, steps, w.id)
    && A.Run(w.lim, b, steps).now < first.stampAt + a.seen.ttl
    && |A.RecordedIds(w.lim, b, steps)| <= a.seen.capacity - 2
  }

  /** The id was neither refused nor used by a membership change. */
  predicate Unrefused(w: Subject, s: System) {
    forall x :: x in s.agent.sent && x.report.id == w.id ==> x.source != A.Refusal && x.source != A.ControlResult
  }

  /** From the first delivery of the command on, let messages be duplicated and everything
      interleave: within those bounds the command is executed at most once, a finished row stores
      the result of that one run, and a browser that has finished it shows the same status. */
  lemma WithinBoundsRowAndBrowserAgree(w: Subject, s: System, first: A.Step, steps: seq<Step>)
    requires Inv(w, s) && Told(w, s) && Traced(w, s)
    requires first.Record? && A.Enabled(w.lim, s.agent, first) && first.cmd.id == w.id
    requires w.id !in s.agent.seen.order && A.Chances(s.agent, w.id) == 0
    requires Legal(w, Next(w, s, AgentStep(first)), steps)
    requires NoDispatch(steps) && NoOverdue(w, Next(w, s, AgentStep(first)), steps)
    requires A.Legal(w.lim, A.Next(w.lim, s.agent, first), AgentSteps(steps))
    requires WithinBounds(w, s.agent, first, AgentSteps(steps))
    requires Unrefused(w, Run(w, Next(w, s, AgentStep(first)), steps))
    ensures
      var z := Run(w, Next(w, s, AgentStep(first)), steps);
      |z.runs| <= 1 && RowShowsTheRun(w, z) && BrowserAgrees(w, z)
  {
    var s1 := Next(w, s, AgentStep(first));
    StepInv(w, s, AgentStep(first));
    StepTold(w, s, AgentStep(first));
    StepTraced(w, s, AgentStep(first));
    Projected(w, s1, steps);
    A.AtMostOnce(w.lim, s.agent, first, AgentSteps(steps));
    RunInv(w, s1, steps);
    RowAndBrowserShowTheRun(w, s1, steps);
  }

  // ---- Beyond the bounds ----

  /** One delivery carried through by an otherwise idle agent. */
  function Carried(c: A.Command, o: A.Outcome, at: int): seq<A.Step> {
    [A.Record(c, at, at, at)] + ([A.Offer(0)] + ([A.Take] + ([A.Finish(0, o)] + [])))
  }

  predicate Idle(a: A.Agent) {
    a.adding == [] && a.queue == [] && a.executing == []
  }

  lemma AgentCons(lim: A.Limits, a: A.Agent, t: A.Step, rest: seq<A.Step>)
    requires A.Enabled(lim, a, t) && A.Legal(lim, A.Next(lim, a, t), rest)
    ensures A.Legal(lim, a, [t] + rest) && A.Run(lim, a, [t] + rest) == A.Run(lim, A.Next(lim, a, t), rest)
  {
    assert ([t] + rest)[1..] == rest;
  }

  lemma CarriedThrough(lim: A.Limits, a: A.Agent, c: A.Command, o: A.Outcome, at: int)
    requires lim.queueDepth >= 1 && lim.maxConcurrent >= 1 && A.Runnable(c) && Idle(a) && a.now <= at
    requires D.Added(a.seen, c.id, at, at, at).1
    ensures A.Legal(lim, a, Carried(c, o, at))
    ensures
      var b := A.Run(lim, a, Carried(c, o, at));
      && Idle(b) && b.now == at && b.done == a.done + [(c, A.FinalReport(c, o))] && b.enqueued == a.enqueued + [c]
      && b.seen == D.WithResult(D.Added(a.seen, c.id, at, at, at).0, c.id, A.FinalReport(c, o))
  {
    var a1 := A.Next(lim, a, A.Record(c, at, at, at));
    assert a1.adding == [c];
    var a2 := A.Next(lim, a1, A.Offer(0));
    assert a2.queue == [c] && a2.adding == [];
    var a3 := A.Next(lim, a2, A.Take);
    assert a3.queue == [] && a3.executing == [c];
    var a4 := A.Next(lim, a3, A.Finish(0, o));
    assert a4.executing == [];
    AgentCons(lim, a3, A.Finish(0, o), []);
    AgentCons(lim, a2, A.Take, [A.Finish(0, o)] + []);
    AgentCons(lim, a1, A.Offer(0), [A.Take] + ([A.Finish(0, o)] + []));
    AgentCons(lim, a, A.Record(c, at, at, at), [A.Offer(0)] + ([A.Take] + ([A.Finish(0, o)] + [])));
  }

  /** The ttl bound is tight: a new agent that carries a delivery through at `at` carries a
      duplicate through again exactly if at least the ttl has passed. */
  lemma RunsAgainIff(lim: A.Limits, c: A.Command, o: A.Outcome, u: A.Outcome, at: int, later: int)
    requires lim.queueDepth >= 1 && lim.maxConcurrent >= 1 && A.Runnable(c) && at <= later
    ensures A.Legal(lim, A.Start(at), Carried(c, o, at))
    ensures
      var a := A.Run(lim, A.Start(at), Carried(c, o, at));
      A.Legal(lim, a, Carried(c, u, later)) <==> later - at >= D.DEFAULT_TTL
    ensures
      var a := A.Run(lim, A.Start(at), Carried(c, o, at));
      later - at >= D.DEFAULT_TTL ==>
        A.Run(lim, a, Carried(c, u, later)).done == [(c, A.FinalReport(c, o)), (c, A.FinalReport(c, u))]
  {
    CarriedThrough(lim, A.Start(at), c, o, at);
    var a := A.Run(lim, A.Start(at), Carried(c, o, at));
    assert a.seen.order == [c.id] && a.seen.entries.Keys == {c.id} && a.seen.entries[c.id].seen == at;
    RecordedAgain(a.seen, c.id, at, later);
    if later - at >= D.DEFAULT_TTL {
      CarriedThrough(lim, a, c, u, later);
    } else {
      var b := A.Next(lim, a, A.Record(c, later, later, later));
      assert b.adding == [];
      assert Carried(c, u, later)[1..][0] == A.Offer(0);
    }
  }

  lemma RecordedAgain(s: D.State, id: string, at: int, later: int)
    requires s.order == [id] && s.entries.Keys == {id} && s.entries[id].seen == at && s.capacity == 1024
    requires s.ttl == D.DEFAULT_TTL
    ensures D.Added(s, id, later, later, later).1 <==> later - at >= D.DEFAULT_TTL
  {
    assert |s.entries| == |s.entries.Keys| == 1;
    assert id in s.entries && s.order[1..] == [];
    if later - at > s.ttl {
      var gone := s.(entries := s.entries - {id}, order := s.order[1..]);
      assert D.Evicted(s, later) == D.Evicted(gone, later) == gone;
    } else {
      assert D.Evicted(s, later) == s;
    }
  }
}
