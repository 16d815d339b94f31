/** How a run ended, told by the row and the browser in so many words. */
module CommandOutcome {
  import opened Prelude
  import opened Protocol
  import opened CommandPath
  import A = Dispatcher
  import R = CommandRow
  import ES = EventStream

  // ---- Every finished run ended somehow ----

  ghost predicate AllRunnable(cs: seq<A.Command>) {
    forall c :: c in cs ==> A.Runnable(c)
  }

  ghost predicate Ended(e: (A.Command, Report)) {
    A.Runnable(e.0) && exists o :: e.1 == A.FinalReport(e.0, o)
  }

  /** What the agent holds is work, and what it reported are outcomes. */
  ghost predicate Runs(a: A.Agent) {
    && AllRunnable(a.adding) && AllRunnable(a.refusing) && AllRunnable(a.queue) && AllRunnable(a.executing)
    && forall e :: e in a.done ==> Ended(e)
  }

  lemma StepRuns(lim: A.Limits, a: A.Agent, t: A.Step)
    requires Runs(a) && A.Enabled(lim, a, t)
    ensures Runs(A.Next(lim, a, t))
  {
    match t {
      case Offer(i) => assert a.adding[i] in a.adding;
      case Take => assert a.queue[0] in a.queue;
      case Finish(i, o) =>
        assert a.executing[i] in a.executing;
        assert Ended((a.executing[i], A.FinalReport(a.executing[i], o)));
      case _ =>
    }
  }

  lemma {:induction false} RunRuns(w: Subject, s: System, steps: seq<Step>)
    requires Runs(s.agent) && Legal(w, s, steps)
    ensures Runs(Run(w, s, steps).agent)
    decreases |steps|
  {
    if steps != [] {
      if steps[0].AgentStep? {
        StepRuns(w.lim, s.agent, steps[0].s);
      }
      RunRuns(w, Next(w, s, steps[0]), steps[1..]);
    }
  }

  lemma StartRuns(now: int)
    ensures Runs(A.Start(now))
  {
  }

  // ---- What the browser says of it ----

  /** The words for an outcome. */
  lemma WordsOf(deviceId: string, c: A.Command, o: A.Outcome)
    requires A.Runnable(c)
    ensures
      var e := R.EventOf(deviceId, A.FinalReport(c, o));
      && e.CommandResult?
      && (c.typ == "exec" ==>
            && (e.status == "SUCCEEDED" <==> o.Ran? && !o.timedOut && !o.canceled && o.exitCode == 0)
            && (e.status == "TIMEOUT" <==> o.Ran? && o.timedOut)
            && (e.status == "CANCELED" <==> o.Ran? && !o.timedOut && o.canceled)
            && (e.status == "FAILED" <==>
                  o.SpawnFailed? || (o.Ran? && !o.timedOut && !o.canceled && o.exitCode != 0))
            && (e.exitCode == if o.Ran? then Some(o.exitCode) else None))
      && (c.typ == "ping" || c.typ == "collect_facts" ==> e.status == "SUCCEEDED" && e.exitCode == None)
  {
    A.OutcomeReported(c, o);
    R.ResultMeans(R.Row("", R.PENDING, None, 0, None, "", "", ""), deviceId, A.FinalReport(c, o));
    assert "SUCCEEDED"[0] == 'S' && "FAILED"[0] == 'F' && "TIMEOUT"[0] == 'T' && "CANCELED"[0] == 'C';
  }

  /** End to end, in so many words. Over every schedule in which the id was queued at most once and
      never refused and no reaper wrote past its deadline, a browser that has finished the command
      says "SUCCEEDED" exactly if its one run ended with exit code 0, neither timed out nor
      canceled, and "TIMEOUT", "CANCELED" and "FAILED" exactly for those; and it shows the run's exit
      code. */
  lemma BrowserTellsTheRun(w: Subject, s: System, steps: seq<Step>) returns (k: nat, o: A.Outcome)
    requires Inv(w, s) && Told(w, s) && Traced(w, s) && Runs(s.agent) && Legal(w, s, steps)
    requires NoDispatch(steps) && NoOverdue(w, s, steps) && OneRun(w, Run(w, s, steps))
    requires BrowserFinished(w, Run(w, s, steps))
    ensures
      var z := Run(w, s, steps);
      && k < |z.agent.done| && z.agent.done[k].0.id == w.id && z.agent.done[k].1 == A.FinalReport(z.agent.done[k].0, o)
      && (forall j :: 0 <= j < |z.agent.done| && z.agent.done[j].0.id == w.id ==> j == k)
      && var c, run := z.agent.done[k].0, ES.Fold(z.shown).runs[w.id];
      && (c.typ == "exec" ==>
            && (run.status == "SUCCEEDED" <==> o.Ran? && !o.timedOut && !o.canceled && o.exitCode == 0)
            && (run.status == "TIMEOUT" <==> o.Ran? && o.timedOut)
            && (run.status == "CANCELED" <==> o.Ran? && !o.timedOut && o.canceled)
            && (run.status == "FAILED" <==>
                  o.SpawnFailed? || (o.Ran? && !o.timedOut && !o.canceled && o.exitCode != 0))
            && (run.exitCode == if o.Ran? then Some(o.exitCode) else None))
      && (c.typ == "ping" || c.typ == "collect_facts" ==> run.status == "SUCCEEDED" && run.exitCode == None)
      && (c.typ == "exec" || c.typ == "ping" || c.typ == "collect_facts")
  {
    var z := Run(w, s, steps);
    var p, e := ShownResult(w, s, steps);
    k := TheRun(w, z, p);
    RunRuns(w, s, steps);
    assert z.agent.done[k] in z.agent.done;
    o :| z.agent.done[k].1 == A.FinalReport(z.agent.done[k].0, o);
    WordsOf(w.deviceId, z.agent.done[k].0, o);
  }

  /** What it shows is an event of a result that was sent. */
  lemma ShownResult(w: Subject, s: System, steps: seq<Step>) returns (p: Report, e: ES.Event)
    requires Inv(w, s) && Told(w, s) && Traced(w, s) && Legal(w, s, steps)
    requires NoDispatch(steps) && NoOverdue(w, s, steps) && BrowserFinished(w, Run(w, s, steps))
    ensures
      var z := Run(w, s, steps);
      && Inv(w, z) && SentResult(w, z, p) && e == R.EventOf(w.deviceId, p) && e.CommandResult?
      && ES.Carries(ES.Fold(z.shown).runs[w.id], e)
  {
    var z := Run(w, s, steps);
    RunTold(w, s, steps);
    RunTraced(w, s, steps);
    ES.FinishedIsLastResult(z.shown, w.id);
    e := ES.LastResult(z.shown, w.id).value;
    assert Issued(z, e) && ES.IsResult(e, w.id);
    p :| SentResult(w, z, p) && e == R.EventOf(w.deviceId, p);
  }

  /** What a row says that stores an outcome. */
  predicate RowSays(row: R.Row, c: A.Command, o: A.Outcome) {
    && (c.typ == "exec" ==>
          && (row.status == R.SUCCEEDED <==> o.Ran? && !o.timedOut && !o.canceled && o.exitCode == 0)
          && (row.status == R.TIMEOUT <==> o.Ran? && o.timedOut)
          && (row.status == R.CANCELED <==> o.Ran? && !o.timedOut && o.canceled)
          && (o.Ran? ==> row.exitCode == Some(o.exitCode) && row.stdout == o.stdout && row.stderr == o.stderr)
          && (o.SpawnFailed? ==> row.status == R.FAILED && row.error == o.error))
    && (c.typ == "ping" || c.typ == "collect_facts" ==> row.status == R.SUCCEEDED)
  }

  lemma StoredSays(row: R.Row, c: A.Command, o: A.Outcome)
    requires Stores(row, A.FinalReport(c, o))
    ensures RowSays(row, c, o)
  {
    A.OutcomeReported(c, o);
    R.ResultMeans(row, "", A.FinalReport(c, o));
  }

  /** The row under the same hypotheses. */
  lemma RowTellsTheRun(w: Subject, s: System, steps: seq<Step>) returns (k: nat, o: A.Outcome)
    requires Inv(w, s) && Told(w, s) && Traced(w, s) && Runs(s.agent) && Legal(w, s, steps)
    requires NoDispatch(steps) && NoOverdue(w, s, steps) && OneRun(w, Run(w, s, steps))
    requires R.Terminal(Run(w, s, steps).server.row.status)
    ensures
      var z := Run(w, s, steps);
      && k < |z.agent.done| && z.agent.done[k].0.id == w.id && z.agent.done[k].1 == A.FinalReport(z.agent.done[k].0, o)
      && RowSays(z.server.row, z.agent.done[k].0, o)
  {
    RunTold(w, s, steps);
    RunTraced(w, s, steps);
    var z := Run(w, s, steps);
    var p :| SentResult(w, z, p) && Stores(z.server.row, p);
    k := TheRun(w, z, p);
    RunRuns(w, s, steps);
    assert z.agent.done[k] in z.agent.done;
    o :| z.agent.done[k].1 == A.FinalReport(z.agent.done[k].0, o);
    StoredSays(z.server.row, z.agent.done[k].0, o);
  }
}
