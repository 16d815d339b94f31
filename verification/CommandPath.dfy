/** One command end to end: the agent, an at-least-once unordered network, the server row, and
    the browser. A message once sent may be delivered any number of times, at any time (QoS 1,
    section 4.3.2 of MQTT 3.1.1). A handler writes the row and publishes the event afterwards,
    and several run at once; an event once published may reach the browser in any order, again,
    or never. */
module CommandPath {
  import opened Prelude
  import opened Protocol
  import A = Dispatcher
  import CE = ChunkEmitter
  import R = CommandRow
  import ES = EventStream

  /** `runs` are the output streams of the runs of the command, in starting order. `pending` are
      events whose row write is done and whose publish is not. */
  datatype System = System(
    agent: A.Agent, runs: seq<CE.State>, server: R.Server,
    pending: seq<ES.Event>, published: seq<ES.Event>, shown: seq<ES.Event>)

  datatype Step =
    | AgentStep(s: A.Step)
    | EmitterStep(r: nat, t: CE.Step)
    | Deliver(i: nat)                  // any message sent so far
    | DeliverChunk(r: nat, k: nat)
    | DispatchUpdate(at: int)
    | ReapRead
    | ReapWrite(i: nat, now: int)
    | Publish(j: nat)
    | Show(j: nat)

  /** The command the row belongs to. */
  datatype Subject = Subject(lim: A.Limits, id: string, deviceId: string)

  predicate Enabled(w: Subject, s: System, t: Step) {
    match t
    case AgentStep(a) => A.Enabled(w.lim, s.agent, a)
    case EmitterStep(r, e) => r < |s.runs| && CE.Enabled(s.runs[r], e)
    case Deliver(i) => i < |s.agent.sent|
    case DeliverChunk(r, k) => r < |s.runs| && k < |s.runs[r].sunk|
    case DispatchUpdate(_) => true
    case ReapRead => R.Reapable(s.server.row)
    case ReapWrite(i, _) => i < |s.server.snapshots|
    case Publish(j) => j < |s.pending|
    case Show(j) => j < |s.published|
  }

  /** The k-th chunk a run's sink published. */
  function ChunkOf(w: Subject, run: CE.State, k: nat): Report
    requires k < |run.sunk|
  {
    ChunkReport(w.id, run.sunk[k].0, run.sunk[k].1.stream, run.sunk[k].1.data)
  }

  /** A handler's row write; its event is still to be published. */
  function Receive(w: Subject, s: System, p: Report): System {
    if p.id != w.id then s
    else s.(server := R.Next(s.server, R.DoHandle(p)), pending := s.pending + [R.EventOf(w.deviceId, p)])
  }

  predicate OverdueWrite(s: System, t: Step) {
    t.ReapWrite? && t.i < |s.server.snapshots| && R.OverdueWrite(s.server, R.ReapWrite(t.i, t.now))
  }

  function Next(w: Subject, s: System, t: Step): System
    requires Enabled(w, s, t)
  {
    match t
    case AgentStep(a) =>
      s.(agent := A.Next(w.lim, s.agent, a),
         runs := if a.Take? && s.agent.queue[0].id == w.id then s.runs + [CE.INITIAL] else s.runs)
    case EmitterStep(r, e) => s.(runs := s.runs[r := CE.Next(s.runs[r], e)])
    case Deliver(i) => Receive(w, s, s.agent.sent[i].report)
    case DeliverChunk(r, k) => Receive(w, s, ChunkOf(w, s.runs[r], k))
    case DispatchUpdate(at) => s.(server := R.Next(s.server, R.DoDispatch(at)))
    case ReapRead => s.(server := R.Next(s.server, R.ReapRead))
    case ReapWrite(i, now) =>
      s.(server := R.Next(s.server, R.ReapWrite(i, now)),
         pending := if OverdueWrite(s, t) then s.pending + [R.TimeoutEvent(w.id, s.server.row)] else s.pending)
    case Publish(j) => s.(pending := RemoveAt(s.pending, j), published := s.published + [s.pending[j]])
    case Show(j) => s.(shown := s.shown + [s.published[j]])
  }

  predicate Legal(w: Subject, s: System, steps: seq<Step>)
    decreases |steps|
  {
    steps == [] || (Enabled(w, s, steps[0]) && Legal(w, Next(w, s, steps[0]), steps[1..]))
  }

  function Run(w: Subject, s: System, steps: seq<Step>): System
    requires Legal(w, s, steps)
    decreases |steps|
  {
    if steps == [] then s else Run(w, Next(w, s, steps[0]), steps[1..])
  }

  predicate NoDispatch(steps: seq<Step>) {
    forall t :: t in steps ==> !t.DispatchUpdate?
  }

  // ---- What the agent keeps ----

  /** One output stream per run of the command, each numbering its chunks 0, 1, 2, ... */
  ghost predicate Inv(w: Subject, s: System) {
    && A.Inv(w.lim, s.agent)
    && (forall r :: 0 <= r < |s.runs| ==> CE.Conserved(s.runs[r]))
    && |s.runs| == A.CountId(s.agent.executing, w.id) + A.CountId(A.Commands(s.agent.done), w.id)
  }

  lemma RunsCounted(w: Subject, s: System, a: A.Step)
    requires Inv(w, s) && A.Enabled(w.lim, s.agent, a)
    ensures
      var b := Next(w, s, AgentStep(a));
      |b.runs| == A.CountId(b.agent.executing, w.id) + A.CountId(A.Commands(b.agent.done), w.id)
  {
    match a {
      case Take =>
        A.CountIdConcat(s.agent.executing, [s.agent.queue[0]], w.id);
      case Finish(i, o) =>
        var c := s.agent.executing[i];
        A.CountIdRemoveAt(s.agent.executing, i, w.id);
        var done := A.Next(w.lim, s.agent, a).done;
        assert A.Commands(done) == A.Commands(s.agent.done) + [c];
        A.CountIdConcat(A.Commands(s.agent.done), [c], w.id);
      case _ =>
    }
  }

  lemma StepInv(w: Subject, s: System, t: Step)
    requires Inv(w, s) && Enabled(w, s, t)
    ensures Inv(w, Next(w, s, t))
  {
    match t {
      case AgentStep(a) =>
        A.StepInv(w.lim, s.agent, a);
        RunsCounted(w, s, a);
        CE.InitialConserved();
      case EmitterStep(r, e) =>
        CE.StepConserved(s.runs[r], e);
      case _ =>
    }
  }

  lemma {:induction false} RunInv(w: Subject, s: System, steps: seq<Step>)
    requires Inv(w, s) && Legal(w, s, steps)
    ensures Inv(w, Run(w, s, steps))
    decreases |steps|
  {
    if steps != [] {
      StepInv(w, s, steps[0]);
      RunInv(w, Next(w, s, steps[0]), steps[1..]);
    }
  }

  /** No step but the dispatch update reopens the row: the hypothesis the row needs on result
      statuses is an invariant of the agent. */
  lemma {:induction false} TerminalStays(w: Subject, s: System, steps: seq<Step>)
    requires Inv(w, s) && Legal(w, s, steps) && R.Terminal(s.server.row.status) && NoDispatch(steps)
    ensures R.Terminal(Run(w, s, steps).server.row.status)
    decreases |steps|
  {
    if steps != [] {
      assert steps[0] in steps;
      StepInv(w, s, steps[0]);
      StepTerminal(w, s, steps[0]);
      TerminalStays(w, Next(w, s, steps[0]), steps[1..]);
    }
  }

  lemma StepTerminal(w: Subject, s: System, t: Step)
    requires Inv(w, s) && Enabled(w, s, t) && !t.DispatchUpdate?
    ensures R.Terminal(s.server.row.status) ==> R.Terminal(Next(w, s, t).server.row.status)
  {
    if t.Deliver? {
      var p := s.agent.sent[t.i];
      assert p in s.agent.sent;
      R.MapStatusTerminalIff(p.report.status);
    }
  }

  // ---- The row is finished exactly when somebody is told ----

  predicate Issued(s: System, e: ES.Event) {
    e in s.pending || e in s.published
  }

  /** The row is finished exactly when a result event of the command is published or about to
      be, and the browser sees nothing else. */
  ghost predicate Told(w: Subject, s: System) {
    && (R.Terminal(s.server.row.status) <==> exists e :: Issued(s, e) && ES.IsResult(e, w.id))
    && (forall e :: e in s.shown ==> e in s.published)
  }

  lemma PublishKeeps(s: System, w: Subject, j: nat)
    requires j < |s.pending|
    ensures forall e :: Issued(s, e) <==> Issued(Next(w, s, Publish(j)), e)
  {
    var left, e := RemoveAt(s.pending, j), s.pending[j];
    assert s.pending == s.pending[..j] + [e] + s.pending[j + 1..];
    forall x ensures Issued(s, x) <==> Issued(Next(w, s, Publish(j)), x) {
      assert x in s.pending <==> x in left || x == e;
    }
  }

  lemma IssuedStep(w: Subject, s: System, t: Step, e: ES.Event)
    requires Enabled(w, s, t) && Issued(s, e)
    ensures Issued(Next(w, s, t), e)
  {
    if t.Publish? {
      PublishKeeps(s, w, t.j);
    }
  }

  lemma StepTold(w: Subject, s: System, t: Step)
    requires Inv(w, s) && Told(w, s) && Enabled(w, s, t) && !t.DispatchUpdate?
    ensures Told(w, Next(w, s, t))
  {
    var b := Next(w, s, t);
    StepTerminal(w, s, t);
    if R.Terminal(s.server.row.status) {
      var e :| Issued(s, e) && ES.IsResult(e, w.id);
      IssuedStep(w, s, t, e);
    } else {
      match t {
        case Publish(j) => PublishKeeps(s, w, j);
        case Deliver(i) =>
          var p := s.agent.sent[i];
          assert p in s.agent.sent;
          R.MapStatusTerminalIff(p.report.status);
          ReceiveTold(w, s, p.report);
        case DeliverChunk(r, k) => ReceiveTold(w, s, ChunkOf(w, s.runs[r], k));
        case ReapWrite(i, now) =>
          if OverdueWrite(s, t) {
            assert Issued(b, R.TimeoutEvent(w.id, s.server.row));
          }
        case _ =>
      }
    }
  }

  lemma ReceiveTold(w: Subject, s: System, p: Report)
    requires Told(w, s) && !R.Terminal(s.server.row.status)
    requires p.kind == KindResult ==> R.Terminal(R.MapStatus(p.status))
    ensures Told(w, Receive(w, s, p))
  {
    var b := Receive(w, s, p);
    if p.id == w.id {
      assert Issued(b, R.EventOf(w.deviceId, p));
      assert forall e :: Issued(b, e) <==> Issued(s, e) || e == R.EventOf(w.deviceId, p);
    }
  }

  lemma {:induction false} RunTold(w: Subject, s: System, steps: seq<Step>)
    requires Inv(w, s) && Told(w, s) && Legal(w, s, steps) && NoDispatch(steps)
    ensures Inv(w, Run(w, s, steps)) && Told(w, Run(w, s, steps))
    decreases |steps|
  {
    if steps != [] {
      assert steps[0] in steps;
      StepInv(w, s, steps[0]);
      StepTold(w, s, steps[0]);
      RunTold(w, Next(w, s, steps[0]), steps[1..]);
    }
  }

  predicate BrowserFinished(w: Subject, s: System) {
    w.id in ES.Fold(s.shown).runs && ES.Fold(s.shown).runs[w.id].finished
  }

  /** Every handler is through and everything published has reached the browser. */
  predicate Quiet(s: System) {
    s.pending == [] && forall e :: e in s.published ==> e in s.shown
  }

  lemma {:induction false} LastResultIn(events: seq<ES.Event>, c: string)
    ensures ES.LastResult(events, c).Some? <==> exists e :: e in events && ES.IsResult(e, c)
  {
    if events != [] {
      var front, last := events[..|events| - 1], events[|events| - 1];
      assert events == front + [last];
      LastResultIn(front, c);
      assert forall e :: e in events <==> e in front || e == last;
    }
  }

  /** Reaper included: the browser never finishes a run whose row is live, and once all is quiet
      it has finished exactly the runs whose row is. In between, a row may be finished first. */
  lemma FinishedTogether(w: Subject, s: System, steps: seq<Step>)
    requires Inv(w, s) && Told(w, s) && Legal(w, s, steps) && NoDispatch(steps)
    ensures
      var z := Run(w, s, steps);
      && (BrowserFinished(w, z) ==> R.Terminal(z.server.row.status))
      && (Quiet(z) ==> (BrowserFinished(w, z) <==> R.Terminal(z.server.row.status)))
  {
    RunTold(w, s, steps);
    var z := Run(w, s, steps);
    ES.FinishedIsLastResult(z.shown, w.id);
    LastResultIn(z.shown, w.id);
    if e :| e in z.shown && ES.IsResult(e, w.id) {
      assert Issued(z, e);
    }
  }

  // ---- The row and the browser show the run's own result ----

  /** The row was last ended by a result message with these contents. */
  predicate Stores(row: R.Row, p: Report) {
    && row.status == R.MapStatus(p.status) && row.exitCode == p.exitCode
    && row.stdout == p.stdout && row.stderr == p.stderr && row.error == p.error
  }

  ghost predicate SentResult(w: Subject, s: System, p: Report) {
    p.id == w.id && p.kind == KindResult && exists x :: x in s.agent.sent && x.report == p
  }

  /** A finished row stores a result that was sent, and so does every result event. */
  ghost predicate Traced(w: Subject, s: System) {
    && (R.Terminal(s.server.row.status) ==> exists p :: SentResult(w, s, p) && Stores(s.server.row, p))
    && (forall e :: Issued(s, e) && ES.IsResult(e, w.id) ==>
         exists p :: SentResult(w, s, p) && e == R.EventOf(w.deviceId, p))
  }

  lemma SentStays(w: Subject, s: System, t: Step, p: Report)
    requires Enabled(w, s, t) && SentResult(w, s, p)
    ensures SentResult(w, Next(w, s, t), p)
  {
    var x :| x in s.agent.sent && x.report == p;
    assert x in Next(w, s, t).agent.sent;
  }

  lemma ReceiveTraced(w: Subject, s: System, p: Report)
    requires Traced(w, s) && (p.kind == KindResult && p.id == w.id ==> SentResult(w, s, p))
    ensures Traced(w, Receive(w, s, p))
  {
    var b := Receive(w, s, p);
    if R.Terminal(s.server.row.status) {
      var q :| SentResult(w, s, q) && Stores(s.server.row, q);
      assert SentResult(w, b, q);
    }
    if p.id == w.id && p.kind == KindResult {
      assert SentResult(w, b, p) && Stores(b.server.row, p);
    }
    forall e | Issued(b, e) && ES.IsResult(e, w.id)
      ensures exists q :: SentResult(w, b, q) && e == R.EventOf(w.deviceId, q)
    {
      if Issued(s, e) {
        var q :| SentResult(w, s, q) && e == R.EventOf(w.deviceId, q);
        assert SentResult(w, b, q);
      } else {
        assert e == R.EventOf(w.deviceId, p) && SentResult(w, b, p);
      }
    }
  }

  /** The row and the events were left alone. */
  lemma UntouchedTraced(w: Subject, s: System, t: Step)
    requires Traced(w, s) && Enabled(w, s, t)
    requires Next(w, s, t).server.row == s.server.row && forall e :: Issued(s, e) <==> Issued(Next(w, s, t), e)
    ensures Traced(w, Next(w, s, t))
  {
    var b := Next(w, s, t);
    if R.Terminal(s.server.row.status) {
      var q :| SentResult(w, s, q) && Stores(s.server.row, q);
      SentStays(w, s, t, q);
    }
    forall e | Issued(b, e) && ES.IsResult(e, w.id)
      ensures exists q :: SentResult(w, b, q) && e == R.EventOf(w.deviceId, q)
    {
      var q :| SentResult(w, s, q) && e == R.EventOf(w.deviceId, q);
      SentStays(w, s, t, q);
    }
  }

  lemma StepTraced(w: Subject, s: System, t: Step)
    requires Traced(w, s) && Enabled(w, s, t) && !t.DispatchUpdate? && !OverdueWrite(s, t)
    ensures Traced(w, Next(w, s, t))
  {
    match t {
      case Deliver(i) =>
        assert s.agent.sent[i] in s.agent.sent;
        ReceiveTraced(w, s, s.agent.sent[i].report);
      case DeliverChunk(r, k) => ReceiveTraced(w, s, ChunkOf(w, s.runs[r], k));
      case Publish(j) =>
        PublishKeeps(s, w, j);
        UntouchedTraced(w, s, t);
      case _ => UntouchedTraced(w, s, t);
    }
  }

  /** No reaper write past its deadline; the reaper may read, and write in time, at will. */
  predicate NoOverdue(w: Subject, s: System, steps: seq<Step>)
    requires Legal(w, s, steps)
    decreases |steps|
  {
    steps == [] || (!OverdueWrite(s, steps[0]) && NoOverdue(w, Next(w, s, steps[0]), steps[1..]))
  }

  lemma {:induction false} RunTraced(w: Subject, s: System, steps: seq<Step>)
    requires Traced(w, s) && Legal(w, s, steps) && NoDispatch(steps) && NoOverdue(w, s, steps)
    ensures Traced(w, Run(w, s, steps))
    decreases |steps|
  {
    if steps != [] {
      assert steps[0] in steps;
      StepTraced(w, s, steps[0]);
      RunTraced(w, Next(w, s, steps[0]), steps[1..]);
    }
  }

  /** The id was queued at most once, and neither refused nor used by a membership change. */
  ghost predicate OneRun(w: Subject, s: System) {
    && A.CountId(s.agent.enqueued, w.id) <= 1
    && forall x :: x in s.agent.sent && x.report.id == w.id ==> x.source != A.Refusal && x.source != A.ControlResult
  }

  lemma OnlyRun(w: Subject, s: System, k: nat)
    requires Inv(w, s) && k < |s.agent.done| && s.agent.done[k].0.id == w.id
    requires A.CountId(s.agent.enqueued, w.id) <= 1
    ensures forall j :: 0 <= j < |s.agent.done| && s.agent.done[j].0.id == w.id ==> j == k
  {
    A.ConservedById(w.lim, s.agent, w.id);
    var cs := A.Commands(s.agent.done);
    forall j | 0 <= j < |s.agent.done| && s.agent.done[j].0.id == w.id ensures j == k {
      assert cs[j].id == w.id && cs[k].id == w.id;
      if j < k { A.CountIdTwo(cs, j, k, w.id); } else if k < j { A.CountIdTwo(cs, k, j, w.id); }
    }
  }

  lemma OneResult(w: Subject, s: System, p: Report, q: Report)
    requires Inv(w, s) && OneRun(w, s) && SentResult(w, s, p) && SentResult(w, s, q)
    ensures p == q
  {
    var x :| x in s.agent.sent && x.report == p;
    var y :| y in s.agent.sent && y.report == q;
    A.ResultsAgree(w.lim, s.agent, x, y);
  }

  lemma TheRun(w: Subject, s: System, p: Report) returns (k: nat)
    requires Inv(w, s) && OneRun(w, s) && SentResult(w, s, p)
    ensures k < |s.agent.done| && s.agent.done[k].0.id == w.id && s.agent.done[k].1 == p
    ensures forall j :: 0 <= j < |s.agent.done| && s.agent.done[j].0.id == w.id ==> j == k
  {
    var x :| x in s.agent.sent && x.report == p;
    k := A.RunOf(w.lim, s.agent, x);
    OnlyRun(w, s, k);
  }

  predicate BrowserAgrees(w: Subject, s: System) {
    BrowserFinished(w, s) ==> ES.Fold(s.shown).runs[w.id].status == R.StatusName(s.server.row.status)
  }

  /** A finished row stores the result of the one finished run of the id. */
  predicate RowShowsTheRun(w: Subject, s: System) {
    R.Terminal(s.server.row.status) ==>
      exists k :: 0 <= k < |s.agent.done| && s.agent.done[k].0.id == w.id && Stores(s.server.row, s.agent.done[k].1)
        && forall j :: 0 <= j < |s.agent.done| && s.agent.done[j].0.id == w.id ==> j == k
  }

  lemma EventSaysTheRow(w: Subject, z: System, e: ES.Event)
    requires Inv(w, z) && Traced(w, z) && OneRun(w, z) && R.Terminal(z.server.row.status)
    requires Issued(z, e) && ES.IsResult(e, w.id)
    ensures e.status == R.StatusName(z.server.row.status)
  {
    var p :| SentResult(w, z, p) && e == R.EventOf(w.deviceId, p);
    var q :| SentResult(w, z, q) && Stores(z.server.row, q);
    OneResult(w, z, p, q);
  }

  lemma TracedAgrees(w: Subject, z: System)
    requires Inv(w, z) && Told(w, z) && Traced(w, z) && OneRun(w, z)
    ensures BrowserAgrees(w, z)
  {
    ES.FinishedIsLastResult(z.shown, w.id);
    if BrowserFinished(w, z) {
      var e := ES.LastResult(z.shown, w.id).value;
      assert Issued(z, e) && ES.IsResult(e, w.id);
      EventSaysTheRow(w, z, e);
    }
  }

  /** Start from a live row after the dispatch update and let anything interleave: agent threads,
      duplicate and reordered messages, handlers between their two awaits, reaper reads, events
      shown in any order and repeatedly. If the id was queued at most once and never refused, and
      no reaper write came past its deadline, a finished row stores the result of the one run of
      that id, and whenever the browser has finished the run it shows that same status. */
  lemma RowAndBrowserShowTheRun(w: Subject, s: System, steps: seq<Step>)
    requires Inv(w, s) && Told(w, s) && Traced(w, s) && Legal(w, s, steps)
    requires NoDispatch(steps) && NoOverdue(w, s, steps) && OneRun(w, Run(w, s, steps))
    ensures RowShowsTheRun(w, Run(w, s, steps)) && BrowserAgrees(w, Run(w, s, steps))
  {
    RunTold(w, s, steps);
    RunTraced(w, s, steps);
    var z := Run(w, s, steps);
    TracedAgrees(w, z);
    if R.Terminal(z.server.row.status) {
      var p :| SentResult(w, z, p) && Stores(z.server.row, p);
      var k := TheRun(w, z, p);
    }
  }

  /** What a row's final status says about the run behind it. */
  lemma StatusTellsTheRun(c: A.Command, o: A.Outcome)
    requires c.typ == A.TYPE_EXEC
    ensures
      var status := R.MapStatus(A.FinalReport(c, o).status);
      && (status == R.SUCCEEDED <==> o.Ran? && !o.timedOut && !o.canceled && o.exitCode == 0)
      && (status == R.TIMEOUT <==> o.Ran? && o.timedOut)
      && (status == R.CANCELED <==> o.Ran? && !o.timedOut && o.canceled)
      && (status == R.FAILED <==> o.SpawnFailed? || (!o.timedOut && !o.canceled && o.exitCode != 0))
  {
    assert c.typ[0] == 'e' && A.TYPE_PING[0] == 'p' && A.TYPE_COLLECT_FACTS[0] == 'c';
  }
}
