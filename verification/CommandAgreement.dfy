/** When the row and the browser can end apart, and when two browsers can see different chunks:
    exact conditions on what the agent sent, over all schedules of what is in flight, reaper
    included. */
module CommandAgreement {
  import opened Prelude
  import opened Protocol
  import opened CommandPath
  import A = Dispatcher
  import CE = ChunkEmitter
  import R = CommandRow
  import ES = EventStream

  // ---- Schedules of deliveries ----

  /** The agent has stopped; everything in flight still moves, and the reaper goes on. */
  predicate Delivery(t: Step) {
    t.Deliver? || t.DeliverChunk? || t.ReapRead? || t.ReapWrite? || t.Publish? || t.Show?
  }

  predicate Deliveries(steps: seq<Step>) {
    forall t :: t in steps ==> Delivery(t)
  }

  /** The row is live and nobody has been told anything. */
  predicate Undelivered(s: System) {
    !R.Terminal(s.server.row.status) && s.pending == [] && s.published == [] && s.shown == []
  }

  lemma RunCons(w: Subject, s: System, t: Step, rest: seq<Step>)
    requires Enabled(w, s, t) && Legal(w, Next(w, s, t), rest)
    ensures Legal(w, s, [t] + rest) && Run(w, s, [t] + rest) == Run(w, Next(w, s, t), rest)
  {
    assert ([t] + rest)[1..] == rest;
  }

  lemma DeliveriesCons(t: Step, rest: seq<Step>)
    requires Delivery(t) && Deliveries(rest)
    ensures Deliveries([t] + rest)
  {
  }

  /** Two events in hand: they are published and shown the other way round. */
  lemma CrossTwo(w: Subject, s: System, d: ES.Event, e: ES.Event) returns (steps: seq<Step>)
    requires s.pending == [d, e] && s.published == [] && s.shown == []
    ensures Legal(w, s, steps) && Deliveries(steps)
    ensures Run(w, s, steps) == s.(pending := [], published := [e, d], shown := [e, d])
  {
    var s1 := Next(w, s, Publish(1));
    assert s1.pending == [d] && s1.published == [e];
    var s2 := Next(w, s1, Publish(0));
    assert s2.pending == [] && s2.published == [e, d];
    var s3 := Next(w, s2, Show(0));
    assert s3.shown == [e];
    var s4 := Next(w, s3, Show(1));
    assert s4.shown == [e, d];
    steps := [Publish(1)] + ([Publish(0)] + ([Show(0)] + ([Show(1)] + [])));
    RunCons(w, s3, Show(1), []);
    RunCons(w, s2, Show(0), [Show(1)] + []);
    RunCons(w, s1, Publish(0), [Show(0)] + ([Show(1)] + []));
    RunCons(w, s, Publish(1), [Publish(0)] + ([Show(0)] + ([Show(1)] + [])));
  }

  /** Two steps that each leave one event in hand, and then the crossing. */
  lemma CrossAfter(w: Subject, s: System, t: Step, u: Step, d: ES.Event, e: ES.Event) returns (steps: seq<Step>)
    requires Undelivered(s) && Delivery(t) && Delivery(u) && Enabled(w, s, t) && Enabled(w, Next(w, s, t), u)
    requires
      var z := Next(w, Next(w, s, t), u);
      z.pending == [d, e] && z.published == [] && z.shown == []
    ensures Legal(w, s, steps) && Deliveries(steps)
    ensures Run(w, s, steps) == Next(w, Next(w, s, t), u).(pending := [], published := [e, d], shown := [e, d])
  {
    var s1 := Next(w, s, t);
    var rest := CrossTwo(w, Next(w, s1, u), d, e);
    RunCons(w, s1, u, rest);
    RunCons(w, s, t, [u] + rest);
    DeliveriesCons(u, rest);
    DeliveriesCons(t, [u] + rest);
    steps := [t] + ([u] + rest);
  }

  // ---- Row and browser ----

  function Verdict(p: Report): R.RowStatus {
    R.MapStatus(p.status)
  }

  predicate ResultsSay(w: Subject, s: System, v: R.RowStatus) {
    forall p :: p in s.agent.sent && p.report.kind == KindResult && p.report.id == w.id ==> Verdict(p.report) == v
  }

  /** A reaper has read the row, or may: it was dispatched. */
  predicate ReaperInvolved(s: System) {
    s.server.snapshots != [] || s.server.row.dispatchedAt.Some?
  }

  /** Whoever may still end the row, or tell the browser, says v. */
  predicate AllSay(w: Subject, s: System, v: R.RowStatus) {
    ResultsSay(w, s, v) && (ReaperInvolved(s) ==> v == R.TIMEOUT)
  }

  ghost predicate OneVerdict(w: Subject, s: System) {
    exists v :: AllSay(w, s, v)
  }

  ghost predicate Said(w: Subject, s: System, v: R.RowStatus) {
    && (R.Terminal(s.server.row.status) ==> s.server.row.status == v)
    && (forall e :: Issued(s, e) && ES.IsResult(e, w.id) ==> e.status == R.StatusName(v))
  }

  lemma ReceiveSaid(w: Subject, s: System, p: Report, v: R.RowStatus)
    requires Said(w, s, v) && (p.kind == KindResult && p.id == w.id ==> Verdict(p) == v)
    ensures Said(w, Receive(w, s, p), v)
  {
    if p.id == w.id {
      assert forall e :: Issued(Receive(w, s, p), e) <==> Issued(s, e) || e == R.EventOf(w.deviceId, p);
    }
  }

  /** Results that were sent stay sent, and no step but the dispatch update dates the row. */
  lemma StepSays(w: Subject, s: System, t: Step, v: R.RowStatus)
    requires Enabled(w, s, t) && !t.DispatchUpdate?
    ensures ResultsSay(w, Next(w, s, t), v) ==> ResultsSay(w, s, v)
    ensures ReaperInvolved(Next(w, s, t)) ==> ReaperInvolved(s)
    ensures t.AgentStep? || Next(w, s, t).agent == s.agent
  {
    if ResultsSay(w, Next(w, s, t), v) {
      forall p | p in s.agent.sent && p.report.kind == KindResult && p.report.id == w.id
        ensures Verdict(p.report) == v
      {
        assert p in Next(w, s, t).agent.sent;
      }
    }
  }

  lemma StepSaid(w: Subject, s: System, t: Step, v: R.RowStatus)
    requires Inv(w, s) && AllSay(w, s, v) && Said(w, s, v) && Enabled(w, s, t) && !t.DispatchUpdate?
    ensures Said(w, Next(w, s, t), v)
  {
    if t.Deliver? {
      assert s.agent.sent[t.i] in s.agent.sent;
      ReceiveSaid(w, s, s.agent.sent[t.i].report, v);
    } else if t.DeliverChunk? {
      ReceiveSaid(w, s, ChunkOf(w, s.runs[t.r], t.k), v);
    } else if t.Publish? {
      PublishKeeps(s, w, t.j);
    } else if OverdueWrite(s, t) {
      var e := R.TimeoutEvent(w.id, s.server.row);
      assert forall x :: Issued(Next(w, s, t), x) <==> Issued(s, x) || x == e;
    } else {
      assert forall x :: Issued(Next(w, s, t), x) <==> Issued(s, x);
    }
  }

  /** The agent included: over every schedule, as long as all who have a say by its end say the
      same, the browser agrees with the row. */
  lemma {:induction false} RunSaid(w: Subject, s: System, steps: seq<Step>, v: R.RowStatus)
    requires Inv(w, s) && Told(w, s) && Said(w, s, v) && Legal(w, s, steps) && NoDispatch(steps)
    requires ResultsSay(w, Run(w, s, steps), v) && (ReaperInvolved(s) ==> v == R.TIMEOUT)
    ensures ResultsSay(w, s, v) && BrowserAgrees(w, Run(w, s, steps))
    decreases |steps|
  {
    if steps == [] {
      ES.FinishedIsLastResult(s.shown, w.id);
      if BrowserFinished(w, s) {
        var e := ES.LastResult(s.shown, w.id).value;
        assert Issued(s, e) && ES.IsResult(e, w.id);
      }
    } else {
      var t := steps[0];
      assert t in steps;
      SaysBackwards(w, s, steps, v);
      StepInv(w, s, t);
      StepTold(w, s, t);
      StepSays(w, s, t, v);
      StepSaid(w, s, t, v);
      RunSaid(w, Next(w, s, t), steps[1..], v);
    }
  }

  lemma {:induction false} SaysBackwards(w: Subject, s: System, steps: seq<Step>, v: R.RowStatus)
    requires Legal(w, s, steps) && NoDispatch(steps) && ResultsSay(w, Run(w, s, steps), v)
    ensures ResultsSay(w, s, v)
    decreases |steps|
  {
    if steps != [] {
      assert steps[0] in steps;
      SaysBackwards(w, Next(w, s, steps[0]), steps[1..], v);
      StepSays(w, s, steps[0], v);
    }
  }

  /** All is quiet, and yet the browser shows another outcome than the row. */
  predicate Apart(w: Subject, s: System) {
    Quiet(s) && BrowserFinished(w, s) && !BrowserAgrees(w, s)
  }

  lemma LastOfTwo(d: ES.Event, e: ES.Event, c: string)
    requires ES.IsResult(d, c) && ES.IsResult(e, c)
    ensures c in ES.Fold([e, d]).runs && ES.Fold([e, d]).runs[c].finished && ES.Fold([e, d]).runs[c].status == d.status
  {
    assert [e, d][1] == d;
    ES.FinishedIsLastResult([e, d], c);
  }

  lemma NamesDiffer(a: R.RowStatus, b: R.RowStatus)
    requires R.Terminal(a) && R.Terminal(b) && a != b
    ensures R.StatusName(a) != R.StatusName(b)
  {
    assert "SUCCEEDED"[0] == 'S' && "FAILED"[0] == 'F' && "TIMEOUT"[0] == 'T' && "CANCELED"[0] == 'C';
  }

  /** Two results that differ: handled in one order, published and shown in the other. */
  lemma TwoResultsApart(w: Subject, s: System, p: Report, q: Report) returns (steps: seq<Step>)
    requires Inv(w, s) && Undelivered(s) && SentResult(w, s, p) && SentResult(w, s, q) && Verdict(p) != Verdict(q)
    ensures Legal(w, s, steps) && Deliveries(steps) && Apart(w, Run(w, s, steps))
  {
    var i :| 0 <= i < |s.agent.sent| && s.agent.sent[i].report == p;
    var j :| 0 <= j < |s.agent.sent| && s.agent.sent[j].report == q;
    assert s.agent.sent[i] in s.agent.sent && s.agent.sent[j] in s.agent.sent;
    R.MapStatusTerminalIff(p.status);
    R.MapStatusTerminalIff(q.status);
    var d, e := R.EventOf(w.deviceId, p), R.EventOf(w.deviceId, q);
    var s2 := Next(w, Next(w, s, Deliver(i)), Deliver(j));
    assert s2.pending == [d, e];
    steps := CrossAfter(w, s, Deliver(i), Deliver(j), d, e);
    LastOfTwo(d, e, w.id);
    NamesDiffer(Verdict(p), Verdict(q));
  }

  /** A result against a reaper that read the row earlier. */
  lemma StaleReapApart(w: Subject, s: System, p: Report) returns (steps: seq<Step>)
    requires Inv(w, s) && Undelivered(s) && SentResult(w, s, p) && s.server.snapshots != [] && Verdict(p) != R.TIMEOUT
    ensures Legal(w, s, steps) && Deliveries(steps) && Apart(w, Run(w, s, steps))
  {
    var i :| 0 <= i < |s.agent.sent| && s.agent.sent[i].report == p;
    assert s.agent.sent[i] in s.agent.sent;
    R.MapStatusTerminalIff(p.status);
    var (at, timeout) := s.server.snapshots[0];
    var reap := ReapWrite(0, at + timeout + R.REAP_SLACK_MS);
    var s1 := Next(w, s, Deliver(i));
    var d, e := R.EventOf(w.deviceId, p), R.TimeoutEvent(w.id, s1.server.row);
    assert s1.pending == [d] && Next(w, s1, reap).pending == [d, e];
    steps := CrossAfter(w, s, Deliver(i), reap, d, e);
    LastOfTwo(d, e, w.id);
    NamesDiffer(Verdict(p), R.TIMEOUT);
  }

  /** The same for a reaper that reads the row only now. */
  lemma ReadThenReapApart(w: Subject, s: System, p: Report) returns (steps: seq<Step>)
    requires Inv(w, s) && Undelivered(s) && SentResult(w, s, p) && R.Reapable(s.server.row) && Verdict(p) != R.TIMEOUT
    ensures Legal(w, s, steps) && Deliveries(steps) && Apart(w, Run(w, s, steps))
  {
    var s1 := Next(w, s, ReapRead);
    StepInv(w, s, ReapRead);
    var rest := StaleReapApart(w, s1, p);
    RunCons(w, s, ReapRead, rest);
    DeliveriesCons(ReapRead, rest);
    steps := [ReapRead] + rest;
  }

  lemma {:induction false} DeliveriesKeepSent(w: Subject, s: System, steps: seq<Step>)
    requires Legal(w, s, steps) && Deliveries(steps)
    ensures NoDispatch(steps) && Run(w, s, steps).agent == s.agent
    decreases |steps|
  {
    if steps != [] {
      assert steps[0] in steps;
      DeliveriesKeepSent(w, Next(w, s, steps[0]), steps[1..]);
      assert forall t :: t in steps ==> Delivery(t);
    }
  }

  /** A dispatched row is not PENDING, so the reaper may read it while it is live. */
  predicate Dated(row: R.Row) {
    row.dispatchedAt.Some? ==> !row.status.PENDING?
  }

  lemma {:induction false} RunDated(w: Subject, s: System, steps: seq<Step>)
    requires Dated(s.server.row) && Legal(w, s, steps)
    ensures Dated(Run(w, s, steps).server.row)
    decreases |steps|
  {
    if steps != [] {
      RunDated(w, Next(w, s, steps[0]), steps[1..]);
    }
  }

  /** The exact condition, reaper included: some schedule of what is in flight ends with all
      quiet and the browser showing another outcome than the row if and only if the results
      sent, and for a dispatched row the reaper's TIMEOUT, are not all the same. */
  lemma ApartIff(w: Subject, s: System)
    requires Inv(w, s) && Undelivered(s) && Dated(s.server.row)
    ensures (exists steps :: Legal(w, s, steps) && Deliveries(steps) && Apart(w, Run(w, s, steps)))
      <==> !OneVerdict(w, s)
  {
    if v :| AllSay(w, s, v) {
      assert Told(w, s) && Said(w, s, v);
      forall steps | Legal(w, s, steps) && Deliveries(steps) ensures !Apart(w, Run(w, s, steps)) {
        DeliveriesKeepSent(w, s, steps);
        RunSaid(w, s, steps, v);
      }
    } else {
      assert !AllSay(w, s, R.TIMEOUT);
      var x :| x in s.agent.sent && x.report.kind == KindResult && x.report.id == w.id
               && Verdict(x.report) != R.TIMEOUT;
      var p := x.report;
      assert SentResult(w, s, p);
      if s.server.snapshots != [] {
        var steps := StaleReapApart(w, s, p);
      } else if s.server.row.dispatchedAt.Some? {
        var steps := ReadThenReapApart(w, s, p);
      } else {
        assert !AllSay(w, s, Verdict(p));
        var y :| y in s.agent.sent && y.report.kind == KindResult && y.report.id == w.id
                 && Verdict(y.report) != Verdict(p);
        assert SentResult(w, s, y.report);
        var steps := TwoResultsApart(w, s, p, y.report);
      }
    }
  }

  // ---- Before the dispatch update has landed ----

  /** The update somewhere among the deliveries. */
  function Around(a: seq<Step>, at: int, b: seq<Step>): seq<Step> {
    a + ([DispatchUpdate(at)] + b)
  }

  /** No result anywhere, and no reaper. */
  ghost predicate NoEnd(w: Subject, s: System) {
    && !R.Terminal(s.server.row.status) && !ReaperInvolved(s)
    && (forall p :: !SentResult(w, s, p)) && (forall e :: Issued(s, e) ==> !ES.IsResult(e, w.id))
    && (forall e :: e in s.shown ==> e in s.published)
  }

  lemma StepNoEnd(w: Subject, s: System, t: Step)
    requires NoEnd(w, s) && Enabled(w, s, t) && Delivery(t)
    ensures NoEnd(w, Next(w, s, t))
  {
    if t.Publish? {
      PublishKeeps(s, w, t.j);
    } else if t.Deliver? {
      assert s.agent.sent[t.i] in s.agent.sent && !SentResult(w, s, s.agent.sent[t.i].report);
    }
    assert forall p :: SentResult(w, Next(w, s, t), p) <==> SentResult(w, s, p);
  }

  lemma {:induction false} RunAround(w: Subject, s: System, a: seq<Step>, rest: seq<Step>)
    requires Legal(w, s, a + rest)
    ensures Legal(w, s, a) && Legal(w, Run(w, s, a), rest)
    ensures Run(w, s, a + rest) == Run(w, Run(w, s, a), rest)
    decreases |a|
  {
    if a == [] {
      assert a + rest == rest;
    } else {
      assert (a + rest)[1..] == a[1..] + rest;
      RunAround(w, Next(w, s, a[0]), a[1..], rest);
    }
  }

  lemma {:induction false} RunNoEnd(w: Subject, s: System, steps: seq<Step>)
    requires Inv(w, s) && NoEnd(w, s) && Legal(w, s, steps) && Deliveries(steps)
    ensures Inv(w, Run(w, s, steps)) && NoEnd(w, Run(w, s, steps))
    decreases |steps|
  {
    if steps != [] {
      assert steps[0] in steps;
      StepInv(w, s, steps[0]);
      StepNoEnd(w, s, steps[0]);
      RunNoEnd(w, Next(w, s, steps[0]), steps[1..]);
    }
  }

  /** The event in hand is published and shown. */
  lemma ShowIt(w: Subject, s: System, e: ES.Event) returns (steps: seq<Step>)
    requires s.pending == [e] && s.published == [] && s.shown == []
    ensures Legal(w, s, steps) && Deliveries(steps)
    ensures Run(w, s, steps) == s.(pending := [], published := [e], shown := [e])
  {
    var s1 := Next(w, s, Publish(0));
    assert s1.pending == [] && s1.published == [e];
    var s2 := Next(w, s1, Show(0));
    assert s2.shown == [e];
    steps := [Publish(0)] + ([Show(0)] + []);
    RunCons(w, s1, Show(0), []);
    RunCons(w, s, Publish(0), [Show(0)] + []);
  }

  /** A result handled before the update: the browser has finished, the row is live again. */
  lemma FastResultApart(w: Subject, s: System, p: Report, at: int) returns (a: seq<Step>, b: seq<Step>)
    requires Inv(w, s) && Undelivered(s) && SentResult(w, s, p)
    ensures Deliveries(a) && Deliveries(b) && Legal(w, s, Around(a, at, b)) && Apart(w, Run(w, s, Around(a, at, b)))
  {
    var i :| 0 <= i < |s.agent.sent| && s.agent.sent[i].report == p;
    assert s.agent.sent[i] in s.agent.sent;
    R.MapStatusTerminalIff(p.status);
    var e := R.EventOf(w.deviceId, p);
    var s1 := Next(w, s, Deliver(i));
    var s2 := Next(w, s1, DispatchUpdate(at));
    assert s2.pending == [e];
    a := [Deliver(i)];
    b := ShowIt(w, s2, e);
    RunCons(w, s1, DispatchUpdate(at), b);
    RunCons(w, s, Deliver(i), [DispatchUpdate(at)] + b);
    ShownOne(e, w.id);
    LiveName(Verdict(p));
  }

  lemma ShownOne(e: ES.Event, c: string)
    requires ES.IsResult(e, c)
    ensures c in ES.Fold([e]).runs && ES.Fold([e]).runs[c].finished && ES.Fold([e]).runs[c].status == e.status
  {
    assert [e][0] == e;
    ES.FinishedIsLastResult([e], c);
  }

  lemma LiveName(v: R.RowStatus)
    requires R.Terminal(v)
    ensures R.StatusName(v) != R.StatusName(R.DISPATCHED)
  {
    assert "SUCCEEDED"[0] == 'S' && "FAILED"[0] == 'F' && "TIMEOUT"[0] == 'T' && "CANCELED"[0] == 'C';
    assert "DISPATCHED"[0] == 'D';
  }

  /** While the update is still to come the condition is another: some schedule with the update
      in it ends apart if and only if any result was sent, for the update undoes it. */
  lemma UndispatchedApartIff(w: Subject, s: System, at: int)
    requires Inv(w, s) && Undelivered(s) && !ReaperInvolved(s)
    ensures (exists a, b :: Deliveries(a) && Deliveries(b) && Legal(w, s, Around(a, at, b))
                            && Apart(w, Run(w, s, Around(a, at, b))))
            <==> exists p :: SentResult(w, s, p)
  {
    if p :| SentResult(w, s, p) {
      var a, b := FastResultApart(w, s, p, at);
    } else {
      forall a, b | Deliveries(a) && Deliveries(b) && Legal(w, s, Around(a, at, b))
        ensures !Apart(w, Run(w, s, Around(a, at, b)))
      {
        NothingSentAgrees(w, s, a, at, b);
      }
    }
  }

  lemma NothingSentAgrees(w: Subject, s: System, a: seq<Step>, at: int, b: seq<Step>)
    requires Inv(w, s) && NoEnd(w, s) && Deliveries(a) && Deliveries(b) && Legal(w, s, Around(a, at, b))
    ensures BrowserAgrees(w, Run(w, s, Around(a, at, b)))
  {
    RunAround(w, s, a, [DispatchUpdate(at)] + b);
    var s1 := Run(w, s, a);
    RunNoEnd(w, s, a);
    assert ([DispatchUpdate(at)] + b)[1..] == b;
    var s2 := Next(w, s1, DispatchUpdate(at));
    assert Told(w, s2) && Said(w, s2, R.TIMEOUT);
    DeliveriesKeepSent(w, s2, b);
    assert forall p :: SentResult(w, s1, p) <==> SentResult(w, s2, p);
    SilentSays(w, s1);
    RunSaid(w, s2, b, R.TIMEOUT);
  }

  lemma SilentSays(w: Subject, s: System)
    requires NoEnd(w, s)
    ensures ResultsSay(w, s, R.TIMEOUT)
  {
    forall p | p in s.agent.sent && p.report.kind == KindResult && p.report.id == w.id ensures false {
      assert SentResult(w, s, p.report);
    }
  }

  // ---- Chunks ----

  /** Every chunk event is a chunk some run's sink published. */
  ghost predicate FromRun(w: Subject, s: System, e: ES.Event) {
    exists r, k :: 0 <= r < |s.runs| && 0 <= k < |s.runs[r].sunk|
      && e == R.EventOf(w.deviceId, ChunkOf(w, s.runs[r], k))
  }

  ghost predicate ChunksTraced(w: Subject, s: System) {
    && (forall e :: Issued(s, e) && ES.IsChunk(e, w.id) ==> FromRun(w, s, e))
    && (forall e :: e in s.shown ==> e in s.published)
  }

  lemma FromRunStays(w: Subject, s: System, t: Step, e: ES.Event)
    requires Enabled(w, s, t) && FromRun(w, s, e)
    ensures FromRun(w, Next(w, s, t), e)
  {
    var b := Next(w, s, t);
    var r, k :| 0 <= r < |s.runs| && 0 <= k < |s.runs[r].sunk| && e == R.EventOf(w.deviceId, ChunkOf(w, s.runs[r], k));
    assert b.runs[r].sunk[k] == s.runs[r].sunk[k];
    assert e == R.EventOf(w.deviceId, ChunkOf(w, b.runs[r], k));
  }

  lemma StepChunksTraced(w: Subject, s: System, t: Step)
    requires A.Inv(w.lim, s.agent) && ChunksTraced(w, s) && Enabled(w, s, t)
    ensures ChunksTraced(w, Next(w, s, t))
  {
    var b := Next(w, s, t);
    if t.Publish? {
      PublishKeeps(s, w, t.j);
    } else if t.Deliver? {
      assert s.agent.sent[t.i] in s.agent.sent;
    }
    forall e | Issued(b, e) && ES.IsChunk(e, w.id) ensures FromRun(w, b, e) {
      if Issued(s, e) {
        FromRunStays(w, s, t, e);
      } else if t.DeliverChunk? {
        assert e == R.EventOf(w.deviceId, ChunkOf(w, b.runs[t.r], t.k));
      }
    }
  }

  lemma {:induction false} RunChunksTraced(w: Subject, s: System, steps: seq<Step>)
    requires Inv(w, s) && ChunksTraced(w, s) && Legal(w, s, steps)
    ensures Inv(w, Run(w, s, steps)) && ChunksTraced(w, Run(w, s, steps))
    decreases |steps|
  {
    if steps != [] {
      StepInv(w, s, steps[0]);
      StepChunksTraced(w, s, steps[0]);
      RunChunksTraced(w, Next(w, s, steps[0]), steps[1..]);
    }
  }

  /** Where two runs of the command used the same number, they published the same chunk. */
  predicate RunsAgree(s: System) {
    forall q, r, k :: 0 <= q < |s.runs| && 0 <= r < |s.runs| && 0 <= k < |s.runs[q].sunk| && k < |s.runs[r].sunk| ==>
      s.runs[q].sunk[k].1.stream == s.runs[r].sunk[k].1.stream && s.runs[q].sunk[k].1.data == s.runs[r].sunk[k].1.data
  }

  lemma TracedChunksAgree(w: Subject, s: System)
    requires Inv(w, s) && ChunksTraced(w, s) && RunsAgree(s)
    ensures ES.Agree(ES.Chunks(s.shown, w.id))
  {
    forall a, b | a in ES.Chunks(s.shown, w.id) && b in ES.Chunks(s.shown, w.id) && a.seqNo == b.seqNo ensures a == b {
      var d :| d in s.shown && ES.IsChunk(d, w.id) && ES.ChunkLine(d) == a;
      var e :| e in s.shown && ES.IsChunk(e, w.id) && ES.ChunkLine(e) == b;
      assert Issued(s, d) && Issued(s, e);
      SameNumberSameChunk(w, s, d, e);
    }
  }

  lemma SameNumberSameChunk(w: Subject, s: System, d: ES.Event, e: ES.Event)
    requires Inv(w, s) && RunsAgree(s) && FromRun(w, s, d) && FromRun(w, s, e)
    requires ES.IsChunk(d, w.id) && ES.IsChunk(e, w.id) && d.seqNo == e.seqNo
    ensures ES.ChunkLine(d) == ES.ChunkLine(e)
  {
    var q, j :| 0 <= q < |s.runs| && 0 <= j < |s.runs[q].sunk| && d == R.EventOf(w.deviceId, ChunkOf(w, s.runs[q], j));
    var r, k :| 0 <= r < |s.runs| && 0 <= k < |s.runs[r].sunk| && e == R.EventOf(w.deviceId, ChunkOf(w, s.runs[r], k));
    assert CE.Conserved(s.runs[q]) && CE.Conserved(s.runs[r]);
    assert j == k;
  }

  /** A command queued at most once has one output stream, so over any run the chunks a browser
      sees agree: duplicates are duplicates, and what the reducer needs holds. */
  lemma ChunksAgree(w: Subject, s: System, steps: seq<Step>)
    requires Inv(w, s) && ChunksTraced(w, s) && Legal(w, s, steps)
    requires A.CountId(Run(w, s, steps).agent.enqueued, w.id) <= 1
    ensures ES.Agree(ES.Chunks(Run(w, s, steps).shown, w.id))
  {
    RunChunksTraced(w, s, steps);
    OneStream(w, Run(w, s, steps));
    TracedChunksAgree(w, Run(w, s, steps));
  }

  lemma OneStream(w: Subject, z: System)
    requires Inv(w, z) && A.CountId(z.agent.enqueued, w.id) <= 1
    ensures |z.runs| <= 1 && RunsAgree(z)
  {
    A.ConservedById(w.lim, z.agent, w.id);
    assert |z.runs| <= 1;
    AtMostOneStream(z);
  }

  lemma AtMostOneStream(z: System)
    requires |z.runs| <= 1
    ensures RunsAgree(z)
  {
  }

  lemma {:induction false} DeliveriesKeepRuns(w: Subject, s: System, steps: seq<Step>)
    requires Legal(w, s, steps) && Deliveries(steps)
    ensures Run(w, s, steps).runs == s.runs
    decreases |steps|
  {
    if steps != [] {
      assert steps[0] in steps;
      DeliveriesKeepRuns(w, Next(w, s, steps[0]), steps[1..]);
    }
  }

  lemma ConflictShown(w: Subject, s: System, q: nat, r: nat, k: nat) returns (steps: seq<Step>)
    requires Inv(w, s) && Undelivered(s) && q < |s.runs| && r < |s.runs| && k < |s.runs[q].sunk| && k < |s.runs[r].sunk|
    requires (s.runs[q].sunk[k].1.stream, s.runs[q].sunk[k].1.data)
      != (s.runs[r].sunk[k].1.stream, s.runs[r].sunk[k].1.data)
    ensures Legal(w, s, steps) && Deliveries(steps) && !ES.Agree(ES.Chunks(Run(w, s, steps).shown, w.id))
  {
    assert CE.Conserved(s.runs[q]) && CE.Conserved(s.runs[r]);
    var d, e := R.EventOf(w.deviceId, ChunkOf(w, s.runs[q], k)), R.EventOf(w.deviceId, ChunkOf(w, s.runs[r], k));
    var s1 := Next(w, s, DeliverChunk(q, k));
    assert s1.pending == [d] && Next(w, s1, DeliverChunk(r, k)).pending == [d, e];
    steps := CrossAfter(w, s, DeliverChunk(q, k), DeliverChunk(r, k), d, e);
    var shown := Run(w, s, steps).shown;
    assert d in shown && e in shown && ES.IsChunk(d, w.id) && ES.IsChunk(e, w.id);
    assert ES.ChunkLine(d) in ES.Chunks(shown, w.id) && ES.ChunkLine(e) in ES.Chunks(shown, w.id);
    assert ES.ChunkLine(d).seqNo == ES.ChunkLine(e).seqNo && ES.ChunkLine(d) != ES.ChunkLine(e);
  }

  /** The exact condition for a command that ran more than once: some schedule shows a browser
      two different chunks of one number if and only if two runs published such chunks. */
  lemma ConflictIff(w: Subject, s: System)
    requires Inv(w, s) && Undelivered(s)
    ensures (exists steps ::
              Legal(w, s, steps) && Deliveries(steps) && !ES.Agree(ES.Chunks(Run(w, s, steps).shown, w.id)))
            <==> !RunsAgree(s)
  {
    if RunsAgree(s) {
      assert ChunksTraced(w, s);
      forall steps | Legal(w, s, steps) && Deliveries(steps) ensures ES.Agree(ES.Chunks(Run(w, s, steps).shown, w.id)) {
        RunChunksTraced(w, s, steps);
        DeliveriesKeepRuns(w, s, steps);
        TracedChunksAgree(w, Run(w, s, steps));
      }
    } else {
      var q, r, k :| 0 <= q < |s.runs| && 0 <= r < |s.runs| && 0 <= k < |s.runs[q].sunk| && k < |s.runs[r].sunk|
        && !(s.runs[q].sunk[k].1.stream == s.runs[r].sunk[k].1.stream
             && s.runs[q].sunk[k].1.data == s.runs[r].sunk[k].1.data);
      var steps := ConflictShown(w, s, q, r, k);
    }
  }

  // ---- The output a browser shows ----

  /** In any run of a command queued at most once, never refused and never expired late, a
      browser that has finished it shows that run's result and, strictly in sequence, exactly
      the chunks it received, or the result's output if it received none; unless, with chunks, a
      result with output came first that is not itself made of them. */
  lemma BrowserShowsTheOutput(w: Subject, s: System, steps: seq<Step>) returns (r: ES.Event)
    requires Inv(w, s) && Told(w, s) && Traced(w, s) && ChunksTraced(w, s) && Legal(w, s, steps)
    requires NoDispatch(steps) && NoOverdue(w, s, steps) && OneRun(w, Run(w, s, steps))
    requires BrowserFinished(w, Run(w, s, steps))
    ensures
      var z := Run(w, s, steps);
      var run := ES.Fold(z.shown).runs[w.id];
      && ES.IsResult(r, w.id) && r in z.shown && ES.Carries(run, r) && ES.StrictlySorted(run.lines)
      && (Elems(run.lines) == ES.Expected(ES.Chunks(z.shown, w.id), r) <==>
            || ES.ResultsAfterChunks(z.shown, w.id)
            || Elems(ES.FallbackLines(r.stdout, r.stderr)) <= ES.Chunks(z.shown, w.id))
  {
    RunTold(w, s, steps);
    RunTraced(w, s, steps);
    ChunksAgree(w, s, steps);
    var z := Run(w, s, steps);
    ES.FinishedIsLastResult(z.shown, w.id);
    r := ES.LastResult(z.shown, w.id).value;
    OneResultShown(w, z, r);
    ES.ShowsExpectedIff(z.shown, w.id, r);
    ES.FoldShows(z.shown, w.id);
  }

  lemma OneResultShown(w: Subject, z: System, r: ES.Event)
    requires Inv(w, z) && Told(w, z) && Traced(w, z) && OneRun(w, z) && ES.IsResult(r, w.id) && r in z.shown
    ensures forall e :: e in z.shown && ES.IsResult(e, w.id) ==> e == r
  {
    assert Issued(z, r);
    var p :| SentResult(w, z, p) && r == R.EventOf(w.deviceId, p);
    forall e | e in z.shown && ES.IsResult(e, w.id) ensures e == r {
      assert Issued(z, e);
      var q :| SentResult(w, z, q) && e == R.EventOf(w.deviceId, q);
      OneResult(w, z, p, q);
    }
  }
}
