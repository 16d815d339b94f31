/** The agent's command intake and worker pool (agent/internal/dispatch/dispatcher.go).
    The MQTT client runs handlers concurrently (SetOrderMatters(false)), so a delivery
    is several atomic steps, and worker steps, other deliveries and clock ticks may fall
    between any two of them. A message joins `sent` in the step that decides on it, together with
    that step's change of the cache or the queue; when it leaves for the broker is not part of
    this model, and a network in front of it delivers what was sent at any later time, in any
    order. */
module Dispatcher {
  import opened Prelude
  import opened Protocol
  import D = DedupeCache

  // ---- Intake: what one payload asks for ----

  datatype Command = Command(
    version: int, id: string, batchId: string, typ: string, expiresAt: Option<int>,
    command: string, targetId: string, groups: seq<string>, stream: bool)

  const VERSION := 1
  const TYPE_EXEC := "exec"
  const TYPE_CANCEL := "cancel"
  const TYPE_PING := "ping"
  const TYPE_COLLECT_FACTS := "collect_facts"
  const TYPE_UPDATE_GROUPS := "update_groups"

  datatype Verdict =
    | Drop
    | Refuse(id: string, code: string)
    | CancelRun(targetId: string)
    | SetGroups(id: string, groups: seq<string>)
    | Work(cmd: Command)

  predicate WellFormed(c: Command) {
    && c.version == VERSION && c.id != ""
    && (if c.typ == "" || c.typ == TYPE_EXEC then c.command != ""
        else if c.typ == TYPE_CANCEL then c.targetId != ""
        else c.typ in {TYPE_UPDATE_GROUPS, TYPE_PING, TYPE_COLLECT_FACTS})
  }

  function Reject(id: string, code: string): Verdict {
    if id == "" then Drop else Refuse(id, code)
  }

  /** `derive` is the name-based id of a broadcast batch on this device. */
  function Classify(payload: Option<Command>, deviceId: string,
                    derive: (string, string) -> string, now: int): Verdict {
    if payload.None? then Drop else
      var c0 := payload.value;
      var c1 := if c0.typ == "" then c0.(typ := TYPE_EXEC) else c0;
      var c := if c1.id == "" && c1.batchId != "" then c1.(id := derive(c1.batchId, deviceId)) else c1;
      if !WellFormed(c) then Reject(c.id, "invalid_command")
      else if c.expiresAt.Some? && now > c.expiresAt.value then Reject(c.id, "expired")
      else if c.typ == TYPE_CANCEL then CancelRun(c.targetId)
      else if c.typ == TYPE_UPDATE_GROUPS then SetGroups(c.id, c.groups)
      else Work(c)
  }

  predicate Runnable(c: Command) {
    c.id != "" && c.typ in {TYPE_EXEC, TYPE_PING, TYPE_COLLECT_FACTS}
  }

  /** Only well-formed, unexpired work reaches the queue, under the sender's id or, for a
      broadcast, under the derived one. */
  lemma WorkIsRunnable(payload: Option<Command>, deviceId: string, derive: (string, string) -> string, now: int)
    requires Classify(payload, deviceId, derive, now).Work?
    ensures
      var c := Classify(payload, deviceId, derive, now).cmd;
      && payload.Some? && Runnable(c) && WellFormed(c)
      && c.version == 1 && c.id != "" && c.typ in {"exec", "ping", "collect_facts"}
      && (c.typ == "exec" ==> c.command != "" && c.command == payload.value.command)
      && (c.expiresAt.Some? ==> now <= c.expiresAt.value)
      && c.id == (if payload.value.id == "" then derive(payload.value.batchId, deviceId) else payload.value.id)
      && (payload.value.id == "" ==> payload.value.batchId != "")
  {
  }

  /** The intake in the payload's own fields. Work is a command of version 1 under an id of its own
      or a broadcast's derived one, not expired, that executes something, pings or collects facts. */
  lemma WorkIff(p: Command, deviceId: string, derive: (string, string) -> string, now: int)
    ensures
      var id := if p.id == "" && p.batchId != "" then derive(p.batchId, deviceId) else p.id;
      Classify(Some(p), deviceId, derive, now).Work? <==>
        && p.version == 1 && id != "" && (p.expiresAt.Some? ==> now <= p.expiresAt.value)
        && (((p.typ == "" || p.typ == "exec") && p.command != "") || p.typ == "ping" || p.typ == "collect_facts")
    ensures
      var v := Classify(Some(p), deviceId, derive, now);
      v.Work? ==>
        v.cmd == p.(id := if p.id == "" && p.batchId != "" then derive(p.batchId, deviceId) else p.id,
                    typ := if p.typ == "" then "exec" else p.typ)
  {
  }

  /** Control messages: a cancel that names its target, and a membership change. */
  lemma ControlIff(p: Command, deviceId: string, derive: (string, string) -> string, now: int)
    ensures
      var id := if p.id == "" && p.batchId != "" then derive(p.batchId, deviceId) else p.id;
      var timely := p.version == 1 && id != "" && (p.expiresAt.Some? ==> now <= p.expiresAt.value);
      var v := Classify(Some(p), deviceId, derive, now);
      && (v.CancelRun? <==> timely && p.typ == "cancel" && p.targetId != "")
      && (v.CancelRun? ==> v.targetId == p.targetId)
      && (v.SetGroups? <==> timely && p.typ == "update_groups")
      && (v.SetGroups? ==> v.id == id && v.groups == p.groups)
  {
  }

  /** Everything else is refused, unless there is no id to answer under: for its form, or, if
      that is right, because it came too late. */
  lemma RefusedIff(p: Command, deviceId: string, derive: (string, string) -> string, now: int)
    ensures
      var id := if p.id == "" && p.batchId != "" then derive(p.batchId, deviceId) else p.id;
      var malformed :=
        || p.version != 1
        || ((p.typ == "" || p.typ == "exec") && p.command == "")
        || (p.typ == "cancel" && p.targetId == "")
        || p.typ !in {"", "exec", "cancel", "update_groups", "ping", "collect_facts"};
      var v := Classify(Some(p), deviceId, derive, now);
      && (v == Refuse(id, "invalid_command") <==> id != "" && malformed)
      && (v == Refuse(id, "expired") <==> id != "" && !malformed && p.expiresAt.Some? && now > p.expiresAt.value)
      && (v.Refuse? ==> v.id == id && (v.code == "invalid_command" || v.code == "expired"))
      && (v == Drop <==> id == "")
    ensures Classify(None, deviceId, derive, now) == Drop
  {
    assert "invalid_command"[0] == 'i' && "expired"[0] == 'e';
  }

  // ---- Outcome of a run ----

  datatype Outcome =
    | SpawnFailed(error: string)
    | Ran(timedOut: bool, canceled: bool, exitCode: int, stdout: string, stderr: string)

  function FinalReport(c: Command, o: Outcome): Report {
    if c.typ == TYPE_PING then Final(c.id, Completed, None, "pong", "", "")
    else if c.typ == TYPE_COLLECT_FACTS then Final(c.id, Completed, None, "", "", "")
    else match o
      case SpawnFailed(e) => Final(c.id, Rejected, None, "", "", e)
      case Ran(timedOut, canceled, exit, out, err) =>
        var status := if timedOut then TimedOut else if canceled then Canceled
                      else if exit != 0 then Failed else Completed;
        Final(c.id, status, Some(exit), out, err, "")
  }

  /** What a run reports: its own outcome for a command, "pong" for a ping. */
  lemma OutcomeReported(c: Command, o: Outcome)
    ensures
      var r := FinalReport(c, o);
      && r.id == c.id && r.kind == KindResult
      && (c.typ == "ping" ==>
            r.status == Some(Completed) && r.exitCode == None && r.stdout == "pong" && r.stderr == r.error == "")
      && (c.typ == "collect_facts" ==>
            r.status == Some(Completed) && r.exitCode == None && r.stdout == r.stderr == r.error == "")
      && (c.typ == "exec" && o.SpawnFailed? ==>
            r.status == Some(Rejected) && r.exitCode == None && r.stdout == r.stderr == "" && r.error == o.error)
      && (c.typ == "exec" && o.Ran? ==>
            && r.exitCode == Some(o.exitCode) && r.stdout == o.stdout && r.stderr == o.stderr && r.error == ""
            && (o.timedOut ==> r.status == Some(TimedOut))
            && (!o.timedOut && o.canceled ==> r.status == Some(Canceled))
            && (!o.timedOut && !o.canceled && o.exitCode != 0 ==> r.status == Some(Failed))
            && (!o.timedOut && !o.canceled && o.exitCode == 0 ==> r.status == Some(Completed)))
  {
    assert "ping"[0] == 'p' && "collect_facts"[0] == 'c' && "exec"[0] == 'e';
  }

  // ---- The agent as a state machine ----

  datatype Source = Ack | Replayed | RunResult | Refusal | ControlResult

  datatype Publication = Publication(source: Source, report: Report)

  datatype Limits = Limits(queueDepth: nat, maxConcurrent: nat)

  /** `adding`, `refusing` and `replaying` are handlers between two of their steps;
      `enqueued` and `done` are histories. */
  datatype Agent = Agent(
    seen: D.State, adding: seq<Command>, refusing: seq<Command>, replaying: seq<string>,
    queue: seq<Command>, executing: seq<Command>, done: seq<(Command, Report)>,
    enqueued: seq<Command>, sent: seq<Publication>, now: int)

  datatype Step =
    | Tick(to: int)
    | Record(cmd: Command, evictAt: int, checkAt: int, stampAt: int)  // seen.Add
    | Offer(i: nat)                                                     // the non-blocking send
    | Forget(i: nat)                                                    // queue was full
    | Replay(i: nat)                                                    // answer a duplicate
    | Take                                                              // a worker receives
    | Finish(i: nat, outcome: Outcome)
    | RefuseNow(id: string, code: string)
    | GroupsDone(id: string)

  predicate Enabled(lim: Limits, a: Agent, s: Step) {
    match s
    case Tick(to) => a.now <= to
    case Record(c, e, k, t) => Runnable(c) && a.now <= e <= k <= t
    case Offer(i) => i < |a.adding|
    case Forget(i) => i < |a.refusing|
    case Replay(i) => i < |a.replaying|
    case Take => a.queue != [] && |a.executing| < lim.maxConcurrent
    case Finish(i, _) => i < |a.executing|
    case RefuseNow(id, _) => id != ""
    case GroupsDone(id) => id != ""
  }

  function Busy(id: string): Report {
    Final(id, Rejected, None, "", "", "queue full")
  }

  /** What a duplicate is told: nothing if forgotten, "running" before the run ended,
      afterwards the stored result. */
  function Answer(s: D.State, id: string): seq<Publication> {
    if id !in s.entries then []
    else if s.entries[id].running then [Publication(Ack, Accepted(id, Running))]
    else if s.entries[id].result.Some? then [Publication(Replayed, s.entries[id].result.value)]
    else []
  }

  function Next(lim: Limits, a: Agent, s: Step): Agent
    requires Enabled(lim, a, s)
  {
    match s
    case Tick(to) => a.(now := to)
    case Record(c, e, k, t) =>
      var (seen, first) := D.Added(a.seen, c.id, e, k, t);
      if first then a.(seen := seen, adding := a.adding + [c], now := t)
      else a.(seen := seen, replaying := a.replaying + [c.id], now := t)
    case Offer(i) =>
      var c := a.adding[i];
      if |a.queue| < lim.queueDepth
      then a.(adding := RemoveAt(a.adding, i), queue := a.queue + [c], enqueued := a.enqueued + [c],
              sent := a.sent + [Publication(Ack, Accepted(c.id, Queued))])
      else a.(adding := RemoveAt(a.adding, i), refusing := a.refusing + [c])
    case Forget(i) =>
      var id := a.refusing[i].id;
      a.(refusing := RemoveAt(a.refusing, i), seen := D.Removed(a.seen, id),
         sent := a.sent + [Publication(Refusal, Busy(id))])
    case Replay(i) =>
      a.(replaying := RemoveAt(a.replaying, i), sent := a.sent + Answer(a.seen, a.replaying[i]))
    case Take =>
      var c := a.queue[0];
      a.(queue := a.queue[1..], executing := a.executing + [c],
         sent := a.sent + if c.typ == TYPE_EXEC then [Publication(Ack, Accepted(c.id, Running))] else [])
    case Finish(i, o) =>
      var c := a.executing[i];
      var r := FinalReport(c, o);
      a.(executing := RemoveAt(a.executing, i), seen := D.WithResult(a.seen, c.id, r),
         done := a.done + [(c, r)], sent := a.sent + [Publication(RunResult, r)])
    case RefuseNow(id, code) =>
      a.(sent := a.sent + [Publication(Refusal, Final(id, Rejected, None, "", "", code))])
    case GroupsDone(id) =>
      var r := Final(id, Completed, None, "", "", "");
      a.(seen := D.WithResult(a.seen, id, r), sent := a.sent + [Publication(ControlResult, r)])
  }

  function Start(now: int): Agent {
    Agent(D.Fresh(1024, D.DEFAULT_TTL), [], [], [], [], [], [], [], [], now)
  }

  predicate Legal(lim: Limits, a: Agent, steps: seq<Step>)
    decreases |steps|
  {
    steps == [] || (Enabled(lim, a, steps[0]) && Legal(lim, Next(lim, a, steps[0]), steps[1..]))
  }

  function Run(lim: Limits, a: Agent, steps: seq<Step>): Agent
    requires Legal(lim, a, steps)
    decreases |steps|
  {
    if steps == [] then a else Run(lim, Next(lim, a, steps[0]), steps[1..])
  }

  // ---- Conservation of work, bounded pools, terminal results ----

  function Commands(done: seq<(Command, Report)>): seq<Command> {
    seq(|done|, i requires 0 <= i < |done| => done[i].0)
  }

  function Reports(done: seq<(Command, Report)>): seq<Report> {
    seq(|done|, i requires 0 <= i < |done| => done[i].1)
  }

  function From(sent: seq<Publication>, source: Source): seq<Report> {
    if sent == [] then []
    else From(sent[..|sent| - 1], source)
         + if sent[|sent| - 1].source == source then [sent[|sent| - 1].report] else []
  }

  lemma {:induction false} FromAppend(s: seq<Publication>, t: seq<Publication>, source: Source)
    ensures From(s + t, source) == From(s, source) + From(t, source)
  {
    if t == [] {
      assert s + t == s;
    } else {
      FromAppend(s, t[..|t| - 1], source);
      assert (s + t)[..|s + t| - 1] == s + t[..|t| - 1];
    }
  }

  predicate IsTerminalResult(r: Report) {
    r.kind == KindResult && r.status.Some? && TerminalStatus(r.status.value)
  }

  /** A stored result was produced by a finished run of that id, or by a membership
      change carrying that id. */
  ghost predicate ProducedBy(a: Agent, id: string, r: Report) {
    || (exists k :: 0 <= k < |a.done| && a.done[k].0.id == id && a.done[k].1 == r)
    || (r.id == id && Publication(ControlResult, r) in a.sent)
  }

  ghost predicate EntryExplained(a: Agent, id: string)
    requires id in a.seen.entries
  {
    var e := a.seen.entries[id];
    && (e.running <==> e.result.None?)
    && (e.result.Some? ==> IsTerminalResult(e.result.value) && e.result.value.id == id
                           && ProducedBy(a, id, e.result.value))
  }

  /** Every command accepted into the queue is in exactly one of queued, executing,
      finished; both pools respect their bounds. */
  ghost predicate Conserved(lim: Limits, a: Agent) {
    && |a.queue| <= lim.queueDepth && |a.executing| <= lim.maxConcurrent
    && multiset(a.enqueued) == multiset(a.queue) + multiset(a.executing) + multiset(Commands(a.done))
  }

  /** Each finished command published its one result, in finishing order, and no message
      of kind `result` carries a status that is not terminal. */
  ghost predicate Reported(a: Agent) {
    && From(a.sent, RunResult) == Reports(a.done)
    && (forall k :: 0 <= k < |a.done| ==> a.done[k].1.id == a.done[k].0.id && IsTerminalResult(a.done[k].1))
    && (forall p :: p in a.sent && p.report.kind == KindResult ==> IsTerminalResult(p.report))
  }

  ghost predicate Inv(lim: Limits, a: Agent) {
    && D.Valid(a.seen)
    && Conserved(lim, a)
    && Reported(a)
    && (forall id :: id in a.seen.entries ==> EntryExplained(a, id))
    && ReplaysExplained(a)
  }

  /** Every result replayed to a duplicate was produced before for that id. */
  ghost predicate ReplaysExplained(a: Agent) {
    && (forall p :: p in a.sent && p.source == Replayed ==> ProducedBy(a, p.report.id, p.report))
    && (forall p :: p in a.sent ==> p.report.kind == if p.source == Ack then KindAccepted else KindResult)
  }

  lemma StepConserved(lim: Limits, a: Agent, s: Step)
    requires Conserved(lim, a) && Enabled(lim, a, s)
    ensures Conserved(lim, Next(lim, a, s))
  {
    match s {
      case Take => TakeConserved(lim, a);
      case Finish(i, o) => FinishConserved(lim, a, i, o);
      case _ =>
    }
  }

  lemma TakeConserved(lim: Limits, a: Agent)
    requires Conserved(lim, a) && Enabled(lim, a, Take)
    ensures Conserved(lim, Next(lim, a, Take))
  {
    assert a.queue == [a.queue[0]] + a.queue[1..];
  }

  lemma FinishConserved(lim: Limits, a: Agent, i: nat, o: Outcome)
    requires Conserved(lim, a) && Enabled(lim, a, Finish(i, o))
    ensures Conserved(lim, Next(lim, a, Finish(i, o)))
  {
    RemoveAtMultiset(a.executing, i);
    assert Commands(Next(lim, a, Finish(i, o)).done) == Commands(a.done) + [a.executing[i]];
  }

  /** What one step publishes: at most one message, a run result only when a run ends. */
  lemma StepPublishes(lim: Limits, a: Agent, s: Step) returns (added: seq<Publication>)
    requires Enabled(lim, a, s)
    requires forall id :: id in a.seen.entries ==> EntryExplained(a, id)
    ensures Next(lim, a, s).sent == a.sent + added && |added| <= 1
    ensures added != [] && added[0].report.kind == KindResult ==> IsTerminalResult(added[0].report)
    ensures added != [] && added[0].source == RunResult <==> s.Finish?
    ensures added != [] && added[0].source == Replayed ==>
              s.Replay? && ProducedBy(a, added[0].report.id, added[0].report)
    ensures added != [] ==> added[0].report.kind == if added[0].source == Ack then KindAccepted else KindResult
    ensures s.Finish? ==> added == [Publication(RunResult, FinalReport(a.executing[s.i], s.outcome))]
  {
    added := [];
    match s {
      case Offer(i) =>
        if |a.queue| < lim.queueDepth { added := [Publication(Ack, Accepted(a.adding[i].id, Queued))]; }
      case Forget(i) => added := [Publication(Refusal, Busy(a.refusing[i].id))];
      case Replay(i) => added := Answer(a.seen, a.replaying[i]);
      case Take =>
        if a.queue[0].typ == TYPE_EXEC { added := [Publication(Ack, Accepted(a.queue[0].id, Running))]; }
      case Finish(i, o) => added := [Publication(RunResult, FinalReport(a.executing[i], o))];
      case RefuseNow(id, code) => added := [Publication(Refusal, Final(id, Rejected, None, "", "", code))];
      case GroupsDone(id) => added := [Publication(ControlResult, Final(id, Completed, None, "", "", ""))];
      case _ =>
    }
  }

  lemma FromOne(added: seq<Publication>, source: Source)
    requires |added| <= 1
    ensures From(added, source) == if added != [] && added[0].source == source then [added[0].report] else []
  {
    if added != [] {
      assert added[..0] == [];
    }
  }

  lemma ReportedExtends(a: Agent, b: Agent, added: seq<Publication>, ended: seq<(Command, Report)>)
    requires Reported(a) && b.sent == a.sent + added && b.done == a.done + ended
    requires From(added, RunResult) == Reports(ended)
    requires forall p :: p in added && p.report.kind == KindResult ==> IsTerminalResult(p.report)
    requires forall e :: e in ended ==> e.1.id == e.0.id && IsTerminalResult(e.1)
    ensures Reported(b)
  {
    FromAppend(a.sent, added, RunResult);
    assert Reports(b.done) == Reports(a.done) + Reports(ended);
  }

  lemma StepReported(lim: Limits, a: Agent, s: Step)
    requires Reported(a) && Enabled(lim, a, s)
    requires forall id :: id in a.seen.entries ==> EntryExplained(a, id)
    ensures Reported(Next(lim, a, s))
  {
    var added := StepPublishes(lim, a, s);
    FromOne(added, RunResult);
    var ended := if s.Finish? then [(a.executing[s.i], FinalReport(a.executing[s.i], s.outcome))] else [];
    ReportedExtends(a, Next(lim, a, s), added, ended);
  }

  lemma StepExplained(lim: Limits, a: Agent, s: Step, id: string)
    requires D.Valid(a.seen) && Enabled(lim, a, s)
    requires forall x :: x in a.seen.entries ==> EntryExplained(a, x)
    requires id in Next(lim, a, s).seen.entries
    ensures EntryExplained(Next(lim, a, s), id)
  {
    var b := Next(lim, a, s);
    match s {
      case Record(c, e, k, t) =>
        D.EvictMakesRoom(a.seen, e);
      case Finish(i, o) =>
        assert b.done[|a.done|] == (a.executing[i], FinalReport(a.executing[i], o));
      case _ =>
    }
    if id in a.seen.entries && b.seen.entries[id] == a.seen.entries[id] && a.seen.entries[id].result.Some? {
      var r := a.seen.entries[id].result.value;
      if exists k :: 0 <= k < |a.done| && a.done[k].0.id == id && a.done[k].1 == r {
        var k :| 0 <= k < |a.done| && a.done[k].0.id == id && a.done[k].1 == r;
        assert b.done[k] == a.done[k];
      }
    }
  }

  /** Histories only grow, so what was produced stays produced. */
  lemma ProducedByGrows(lim: Limits, a: Agent, s: Step, id: string, r: Report)
    requires Enabled(lim, a, s) && ProducedBy(a, id, r)
    ensures ProducedBy(Next(lim, a, s), id, r)
  {
    var b := Next(lim, a, s);
    if exists k :: 0 <= k < |a.done| && a.done[k].0.id == id && a.done[k].1 == r {
      var k :| 0 <= k < |a.done| && a.done[k].0.id == id && a.done[k].1 == r;
      assert b.done[k] == a.done[k];
    }
  }

  lemma StepReplaysExplained(lim: Limits, a: Agent, s: Step)
    requires ReplaysExplained(a) && Enabled(lim, a, s)
    requires forall id :: id in a.seen.entries ==> EntryExplained(a, id)
    ensures ReplaysExplained(Next(lim, a, s))
  {
    var b := Next(lim, a, s);
    var added := StepPublishes(lim, a, s);
    forall p | p in b.sent && p.source == Replayed
      ensures ProducedBy(b, p.report.id, p.report)
    {
      if p in a.sent {
        ProducedByGrows(lim, a, s, p.report.id, p.report);
      } else {
        assert p == added[0] && s.Replay?;
        ProducedByGrows(lim, a, s, p.report.id, p.report);
      }
    }
  }

  lemma StepInv(lim: Limits, a: Agent, s: Step)
    requires Inv(lim, a) && Enabled(lim, a, s)
    ensures Inv(lim, Next(lim, a, s))
    ensures Next(lim, a, s).seen.capacity == a.seen.capacity && Next(lim, a, s).seen.ttl == a.seen.ttl
  {
    StepConserved(lim, a, s);
    StepReported(lim, a, s);
    StepReplaysExplained(lim, a, s);
    match s {
      case Record(c, e, k, t) => D.AddValid(a.seen, c.id, e, k, t);
      case Forget(i) => D.RemoveCompleteValid(a.seen, a.refusing[i].id, Busy(""));
      case Finish(i, o) => D.RemoveCompleteValid(a.seen, a.executing[i].id, FinalReport(a.executing[i], o));
      case GroupsDone(id) => D.RemoveCompleteValid(a.seen, id, Final(id, Completed, None, "", "", ""));
      case _ =>
    }
    forall id | id in Next(lim, a, s).seen.entries
      ensures EntryExplained(Next(lim, a, s), id)
    {
      StepExplained(lim, a, s, id);
    }
  }

  /** All of the above holds after any interleaving. */
  lemma {:induction false} RunInv(lim: Limits, a: Agent, steps: seq<Step>)
    requires Inv(lim, a) && Legal(lim, a, steps)
    ensures Inv(lim, Run(lim, a, steps))
    decreases |steps|
  {
    if steps != [] {
      StepInv(lim, a, steps[0]);
      RunInv(lim, Next(lim, a, steps[0]), steps[1..]);
    }
  }

  lemma StartInv(lim: Limits, now: int)
    ensures Inv(lim, Start(now))
  {
    assert multiset(Commands([])) == multiset{};
  }

  // ---- At most one execution ----

  function CountId(s: seq<Command>, id: string): nat {
    if s == [] then 0 else (if s[0].id == id then 1 else 0) + CountId(s[1..], id)
  }

  lemma {:induction false} CountIdConcat(s: seq<Command>, t: seq<Command>, id: string)
    ensures CountId(s + t, id) == CountId(s, id) + CountId(t, id)
  {
    if s == [] {
      assert s + t == t;
    } else {
      assert (s + t)[1..] == s[1..] + t;
      CountIdConcat(s[1..], t, id);
    }
  }

  lemma CountIdRemoveAt(s: seq<Command>, i: nat, id: string)
    requires i < |s|
    ensures CountId(s, id) == CountId(RemoveAt(s, i), id) + if s[i].id == id then 1 else 0
  {
    assert s == s[..i] + ([s[i]] + s[i + 1..]);
    CountIdConcat(s[..i], [s[i]] + s[i + 1..], id);
    CountIdConcat([s[i]], s[i + 1..], id);
    CountIdConcat(s[..i], s[i + 1..], id);
  }

  lemma {:induction false} CountIdPermutation(s: seq<Command>, t: seq<Command>, id: string)
    requires multiset(s) == multiset(t)
    ensures CountId(s, id) == CountId(t, id)
    decreases |s|
  {
    if s == [] {
      assert |multiset(t)| == 0;
    } else {
      assert s[0] in multiset(t);
      var i :| 0 <= i < |t| && t[i] == s[0];
      RemoveAtMultiset(s, 0);
      assert RemoveAt(s, 0) == s[1..];
      RemoveAtMultiset(t, i);
      assert multiset(s[1..]) == multiset(s) - multiset{s[0]};
      assert multiset(RemoveAt(t, i)) == multiset(t) - multiset{t[i]};
      CountIdRemoveAt(t, i, id);
      CountIdPermutation(s[1..], RemoveAt(t, i), id);
    }
  }

  function RecordedNow(a: Agent, s: Step): set<string> {
    match s
    case Record(c, e, k, t) => if D.Added(a.seen, c.id, e, k, t).1 then {c.id} else {}
    case _ => {}
  }

  /** That is, the handler goes on to offer the command. */
  lemma RecordedNowIff(lim: Limits, a: Agent, s: Step)
    requires Enabled(lim, a, s)
    ensures
      if s.Record? && Next(lim, a, s).adding == a.adding + [s.cmd] then RecordedNow(a, s) == {s.cmd.id}
      else RecordedNow(a, s) == {}
  {
    if s.Record? {
      assert |a.adding + [s.cmd]| == |a.adding| + 1;
    }
  }

  /** The ids a run records afresh (calls of `Add` that report "first"). */
  function RecordedIds(lim: Limits, a: Agent, steps: seq<Step>): set<string>
    requires Legal(lim, a, steps)
    decreases |steps|
  {
    if steps == [] then {} else
      RecordedNow(a, steps[0]) + RecordedIds(lim, Next(lim, a, steps[0]), steps[1..])
  }

  /** No handler of `id` finds the queue full and forgets it. */
  predicate NeverForgotten(lim: Limits, a: Agent, steps: seq<Step>, id: string)
    requires Legal(lim, a, steps)
    decreases |steps|
  {
    steps == [] ||
    (&& (steps[0].Forget? ==> a.refusing[steps[0].i].id != id)
     && NeverForgotten(lim, Next(lim, a, steps[0]), steps[1..], id))
  }

  lemma {:induction false} ClockMonotone(lim: Limits, a: Agent, steps: seq<Step>)
    requires Legal(lim, a, steps)
    ensures a.now <= Run(lim, a, steps).now
    decreases |steps|
  {
    if steps != [] {
      ClockMonotone(lim, Next(lim, a, steps[0]), steps[1..]);
    }
  }

  /** Deliveries of `id` that may still reach the queue, plus those that did. */
  function Chances(a: Agent, id: string): nat {
    CountId(a.adding, id) + CountId(a.enqueued, id)
  }

  lemma StepChances(lim: Limits, a: Agent, s: Step, id: string)
    requires Enabled(lim, a, s)
    requires s.Record? && s.cmd.id == id ==> !D.Added(a.seen, id, s.evictAt, s.checkAt, s.stampAt).1
    ensures Chances(Next(lim, a, s), id) <= Chances(a, id)
  {
    match s {
      case Record(c, e, k, t) =>
        CountIdConcat(a.adding, [c], id);
      case Offer(i) =>
        CountIdRemoveAt(a.adding, i, id);
        CountIdConcat(a.enqueued, [a.adding[i]], id);
      case _ =>
    }
  }

  lemma StepPinned(lim: Limits, a: Agent, s: Step, id: string,
                   pre: seq<string>, post: seq<string>, seen: int, others: set<string>)
    returns (pre': seq<string>, post': seq<string>)
    requires Inv(lim, a) && Enabled(lim, a, s)
    requires D.Pinned(a.seen, pre, id, post, seen, others)
    requires Next(lim, a, s).now < seen + a.seen.ttl && |others| <= a.seen.capacity - 2
    requires s.Forget? ==> a.refusing[s.i].id != id
    ensures D.Pinned(Next(lim, a, s).seen, pre', id, post', seen, others + RecordedNow(a, s))
    ensures s.Record? && s.cmd.id == id ==> !D.Added(a.seen, id, s.evictAt, s.checkAt, s.stampAt).1
    ensures s.Record? ==> Next(lim, a, s).seen.entries[id] == a.seen.entries[id]
  {
    pre', post' := pre, post;
    if s.Record? {
      pre', post' := D.AddPinned(a.seen, s.cmd.id, s.evictAt, s.checkAt, s.stampAt, pre, id, post, seen, others);
    }
  }

  /** Once a run of id ended, its retained entry is marked finished. */
  ghost predicate Settled(a: Agent, id: string) {
    (exists k :: 0 <= k < |a.done| && a.done[k].0.id == id) ==> id in a.seen.entries && !a.seen.entries[id].running
  }

  lemma StepSettled(lim: Limits, a: Agent, s: Step, id: string)
    requires Enabled(lim, a, s) && Settled(a, id)
    requires id in a.seen.entries && id in Next(lim, a, s).seen.entries
    requires s.Record? ==> Next(lim, a, s).seen.entries[id] == a.seen.entries[id]
    ensures Settled(Next(lim, a, s), id)
  {
    var b := Next(lim, a, s);
    forall k | 0 <= k < |b.done| && b.done[k].0.id == id ensures !b.seen.entries[id].running {
      if k < |a.done| {
        assert a.done[k].0.id == id;
      }
    }
  }

  lemma {:induction false} AtMostOnceFrom(
    lim: Limits, a: Agent, steps: seq<Step>, id: string,
    pre: seq<string>, post: seq<string>, seen: int, others: set<string>)
    requires Inv(lim, a) && Legal(lim, a, steps) && NeverForgotten(lim, a, steps, id)
    requires D.Pinned(a.seen, pre, id, post, seen, others)
    requires Run(lim, a, steps).now < seen + a.seen.ttl
    requires |others + RecordedIds(lim, a, steps)| <= a.seen.capacity - 2
    requires Settled(a, id)
    ensures Chances(Run(lim, a, steps), id) <= Chances(a, id)
    ensures id in Run(lim, a, steps).seen.entries && Settled(Run(lim, a, steps), id)
    decreases |steps|
  {
    if steps != [] {
      var s := steps[0];
      var b := Next(lim, a, s);
      ClockMonotone(lim, b, steps[1..]);
      RecordedSplit(lim, a, steps, others);
      var pre', post' := StepKept(lim, a, s, id, pre, post, seen, others);
      AtMostOnceFrom(lim, b, steps[1..], id, pre', post', seen, others + RecordedNow(a, s));
    }
  }

  lemma RecordedSplit(lim: Limits, a: Agent, steps: seq<Step>, others: set<string>)
    requires Legal(lim, a, steps) && steps != []
    ensures (others + RecordedNow(a, steps[0])) + RecordedIds(lim, Next(lim, a, steps[0]), steps[1..])
         == others + RecordedIds(lim, a, steps)
    ensures |others| <= |others + RecordedIds(lim, a, steps)|
  {
    SubsetCard(others, others + RecordedIds(lim, a, steps));
  }

  /** One step: the id stays pinned, gains no chance, and stays settled. */
  lemma StepKept(lim: Limits, a: Agent, s: Step, id: string,
                 pre: seq<string>, post: seq<string>, seen: int, others: set<string>)
    returns (pre': seq<string>, post': seq<string>)
    requires Inv(lim, a) && Enabled(lim, a, s) && Settled(a, id)
    requires D.Pinned(a.seen, pre, id, post, seen, others)
    requires Next(lim, a, s).now < seen + a.seen.ttl && |others| <= a.seen.capacity - 2
    requires s.Forget? ==> a.refusing[s.i].id != id
    ensures D.Pinned(Next(lim, a, s).seen, pre', id, post', seen, others + RecordedNow(a, s))
    ensures Chances(Next(lim, a, s), id) <= Chances(a, id) && Settled(Next(lim, a, s), id)
    ensures Inv(lim, Next(lim, a, s))
    ensures Next(lim, a, s).seen.ttl == a.seen.ttl && Next(lim, a, s).seen.capacity == a.seen.capacity
  {
    pre', post' := StepPinned(lim, a, s, id, pre, post, seen, others);
    StepChances(lim, a, s, id);
    StepSettled(lim, a, s, id);
    StepInv(lim, a, s);
    StepSizes(lim, a, s);
  }

  lemma StepSizes(lim: Limits, a: Agent, s: Step)
    requires D.Valid(a.seen) && Enabled(lim, a, s)
    ensures Next(lim, a, s).seen.ttl == a.seen.ttl && Next(lim, a, s).seen.capacity == a.seen.capacity
  {
    if s.Record? {
      D.AddValid(a.seen, s.cmd.id, s.evictAt, s.checkAt, s.stampAt);
    }
  }

  /** Recording an id that was never recorded pins it, with one chance to be queued. */
  lemma FirstRecord(lim: Limits, a: Agent, first: Step) returns (pre: seq<string>)
    requires Inv(lim, a) && first.Record? && Enabled(lim, a, first)
    requires first.cmd.id !in a.seen.order && Chances(a, first.cmd.id) == 0
    ensures D.Pinned(Next(lim, a, first).seen, pre, first.cmd.id, [], first.stampAt, {})
    ensures Chances(Next(lim, a, first), first.cmd.id) == 1
    ensures Settled(Next(lim, a, first), first.cmd.id)
  {
    ConservedById(lim, a, first.cmd.id);
    forall k | 0 <= k < |a.done| ensures a.done[k].0.id != first.cmd.id {
      if a.done[k].0.id == first.cmd.id {
        CountIdAt(Commands(a.done), k, first.cmd.id);
      }
    }
    D.EvictMakesRoom(a.seen, first.evictAt);
    pre := D.Evicted(a.seen, first.evictAt).order;
    assert Next(lim, a, first).seen.order == pre + [first.cmd.id] + [];
    CountIdConcat(a.adding, [first.cmd], first.cmd.id);
  }

  /** The main safety result. Take any reachable state that has never recorded `id`, record
      it at `stampAt`, and let deliveries, duplicates, workers and the clock interleave in
      any way. While less than the ttl has passed, at most capacity - 2 other ids were
      recorded, and the id was not refused for a full queue, it enters the queue at most
      once, so it is queued, executing or finished at most once in all. */
  lemma AtMostOnce(lim: Limits, a: Agent, first: Step, steps: seq<Step>)
    requires Inv(lim, a) && first.Record? && Enabled(lim, a, first)
    requires first.cmd.id !in a.seen.order && Chances(a, first.cmd.id) == 0
    requires Legal(lim, Next(lim, a, first), steps)
    requires NeverForgotten(lim, Next(lim, a, first), steps, first.cmd.id)
    requires Run(lim, Next(lim, a, first), steps).now < first.stampAt + a.seen.ttl
    requires |RecordedIds(lim, Next(lim, a, first), steps)| <= a.seen.capacity - 2
    ensures
      var b := Run(lim, Next(lim, a, first), steps);
      var id := first.cmd.id;
      && CountId(b.enqueued, id) <= 1
      && CountId(b.queue, id) + CountId(b.executing, id) + CountId(Commands(b.done), id) == CountId(b.enqueued, id)
  {
    Remembered(lim, a, first, steps);
    ConservedById(lim, Run(lim, Next(lim, a, first), steps), first.cmd.id);
  }

  /** The same run, as seen by the cache: the id stays remembered throughout. */
  lemma Remembered(lim: Limits, a: Agent, first: Step, steps: seq<Step>)
    requires Inv(lim, a) && first.Record? && Enabled(lim, a, first)
    requires first.cmd.id !in a.seen.order && Chances(a, first.cmd.id) == 0
    requires Legal(lim, Next(lim, a, first), steps)
    requires NeverForgotten(lim, Next(lim, a, first), steps, first.cmd.id)
    requires Run(lim, Next(lim, a, first), steps).now < first.stampAt + a.seen.ttl
    requires |RecordedIds(lim, Next(lim, a, first), steps)| <= a.seen.capacity - 2
    ensures
      var b := Run(lim, Next(lim, a, first), steps);
      Inv(lim, b) && Chances(b, first.cmd.id) <= 1 && first.cmd.id in b.seen.entries && Settled(b, first.cmd.id)
  {
    var id := first.cmd.id;
    var a1 := Next(lim, a, first);
    var pre := FirstRecord(lim, a, first);
    StepInv(lim, a, first);
    assert {} + RecordedIds(lim, a1, steps) == RecordedIds(lim, a1, steps);
    AtMostOnceFrom(lim, a1, steps, id, pre, [], first.stampAt, {});
    RunInv(lim, a1, steps);
  }

  /** Conservation, one id at a time. */
  lemma ConservedById(lim: Limits, a: Agent, id: string)
    requires Conserved(lim, a)
    ensures CountId(a.queue, id) + CountId(a.executing, id) + CountId(Commands(a.done), id) == CountId(a.enqueued, id)
  {
    CountIdPermutation(a.enqueued, a.queue + a.executing + Commands(a.done), id);
    CountIdConcat(a.queue + a.executing, Commands(a.done), id);
    CountIdConcat(a.queue, a.executing, id);
  }

  // ---- What a duplicate is answered ----

  lemma {:induction false} CountIdAt(s: seq<Command>, i: nat, id: string)
    requires i < |s| && s[i].id == id
    ensures CountId(s, id) >= 1
  {
    CountIdRemoveAt(s, i, id);
  }

  lemma CountIdTwo(s: seq<Command>, i: nat, j: nat, id: string)
    requires i < j < |s| && s[i].id == id && s[j].id == id
    ensures CountId(s, id) >= 2
  {
    CountIdRemoveAt(s, i, id);
    assert RemoveAt(s, i)[j - 1] == s[j];
    CountIdAt(RemoveAt(s, i), j - 1, id);
  }

  /** Take any run as in `AtMostOnce`. From the moment the run of the id ended, a duplicate is
      answered with exactly the result that run published. */
  lemma DuplicateGetsTheResult(lim: Limits, a: Agent, first: Step, steps: seq<Step>, i: nat, k: nat)
    requires Inv(lim, a) && first.Record? && Enabled(lim, a, first)
    requires first.cmd.id !in a.seen.order && Chances(a, first.cmd.id) == 0
    requires Legal(lim, Next(lim, a, first), steps)
    requires NeverForgotten(lim, Next(lim, a, first), steps, first.cmd.id)
    requires Run(lim, Next(lim, a, first), steps).now < first.stampAt + a.seen.ttl
    requires |RecordedIds(lim, Next(lim, a, first), steps)| <= a.seen.capacity - 2
    requires
      var b := Run(lim, Next(lim, a, first), steps);
      && i < |b.replaying| && b.replaying[i] == first.cmd.id
      && k < |b.done| && b.done[k].0.id == first.cmd.id
      && (forall p :: p in b.sent && p.source == ControlResult ==> p.report.id != first.cmd.id)
    ensures
      var b := Run(lim, Next(lim, a, first), steps);
      && Next(lim, b, Replay(i)).sent == b.sent + [Publication(Replayed, b.done[k].1)]
      && b.done[k].1 in From(b.sent, RunResult)
  {
    Remembered(lim, a, first, steps);
    FinishedIsReplayed(lim, Run(lim, Next(lim, a, first), steps), i, k);
  }

  lemma FinishedIsReplayed(lim: Limits, a: Agent, i: nat, k: nat)
    requires Inv(lim, a) && i < |a.replaying| && k < |a.done|
    requires var id := a.replaying[i];
      && a.done[k].0.id == id && CountId(a.enqueued, id) <= 1
      && id in a.seen.entries && !a.seen.entries[id].running
      && (forall p :: p in a.sent && p.source == ControlResult ==> p.report.id != id)
    ensures Next(lim, a, Replay(i)).sent == a.sent + [Publication(Replayed, a.done[k].1)]
    ensures a.done[k].1 in From(a.sent, RunResult)
  {
    var id := a.replaying[i];
    assert EntryExplained(a, id);
    var r := a.seen.entries[id].result.value;
    var j :| 0 <= j < |a.done| && a.done[j].0.id == id && a.done[j].1 == r;
    ConservedById(lim, a, id);
    var cs := Commands(a.done);
    assert cs[j].id == id && cs[k].id == id;
    if j < k { CountIdTwo(cs, j, k, id); } else if k < j { CountIdTwo(cs, k, j, id); }
    assert Reports(a.done)[k] == a.done[k].1;
  }

  /** All results ever published under an id that was queued at most once, and was never
      refused or used by a membership change, are one and the same message. */
  lemma ResultsAgree(lim: Limits, a: Agent, p: Publication, q: Publication)
    requires Inv(lim, a) && p in a.sent && q in a.sent
    requires p.report.kind == KindResult && q.report.kind == KindResult && p.report.id == q.report.id
    requires CountId(a.enqueued, p.report.id) <= 1
    requires forall x :: x in a.sent && (x.source == Refusal || x.source == ControlResult) ==>
      x.report.id != p.report.id
    ensures p.report == q.report
  {
    var j := RunOf(lim, a, p);
    var k := RunOf(lim, a, q);
    ConservedById(lim, a, p.report.id);
    var cs := Commands(a.done);
    assert cs[j].id == p.report.id && cs[k].id == p.report.id;
    if j < k { CountIdTwo(cs, j, k, p.report.id); } else if k < j { CountIdTwo(cs, k, j, p.report.id); }
  }

  /** The finished run a published result came from. */
  lemma RunOf(lim: Limits, a: Agent, p: Publication) returns (k: nat)
    requires Inv(lim, a) && p in a.sent && p.report.kind == KindResult
    requires p.source != Refusal && p.source != ControlResult
    requires forall x :: x in a.sent && x.source == ControlResult ==> x.report.id != p.report.id
    ensures k < |a.done| && a.done[k].0.id == p.report.id && a.done[k].1 == p.report
  {
    if p.source == RunResult {
      var i :| 0 <= i < |a.sent| && a.sent[i] == p;
      k := FromIndex(a.sent, i, RunResult);
      assert Reports(a.done)[k] == p.report;
    } else {
      assert ProducedBy(a, p.report.id, p.report);
      k :| 0 <= k < |a.done| && a.done[k].0.id == p.report.id && a.done[k].1 == p.report;
    }
  }

  lemma {:induction false} FromIndex(sent: seq<Publication>, i: nat, source: Source) returns (k: nat)
    requires i < |sent| && sent[i].source == source
    ensures k < |From(sent, source)| && From(sent, source)[k] == sent[i].report
    decreases |sent|
  {
    if i == |sent| - 1 {
      k := |From(sent, source)| - 1;
    } else {
      k := FromIndex(sent[..|sent| - 1], i, source);
    }
  }

  /** An entry is marked finished exactly when it holds a result, so a duplicate of a
      running command is acknowledged, never answered with an invented result. */
  lemma RunningDuplicateIsAcknowledged(lim: Limits, a: Agent, i: nat)
    requires Inv(lim, a) && i < |a.replaying|
    ensures
      var id := a.replaying[i];
      var answer := Next(lim, a, Replay(i)).sent[|a.sent|..];
      && (answer == [] <==> id !in a.seen.entries)
      && (answer == [Publication(Ack, Accepted(id, Running))] <==>
           id in a.seen.entries && a.seen.entries[id].result.None?)
      && (id in a.seen.entries && a.seen.entries[id].result.Some? ==>
            |answer| == 1 && answer[0].source == Replayed && ProducedBy(a, id, answer[0].report))
  {
    var id := a.replaying[i];
    var answer := Next(lim, a, Replay(i)).sent[|a.sent|..];
    assert answer == Answer(a.seen, id);
    if id in a.seen.entries {
      assert EntryExplained(a, id);
    }
  }

  // ---- The dispatcher object ----

  /** The atomic steps one undisturbed call of HandleMessage takes. `groupsOk` is the
      membership hook's answer; `None` when no hook is installed. */
  function HandlerSteps(lim: Limits, a: Agent, v: Verdict, groupsOk: Option<bool>,
                        evictAt: int, checkAt: int, stampAt: int): seq<Step> {
    match v
    case Drop => []
    case CancelRun(_) => []
    case Refuse(id, code) => [RefuseNow(id, code)]
    case SetGroups(id, _) =>
      if groupsOk.None? then [RefuseNow(id, "unsupported_type")]
      else if !groupsOk.value then [RefuseNow(id, "internal")]
      else [GroupsDone(id)]
    case Work(c) =>
      var record := Record(c, evictAt, checkAt, stampAt);
      if !D.Added(a.seen, c.id, evictAt, checkAt, stampAt).1 then [record, Replay(|a.replaying|)]
      else if |a.queue| < lim.queueDepth then [record, Offer(|a.adding|)]
      else [record, Offer(|a.adding|), Forget(|a.refusing|)]
  }

  /** The same call as one update of the state. */
  function Admitted(lim: Limits, a: Agent, c: Command, evictAt: int, checkAt: int, stampAt: int): Agent {
    var (seen, first) := D.Added(a.seen, c.id, evictAt, checkAt, stampAt);
    var b := a.(seen := seen, now := stampAt);
    if !first then b.(sent := a.sent + Answer(seen, c.id))
    else if |a.queue| < lim.queueDepth
    then b.(queue := a.queue + [c], enqueued := a.enqueued + [c],
            sent := a.sent + [Publication(Ack, Accepted(c.id, Queued))])
    else b.(seen := D.Removed(seen, c.id), sent := a.sent + [Publication(Refusal, Busy(c.id))])
  }

  function Handled(lim: Limits, a: Agent, v: Verdict, groupsOk: Option<bool>,
                   evictAt: int, checkAt: int, stampAt: int): Agent {
    match v
    case Drop => a
    case CancelRun(_) => a
    case Refuse(id, code) => a.(sent := a.sent + [Publication(Refusal, Final(id, Rejected, None, "", "", code))])
    case SetGroups(id, _) =>
      if groupsOk.None? then
        a.(sent := a.sent + [Publication(Refusal, Final(id, Rejected, None, "", "", "unsupported_type"))])
      else if !groupsOk.value then
        a.(sent := a.sent + [Publication(Refusal, Final(id, Rejected, None, "", "", "internal"))])
      else
        var r := Final(id, Completed, None, "", "", "");
        a.(seen := D.WithResult(a.seen, id, r), sent := a.sent + [Publication(ControlResult, r)])
    case Work(c) => Admitted(lim, a, c, evictAt, checkAt, stampAt)
  }

  lemma OneStepRun(lim: Limits, a: Agent, steps: seq<Step>)
    requires |steps| <= 1 && (steps != [] ==> Enabled(lim, a, steps[0]))
    ensures Legal(lim, a, steps)
    ensures Run(lim, a, steps) == if steps == [] then a else Next(lim, a, steps[0])
  {
    if steps != [] {
      assert steps[1..] == [];
    }
  }

  lemma TwoStepRun(lim: Limits, a: Agent, s: Step, t: Step)
    requires Enabled(lim, a, s) && Enabled(lim, Next(lim, a, s), t)
    ensures Legal(lim, a, [s, t]) && Run(lim, a, [s, t]) == Next(lim, Next(lim, a, s), t)
  {
    assert [s, t][1..] == [t];
    OneStepRun(lim, Next(lim, a, s), [t]);
  }

  lemma ThreeStepRun(lim: Limits, a: Agent, s: Step, t: Step, u: Step)
    requires Enabled(lim, a, s) && Enabled(lim, Next(lim, a, s), t)
    requires Enabled(lim, Next(lim, Next(lim, a, s), t), u)
    ensures Legal(lim, a, [s, t, u])
    ensures Run(lim, a, [s, t, u]) == Next(lim, Next(lim, Next(lim, a, s), t), u)
  {
    assert [s, t, u][1..] == [t, u];
    TwoStepRun(lim, Next(lim, a, s), t, u);
  }

  lemma RemoveLast<T>(s: seq<T>, x: T)
    ensures (s + [x])[|s|] == x && RemoveAt(s + [x], |s|) == s
  {
  }

  lemma AdmittedIsRun(lim: Limits, a: Agent, c: Command, evictAt: int, checkAt: int, stampAt: int)
    requires Runnable(c) && a.now <= evictAt <= checkAt <= stampAt
    ensures
      var steps := HandlerSteps(lim, a, Work(c), None, evictAt, checkAt, stampAt);
      Legal(lim, a, steps) && Run(lim, a, steps) == Admitted(lim, a, c, evictAt, checkAt, stampAt)
  {
    var record := Record(c, evictAt, checkAt, stampAt);
    var b := Next(lim, a, record);
    if !D.Added(a.seen, c.id, evictAt, checkAt, stampAt).1 {
      RemoveLast(a.replaying, c.id);
      TwoStepRun(lim, a, record, Replay(|a.replaying|));
    } else {
      RemoveLast(a.adding, c);
      if |a.queue| < lim.queueDepth {
        TwoStepRun(lim, a, record, Offer(|a.adding|));
      } else {
        RemoveLast(a.refusing, c);
        ThreeStepRun(lim, a, record, Offer(|a.adding|), Forget(|a.refusing|));
      }
    }
  }

  /** A handler that nothing interleaves with has the effect of its atomic steps in a row,
      so whatever holds of every interleaving holds of calls of the object below. */
  lemma HandledIsRun(lim: Limits, a: Agent, v: Verdict, groupsOk: Option<bool>,
                     evictAt: int, checkAt: int, stampAt: int)
    requires v.Work? ==> Runnable(v.cmd) && a.now <= evictAt <= checkAt <= stampAt
    requires v.Refuse? ==> v.id != ""
    requires v.SetGroups? ==> v.id != ""
    ensures
      var steps := HandlerSteps(lim, a, v, groupsOk, evictAt, checkAt, stampAt);
      Legal(lim, a, steps) && Run(lim, a, steps) == Handled(lim, a, v, groupsOk, evictAt, checkAt, stampAt)
  {
    if v.Work? {
      AdmittedIsRun(lim, a, v.cmd, evictAt, checkAt, stampAt);
    } else {
      OneStepRun(lim, a, HandlerSteps(lim, a, v, groupsOk, evictAt, checkAt, stampAt));
    }
  }

  /** What a message does to the agent, in literal messages: new work with room in the queue is
      queued and acknowledged, without room refused and forgotten; a known id is not queued. */
  lemma AdmittedMeans(lim: Limits, a: Agent, c: Command, evictAt: int, checkAt: int, stampAt: int)
    requires D.Valid(a.seen)
    ensures
      var b := Admitted(lim, a, c, evictAt, checkAt, stampAt);
      && (c.id !in a.seen.entries && |a.queue| < lim.queueDepth ==>
            && b.queue == a.queue + [c] && b.executing == a.executing
            && b.sent == a.sent
               + [Publication(Ack, Report(c.id, KindAccepted, Some(Queued), None, "", "", "", 0, Stdout, ""))]
            && c.id in b.seen.entries && b.seen.entries[c.id].running && b.seen.entries[c.id].seen == stampAt)
      && (c.id !in a.seen.entries && |a.queue| >= lim.queueDepth ==>
            && b.queue == a.queue && b.executing == a.executing && c.id !in b.seen.entries
            && b.sent == a.sent + [Publication(Refusal, Report(c.id, KindResult, Some(Rejected), None,
                                                               "", "", "queue full", 0, Stdout, ""))])
      && (c.id in D.Evicted(a.seen, evictAt).entries
          && checkAt - D.Evicted(a.seen, evictAt).entries[c.id].seen < a.seen.ttl ==>
            b.queue == a.queue && b.executing == a.executing)
  {
    D.EvictMakesRoom(a.seen, evictAt);
  }

  lemma RefusalMeans(lim: Limits, a: Agent, id: string, code: string, groupsOk: Option<bool>,
                     evictAt: int, checkAt: int, stampAt: int)
    ensures Handled(lim, a, Refuse(id, code), groupsOk, evictAt, checkAt, stampAt)
            == a.(sent := a.sent + [Publication(Refusal, Report(id, KindResult, Some(Rejected), None,
                                                                "", "", code, 0, Stdout, ""))])
    ensures Handled(lim, a, Drop, groupsOk, evictAt, checkAt, stampAt) == a
  {
  }

  /** A membership change answers under its id: not supported, failed, or done. */
  lemma GroupsMean(lim: Limits, a: Agent, id: string, groups: seq<string>, groupsOk: Option<bool>,
                   evictAt: int, checkAt: int, stampAt: int)
    ensures
      var b := Handled(lim, a, SetGroups(id, groups), groupsOk, evictAt, checkAt, stampAt);
      && b.queue == a.queue && |b.sent| == |a.sent| + 1 && b.sent[..|a.sent|] == a.sent
      && var p := b.sent[|a.sent|];
      && p.report.id == id && p.report.kind == KindResult && p.report.exitCode == None
      && (groupsOk == None ==> p.report.status == Some(Rejected) && p.report.error == "unsupported_type")
      && (groupsOk == Some(false) ==> p.report.status == Some(Rejected) && p.report.error == "internal")
      && (groupsOk == Some(true) ==>
            && p.report.status == Some(Completed) && p.report.error == ""
            && (id in a.seen.entries ==>
                  b.seen.entries[id].result == Some(p.report) && !b.seen.entries[id].running))
  {
  }

  /** Verdicts carry the ids their steps need. */
  predicate Addressed(v: Verdict) {
    (v.Work? ==> Runnable(v.cmd)) && (v.Refuse? ==> v.id != "") && (v.SetGroups? ==> v.id != "")
  }

  lemma ClassifyAddressed(payload: Option<Command>, deviceId: string, derive: (string, string) -> string, now: int)
    ensures Addressed(Classify(payload, deviceId, derive, now))
  {
  }

  lemma HandledInv(lim: Limits, a: Agent, v: Verdict, groupsOk: Option<bool>,
                   evictAt: int, checkAt: int, stampAt: int)
    requires Inv(lim, a) && Addressed(v) && a.now <= evictAt <= checkAt <= stampAt
    ensures Inv(lim, Handled(lim, a, v, groupsOk, evictAt, checkAt, stampAt))
  {
    HandledIsRun(lim, a, v, groupsOk, evictAt, checkAt, stampAt);
    RunInv(lim, a, HandlerSteps(lim, a, v, groupsOk, evictAt, checkAt, stampAt));
  }

  class Dispatcher {
    const lim: Limits
    const deviceId: string
    const seen: D.Cache
    var queue: seq<Command>
    var executing: seq<Command>      // one per busy worker
    var running: set<string>         // ids with a registered cancel function
    var canceled: set<string>        // ids whose cancel function was called
    var sent: seq<Publication>
    var now: int
    ghost var done: seq<(Command, Report)>
    ghost var enqueued: seq<Command>

    ghost function Model(): Agent
      reads this, seen
    {
      Agent(seen.Model(), [], [], [], queue, executing, done, enqueued, sent, now)
    }

    ghost predicate Valid()
      reads this, seen
    {
      Inv(lim, Model())
    }

    constructor (lim: Limits, deviceId: string, now: int)
      ensures Valid() && fresh(seen) && Model() == Start(now) && this.lim == lim && this.deviceId == deviceId
      ensures running == {} && canceled == {}
    {
      this.lim := lim;
      this.deviceId := deviceId;
      seen := new D.Cache(1024, D.DEFAULT_TTL);
      queue, executing, sent, done, enqueued := [], [], [], [], [];
      running, canceled := {}, {};
      this.now := now;
      new;
      StartInv(lim, now);
    }

    method HandleMessage(payload: Option<Command>, derive: (string, string) -> string,
                         groupsOk: Option<bool>, evictAt: int, checkAt: int, stampAt: int)
      requires Valid() && now <= evictAt <= checkAt <= stampAt
      modifies this, seen
      ensures Valid()
      ensures
        var v := Classify(payload, deviceId, derive, old(now));
        && Model() == Handled(lim, old(Model()), v, groupsOk, evictAt, checkAt, stampAt)
        && canceled == old(canceled) + (if v.CancelRun? && v.targetId in running then {v.targetId} else {})
        && running == old(running)
      // an ordinary command the agent has not seen, with room in the queue
      ensures
        payload.Some? ==>
          var p := payload.value;
          && p.version == 1 && p.id != "" && (p.typ == "" || p.typ == "exec") && p.command != ""
          && (p.expiresAt.Some? ==> old(now) <= p.expiresAt.value)
          && p.id !in old(seen.entries) && |old(queue)| < lim.queueDepth ==>
            && queue == old(queue) + [p.(typ := "exec")] && executing == old(executing)
            && sent == old(sent)
               + [Publication(Ack, Report(p.id, KindAccepted, Some(Queued), None, "", "", "", 0, Stdout, ""))]
      // a cancel reaches exactly the run it names
      ensures
        payload.Some? ==>
          var p := payload.value;
          && p.version == 1 && p.id != "" && p.typ == "cancel" && p.targetId != ""
          && (p.expiresAt.Some? ==> old(now) <= p.expiresAt.value) ==>
            && canceled == old(canceled) + (if p.targetId in old(running) then {p.targetId} else {})
            && queue == old(queue) && sent == old(sent)
    {
      HandledPlainly(payload, derive, groupsOk, evictAt, checkAt, stampAt);
      var v := Classify(payload, deviceId, derive, now);
      ClassifyAddressed(payload, deviceId, derive, now);
      HandledInv(lim, Model(), v, groupsOk, evictAt, checkAt, stampAt);
      if v.CancelRun? && v.targetId in running {
        canceled := canceled + {v.targetId};
      }
      Act(v, groupsOk, evictAt, checkAt, stampAt);
    }

    /** What the specification says of those two messages. */
    lemma HandledPlainly(payload: Option<Command>, derive: (string, string) -> string,
                         groupsOk: Option<bool>, evictAt: int, checkAt: int, stampAt: int)
      requires Valid()
      ensures
        payload.Some? ==>
          var p := payload.value;
          var v := Classify(payload, deviceId, derive, now);
          var b := Handled(lim, Model(), v, groupsOk, evictAt, checkAt, stampAt);
          && (&& p.version == 1 && p.id != "" && (p.typ == "" || p.typ == "exec") && p.command != ""
              && (p.expiresAt.Some? ==> now <= p.expiresAt.value)
              && p.id !in seen.entries && |queue| < lim.queueDepth ==>
                && !v.CancelRun? && b.queue == queue + [p.(typ := "exec")] && b.executing == executing
                && b.sent == sent
                   + [Publication(Ack, Report(p.id, KindAccepted, Some(Queued), None, "", "", "", 0, Stdout, ""))])
          && (&& p.version == 1 && p.id != "" && p.typ == "cancel" && p.targetId != ""
              && (p.expiresAt.Some? ==> now <= p.expiresAt.value) ==>
                v == CancelRun(p.targetId) && b == Model())
    {
      if payload.Some? {
        WorkIff(payload.value, deviceId, derive, now);
        ControlIff(payload.value, deviceId, derive, now);
        var v := Classify(payload, deviceId, derive, now);
        if v.Work? {
          AdmittedMeans(lim, Model(), v.cmd, evictAt, checkAt, stampAt);
        }
      }
    }

    method Act(v: Verdict, groupsOk: Option<bool>, evictAt: int, checkAt: int, stampAt: int)
      requires D.Valid(seen.Model())
      modifies this, seen
      ensures Model() == Handled(lim, old(Model()), v, groupsOk, evictAt, checkAt, stampAt)
      ensures running == old(running) && canceled == old(canceled)
    {
      match v {
        case Drop =>
        case CancelRun(_) =>
        case Refuse(id, code) =>
          Reply(id, code);
        case SetGroups(id, groups) =>
          if groupsOk.None? {
            Reply(id, "unsupported_type");
          } else if !groupsOk.value {
            Reply(id, "internal");
          } else {
            var r := Final(id, Completed, None, "", "", "");
            seen.Complete(id, r);
            sent := sent + [Publication(ControlResult, r)];
          }
        case Work(c) =>
          Admit(c, evictAt, checkAt, stampAt);
      }
    }

    method Reply(id: string, code: string)
      modifies this`sent
      ensures sent == old(sent) + [Publication(Refusal, Final(id, Rejected, None, "", "", code))]
    {
      sent := sent + [Publication(Refusal, Final(id, Rejected, None, "", "", code))];
    }

    method Admit(c: Command, evictAt: int, checkAt: int, stampAt: int)
      requires D.Valid(seen.Model())
      modifies this, seen
      ensures Model() == Admitted(lim, old(Model()), c, evictAt, checkAt, stampAt)
      ensures running == old(running) && canceled == old(canceled)
    {
      var first := seen.Add(c.id, evictAt, checkAt, stampAt);
      now := stampAt;
      if !first {
        var found := seen.CachedResult(c.id);
        if found.Some? {
          var (result, isRunning) := found.value;
          if isRunning {
            sent := sent + [Publication(Ack, Accepted(c.id, Running))];
          } else if result.Some? {
            sent := sent + [Publication(Replayed, result.value)];
          }
        }
        return;
      }
      if |queue| < lim.queueDepth {
        queue := queue + [c];
        enqueued := enqueued + [c];
        sent := sent + [Publication(Ack, Accepted(c.id, Queued))];
      } else {
        seen.Remove(c.id);
        sent := sent + [Publication(Refusal, Busy(c.id))];
      }
    }

    /** A worker receives from the queue and registers the run's cancel function. */
    method BeginRun() returns (c: Command)
      requires Valid() && queue != [] && |executing| < lim.maxConcurrent
      modifies this
      ensures Valid() && Model() == Next(lim, old(Model()), Take) && c == old(queue)[0]
      ensures running == old(running) + {c.id} && canceled == old(canceled)
      ensures queue == old(queue)[1..] && executing == old(executing) + [c]
      ensures sent == old(sent) + if c.typ != "exec" then [] else
        [Publication(Ack, Report(c.id, KindAccepted, Some(Running), None, "", "", "", 0, Stdout, ""))]
    {
      StepInv(lim, Model(), Take);
      c := Receive();
    }

    method Receive() returns (c: Command)
      requires queue != [] && |executing| < lim.maxConcurrent
      modifies this
      ensures Model() == Next(lim, old(Model()), Take) && c == old(queue)[0]
      ensures running == old(running) + {c.id} && canceled == old(canceled)
    {
      c := queue[0];
      queue := queue[1..];
      executing := executing + [c];
      running := running + {c.id};
      sent := sent + if c.typ == TYPE_EXEC then [Publication(Ack, Accepted(c.id, Running))] else [];
    }

    /** The worker's command ended: store the result, then publish it. */
    method EndRun(i: nat, outcome: Outcome)
      requires Valid() && i < |executing|
      modifies this, seen
      ensures Valid() && Model() == Next(lim, old(Model()), Finish(i, outcome))
      ensures running == old(running) - {old(executing)[i].id} && canceled == old(canceled)
      ensures |sent| == |old(sent)| + 1 && sent[..|old(sent)|] == old(sent)
      ensures
        var c, r := old(executing)[i], sent[|old(sent)|].report;
        && r.id == c.id && r.kind == KindResult
        && (c.typ == "exec" && outcome.Ran? ==>
              r.exitCode == Some(outcome.exitCode) && r.stdout == outcome.stdout && r.stderr == outcome.stderr)
        && (c.id in seen.entries ==> seen.entries[c.id].result == Some(r) && !seen.entries[c.id].running)
    {
      OutcomeReported(executing[i], outcome);
      StepInv(lim, Model(), Finish(i, outcome));
      var c := executing[i];
      var r := FinalReport(c, outcome);
      seen.Complete(c.id, r);
      sent := sent + [Publication(RunResult, r)];
      done := done + [(c, r)];
      executing := RemoveAt(executing, i);
      running := running - {c.id};
    }
  }
}
