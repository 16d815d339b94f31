/** The server's row for one command and its four writers, which do not coordinate:
    dispatch (command.service.ts), `accepted` and `result` messages (handlers.ts), and the
    reaper (main.ts). Only the `accepted` write is conditional. */
module CommandRow {
  import opened Prelude
  import opened Protocol
  import ES = EventStream

  datatype RowStatus = PENDING | DISPATCHED | RUNNING | SUCCEEDED | FAILED | TIMEOUT | CANCELED

  datatype Row = Row(
    deviceId: string, status: RowStatus, dispatchedAt: Option<int>, timeoutMs: int,
    exitCode: Option<int>, stdout: string, stderr: string, error: string)

  const REAP_SLACK_MS := 30_000

  predicate Terminal(s: RowStatus) {
    s.SUCCEEDED? || s.FAILED? || s.TIMEOUT? || s.CANCELED?
  }

  /** A missing status, and "queued", fall to the default arm. */
  function MapStatus(s: Option<Status>): RowStatus {
    match s
    case Some(Completed) => SUCCEEDED
    case Some(Failed) => FAILED
    case Some(Rejected) => FAILED
    case Some(TimedOut) => TIMEOUT
    case Some(Canceled) => CANCELED
    case Some(Running) => RUNNING
    case _ => SUCCEEDED
  }

  /** `running` is the one status that maps to a live row. */
  lemma MapStatusTerminalIff(s: Option<Status>)
    ensures Terminal(MapStatus(s)) <==> s != Some(Running)
    ensures s.Some? && TerminalStatus(s.value) ==> Terminal(MapStatus(s))
  {
  }

  // ---- The writers, each one statement on the row ----

  function Dispatch(r: Row, at: int): Row {
    r.(status := DISPATCHED, dispatchedAt := Some(at))
  }

  function Accept(r: Row, status: Option<Status>): Row {
    if status != Some(Queued) && (r.status.PENDING? || r.status.DISPATCHED?) then r.(status := RUNNING) else r
  }

  function Store(r: Row, p: Report): Row {
    r.(status := MapStatus(p.status), exitCode := p.exitCode, stdout := p.stdout, stderr := p.stderr, error := p.error)
  }

  function Handle(r: Row, p: Report): Row {
    match p.kind
    case KindAccepted => Accept(r, p.status)
    case KindChunk => r
    case KindResult => Store(r, p)
  }

  predicate Reapable(r: Row) {
    (r.status.DISPATCHED? || r.status.RUNNING?) && r.dispatchedAt.Some?
  }

  predicate Overdue(dispatchedAt: int, timeoutMs: int, now: int) {
    now >= dispatchedAt + timeoutMs + REAP_SLACK_MS
  }

  function Expire(r: Row): Row {
    r.(status := TIMEOUT, error := "No response from agent before timeout")
  }

  // ---- Interleavings ----

  /** `snapshots` are reaper passes between their query and their write for this row. */
  datatype Server = Server(row: Row, snapshots: seq<(int, int)>)

  datatype Step =
    | DoDispatch(at: int)
    | DoHandle(report: Report)
    | ReapRead
    | ReapWrite(i: nat, now: int)

  predicate Enabled(s: Server, t: Step) {
    (t.ReapRead? ==> Reapable(s.row)) && (t.ReapWrite? ==> t.i < |s.snapshots|)
  }

  function Next(s: Server, t: Step): Server
    requires Enabled(s, t)
  {
    match t
    case DoDispatch(at) => s.(row := Dispatch(s.row, at))
    case DoHandle(p) => s.(row := Handle(s.row, p))
    case ReapRead => s.(snapshots := s.snapshots + [(s.row.dispatchedAt.value, s.row.timeoutMs)])
    case ReapWrite(i, now) =>
      var (at, timeout) := s.snapshots[i];
      Server(if Overdue(at, timeout, now) then Expire(s.row) else s.row, RemoveAt(s.snapshots, i))
  }

  predicate Legal(s: Server, steps: seq<Step>)
    decreases |steps|
  {
    steps == [] || (Enabled(s, steps[0]) && Legal(Next(s, steps[0]), steps[1..]))
  }

  function Run(s: Server, steps: seq<Step>): Server
    requires Legal(s, steps)
    decreases |steps|
  {
    if steps == [] then s else Run(Next(s, steps[0]), steps[1..])
  }

  /** The steps that take a finished row back to a live status: the dispatch update, and a
      result whose status is "running". */
  predicate Reopens(t: Step) {
    t.DoDispatch? || (t.DoHandle? && t.report.kind.KindResult? && t.report.status == Some(Running))
  }

  lemma TerminalAbsorbingIff(s: Server, t: Step)
    requires Enabled(s, t) && Terminal(s.row.status)
    ensures Terminal(Next(s, t).row.status) <==> !Reopens(t)
  {
    if t.DoHandle? { MapStatusTerminalIff(t.report.status); }
  }

  lemma {:induction false} TerminalAbsorbing(s: Server, steps: seq<Step>)
    requires Legal(s, steps) && Terminal(s.row.status)
    requires forall t :: t in steps ==> !Reopens(t)
    ensures Terminal(Run(s, steps).row.status)
    decreases |steps|
  {
    if steps != [] {
      TerminalAbsorbingIff(s, steps[0]);
      TerminalAbsorbing(Next(s, steps[0]), steps[1..]);
    }
  }

  /** A write that ends the command: a result, or a reaper write past the deadline it read. */
  predicate Ends(s: Server, t: Step)
    requires Enabled(s, t)
  {
    match t
    case DoHandle(p) => p.kind.KindResult?
    case ReapWrite(i, now) => Overdue(s.snapshots[i].0, s.snapshots[i].1, now)
    case _ => false
  }

  predicate SomeEnd(s: Server, steps: seq<Step>)
    requires Legal(s, steps)
    decreases |steps|
  {
    steps != [] && (Ends(s, steps[0]) || SomeEnd(Next(s, steps[0]), steps[1..]))
  }

  /** From a live row on, after the dispatch update, the row is finished exactly when some
      result was handled or some reaper write was due, however the writers interleave. */
  lemma {:induction false} FinishedIffEnded(s: Server, steps: seq<Step>)
    requires Legal(s, steps) && !Terminal(s.row.status)
    requires forall t :: t in steps ==> !Reopens(t)
    ensures Terminal(Run(s, steps).row.status) <==> SomeEnd(s, steps)
    decreases |steps|
  {
    if steps != [] {
      var s' := Next(s, steps[0]);
      assert !Reopens(steps[0]) by { assert steps[0] in steps; }
      if steps[0].DoHandle? { MapStatusTerminalIff(steps[0].report.status); }
      if Terminal(s'.row.status) {
        TerminalAbsorbing(s', steps[1..]);
      } else {
        FinishedIffEnded(s', steps[1..]);
      }
    }
  }

  /** A row that was never dispatched, say because publishing failed, is never taken by the
      reaper, whatever messages arrive: only a result ends it. */
  lemma {:induction false} NeverDispatchedNeverReaped(s: Server, steps: seq<Step>)
    requires Legal(s, steps) && s.row.dispatchedAt.None? && s.snapshots == []
    requires forall t :: t in steps ==> !t.DoDispatch?
    ensures !Reapable(Run(s, steps).row) && Run(s, steps).snapshots == []
    decreases |steps|
  {
    if steps != [] {
      assert steps[0] in steps;
      NeverDispatchedNeverReaped(Next(s, steps[0]), steps[1..]);
    }
  }

  // ---- The last writer ----

  /** A reaper write past the deadline it read. */
  predicate OverdueWrite(s: Server, t: Step)
    requires Enabled(s, t)
  {
    t.ReapWrite? && Overdue(s.snapshots[t.i].0, s.snapshots[t.i].1, t.now)
  }

  predicate SomeOverdueWrite(s: Server, steps: seq<Step>)
    requires Legal(s, steps)
    decreases |steps|
  {
    steps != [] && (OverdueWrite(s, steps[0]) || SomeOverdueWrite(Next(s, steps[0]), steps[1..]))
  }

  /** Neither a result nor the dispatch update. */
  predicate NoNewResult(steps: seq<Step>) {
    forall t :: t in steps ==> !t.DoDispatch? && !(t.DoHandle? && t.report.kind.KindResult?)
  }

  /** From a finished row until the next result: the row is exactly as it was, or exactly that
      with TIMEOUT written over it, according to whether an overdue reaper write followed. */
  lemma {:induction false} FinishedRowAfter(s: Server, steps: seq<Step>)
    requires Legal(s, steps) && Terminal(s.row.status) && NoNewResult(steps)
    ensures Run(s, steps).row == if SomeOverdueWrite(s, steps) then Expire(s.row) else s.row
    decreases |steps|
  {
    if steps != [] {
      assert steps[0] in steps;
      FinishedRowAfter(Next(s, steps[0]), steps[1..]);
    }
  }

  /** The row keeps the last handled result if and only if no overdue reaper write follows it.
      (A result can only look like an expired one if it says so itself.) */
  lemma LastResultStaysIff(s: Server, p: Report, steps: seq<Step>)
    requires p.kind.KindResult? && Terminal(MapStatus(p.status)) && Store(s.row, p) != Expire(Store(s.row, p))
    requires Legal(Next(s, DoHandle(p)), steps) && NoNewResult(steps)
    ensures
      var stored := Next(s, DoHandle(p));
      && (Run(stored, steps).row == Store(s.row, p) <==> !SomeOverdueWrite(stored, steps))
      && (SomeOverdueWrite(stored, steps) ==> Run(stored, steps).row.status == TIMEOUT)
  {
    FinishedRowAfter(Next(s, DoHandle(p)), steps);
  }

  lemma OneRun(s: Server, t: Step)
    requires Enabled(s, t)
    ensures Legal(s, [t]) && Run(s, [t]) == Next(s, t)
  {
    assert [t][1..] == [];
  }

  /** Why "after the dispatch update": a fast agent's result that lands before it is undone,
      and the row then looks as if no agent had answered. */
  lemma FastResultIsLost(row: Row, p: Report, at: int)
    requires row.status.PENDING? && p.kind.KindResult? && p.status == Some(Completed)
    ensures
      var s := Server(row, []);
      && Legal(s, [DoHandle(p), DoDispatch(at)])
      && Terminal(Run(s, [DoHandle(p)]).row.status)
      && Run(s, [DoHandle(p), DoDispatch(at)]).row.status == DISPATCHED
      && Reapable(Run(s, [DoHandle(p), DoDispatch(at)]).row)
  {
    var s := Server(row, []);
    OneRun(s, DoHandle(p));
    assert [DoHandle(p), DoDispatch(at)][1..] == [DoDispatch(at)];
    OneRun(Next(s, DoHandle(p)), DoDispatch(at));
  }

  /** Absorbing is not frozen: a reaper that read the row before the result arrived still
      replaces the success by TIMEOUT, leaving the run's output in place. */
  lemma StaleReapOverwritesSuccess(row: Row, p: Report, at: int, now: int)
    requires row.status.RUNNING? && row.dispatchedAt == Some(at) && Overdue(at, row.timeoutMs, now)
    requires p.kind.KindResult? && p.status == Some(Completed)
    ensures
      var s1 := Next(Server(row, []), ReapRead);
      var s2 := Next(s1, DoHandle(p));
      var s3 := Next(s2, ReapWrite(0, now));
      s2.row.status == SUCCEEDED && s3.row.status == TIMEOUT && s3.row.stdout == p.stdout
  {
  }

  // ---- The worker process ----

  function StatusName(s: RowStatus): string {
    match s
    case PENDING => "PENDING" case DISPATCHED => "DISPATCHED" case RUNNING => "RUNNING"
    case SUCCEEDED => "SUCCEEDED" case FAILED => "FAILED" case TIMEOUT => "TIMEOUT" case CANCELED => "CANCELED"
  }

  /** The browser event a handled message becomes. */
  function EventOf(deviceId: string, p: Report): ES.Event {
    match p.kind
    case KindAccepted => ES.CommandAccepted(p.id, deviceId, if p.status == Some(Queued) then "queued" else "running")
    case KindChunk => ES.CommandChunk(p.id, deviceId, p.stream, p.seqNo, p.data)
    case KindResult =>
      ES.CommandResult(p.id, deviceId, StatusName(MapStatus(p.status)), p.exitCode, p.stdout, p.stderr, None,
                       if p.error == "" then None else Some(p.error))
  }

  function TimeoutEvent(id: string, row: Row): ES.Event {
    ES.CommandResult(id, row.deviceId, "TIMEOUT", None, "", "", None, Some("No response from agent before timeout"))
  }

  // ---- What a handled message does, field by field ----

  /** A result: the row and the event carry its fields and one and the same status. */
  lemma ResultMeans(r: Row, deviceId: string, p: Report)
    requires p.kind == KindResult
    ensures
      var row, e := Handle(r, p), EventOf(deviceId, p);
      && row.deviceId == r.deviceId && row.dispatchedAt == r.dispatchedAt && row.timeoutMs == r.timeoutMs
      && row.exitCode == p.exitCode && row.stdout == p.stdout && row.stderr == p.stderr && row.error == p.error
      && e.CommandResult? && e.commandId == p.id && e.deviceId == deviceId
      && e.exitCode == p.exitCode && e.stdout == p.stdout && e.stderr == p.stderr
      && (p.error == "" ==> e.error == None) && (p.error != "" ==> e.error == Some(p.error))
    ensures
      var row, e := Handle(r, p), EventOf(deviceId, p);
      && (p.status == Some(Completed) ==> row.status == SUCCEEDED && e.status == "SUCCEEDED")
      && (p.status == Some(Failed) || p.status == Some(Rejected) ==> row.status == FAILED && e.status == "FAILED")
      && (p.status == Some(TimedOut) ==> row.status == TIMEOUT && e.status == "TIMEOUT")
      && (p.status == Some(Canceled) ==> row.status == CANCELED && e.status == "CANCELED")
      && (p.status == Some(Running) ==> row.status == RUNNING && e.status == "RUNNING")
      && (p.status == Some(Queued) || p.status == None ==> row.status == SUCCEEDED && e.status == "SUCCEEDED")
  {
  }

  /** An acknowledgement moves a row that has not started to RUNNING, unless it only says
      "queued", and changes nothing else; a chunk leaves the row alone. */
  lemma ProgressMeans(r: Row, deviceId: string, p: Report)
    ensures p.kind == KindAccepted ==>
      var row, e := Handle(r, p), EventOf(deviceId, p);
      && row == r.(status := row.status)
      && (p.status != Some(Queued) && (r.status == PENDING || r.status == DISPATCHED) ==> row.status == RUNNING)
      && (p.status == Some(Queued) || (r.status != PENDING && r.status != DISPATCHED) ==> row.status == r.status)
      && e.CommandAccepted? && e.commandId == p.id && e.deviceId == deviceId
      && e.ackStatus == if p.status == Some(Queued) then "queued" else "running"
    ensures p.kind == KindChunk ==>
      var e := EventOf(deviceId, p);
      && Handle(r, p) == r && e.CommandChunk? && e.commandId == p.id && e.deviceId == deviceId
      && e.stream == p.stream && e.seqNo == p.seqNo && e.data == p.data
  {
  }

  /** The deadline of a dispatched or running row: its timeout and thirty seconds after the
      dispatch. Expiring it sets its status and its error, and the event says the same. */
  lemma DueIff(rows: map<string, Row>, id: string, now: int)
    ensures Due(rows, id, now) <==>
      && id in rows && (rows[id].status == DISPATCHED || rows[id].status == RUNNING)
      && rows[id].dispatchedAt.Some? && now >= rows[id].dispatchedAt.value + rows[id].timeoutMs + 30_000
    ensures id in rows ==>
      var row, e := Expire(rows[id]), TimeoutEvent(id, rows[id]);
      && row.status == TIMEOUT && row.error == "No response from agent before timeout"
      && row == rows[id].(status := row.status, error := row.error)
      && e.CommandResult? && e.commandId == id && e.deviceId == rows[id].deviceId && e.status == "TIMEOUT"
      && e.exitCode == None && e.stdout == e.stderr == ""
      && e.error == Some("No response from agent before timeout")
  {
  }

  /** The same deadline for a reaper that read the row earlier. */
  lemma OverdueWriteIff(s: Server, i: nat, now: int)
    requires i < |s.snapshots|
    ensures OverdueWrite(s, ReapWrite(i, now)) <==> now >= s.snapshots[i].0 + s.snapshots[i].1 + 30_000
    ensures !OverdueWrite(s, ReapWrite(i, now)) ==> Next(s, ReapWrite(i, now)).row == s.row
    ensures OverdueWrite(s, ReapWrite(i, now)) ==>
      Next(s, ReapWrite(i, now)).row == s.row.(status := TIMEOUT, error := "No response from agent before timeout")
    ensures Reapable(s.row) ==>
      Next(s, ReapRead) == Server(s.row, s.snapshots + [(s.row.dispatchedAt.value, s.row.timeoutMs)])
  {
  }

  /** Rows this pass expires: reapable and past their deadline. */
  predicate Due(rows: map<string, Row>, id: string, now: int) {
    id in rows && Reapable(rows[id]) && Overdue(rows[id].dispatchedAt.value, rows[id].timeoutMs, now)
  }

  /** The events of a pass: one for each due row among ids, in order. */
  function Announcements(rows: map<string, Row>, ids: seq<string>, now: int): seq<ES.Event> {
    if ids == [] then []
    else
      var id := ids[|ids| - 1];
      Announcements(rows, ids[..|ids| - 1], now) + Announcement(rows, id, now)
  }

  function Announcement(rows: map<string, Row>, id: string, now: int): seq<ES.Event> {
    if Due(rows, id, now) then [TimeoutEvent(id, rows[id])] else []
  }

  /** Each due row is announced once, with its timeout, and nothing else is. */
  lemma {:induction false} AnnouncedOnce(rows: map<string, Row>, ids: seq<string>, now: int, id: string)
    requires forall i, j :: 0 <= i < j < |ids| ==> ids[i] != ids[j]
    ensures forall e :: e in Announcements(rows, ids, now) ==>
      e.CommandResult? && e.commandId in ids && e.commandId in rows && e == TimeoutEvent(e.commandId, rows[e.commandId])
    ensures id in rows ==>
      multiset(Announcements(rows, ids, now))[TimeoutEvent(id, rows[id])] ==
        if id in ids && Reapable(rows[id]) && now >= rows[id].dispatchedAt.value + rows[id].timeoutMs + 30_000
        then 1 else 0
    ensures |Announcements(rows, ids, now)| <= |ids|
  {
    if ids != [] {
      var front, last := ids[..|ids| - 1], ids[|ids| - 1];
      assert ids == front + [last];
      AnnouncedOnce(rows, front, now, id);
      assert last !in front;
    }
  }

  /** Exactly the due rows among ids have been expired. */
  ghost predicate Reaped(rows0: map<string, Row>, rows: map<string, Row>, ids: seq<string>, now: int) {
    rows.Keys == rows0.Keys
    && forall id :: id in rows0 ==>
         rows[id] == if id in ids && Due(rows0, id, now) then Expire(rows0[id]) else rows0[id]
  }

  lemma ReapedMore(rows0: map<string, Row>, rows: map<string, Row>, ids: seq<string>, now: int, id: string)
    requires Reaped(rows0, rows, ids, now) && id in rows0 && id !in ids
    ensures rows[id] == rows0[id]
    ensures Reaped(rows0, if Due(rows0, id, now) then rows[id := Expire(rows[id])] else rows, ids + [id], now)
  {
  }

  lemma AnnouncementsMore(rows: map<string, Row>, ids: seq<string>, i: nat, now: int)
    requires i < |ids|
    ensures Announcements(rows, ids[..i + 1], now)
            == Announcements(rows, ids[..i], now) + Announcement(rows, ids[i], now)
  {
    assert ids[..i + 1][..i] == ids[..i];
  }

  class Worker {
    var rows: map<string, Row>
    var outputs: map<(string, nat), (Stream, string)>   // unique on (command, seq)
    var events: seq<ES.Event>

    constructor (rows: map<string, Row>)
      ensures this.rows == rows && outputs == map[] && events == []
    {
      this.rows, outputs, events := rows, map[], [];
    }

    /** A message for an unknown command, or one owned by another device, changes nothing;
        otherwise the row takes the writer's step, a chunk is stored once, and one event
        goes out. `None` is a payload the schema rejects. */
    method HandleResult(deviceId: string, payload: Option<Report>)
      modifies this
      ensures
        payload.None? || payload.value.id !in old(rows) || old(rows)[payload.value.id].deviceId != deviceId ==>
          rows == old(rows) && outputs == old(outputs) && events == old(events)
      ensures
        payload.Some? && payload.value.id in old(rows) && old(rows)[payload.value.id].deviceId == deviceId ==>
          var p := payload.value;
          var key := (p.id, p.seqNo);
          && rows == old(rows)[p.id := Handle(old(rows)[p.id], p)]
          && outputs == (if p.kind.KindChunk? && key !in old(outputs)
                         then old(outputs)[key := (p.stream, p.data)] else old(outputs))
          && events == old(events) + [EventOf(deviceId, p)]
    {
      if payload.None? || payload.value.id !in rows || rows[payload.value.id].deviceId != deviceId {
        return;
      }
      var p := payload.value;
      var row := rows[p.id];
      match p.kind {
        case KindAccepted =>
          if p.status != Some(Queued) && (row.status.PENDING? || row.status.DISPATCHED?) {
            rows := rows[p.id := row.(status := RUNNING)];
          } else {
            assert rows == rows[p.id := row];
          }
        case KindChunk =>
          if (p.id, p.seqNo) !in outputs {
            outputs := outputs[(p.id, p.seqNo) := (p.stream, p.data)];
          }
          assert rows == rows[p.id := row];
        case KindResult =>
          rows := rows[p.id := Store(row, p)];
      }
      events := events + [EventOf(deviceId, p)];
    }

    /** `before` is what the query returned; the row itself has not changed since. */
    method ExpireOne(id: string, now: int, ghost before: map<string, Row>)
      requires id in rows && id in before && rows[id] == before[id] && Reapable(rows[id])
      modifies this`rows, this`events
      ensures rows == if Due(before, id, now) then old(rows)[id := Expire(old(rows)[id])] else old(rows)
      ensures events == old(events) + Announcement(before, id, now)
    {
      var row := rows[id];
      if Overdue(row.dispatchedAt.value, row.timeoutMs, now) {
        rows := rows[id := Expire(row)];
        events := events + [TimeoutEvent(id, row)];
      }
    }

    /** The pass's loop: every due row among those given becomes TIMEOUT, nothing else
        changes, and each gets one event, in order. */
    method ExpireAll(overdue: seq<string>, now: int)
      requires forall i, j :: 0 <= i < j < |overdue| ==> overdue[i] != overdue[j]
      requires forall id :: id in overdue ==> id in rows && Reapable(rows[id])
      modifies this`rows, this`events
      ensures Reaped(old(rows), rows, overdue, now)
      ensures events == old(events) + Announcements(old(rows), overdue, now)
    {
      ghost var rows0, events0 := rows, events;
      assert overdue[..0] == [];
      var i := 0;
      while i < |overdue|
        invariant 0 <= i <= |overdue|
        invariant Reaped(rows0, rows, overdue[..i], now)
        invariant events == events0 + Announcements(rows0, overdue[..i], now)
      {
        assert overdue[..i + 1] == overdue[..i] + [overdue[i]];
        ReapedMore(rows0, rows, overdue[..i], now, overdue[i]);
        AnnouncementsMore(rows0, overdue, i, now);
        Reassociate(events0, Announcements(rows0, overdue[..i], now), Announcement(rows0, overdue[i], now));
        ExpireOne(overdue[i], now, rows0);
        i := i + 1;
      }
      assert overdue[..i] == overdue;
    }

    /** One undisturbed reaper pass. Its query returns at most 200 candidates, all of them if
        there are fewer, and then no due row is left. In the grace window after a broker
        restart, or while disconnected, the pass does nothing. */
    method Reap(overdue: seq<string>, now: int, graceUntil: int, connected: bool)
      requires |overdue| <= 200
      requires forall i, j :: 0 <= i < j < |overdue| ==> overdue[i] != overdue[j]
      requires forall id :: id in overdue ==> id in rows && Reapable(rows[id])
      requires |overdue| < 200 ==> forall id :: id in rows && Reapable(rows[id]) ==> id in overdue
      modifies this`rows, this`events
      ensures now < graceUntil || !connected ==> rows == old(rows) && events == old(events)
      ensures now >= graceUntil && connected ==>
        && Reaped(old(rows), rows, overdue, now)
        && events == old(events) + Announcements(old(rows), overdue, now)
        && (|overdue| < 200 ==> forall id :: id in rows ==> !Due(rows, id, now))
    {
      if now < graceUntil {
        return;
      }
      if !connected {
        return;
      }
      ghost var rows0 := rows;
      ExpireAll(overdue, now);
      if |overdue| < 200 {
        NoneDue(rows0, rows, overdue, now);
      }
    }
  }

  lemma NoneDue(rows0: map<string, Row>, rows: map<string, Row>, ids: seq<string>, now: int)
    requires Reaped(rows0, rows, ids, now) && forall id :: id in rows0 && Reapable(rows0[id]) ==> id in ids
    ensures forall id :: id in rows ==> !Due(rows, id, now)
  {
  }
}
