/** The browser's event reducer (src/components/realtime/event-stream.tsx). Delivery is
    at least once and unordered, so what a user sees must not depend on arrival order. */
module EventStream {
  import opened Prelude
  import opened Protocol

  datatype Line = Line(seqNo: int, stream: Stream, data: string)

  datatype CommandRun = CommandRun(
    commandId: string, deviceId: string, status: string, exitCode: Option<int>,
    lines: seq<Line>, durationMs: Option<int>, error: Option<string>, finished: bool)

  datatype Event =
    | DeviceStatus(deviceId: string, online: bool, lastSeenAt: Option<int>)
    | DeviceMetrics(deviceId: string, sample: Sample)
    | CommandAccepted(commandId: string, deviceId: string, ackStatus: string)
    | CommandChunk(commandId: string, deviceId: string, stream: Stream, seqNo: int, data: string)
    | CommandResult(commandId: string, deviceId: string, status: string, exitCode: Option<int>,
                    stdout: string, stderr: string, durationMs: Option<int>, error: Option<string>)
    | Ping(ts: string)

  datatype Sample = Sample(cpu: real, mem: real, disk: real, load1: real, uptimeSec: real, processes: real,
                           recordedAt: int)

  datatype Action = Connected(value: bool) | Got(event: Event)

  datatype State = State(
    status: map<string, (bool, Option<int>)>, metrics: map<string, Sample>,
    runs: map<string, CommandRun>, connected: bool)

  const INITIAL := State(map[], map[], map[], false)

  // ---- The reducer ----

  /** Insertion after every line of smaller or equal number: one step of a stable sort. */
  function InsertLine(lines: seq<Line>, l: Line): seq<Line> {
    if lines == [] || lines[|lines| - 1].seqNo <= l.seqNo then lines + [l]
    else InsertLine(lines[..|lines| - 1], l) + [lines[|lines| - 1]]
  }

  /** Stable sort by sequence number. */
  function SortLines(lines: seq<Line>): seq<Line> {
    if lines == [] then [] else InsertLine(SortLines(lines[..|lines| - 1]), lines[|lines| - 1])
  }

  predicate HasSeq(lines: seq<Line>, n: int) {
    exists i :: 0 <= i < |lines| && lines[i].seqNo == n
  }

  function FallbackLines(stdout: string, stderr: string): seq<Line> {
    (if stdout != "" then [Line(0, Stdout, stdout)] else []) +
    (if stderr != "" then [Line(1, Stderr, stderr)] else [])
  }

  function Reduce(s: State, a: Action): State {
    match a
    case Connected(v) => s.(connected := v)
    case Got(e) =>
      match e
      case DeviceStatus(d, online, seen) => s.(status := s.status[d := (online, seen)])
      case DeviceMetrics(d, sample) => s.(metrics := s.metrics[d := sample])
      case CommandAccepted(c, d, status) =>
        if c in s.runs && s.runs[c].finished then s
        else
          var lines := if c in s.runs then s.runs[c].lines else [];
          s.(runs := s.runs[c := CommandRun(c, d, status, None, lines, None, None, false)])
      case CommandChunk(c, d, stream, n, data) =>
        var run := if c in s.runs then s.runs[c] else CommandRun(c, d, "running", None, [], None, None, false);
        if HasSeq(run.lines, n) then s
        else s.(runs := s.runs[c := run.(lines := SortLines(run.lines + [Line(n, stream, data)]))])
      case CommandResult(c, d, status, exit, out, err, dur, error) =>
        var lines := if c in s.runs then s.runs[c].lines else [];
        var shown := if lines == [] && (out != "" || err != "") then FallbackLines(out, err) else lines;
        s.(runs := s.runs[c := CommandRun(c, d, status, exit, shown, dur, error, true)])
      case Ping(_) => s
  }

  function Fold(events: seq<Event>): State {
    if events == [] then INITIAL
    else Reduce(Fold(events[..|events| - 1]), Got(events[|events| - 1]))
  }

  // ---- What the events of one command say, order aside ----

  function ChunkLine(e: Event): Line
    requires e.CommandChunk?
  {
    Line(e.seqNo, e.stream, e.data)
  }

  ghost function Chunks(events: seq<Event>, c: string): set<Line> {
    set e | e in events && e.CommandChunk? && e.commandId == c :: ChunkLine(e)
  }

  /** Chunks with the same number are the same chunk (duplicates, not conflicts). */
  ghost predicate Agree(lines: set<Line>) {
    forall k, l :: k in lines && l in lines && k.seqNo == l.seqNo ==> k == l
  }

  function LastResult(events: seq<Event>, c: string): (r: Option<Event>)
    ensures r.Some? ==> r.value in events && r.value.CommandResult? && r.value.commandId == c
  {
    if events == [] then None else
      var e := events[|events| - 1];
      if e.CommandResult? && e.commandId == c then Some(e) else LastResult(events[..|events| - 1], c)
  }

  /** The buffered output shown because a result carrying output came before any chunk. */
  ghost function Fallback(events: seq<Event>, c: string): seq<Line> {
    if events == [] then [] else
      var before := events[..|events| - 1];
      var e := events[|events| - 1];
      if Fallback(before, c) != [] then Fallback(before, c)
      else if Chunks(before, c) == {} && e.CommandResult? && e.commandId == c
      then FallbackLines(e.stdout, e.stderr)
      else []
  }

  /** The lines a run must show: the fallback, and every chunk it does not shadow. */
  ghost function Visible(fallback: seq<Line>, chunks: set<Line>): set<Line> {
    Elems(fallback) + set l | l in chunks && (forall f :: f in fallback ==> f.seqNo != l.seqNo)
  }

  predicate StrictlySorted(lines: seq<Line>) {
    forall i, j :: 0 <= i < j < |lines| ==> lines[i].seqNo < lines[j].seqNo
  }

  // ---- Sorting ----

  lemma {:induction false} InsertLineSorted(lines: seq<Line>, l: Line)
    requires StrictlySorted(lines) && forall k :: k in lines ==> k.seqNo != l.seqNo
    ensures StrictlySorted(InsertLine(lines, l)) && Elems(InsertLine(lines, l)) == Elems(lines) + {l}
  {
    if lines == [] || lines[|lines| - 1].seqNo <= l.seqNo {
      ElemsAppend(lines, [l]);
    } else {
      var before, last := lines[..|lines| - 1], lines[|lines| - 1];
      assert lines == before + [last];
      InsertLineSorted(before, l);
      var r := InsertLine(before, l);
      ElemsAppend(before, [last]);
      ElemsAppend(r, [last]);
      forall i | 0 <= i < |r| ensures r[i].seqNo < last.seqNo {
        assert r[i] in Elems(r);
      }
    }
  }

  lemma StrictlySortedFront(lines: seq<Line>)
    requires StrictlySorted(lines) && lines != []
    ensures
      var before, last := lines[..|lines| - 1], lines[|lines| - 1];
      && StrictlySorted(before) && (before == [] || before[|before| - 1].seqNo < last.seqNo)
  {
  }

  lemma {:induction false} SortSorted(lines: seq<Line>)
    requires StrictlySorted(lines)
    ensures SortLines(lines) == lines
  {
    if lines != [] {
      var before, last := lines[..|lines| - 1], lines[|lines| - 1];
      StrictlySortedFront(lines);
      SortSorted(before);
      assert InsertLine(before, last) == before + [last];
      assert lines == before + [last];
    }
  }

  lemma SortInserts(lines: seq<Line>, l: Line)
    requires StrictlySorted(lines) && forall k :: k in lines ==> k.seqNo != l.seqNo
    ensures StrictlySorted(SortLines(lines + [l])) && Elems(SortLines(lines + [l])) == Elems(lines) + {l}
  {
    assert (lines + [l])[..|lines|] == lines;
    SortSorted(lines);
    InsertLineSorted(lines, l);
  }

  lemma ElemsEmpty(a: seq<Line>)
    ensures Elems(a) == {} <==> a == []
  {
    if a != [] {
      assert a[0] in Elems(a);
    }
  }

  /** A strictly sorted list is determined by its elements. */
  lemma {:induction false} SortedUnique(a: seq<Line>, b: seq<Line>)
    requires StrictlySorted(a) && StrictlySorted(b) && Elems(a) == Elems(b)
    ensures a == b
  {
    ElemsEmpty(a);
    ElemsEmpty(b);
    if a != [] {
      LastIsGreatest(a);
      LastIsGreatest(b);
      var x, y := a[|a| - 1], b[|b| - 1];
      assert x in Elems(b) && y in Elems(a);
      assert x == y;
      SortedUnique(a[..|a| - 1], b[..|b| - 1]);
      assert a == a[..|a| - 1] + [x] && b == b[..|b| - 1] + [x];
    }
  }

  lemma LastIsGreatest(a: seq<Line>)
    requires StrictlySorted(a) && a != []
    ensures
      var last := a[|a| - 1];
      && last in Elems(a) && (forall l :: l in Elems(a) && l != last ==> l.seqNo < last.seqNo)
      && StrictlySorted(a[..|a| - 1]) && Elems(a[..|a| - 1]) == Elems(a) - {last}
  {
    var front, last := a[..|a| - 1], a[|a| - 1];
    assert a == front + [last];
    ElemsAppend(front, [last]);
    assert forall l :: l in front ==> l.seqNo < last.seqNo;
  }

  // ---- The shown run is a function of those facts ----

  /** What the reducer holds for command c, in terms of those three facts. */
  ghost predicate Holds(s: State, c: string, fallback: seq<Line>, chunks: set<Line>, last: Option<Event>)
    requires last.Some? ==> last.value.CommandResult?
  {
    && (c !in s.runs ==> fallback == [] && chunks == {} && last == None)
    && (c in s.runs ==>
          var run := s.runs[c];
          && run.commandId == c
          && StrictlySorted(run.lines)
          && Elems(run.lines) == Visible(fallback, chunks)
          && (run.finished <==> last.Some?)
          && (run.finished ==> Carries(run, last.value)))
  }

  ghost predicate Shows(s: State, events: seq<Event>, c: string) {
    Holds(s, c, Fallback(events, c), Chunks(events, c), LastResult(events, c))
  }

  predicate Carries(run: CommandRun, r: Event)
    requires r.CommandResult?
  {
    && run.deviceId == r.deviceId && run.status == r.status && run.exitCode == r.exitCode
    && run.durationMs == r.durationMs && run.error == r.error
  }

  lemma VisibleEmpty(fallback: seq<Line>, chunks: set<Line>)
    ensures Visible(fallback, chunks) == {} <==> fallback == [] && chunks == {}
  {
    if fallback != [] {
      assert fallback[0] in Elems(fallback);
    } else if chunks != {} {
      var l :| l in chunks;
      assert l in Visible([], chunks);
    }
  }

  lemma ChunksStep(events: seq<Event>, c: string)
    requires events != []
    ensures
      var e := events[|events| - 1];
      Chunks(events, c) == Chunks(events[..|events| - 1], c)
                           + if e.CommandChunk? && e.commandId == c then {ChunkLine(e)} else {}
  {
    assert events == events[..|events| - 1] + [events[|events| - 1]];
  }

  /** A chunk whose number is already shown changes nothing, visibly. */
  lemma ShadowedChunk(lines: seq<Line>, F: seq<Line>, C: set<Line>, l: Line, i: nat)
    requires Elems(lines) == Visible(F, C) && Agree(C + {l})
    requires i < |lines| && lines[i].seqNo == l.seqNo
    ensures Visible(F, C + {l}) == Visible(F, C)
  {
    assert lines[i] in Visible(F, C);
    if lines[i] in C {
      assert lines[i] == l;
    } else {
      assert lines[i] in F;
    }
  }

  lemma NewChunk(lines: seq<Line>, F: seq<Line>, C: set<Line>, l: Line)
    requires Elems(lines) == Visible(F, C) && StrictlySorted(lines)
    requires forall i :: 0 <= i < |lines| ==> lines[i].seqNo != l.seqNo
    ensures StrictlySorted(SortLines(lines + [l])) && Elems(SortLines(lines + [l])) == Visible(F, C + {l})
  {
    SortInserts(lines, l);
    forall f | f in F ensures f.seqNo != l.seqNo {
      assert f in Elems(lines);
    }
    assert Visible(F, C + {l}) == Visible(F, C) + {l};
  }

  lemma ChunkHolds(s: State, c: string, F: seq<Line>, C: set<Line>, last: Option<Event>, e: Event)
    requires last.Some? ==> last.value.CommandResult?
    requires e.CommandChunk? && e.commandId == c && Holds(s, c, F, C, last) && Agree(C + {ChunkLine(e)})
    ensures Holds(Reduce(s, Got(e)), c, F, C + {ChunkLine(e)}, last)
  {
    var l := ChunkLine(e);
    VisibleEmpty(F, C);
    var lines := if c in s.runs then s.runs[c].lines else [];
    assert Elems(lines) == Visible(F, C);
    if HasSeq(lines, l.seqNo) {
      var i :| 0 <= i < |lines| && lines[i].seqNo == l.seqNo;
      ShadowedChunk(lines, F, C, l, i);
    } else {
      NewChunk(lines, F, C, l);
      var r := Reduce(s, Got(e));
      assert c in r.runs && r.runs[c].lines == SortLines(lines + [l]);
    }
  }

  /** Acknowledgements, presence, and other commands' events change nothing of this. */
  lemma OtherHolds(s: State, c: string, F: seq<Line>, C: set<Line>, last: Option<Event>, e: Event)
    requires last.Some? ==> last.value.CommandResult?
    requires (e.CommandChunk? || e.CommandResult?) ==> e.commandId != c
    requires Holds(s, c, F, C, last)
    ensures Holds(Reduce(s, Got(e)), c, F, C, last)
  {
    VisibleEmpty(F, C);
    if e.CommandAccepted? && e.commandId == c && c !in s.runs {
      assert Elems<Line>([]) == {};
    }
  }

  lemma ResultHolds(s: State, c: string, F: seq<Line>, C: set<Line>, last: Option<Event>, e: Event)
    requires last.Some? ==> last.value.CommandResult?
    requires e.CommandResult? && e.commandId == c && Holds(s, c, F, C, last)
    ensures Holds(Reduce(s, Got(e)), c,
                  if F == [] && C == {} then FallbackLines(e.stdout, e.stderr) else F, C, Some(e))
  {
    VisibleEmpty(F, C);
    var lines := if c in s.runs then s.runs[c].lines else [];
    assert Elems(lines) == Visible(F, C);
    ElemsEmpty(lines);
    if lines == [] {
      assert Elems(FallbackLines(e.stdout, e.stderr)) == Visible(FallbackLines(e.stdout, e.stderr), {});
    }
  }

  lemma {:induction false} FoldShows(events: seq<Event>, c: string)
    requires Agree(Chunks(events, c))
    ensures Shows(Fold(events), events, c)
  {
    if events != [] {
      var before, e := events[..|events| - 1], events[|events| - 1];
      ChunksStep(events, c);
      FoldShows(before, c);
      var F, C, last := Fallback(before, c), Chunks(before, c), LastResult(before, c);
      if e.CommandChunk? && e.commandId == c {
        ChunkHolds(Fold(before), c, F, C, last, e);
      } else if e.CommandResult? && e.commandId == c {
        ResultHolds(Fold(before), c, F, C, last, e);
      } else {
        OtherHolds(Fold(before), c, F, C, last, e);
      }
      FallbackStep(events, c);
    }
  }

  lemma FallbackStep(events: seq<Event>, c: string)
    requires events != []
    ensures
      var before, e := events[..|events| - 1], events[|events| - 1];
      && Fallback(events, c) ==
           (if Fallback(before, c) != [] then Fallback(before, c)
            else if Chunks(before, c) == {} && e.CommandResult? && e.commandId == c
            then FallbackLines(e.stdout, e.stderr) else [])
      && LastResult(events, c) == (if e.CommandResult? && e.commandId == c then Some(e) else LastResult(before, c))
      && Fold(events) == Reduce(Fold(before), Got(e))
  {
  }

  // ---- Confluence ----

  /** Two arrival orders with the same chunks and the same last result, in which the
      buffered output is shown alike, end in the same run, whatever acknowledgements and
      other commands' events are mixed in. */
  lemma Confluence(es: seq<Event>, fs: seq<Event>, c: string)
    requires Chunks(es, c) == Chunks(fs, c) && Agree(Chunks(es, c))
    requires LastResult(es, c) == LastResult(fs, c) && LastResult(es, c).Some?
    requires Fallback(es, c) == Fallback(fs, c)
    ensures c in Fold(es).runs && c in Fold(fs).runs && Fold(es).runs[c] == Fold(fs).runs[c]
  {
    FoldShows(es, c);
    FoldShows(fs, c);
    SortedUnique(Fold(es).runs[c].lines, Fold(fs).runs[c].lines);
  }

  predicate IsChunk(e: Event, c: string) {
    e.CommandChunk? && e.commandId == c
  }

  predicate IsResult(e: Event, c: string) {
    e.CommandResult? && e.commandId == c
  }

  predicate HasOutput(e: Event)
    requires e.CommandResult?
  {
    e.stdout != "" || e.stderr != ""
  }

  predicate NoChunk(events: seq<Event>, c: string) {
    forall k :: 0 <= k < |events| ==> !IsChunk(events[k], c)
  }

  /** A result with output comes before any chunk of c. */
  predicate ResultLeads(events: seq<Event>, c: string) {
    exists i :: 0 <= i < |events| && IsResult(events[i], c) && HasOutput(events[i]) && NoChunk(events[..i], c)
  }

  /** No result with output arrives before the first chunk of c, if there is one. */
  ghost predicate ResultsAfterChunks(events: seq<Event>, c: string) {
    Chunks(events, c) == {} || !ResultLeads(events, c)
  }

  lemma NoChunkIff(events: seq<Event>, c: string)
    ensures NoChunk(events, c) <==> Chunks(events, c) == {}
  {
    if k :| 0 <= k < |events| && IsChunk(events[k], c) {
      assert ChunkLine(events[k]) in Chunks(events, c);
    }
  }

  lemma ResultLeadsSnoc(before: seq<Event>, e: Event, c: string)
    ensures ResultLeads(before + [e], c) <==>
            ResultLeads(before, c) || (IsResult(e, c) && HasOutput(e) && NoChunk(before, c))
  {
    var events, n := before + [e], |before|;
    assert events[n] == e && events[..n] == before;
    forall i | 0 <= i < n ensures events[i] == before[i] && events[..i] == before[..i] {
    }
  }

  /** The fallback is the result's output exactly if such a result leads. */
  lemma {:induction false} FallbackIs(events: seq<Event>, c: string, r: Event)
    requires r.CommandResult? && forall e :: e in events && IsResult(e, c) ==> e == r
    ensures Fallback(events, c) == if ResultLeads(events, c) then FallbackLines(r.stdout, r.stderr) else []
  {
    if events != [] {
      var n := |events| - 1;
      var before, e := events[..n], events[n];
      assert events == before + [e];
      FallbackIs(before, c, r);
      NoChunkIff(before, c);
      ResultLeadsSnoc(before, e, c);
    }
  }

  /** What a finished run should show: the chunks, or the buffered output if none streamed. */
  ghost function Expected(chunks: set<Line>, r: Event): set<Line>
    requires r.CommandResult?
  {
    if chunks == {} then Elems(FallbackLines(r.stdout, r.stderr)) else chunks
  }

  /** Any permutation, with any duplication, of one command's messages: the run ends
      finished, with the result's status and exactly the chunks in sequence order, or the
      result's output when nothing was streamed. */
  lemma AnyOrderAnyDuplication(es: seq<Event>, fs: seq<Event>, c: string, r: Event)
    requires (forall e :: e in es <==> e in fs) && Agree(Chunks(es, c))
    requires IsResult(r, c) && r in es && forall e :: e in es && IsResult(e, c) ==> e == r
    requires ResultsAfterChunks(es, c) && ResultsAfterChunks(fs, c)
    ensures c in Fold(es).runs && c in Fold(fs).runs && Fold(es).runs[c] == Fold(fs).runs[c]
    ensures
      var run := Fold(fs).runs[c];
      run.finished && Carries(run, r) && StrictlySorted(run.lines) && Elems(run.lines) == Expected(Chunks(es, c), r)
  {
    assert Chunks(es, c) == Chunks(fs, c);
    OnlyResult(es, c, r);
    OnlyResult(fs, c, r);
    SettledFallback(es, c, r);
    SettledFallback(fs, c, r);
    Confluence(es, fs, c);
    FoldShows(fs, c);
    ShownIs(fs, c, r);
  }

  lemma SettledFallback(events: seq<Event>, c: string, r: Event)
    requires IsResult(r, c) && r in events && forall e :: e in events && IsResult(e, c) ==> e == r
    requires ResultsAfterChunks(events, c)
    ensures Fallback(events, c) == if Chunks(events, c) == {} then FallbackLines(r.stdout, r.stderr) else []
  {
    FallbackIs(events, c, r);
    NoChunkIff(events, c);
    if Chunks(events, c) == {} && HasOutput(r) {
      var i :| 0 <= i < |events| && events[i] == r;
      assert NoChunk(events[..i], c);
    }
  }

  /** The lines of a finished run, in terms of who came first. */
  lemma ShownIs(events: seq<Event>, c: string, r: Event)
    requires Agree(Chunks(events, c))
    requires IsResult(r, c) && r in events && forall e :: e in events && IsResult(e, c) ==> e == r
    ensures c in Fold(events).runs
    ensures ResultsAfterChunks(events, c) ==> Elems(Fold(events).runs[c].lines) == Expected(Chunks(events, c), r)
    ensures !ResultsAfterChunks(events, c) ==>
      Elems(Fold(events).runs[c].lines) == Visible(FallbackLines(r.stdout, r.stderr), Chunks(events, c))
  {
    FoldShows(events, c);
    OnlyResult(events, c, r);
    FallbackIs(events, c, r);
    if ResultsAfterChunks(events, c) {
      SettledFallback(events, c, r);
      assert Visible([], Chunks(events, c)) == Chunks(events, c);
      assert Visible(FallbackLines(r.stdout, r.stderr), {}) == Elems(FallbackLines(r.stdout, r.stderr));
    }
  }

  /** Exactly when one arrival order shows what it should: no result with output came before
      the first chunk, or that output consists of chunks. */
  lemma ShowsExpectedIff(events: seq<Event>, c: string, r: Event)
    requires Agree(Chunks(events, c))
    requires IsResult(r, c) && r in events && forall e :: e in events && IsResult(e, c) ==> e == r
    ensures c in Fold(events).runs
    ensures Elems(Fold(events).runs[c].lines) == Expected(Chunks(events, c), r) <==>
            ResultsAfterChunks(events, c) || Elems(FallbackLines(r.stdout, r.stderr)) <= Chunks(events, c)
  {
    ShownIs(events, c, r);
    if !ResultsAfterChunks(events, c) {
      FallbackIs(events, c, r);
      LinesAreTheChunksIff(events, c);
    }
  }

  lemma {:induction false} OnlyResult(events: seq<Event>, c: string, r: Event)
    requires r in events && r.CommandResult? && r.commandId == c
    requires forall e :: e in events && e.CommandResult? && e.commandId == c ==> e == r
    ensures LastResult(events, c) == Some(r)
  {
    var e := events[|events| - 1];
    if !(e.CommandResult? && e.commandId == c) {
      assert events == events[..|events| - 1] + [e];
      OnlyResult(events[..|events| - 1], c, r);
    }
  }

  /** Exactly when the shown lines are the chunks and nothing else: when the fallback, if
      any, consists of chunks. */
  lemma LinesAreTheChunksIff(events: seq<Event>, c: string)
    requires Agree(Chunks(events, c)) && c in Fold(events).runs
    ensures Elems(Fold(events).runs[c].lines) == Chunks(events, c) <==> Elems(Fallback(events, c)) <= Chunks(events, c)
  {
    FoldShows(events, c);
    var F, C := Fallback(events, c), Chunks(events, c);
    if Elems(F) <= C {
      forall l | l in C ensures l in Visible(F, C) {
        if exists f :: f in F && f.seqNo == l.seqNo {
          var f :| f in F && f.seqNo == l.seqNo;
          assert f in Elems(F);
        }
      }
    } else {
      var f :| f in Elems(F) && f !in C;
      assert f in Visible(F, C);
    }
  }

  /** Why a hypothesis is needed: a result whose output overtakes the first chunk leaves a
      line no chunk sent, and shadows the chunk numbered 0. */
  lemma OvertakingResultShadowsChunk(chunk: Event, result: Event)
    requires chunk == CommandChunk("c", "d", Stdout, 0, "a")
    requires result == CommandResult("c", "d", "SUCCEEDED", Some(0), "ab", "", None, None)
    ensures "c" in Fold([chunk, result]).runs && "c" in Fold([result, chunk]).runs
    ensures Fold([chunk, result]).runs["c"].lines == [Line(0, Stdout, "a")]
    ensures Fold([result, chunk]).runs["c"].lines == [Line(0, Stdout, "ab")]
  {
    FoldTwo(chunk, result);
    FoldTwo(result, chunk);
    var l := Line(0, Stdout, "a");
    SortSorted([l]);
    assert [] + [l] == [l];
    var s1 := Reduce(INITIAL, Got(chunk));
    assert s1.runs["c"].lines == [l];
    var s2 := Reduce(INITIAL, Got(result));
    assert s2.runs["c"].lines == FallbackLines("ab", "") == [Line(0, Stdout, "ab")];
    var run := s2.runs["c"];
    assert run.lines[0].seqNo == chunk.seqNo;
    assert HasSeq(run.lines, chunk.seqNo);
    assert Reduce(s2, Got(chunk)) == s2;
  }

  /** The run of c is finished exactly if there was a result, and carries it. */
  predicate Concludes(s: State, c: string, last: Option<Event>)
    requires last.Some? ==> last.value.CommandResult?
  {
    && (last.Some? <==> c in s.runs && s.runs[c].finished)
    && (last.Some? ==> Carries(s.runs[c], last.value))
  }

  lemma ReduceConcludes(s: State, c: string, last: Option<Event>, e: Event)
    requires last.Some? ==> last.value.CommandResult?
    requires Concludes(s, c, last)
    ensures Concludes(Reduce(s, Got(e)), c, if IsResult(e, c) then Some(e) else last)
  {
    if e.CommandChunk? {
      ChunkKeepsOutcome(s, c, e);
    }
  }

  lemma ChunkKeepsOutcome(s: State, c: string, e: Event)
    requires e.CommandChunk?
    ensures c in s.runs ==> c in Reduce(s, Got(e)).runs
    ensures c in Reduce(s, Got(e)).runs ==>
      var after := Reduce(s, Got(e)).runs[c];
      if c in s.runs then after == s.runs[c].(lines := after.lines) else !after.finished
  {
  }

  /** A run is finished exactly when a result was seen, and then carries the last one, whatever
      the chunks say. */
  lemma {:induction false} FinishedIsLastResult(events: seq<Event>, c: string)
    ensures LastResult(events, c).Some? <==> c in Fold(events).runs && Fold(events).runs[c].finished
    ensures LastResult(events, c).Some? ==> Carries(Fold(events).runs[c], LastResult(events, c).value)
  {
    if events != [] {
      var before, e := events[..|events| - 1], events[|events| - 1];
      FinishedIsLastResult(before, c);
      ReduceConcludes(Fold(before), c, LastResult(before, c), e);
      FallbackStep(events, c);
    }
  }

  lemma FoldTwo(d: Event, e: Event)
    ensures Fold([d, e]) == Reduce(Reduce(INITIAL, Got(d)), Got(e))
  {
    assert [d, e][..1] == [d] && [d][..0] == [];
    assert Fold([d]) == Reduce(INITIAL, Got(d));
  }

  /** A terminal result is never reopened: once finished, a run stays finished. */
  lemma FinishedStays(s: State, e: Event, c: string)
    requires c in s.runs && s.runs[c].finished
    ensures c in Reduce(s, Got(e)).runs && Reduce(s, Got(e)).runs[c].finished
    ensures !(e.CommandResult? && e.commandId == c) ==> Reduce(s, Got(e)).runs[c].status == s.runs[c].status
  {
    var r := Reduce(s, Got(e));
    match e {
      case CommandChunk(d, _, _, n, _) =>
        if d != c { assert r.runs == s.runs || r.runs == s.runs[d := r.runs[d]]; }
      case CommandAccepted(d, _, _) =>
        if d != c { assert r.runs == s.runs || r.runs == s.runs[d := r.runs[d]]; }
      case _ =>
    }
  }

  // ---- Each event, field by field ----

  /** Buffered output is shown as its standard output, then its standard error. */
  lemma FallbackMeans(out: string, err: string)
    ensures FallbackLines("", "") == []
    ensures out != "" ==> FallbackLines(out, "") == [Line(0, Stdout, out)]
    ensures err != "" ==> FallbackLines("", err) == [Line(1, Stderr, err)]
    ensures out != "" && err != "" ==> FallbackLines(out, err) == [Line(0, Stdout, out), Line(1, Stderr, err)]
  {
  }

  /** The command has no run yet, or one that is live and says ack. */
  predicate Live(s: State, c: string, begun: bool, ack: string) {
    && (begun <==> c in s.runs) && (!begun ==> ack == "running")
    && (begun ==>
          var run := s.runs[c];
          && run.commandId == c && !run.finished && run.status == ack
          && run.exitCode == None && run.durationMs == None && run.error == None)
  }

  lemma StepLive(s: State, c: string, begun: bool, ack: string, e: Event)
    requires Live(s, c, begun, ack) && !IsResult(e, c)
    ensures
      var acks := e.CommandAccepted? && e.commandId == c;
      Live(Reduce(s, Got(e)), c, begun || acks || IsChunk(e, c), if acks then e.ackStatus else ack)
  {
  }

  /** A run without a result is live: its status is that of its last acknowledgement, or "running",
      and it has no exit code, duration or error. */
  lemma {:induction false} LiveRun(events: seq<Event>, c: string)
    requires forall e :: e in events ==> !IsResult(e, c)
    ensures
      var begun := exists e :: e in events && (e.CommandAccepted? || e.CommandChunk?) && e.commandId == c;
      && (begun <==> c in Fold(events).runs) && (!begun ==> LastAck(events, c) == "running")
      && (begun ==>
            var run := Fold(events).runs[c];
            && run.commandId == c && !run.finished && run.status == LastAck(events, c)
            && run.exitCode == None && run.durationMs == None && run.error == None)
  {
    if events != [] {
      var before, e := events[..|events| - 1], events[|events| - 1];
      assert events == before + [e];
      LiveRun(before, c);
      var begun := exists x :: x in before && (x.CommandAccepted? || x.CommandChunk?) && x.commandId == c;
      StepLive(Fold(before), c, begun, LastAck(before, c), e);
      assert forall x :: x in events <==> x in before || x == e;
    }
  }

  function LastAck(events: seq<Event>, c: string): string {
    if events == [] then "running"
    else
      var e := events[|events| - 1];
      if e.CommandAccepted? && e.commandId == c then e.ackStatus else LastAck(events[..|events| - 1], c)
  }

  lemma {:induction false} LastAckIs(events: seq<Event>, c: string)
    ensures
      || (LastAck(events, c) == "running" && forall e :: e in events && e.CommandAccepted? ==> e.commandId != c)
      || exists i :: 0 <= i < |events| && events[i].CommandAccepted? && events[i].commandId == c
           && LastAck(events, c) == events[i].ackStatus
           && forall j :: i < j < |events| && events[j].CommandAccepted? ==> events[j].commandId != c
  {
    if events != [] {
      var n := |events| - 1;
      var before, e := events[..n], events[n];
      assert events == before + [e];
      if !(e.CommandAccepted? && e.commandId == c) {
        LastAckIs(before, c);
        assert forall i :: 0 <= i < n ==> before[i] == events[i];
      }
    }
  }

  /** Presence and metrics of a device are those of its last event, and a device nobody reported on
      has none. */
  lemma {:induction false} LastReportShown(events: seq<Event>, i: nat)
    requires i < |events|
    ensures
      var d := events[i];
      d.DeviceStatus?
      && (forall j :: i < j < |events| && events[j].DeviceStatus? ==> events[j].deviceId != d.deviceId) ==>
        d.deviceId in Fold(events).status && Fold(events).status[d.deviceId] == (d.online, d.lastSeenAt)
    ensures
      var d := events[i];
      d.DeviceMetrics?
      && (forall j :: i < j < |events| && events[j].DeviceMetrics? ==> events[j].deviceId != d.deviceId) ==>
        d.deviceId in Fold(events).metrics && Fold(events).metrics[d.deviceId] == d.sample
  {
    var n := |events| - 1;
    if i < n {
      assert forall j :: 0 <= j < n ==> events[..n][j] == events[j];
      LastReportShown(events[..n], i);
      assert events[n] == events[|events| - 1];
    }
  }

  /** A chunk shows as a line with its number, stream and data, also of a run nobody acknowledged. */
  lemma FirstChunk(s: State, c: string, d: string, stream: Stream, n: int, data: string)
    requires c !in s.runs
    ensures
      var after := Reduce(s, Got(CommandChunk(c, d, stream, n, data)));
      after == s.(runs := s.runs[c := CommandRun(c, d, "running", None, [Line(n, stream, data)], None, None, false)])
  {
    assert SortLines([] + [Line(n, stream, data)]) == [Line(n, stream, data)] by {
      assert [Line(n, stream, data)][..0] == [];
    }
  }

  /** The connection flag is the last one reported, and touches nothing else. */
  lemma ConnectionOnly(s: State, v: bool, ts: string)
    ensures Reduce(s, Connected(v)) == State(s.status, s.metrics, s.runs, v)
    ensures Reduce(s, Got(Ping(ts))) == s
  {
  }
}
