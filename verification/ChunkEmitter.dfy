/** Live output streaming: two emitters (stdout, stderr) drained by the process's copy
    goroutines, a ticker and `Close` (agent/internal/executor/stream.go), and the sink that
    numbers chunks across both streams (agent/internal/dispatch/dispatcher.go). An emitter
    gives up its lock between taking the buffer and calling the sink. */
module ChunkEmitter {
  import opened Prelude
  import opened Protocol

  // ---- One emitter, under its lock ----

  /** `written` and `drained` are histories. */
  datatype Emitter = Emitter(buf: string, closed: bool, written: string, drained: seq<string>)

  const NEW_EMITTER := Emitter("", false, "", [])

  function Written(e: Emitter, p: string): Emitter {
    e.(buf := e.buf + p, written := e.written + p)
  }

  predicate Drains(e: Emitter) {
    e.buf != "" && !e.closed
  }

  function Drained(e: Emitter): Emitter {
    if Drains(e) then e.(buf := "", drained := e.drained + [e.buf]) else e
  }

  // ---- Both emitters and the shared sink ----

  /** The idx-th piece taken from a stream. */
  datatype Piece = Piece(stream: Stream, idx: nat, data: string)

  /** `inFlight` are pieces some thread holds between its drain and its sink call. */
  datatype State = State(out: Emitter, err: Emitter, inFlight: seq<Piece>, nextSeq: nat, sunk: seq<(nat, Piece)>)

  datatype Step =
    | Write(stream: Stream, p: string)
    | Drain(stream: Stream)
    | Sink(i: nat)
    | Close(stream: Stream)

  const INITIAL := State(NEW_EMITTER, NEW_EMITTER, [], 0, [])

  function Of(s: State, stream: Stream): Emitter {
    if stream.Stdout? then s.out else s.err
  }

  function With(s: State, stream: Stream, e: Emitter): State {
    if stream.Stdout? then s.(out := e) else s.(err := e)
  }

  predicate Enabled(s: State, t: Step) {
    t.Sink? ==> t.i < |s.inFlight|
  }

  function Next(s: State, t: Step): State
    requires Enabled(s, t)
  {
    match t
    case Write(stream, p) => With(s, stream, Written(Of(s, stream), p))
    case Drain(stream) =>
      var e := Of(s, stream);
      if Drains(e)
      then With(s, stream, Drained(e)).(inFlight := s.inFlight + [Piece(stream, |e.drained|, e.buf)])
      else s
    case Sink(i) =>
      s.(inFlight := RemoveAt(s.inFlight, i), nextSeq := s.nextSeq + 1, sunk := s.sunk + [(s.nextSeq, s.inFlight[i])])
    case Close(stream) => With(s, stream, Of(s, stream).(closed := true))
  }

  predicate Legal(s: State, steps: seq<Step>)
    decreases |steps|
  {
    steps == [] || (Enabled(s, steps[0]) && Legal(Next(s, steps[0]), steps[1..]))
  }

  function Run(s: State, steps: seq<Step>): State
    requires Legal(s, steps)
    decreases |steps|
  {
    if steps == [] then s else Run(Next(s, steps[0]), steps[1..])
  }

  // ---- Conservation ----

  function Flatten(pieces: seq<string>): string {
    if pieces == [] then "" else Flatten(pieces[..|pieces| - 1]) + pieces[|pieces| - 1]
  }

  function Pieces(stream: Stream, drained: seq<string>): seq<Piece> {
    seq(|drained|, i requires 0 <= i < |drained| => Piece(stream, i, drained[i]))
  }

  function SunkPieces(sunk: seq<(nat, Piece)>): seq<Piece> {
    seq(|sunk|, i requires 0 <= i < |sunk| => sunk[i].1)
  }

  /** No byte is lost or doubled, every drained piece is in one thread's hands or was sunk
      once, and the sequence numbers given out are 0, 1, 2, ... without gap or repeat. */
  ghost predicate Conserved(s: State) {
    && s.out.written == Flatten(s.out.drained) + s.out.buf
    && s.err.written == Flatten(s.err.drained) + s.err.buf
    && multiset(s.inFlight) + multiset(SunkPieces(s.sunk))
       == multiset(Pieces(Stdout, s.out.drained)) + multiset(Pieces(Stderr, s.err.drained))
    && s.nextSeq == |s.sunk|
    && (forall k :: 0 <= k < |s.sunk| ==> s.sunk[k].0 == k)
  }

  lemma DrainPieces(e: Emitter, stream: Stream)
    requires Drains(e) && e.written == Flatten(e.drained) + e.buf
    ensures Pieces(stream, Drained(e).drained) == Pieces(stream, e.drained) + [Piece(stream, |e.drained|, e.buf)]
    ensures e.written == Flatten(Drained(e).drained) + Drained(e).buf
  {
    assert Drained(e).drained[..|e.drained|] == e.drained;
  }

  lemma DrainConserved(s: State, stream: Stream)
    requires Conserved(s) && Drains(Of(s, stream))
    ensures Conserved(Next(s, Drain(stream)))
  {
    var e := Of(s, stream);
    var p := Piece(stream, |e.drained|, e.buf);
    DrainPieces(e, stream);
    var t := Next(s, Drain(stream));
    var held, sunk := multiset(s.inFlight), multiset(SunkPieces(s.sunk));
    var outs, errs := multiset(Pieces(Stdout, s.out.drained)), multiset(Pieces(Stderr, s.err.drained));
    assert multiset(t.inFlight) + multiset(SunkPieces(t.sunk)) == held + sunk + multiset{p};
    if stream.Stdout? {
      assert multiset(Pieces(Stdout, t.out.drained)) == outs + multiset{p};
    } else {
      assert multiset(Pieces(Stderr, t.err.drained)) == errs + multiset{p};
    }
  }

  lemma SinkConserved(s: State, i: nat)
    requires Conserved(s) && i < |s.inFlight|
    ensures Conserved(Next(s, Sink(i)))
  {
    var t := Next(s, Sink(i));
    RemoveAtMultiset(s.inFlight, i);
    assert SunkPieces(t.sunk) == SunkPieces(s.sunk) + [s.inFlight[i]];
    assert multiset(SunkPieces(t.sunk)) == multiset(SunkPieces(s.sunk)) + multiset{s.inFlight[i]};
    assert multiset(t.inFlight) + multiset(SunkPieces(t.sunk)) == multiset(s.inFlight) + multiset(SunkPieces(s.sunk));
  }

  lemma StepConserved(s: State, t: Step)
    requires Conserved(s) && Enabled(s, t)
    ensures Conserved(Next(s, t))
  {
    match t {
      case Write(stream, p) =>
        var e := Of(s, stream);
        assert Flatten(e.drained) + (e.buf + p) == (Flatten(e.drained) + e.buf) + p;
      case Drain(stream) =>
        if Drains(Of(s, stream)) { DrainConserved(s, stream); }
      case Sink(i) =>
        SinkConserved(s, i);
      case Close(stream) =>
    }
  }

  lemma {:induction false} RunConserved(s: State, steps: seq<Step>)
    requires Conserved(s) && Legal(s, steps)
    ensures Conserved(Run(s, steps))
    decreases |steps|
  {
    if steps != [] {
      StepConserved(s, steps[0]);
      RunConserved(Next(s, steps[0]), steps[1..]);
    }
  }

  lemma InitialConserved()
    ensures Conserved(INITIAL)
  {
    assert SunkPieces([]) == [] && Pieces(Stdout, []) == [] && Pieces(Stderr, []) == [];
  }

  // ---- Order ----

  function OnStream(ps: seq<Piece>, stream: Stream): seq<Piece> {
    if ps == [] then [] else
      OnStream(ps[..|ps| - 1], stream) + if ps[|ps| - 1].stream == stream then [ps[|ps| - 1]] else []
  }

  function Data(ps: seq<Piece>): seq<string> {
    seq(|ps|, i requires 0 <= i < |ps| => ps[i].data)
  }

  lemma {:induction false} OnStreamAppend(ps: seq<Piece>, qs: seq<Piece>, stream: Stream)
    ensures OnStream(ps + qs, stream) == OnStream(ps, stream) + OnStream(qs, stream)
  {
    if qs == [] {
      assert ps + qs == ps;
    } else {
      assert (ps + qs)[..|ps + qs| - 1] == ps + qs[..|qs| - 1];
      OnStreamAppend(ps, qs[..|qs| - 1], stream);
    }
  }

  lemma OnStreamOne(p: Piece, stream: Stream)
    ensures OnStream([p], stream) == if p.stream == stream then [p] else []
  {
    assert [p][..0] == [];
  }

  /** What is sunk is the oldest piece in flight of its stream. */
  predicate Oldest(s: State, t: Step) {
    t.Sink? && t.i < |s.inFlight| ==> OnStream(s.inFlight[..t.i], s.inFlight[t.i].stream) == []
  }

  predicate OldestRun(s: State, steps: seq<Step>)
    requires Legal(s, steps)
    decreases |steps|
  {
    steps == [] || (Oldest(s, steps[0]) && OldestRun(Next(s, steps[0]), steps[1..]))
  }

  /** In sequence order, a stream's sunk pieces followed by those in flight are its pieces in
      drain order. */
  ghost predicate Ordered(sunk: seq<Piece>, inFlight: seq<Piece>, pieces: seq<Piece>, stream: Stream) {
    OnStream(sunk, stream) + OnStream(inFlight, stream) == pieces
  }

  ghost predicate InOrder(s: State, stream: Stream) {
    Ordered(SunkPieces(s.sunk), s.inFlight, Pieces(stream, Of(s, stream).drained), stream)
  }

  lemma OrderedDrain(sunk: seq<Piece>, inFlight: seq<Piece>, pieces: seq<Piece>, stream: Stream, p: Piece)
    requires Ordered(sunk, inFlight, pieces, stream)
    ensures Ordered(sunk, inFlight + [p], if p.stream == stream then pieces + [p] else pieces, stream)
  {
    OnStreamAppend(inFlight, [p], stream);
    OnStreamOne(p, stream);
    Reassociate(OnStream(sunk, stream), OnStream(inFlight, stream), OnStream([p], stream));
  }

  /** Removing a piece: what is left of its stream is what stood before and after it. */
  lemma OnStreamRemove(ps: seq<Piece>, i: nat, stream: Stream)
    requires i < |ps|
    ensures OnStream(ps, stream)
      == OnStream(ps[..i], stream) + (OnStream([ps[i]], stream) + OnStream(ps[i + 1..], stream))
    ensures OnStream(RemoveAt(ps, i), stream) == OnStream(ps[..i], stream) + OnStream(ps[i + 1..], stream)
  {
    assert ps == ps[..i] + ([ps[i]] + ps[i + 1..]);
    OnStreamAppend(ps[..i], [ps[i]] + ps[i + 1..], stream);
    OnStreamAppend([ps[i]], ps[i + 1..], stream);
    OnStreamAppend(ps[..i], ps[i + 1..], stream);
  }

  lemma OrderedSink(sunk: seq<Piece>, inFlight: seq<Piece>, pieces: seq<Piece>, stream: Stream, i: nat)
    requires Ordered(sunk, inFlight, pieces, stream) && i < |inFlight|
    requires inFlight[i].stream == stream ==> OnStream(inFlight[..i], stream) == []
    ensures Ordered(sunk + [inFlight[i]], RemoveAt(inFlight, i), pieces, stream)
  {
    OnStreamAppend(sunk, [inFlight[i]], stream);
    OnStreamOne(inFlight[i], stream);
    OnStreamRemove(inFlight, i, stream);
    var before, one := OnStream(inFlight[..i], stream), OnStream([inFlight[i]], stream);
    var after := OnStream(inFlight[i + 1..], stream);
    if inFlight[i].stream == stream {
      assert before + (one + after) == one + after && before + after == after;
    } else {
      assert one + after == after;
    }
    Reassociate(OnStream(sunk, stream), one, before + after);
  }

  lemma StepInOrder(s: State, t: Step, stream: Stream)
    requires Conserved(s) && InOrder(s, stream) && Enabled(s, t) && Oldest(s, t)
    ensures InOrder(Next(s, t), stream)
  {
    match t {
      case Write(_, _) =>
      case Close(_) =>
      case Drain(d) => DrainInOrder(s, d, stream);
      case Sink(i) => SinkInOrder(s, i, stream);
    }
  }

  lemma DrainInOrder(s: State, d: Stream, stream: Stream)
    requires Conserved(s) && InOrder(s, stream)
    ensures InOrder(Next(s, Drain(d)), stream)
  {
    var e := Of(s, d);
    if Drains(e) {
      OrderedDrain(SunkPieces(s.sunk), s.inFlight, Pieces(stream, Of(s, stream).drained), stream,
                   Piece(d, |e.drained|, e.buf));
      DrainPieces(e, d);
    }
  }

  lemma SinkInOrder(s: State, i: nat, stream: Stream)
    requires InOrder(s, stream) && i < |s.inFlight| && Oldest(s, Sink(i))
    ensures InOrder(Next(s, Sink(i)), stream)
  {
    OrderedSink(SunkPieces(s.sunk), s.inFlight, Pieces(stream, Of(s, stream).drained), stream, i);
    SunkMore(s, i);
  }

  lemma SunkMore(s: State, i: nat)
    requires i < |s.inFlight|
    ensures SunkPieces(Next(s, Sink(i)).sunk) == SunkPieces(s.sunk) + [s.inFlight[i]]
  {
  }

  lemma {:induction false} RunInOrder(s: State, steps: seq<Step>, stream: Stream)
    requires Conserved(s) && InOrder(s, stream) && Legal(s, steps) && OldestRun(s, steps)
    ensures InOrder(Run(s, steps), stream)
    decreases |steps|
  {
    if steps != [] {
      StepConserved(s, steps[0]);
      StepInOrder(s, steps[0], stream);
      RunInOrder(Next(s, steps[0]), steps[1..], stream);
    }
  }

  lemma InitialInOrder(stream: Stream)
    ensures InOrder(INITIAL, stream)
  {
    assert SunkPieces([]) == [] && Pieces(stream, []) == [];
  }

  /** When every thread sinks the oldest piece of its stream, replaying a stream's chunks by
      sequence number (then the pieces in flight, then the buffer) rebuilds what was written. */
  lemma SequenceOrderIsStreamOrder(steps: seq<Step>, stream: Stream)
    requires Legal(INITIAL, steps) && OldestRun(INITIAL, steps)
    ensures
      var s := Run(INITIAL, steps);
      Of(s, stream).written ==
        Flatten(Data(OnStream(SunkPieces(s.sunk), stream) + OnStream(s.inFlight, stream))) + Of(s, stream).buf
  {
    var s := Run(INITIAL, steps);
    InitialConserved();
    RunConserved(INITIAL, steps);
    InitialInOrder(stream);
    RunInOrder(INITIAL, steps, stream);
    assert Data(Pieces(stream, Of(s, stream).drained)) == Of(s, stream).drained;
  }

  // ---- And only then ----

  /** By sequence number, the sunk pieces of the stream are its first pieces. */
  ghost predicate Prefix(s: State, stream: Stream) {
    OnStream(SunkPieces(s.sunk), stream) <= Pieces(stream, Of(s, stream).drained)
  }

  /** Some piece was numbered before an older one of its stream. */
  ghost predicate Misplaced(s: State, stream: Stream) {
    var sunk := OnStream(SunkPieces(s.sunk), stream);
    exists k :: 0 <= k < |sunk| && sunk[k].idx != k
  }

  lemma MisplacedIsNoPrefix(s: State, stream: Stream)
    requires Misplaced(s, stream)
    ensures !Prefix(s, stream)
  {
  }

  /** Numbers are never taken back. */
  lemma MisplacedStays(s: State, t: Step, stream: Stream)
    requires Enabled(s, t) && Misplaced(s, stream)
    ensures Misplaced(Next(s, t), stream)
  {
    if t.Sink? {
      SunkMore(s, t.i);
      OnStreamAppend(SunkPieces(s.sunk), [s.inFlight[t.i]], stream);
      var sunk := OnStream(SunkPieces(s.sunk), stream);
      var k :| 0 <= k < |sunk| && sunk[k].idx != k;
      assert OnStream(SunkPieces(Next(s, t).sunk), stream)[k] == sunk[k];
    }
  }

  lemma {:induction false} MisplacedForever(s: State, steps: seq<Step>, stream: Stream)
    requires Legal(s, steps) && Misplaced(s, stream)
    ensures Misplaced(Run(s, steps), stream)
    decreases |steps|
  {
    if steps != [] {
      MisplacedStays(s, steps[0], stream);
      MisplacedForever(Next(s, steps[0]), steps[1..], stream);
    }
  }

  /** Sinking past an older piece of the stream gives it that piece's place. */
  lemma OvertakingMisplaces(s: State, i: nat)
    requires i < |s.inFlight| && InOrder(s, s.inFlight[i].stream) && !Oldest(s, Sink(i))
    ensures Misplaced(Next(s, Sink(i)), s.inFlight[i].stream)
  {
    var p := s.inFlight[i];
    var sunk := OnStream(SunkPieces(s.sunk), p.stream);
    var before := OnStream(s.inFlight[..i], p.stream);
    OnStreamRemove(s.inFlight, i, p.stream);
    OnStreamOne(p, p.stream);
    var pieces := Pieces(p.stream, Of(s, p.stream).drained);
    assert pieces[|sunk| + |before|] == p;
    SunkMore(s, i);
    OnStreamAppend(SunkPieces(s.sunk), [p], p.stream);
    assert OnStream(SunkPieces(Next(s, Sink(i)).sunk), p.stream)[|sunk|] == p;
  }

  /** The exact condition: over any run, both streams' sunk pieces are, by sequence number,
      their first drained ones if and only if every sink took the oldest of its stream. */
  lemma {:induction false} PrefixIffOldest(s: State, steps: seq<Step>)
    requires Conserved(s) && InOrder(s, Stdout) && InOrder(s, Stderr) && Legal(s, steps)
    ensures OldestRun(s, steps) <==> Prefix(Run(s, steps), Stdout) && Prefix(Run(s, steps), Stderr)
    decreases |steps|
  {
    if steps == [] {
    } else if Oldest(s, steps[0]) {
      StepConserved(s, steps[0]);
      StepInOrder(s, steps[0], Stdout);
      StepInOrder(s, steps[0], Stderr);
      PrefixIffOldest(Next(s, steps[0]), steps[1..]);
    } else {
      var stream := s.inFlight[steps[0].i].stream;
      OvertakingMisplaces(s, steps[0].i);
      MisplacedForever(Next(s, steps[0]), steps[1..], stream);
      MisplacedIsNoPrefix(Run(s, steps), stream);
    }
  }

  /** From new emitters on. */
  lemma SunkInOrderIff(steps: seq<Step>)
    requires Legal(INITIAL, steps)
    ensures OldestRun(INITIAL, steps) <==> Prefix(Run(INITIAL, steps), Stdout) && Prefix(Run(INITIAL, steps), Stderr)
  {
    InitialConserved();
    InitialInOrder(Stdout);
    InitialInOrder(Stderr);
    PrefixIffOldest(INITIAL, steps);
  }

  // ---- Drains that do not overlap ----

  /** A thread drains a stream only when no other thread still holds a piece of it. */
  predicate Disjoint(s: State, t: Step) {
    t.Drain? ==> OnStream(s.inFlight, t.stream) == []
  }

  predicate DisjointRun(s: State, steps: seq<Step>)
    requires Legal(s, steps)
    decreases |steps|
  {
    steps == [] || (Disjoint(s, steps[0]) && DisjointRun(Next(s, steps[0]), steps[1..]))
  }

  predicate AtMostOne(s: State) {
    |OnStream(s.inFlight, Stdout)| <= 1 && |OnStream(s.inFlight, Stderr)| <= 1
  }

  lemma StepAtMostOne(s: State, t: Step)
    requires AtMostOne(s) && Enabled(s, t) && Disjoint(s, t)
    ensures AtMostOne(Next(s, t)) && Oldest(s, t)
  {
    if t.Drain? {
      var p := Piece(t.stream, |Of(s, t.stream).drained|, Of(s, t.stream).buf);
      OnStreamAppend(s.inFlight, [p], Stdout);
      OnStreamAppend(s.inFlight, [p], Stderr);
      OnStreamOne(p, Stdout);
      OnStreamOne(p, Stderr);
    } else if t.Sink? {
      OnStreamRemove(s.inFlight, t.i, Stdout);
      OnStreamRemove(s.inFlight, t.i, Stderr);
      OnStreamOne(s.inFlight[t.i], s.inFlight[t.i].stream);
    }
  }

  /** Then every sink takes the oldest. */
  lemma {:induction false} DisjointIsOldest(s: State, steps: seq<Step>)
    requires AtMostOne(s) && Legal(s, steps) && DisjointRun(s, steps)
    ensures OldestRun(s, steps)
    decreases |steps|
  {
    if steps != [] {
      StepAtMostOne(s, steps[0]);
      DisjointIsOldest(Next(s, steps[0]), steps[1..]);
    }
  }

  /** Why that hypothesis: two overlapping drains may be numbered in the opposite order. */
  lemma OverlapReorders()
    ensures
      var steps := [Write(Stdout, "a"), Drain(Stdout), Write(Stdout, "b"), Drain(Stdout), Sink(1), Sink(0)];
      && Legal(INITIAL, steps)
      && Run(INITIAL, steps).out.written == "ab"
      && SunkPieces(Run(INITIAL, steps).sunk) == [Piece(Stdout, 1, "b"), Piece(Stdout, 0, "a")]
  {
    var steps := [Write(Stdout, "a"), Drain(Stdout), Write(Stdout, "b"), Drain(Stdout), Sink(1), Sink(0)];
    var drained := State(Emitter("", false, "ab", ["a", "b"]), NEW_EMITTER,
                         [Piece(Stdout, 0, "a"), Piece(Stdout, 1, "b")], 0, []);
    TwoDrains(drained);
    assert steps[4..] == [Sink(1), Sink(0)];
    TwoSinks(drained);
    assert steps[1..][1..] == steps[2..] && steps[2..][1..] == steps[3..] && steps[3..][1..] == steps[4..];
  }

  lemma TwoDrains(drained: State)
    requires drained == State(Emitter("", false, "ab", ["a", "b"]), NEW_EMITTER,
                              [Piece(Stdout, 0, "a"), Piece(Stdout, 1, "b")], 0, [])
    ensures Next(Next(Next(Next(INITIAL, Write(Stdout, "a")), Drain(Stdout)), Write(Stdout, "b")), Drain(Stdout))
      == drained
  {
    var s1 := Next(INITIAL, Write(Stdout, "a"));
    assert s1.out == Emitter("a", false, "a", []);
    var s2 := Next(s1, Drain(Stdout));
    assert s2.out == Emitter("", false, "a", ["a"]) && s2.inFlight == [Piece(Stdout, 0, "a")];
    var s3 := Next(s2, Write(Stdout, "b"));
    assert s3.out == Emitter("b", false, "ab", ["a"]);
  }

  lemma TwoSinks(s: State)
    requires s.inFlight == [Piece(Stdout, 0, "a"), Piece(Stdout, 1, "b")] && s.sunk == [] && s.nextSeq == 0
    ensures Legal(s, [Sink(1), Sink(0)])
    ensures
      var t := Run(s, [Sink(1), Sink(0)]);
      t.out == s.out && SunkPieces(t.sunk) == [Piece(Stdout, 1, "b"), Piece(Stdout, 0, "a")]
  {
    var t := Next(s, Sink(1));
    assert t.inFlight == [Piece(Stdout, 0, "a")] && t.sunk == [(0, Piece(Stdout, 1, "b"))];
    var u := Next(t, Sink(0));
    assert u.sunk == [(0, Piece(Stdout, 1, "b")), (1, Piece(Stdout, 0, "a"))];
    assert [Sink(1), Sink(0)][1..] == [Sink(0)] && [Sink(0)][1..] == [];
    assert Legal(t, [Sink(0)]) && Run(t, [Sink(0)]) == u;
  }

  /** Close leaves the buffer and what was drained, and nothing is drained from then on. */
  lemma CloseMeans(s: State, stream: Stream, other: Stream)
    requires other != stream
    ensures
      var t := Next(s, Close(stream));
      && Of(t, stream) == Emitter(Of(s, stream).buf, true, Of(s, stream).written, Of(s, stream).drained)
      && Of(t, other) == Of(s, other) && t.inFlight == s.inFlight && t.sunk == s.sunk
      && Next(t, Drain(stream)) == t
  {
  }

  /** A closed emitter sinks nothing more: what is written to it afterwards stays in its buffer. */
  lemma ClosedKeepsBytes(s: State, stream: Stream, p: string)
    requires Of(s, stream).closed
    ensures
      var t := Next(Next(s, Write(stream, p)), Drain(stream));
      && t.inFlight == s.inFlight && Of(t, stream).drained == Of(s, stream).drained
      && Of(t, stream).buf == Of(s, stream).buf + p
  {
  }

  // ---- The objects ----

  /** The per-run sink closure: an atomic counter and the chunks published. */
  class Sequencer {
    const id: string
    var seqNo: nat
    var published: seq<Report>

    ghost predicate Valid()
      reads this
    {
      && seqNo == |published|
      && (forall k :: 0 <= k < |published| ==>
           published[k].kind == KindChunk && published[k].id == id && published[k].seqNo == k)
    }

    constructor (id: string)
      ensures Valid() && published == [] && this.id == id
    {
      this.id := id;
      seqNo, published := 0, [];
    }

    method Sink(stream: Stream, data: string)
      requires Valid()
      modifies this
      ensures Valid() && published == old(published)
        + [Report(id, KindChunk, None, None, "", "", "", |old(published)|, stream, data)]
    {
      var n := seqNo;
      seqNo := seqNo + 1;
      published := published + [ChunkReport(id, n, stream, data)];
    }
  }

  class StreamEmitter {
    var buf: string
    var closed: bool
    const stream: Stream
    const max: int
    const sink: Sequencer?
    ghost var written: string
    ghost var drained: seq<string>

    ghost function Model(): Emitter
      reads this
    {
      Emitter(buf, closed, written, drained)
    }

    /** `data` was sunk as this stream's next chunk. */
    ghost predicate Sinks(before: seq<Report>, data: string)
      reads this, sink
      requires sink != null
    {
      sink.published == before + [Report(sink.id, KindChunk, None, None, "", "", "", |before|, stream, data)]
    }

    constructor (stream: Stream, max: int, sink: Sequencer?)
      ensures Model() == NEW_EMITTER && this.stream == stream && this.sink == sink
      ensures this.max == if max <= 0 then 32 * 1024 else max
    {
      this.stream, this.sink := stream, sink;
      this.max := if max <= 0 then 32 * 1024 else max;
      buf, closed, written, drained := "", false, "", [];
    }

    /** Always reports full consumption; a full buffer is flushed at once. */
    method Write(p: string) returns (n: nat)
      requires sink != null ==> sink.Valid()
      modifies this, sink
      ensures n == |p|
      ensures sink == null ==> Model() == old(Model())
      ensures sink != null ==> sink.Valid()
      ensures sink != null ==>
        var w := Written(old(Model()), p);
        if |w.buf| >= max && Drains(w)
        then Model() == Drained(w) && Sinks(old(sink.published), w.buf)
        else Model() == w && sink.published == old(sink.published)
    {
      n := |p|;
      if sink == null {
        return;
      }
      buf := buf + p;
      written := written + p;
      if |buf| >= max {
        Flush();
      }
    }

    method Flush()
      requires sink != null ==> sink.Valid()
      modifies this, sink
      ensures sink == null ==> Model() == old(Model())
      ensures sink != null ==> sink.Valid() && Model() == Drained(old(Model()))
      ensures sink != null ==>
        if Drains(old(Model())) then Sinks(old(sink.published), old(buf)) else sink.published == old(sink.published)
    {
      if sink == null || |buf| == 0 || closed {
        return;
      }
      var data := buf;
      drained := drained + [buf];
      buf := "";
      sink.Sink(stream, data);
    }

    /** Drains what is left, then refuses further drains. */
    method Close()
      requires sink != null ==> sink.Valid()
      modifies this, sink
      ensures closed && written == old(written)
      ensures sink != null ==> sink.Valid() && (!old(closed) ==> buf == "")
      ensures sink != null ==>
        if Drains(old(Model())) then Sinks(old(sink.published), old(buf)) else sink.published == old(sink.published)
    {
      Flush();
      closed := true;
    }
  }
}
