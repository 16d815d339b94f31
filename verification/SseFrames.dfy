/** The frame loop of the AI stream (src/server/modules/ai/ai.service.ts): decoded text
    arrives in arbitrary pieces, frames end at a blank line, data lines are yielded. */
module SseFrames {
  import opened Prelude

  const BLANK := "\n\n"

  // ---- Frames of a whole text ----

  /** The first position of "\n\n", or -1. */
  function Boundary(s: string): (k: int)
    ensures -1 <= k && (k >= 0 ==> k + 2 <= |s| && s[k] == '\n' && s[k + 1] == '\n')
    ensures forall i :: 0 <= i && i + 1 < |s| && (k == -1 || i < k) ==> !(s[i] == '\n' && s[i + 1] == '\n')
  {
    if |s| < 2 then -1
    else if s[0] == '\n' && s[1] == '\n' then 0
    else
      var rest := s[1..];
      var k := Boundary(rest);
      assert forall i :: 0 <= i < |rest| ==> rest[i] == s[i + 1];
      if k < 0 then -1 else k + 1
  }

  /** All frames of a text and what is left in the buffer. */
  function Frames(s: string): (seq<string>, string)
    decreases |s|
  {
    var k := Boundary(s);
    if k < 0 then ([], s)
    else
      var (frames, left) := Frames(s[k + 2..]);
      ([s[..k]] + frames, left)
  }

  function Concat(parts: seq<string>): string {
    if parts == [] then "" else Concat(parts[..|parts| - 1]) + parts[|parts| - 1]
  }

  function Rejoin(frames: seq<string>): string {
    if frames == [] then "" else frames[0] + BLANK + Rejoin(frames[1..])
  }

  /** The first boundary does not move when text is appended. */
  lemma BoundaryStable(s: string, t: string)
    requires Boundary(s) >= 0
    ensures Boundary(s + t) == Boundary(s)
  {
    var k := Boundary(s);
    assert (s + t)[k] == '\n' && (s + t)[k + 1] == '\n';
    assert forall i :: 0 <= i < |s| ==> (s + t)[i] == s[i];
  }

  /** Cutting the input anywhere changes nothing: the frames of the whole are those of the
      first part followed by those of its leftover with the second part. */
  lemma {:induction false} FramesSplit(s: string, t: string)
    ensures
      var (before, left) := Frames(s);
      var (after, rest) := Frames(left + t);
      Frames(s + t) == (before + after, rest)
    decreases |s|
  {
    var k := Boundary(s);
    if k < 0 {
      assert [] + Frames(s + t).0 == Frames(s + t).0;
    } else {
      FirstFrame(s, t);
      FramesSplit(s[k + 2..], t);
      var (b, l) := Frames(s[k + 2..]);
      Reassociate([s[..k]], b, Frames(l + t).0);
    }
  }

  /** The first frame of a text is that of any continuation of it. */
  lemma FirstFrame(s: string, t: string)
    requires Boundary(s) >= 0
    ensures
      var k := Boundary(s);
      && Frames(s + t) == ([s[..k]] + Frames(s[k + 2..] + t).0, Frames(s[k + 2..] + t).1)
      && s == (s[..k] + BLANK) + s[k + 2..]
  {
    var k := Boundary(s);
    BoundaryStable(s, t);
    assert (s + t)[..k] == s[..k] && (s + t)[k + 2..] == s[k + 2..] + t;
  }

  lemma RejoinCons(frame: string, frames: seq<string>)
    ensures Rejoin([frame] + frames) == (frame + BLANK) + Rejoin(frames)
  {
    assert ([frame] + frames)[1..] == frames;
  }

  /** Nothing is lost or invented, and no frame end is overlooked in the leftover. */
  lemma {:induction false} FramesRejoin(s: string)
    ensures Rejoin(Frames(s).0) + Frames(s).1 == s && Boundary(Frames(s).1) < 0
    decreases |s|
  {
    var k := Boundary(s);
    if k >= 0 {
      var rest := s[k + 2..];
      FramesRejoin(rest);
      RejoinCons(s[..k], Frames(rest).0);
      Reassociate(s[..k] + BLANK, Rejoin(Frames(rest).0), Frames(rest).1);
      FirstFrame(s, "");
    }
  }

  /** A list of frames whose first blank line is each time the one that ends the frame. */
  ghost predicate Leftmost(frames: seq<string>, left: string) {
    if frames == [] then Boundary(left) < 0
    else Boundary(frames[0] + BLANK + Rejoin(frames[1..]) + left) == |frames[0]| && Leftmost(frames[1..], left)
  }

  /** These are the only frames such a reading of the text can have, runs of three or more
      newlines included. */
  lemma {:induction false} FramesUnique(s: string, frames: seq<string>, left: string)
    requires Rejoin(frames) + left == s && Leftmost(frames, left)
    ensures Frames(s) == (frames, left)
    decreases |frames|
  {
    if frames == [] {
      assert s == left;
    } else {
      var rest := Rejoin(frames[1..]) + left;
      assert s == frames[0] + BLANK + rest;
      assert frames[0] + BLANK + Rejoin(frames[1..]) + left == s;
      FramesUnique(rest, frames[1..], left);
      assert s[..|frames[0]|] == frames[0] && s[|frames[0]| + 2..] == rest;
      assert frames == [frames[0]] + frames[1..];
    }
  }

  // ---- Lines of a frame ----

  function Split(s: string): (lines: seq<string>)
    ensures |lines| >= 1
  {
    if s == "" then [""]
    else
      var lines := Split(s[..|s| - 1]);
      var c := s[|s| - 1];
      if c == '\n' then lines + [""]
      else lines[..|lines| - 1] + [lines[|lines| - 1] + [c]]
  }

  const DATA := "data:"
  const DONE := "[DONE]"

  /** The payload a line carries, if any. */
  function Payload(line: string): Option<string> {
    if !(DATA <= line) then None
    else
      var data := Trim(line[5..]);
      if data == "" || data == DONE then None else Some(data)
  }

  /** `delta` stands for parsing the JSON and picking the text, `None` when either fails. */
  function LineYield(line: string, delta: string -> Option<string>): seq<string> {
    match Payload(line)
    case None => []
    case Some(data) => if delta(data).Some? && delta(data).value != "" then [delta(data).value] else []
  }

  function LinesYield(lines: seq<string>, delta: string -> Option<string>): seq<string> {
    if lines == [] then []
    else LinesYield(lines[..|lines| - 1], delta) + LineYield(lines[|lines| - 1], delta)
  }

  function FramesYield(frames: seq<string>, delta: string -> Option<string>): seq<string> {
    if frames == [] then []
    else FramesYield(frames[..|frames| - 1], delta) + LinesYield(Split(frames[|frames| - 1]), delta)
  }

  /** What a line yields: nothing unless it begins with "data:" and carries a payload other than
      "[DONE]" whose text is not empty; white space around the payload does not count. */
  lemma LineYieldIs(line: string, delta: string -> Option<string>)
    ensures
      var carries := |line| >= 5 && line[..5] == "data:" && Trim(line[5..]) != "" && Trim(line[5..]) != "[DONE]";
      && (!carries ==> LineYield(line, delta) == [])
      && (carries && delta(Trim(line[5..])) == None ==> LineYield(line, delta) == [])
      && (carries && delta(Trim(line[5..])) == Some("") ==> LineYield(line, delta) == [])
      && (carries && delta(Trim(line[5..])).Some? && delta(Trim(line[5..])).value != "" ==>
            LineYield(line, delta) == [delta(Trim(line[5..])).value])
  {
  }

  lemma {:induction false} FramesYieldAppend(a: seq<string>, b: seq<string>, delta: string -> Option<string>)
    ensures FramesYield(a + b, delta) == FramesYield(a, delta) + FramesYield(b, delta)
  {
    if b == [] {
      assert a + b == a;
    } else {
      var before, last := b[..|b| - 1], b[|b| - 1];
      assert (a + b)[..|a + b| - 1] == a + before && (a + b)[|a + b| - 1] == last;
      FramesYieldAppend(a, before, delta);
      Reassociate(FramesYield(a, delta), FramesYield(before, delta), LinesYield(Split(last), delta));
    }
  }

  /** What a stream yields is decided by its text alone. */
  function TextYield(text: string, delta: string -> Option<string>): seq<string> {
    FramesYield(Frames(text).0, delta)
  }

  // ---- The loops ----

  method FrameLines(frame: string, delta: string -> Option<string>) returns (out: seq<string>)
    ensures out == LinesYield(Split(frame), delta)
  {
    out := [];
    var lines := Split(frame);
    for i := 0 to |lines|
      invariant out == LinesYield(lines[..i], delta)
    {
      assert lines[..i + 1][..i] == lines[..i];
      var line := lines[i];
      if !(DATA <= line) { continue; }
      var data := Trim(line[5..]);
      if data == "" || data == DONE { continue; }
      var d := delta(data);
      if d.Some? && d.value != "" {
        out := out + [d.value];
      }
    }
    assert lines[..|lines|] == lines;
  }

  /** Any split of the decoded text into reads yields the same pieces and leaves the same
      buffer as the text in one read. */
  method StreamChat(chunks: seq<string>, delta: string -> Option<string>) returns (out: seq<string>, buffer: string)
    ensures out == TextYield(Concat(chunks), delta) && buffer == Frames(Concat(chunks)).1
  {
    out, buffer := [], "";
    for i := 0 to |chunks|
      invariant out == TextYield(Concat(chunks[..i]), delta) && buffer == Frames(Concat(chunks[..i])).1
    {
      assert chunks[..i + 1][..i] == chunks[..i];
      FramesSplit(Concat(chunks[..i]), chunks[i]);
      FramesYieldAppend(Frames(Concat(chunks[..i])).0, Frames(buffer + chunks[i]).0, delta);
      buffer := buffer + chunks[i];
      var more;
      more, buffer := Drain(buffer, delta);
      out := out + more;
    }
    assert chunks[..|chunks|] == chunks;
  }

  /** Taking the first frame off the buffer. */
  lemma TakeFrame(seen: seq<string>, buffer: string, delta: string -> Option<string>)
    requires Boundary(buffer) >= 0
    ensures
      var k := Boundary(buffer);
      var rest := buffer[k + 2..];
      && seen + Frames(buffer).0 == (seen + [buffer[..k]]) + Frames(rest).0
      && Frames(buffer).1 == Frames(rest).1
      && FramesYield(seen + [buffer[..k]], delta) == FramesYield(seen, delta) + LinesYield(Split(buffer[..k]), delta)
  {
    var k := Boundary(buffer);
    Reassociate(seen, [buffer[..k]], Frames(buffer[k + 2..]).0);
    assert (seen + [buffer[..k]])[..|seen|] == seen;
  }

  /** The inner loop: every complete frame in the buffer. */
  method Drain(text: string, delta: string -> Option<string>) returns (out: seq<string>, buffer: string)
    ensures out == TextYield(text, delta) && buffer == Frames(text).1
  {
    out, buffer := [], text;
    ghost var seen: seq<string> := [];
    var boundary := Boundary(buffer);
    assert seen + Frames(text).0 == Frames(text).0;
    while boundary != -1
      invariant boundary == Boundary(buffer)
      invariant Frames(text).0 == seen + Frames(buffer).0 && Frames(text).1 == Frames(buffer).1
      invariant out == FramesYield(seen, delta)
      decreases |buffer|
    {
      TakeFrame(seen, buffer, delta);
      var frame := buffer[..boundary];
      buffer := buffer[boundary + 2..];
      var more := FrameLines(frame, delta);
      seen := seen + [frame];
      out := out + more;
      boundary := Boundary(buffer);
    }
    assert seen + [] == seen;
  }

  /** Where the loop departs from section 9.2 of the WHATWG HTML standard: blank lines ended
      by CR LF are not recognised, so such a stream is buffered whole and yields nothing. */
  lemma CarriageReturnsHideFrames(text: string, delta: string -> Option<string>)
    requires forall i :: 0 <= i < |text| && text[i] == '\n' ==> i > 0 && text[i - 1] == '\r'
    ensures Frames(text) == ([], text) && TextYield(text, delta) == []
  {
  }
}
