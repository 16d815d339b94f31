/** The event stream format of section 9.2 of the WHATWG HTML standard, against the frame loop
    of src/server/modules/ai/ai.service.ts: lines end at LF, CR or CR LF, and an empty line
    ends a block. */
module SseStandard {
  import opened Prelude
  import opened SseFrames

  predicate IsEol(c: char) {
    c == '\n' || c == '\r'
  }

  /** The position after the line end at j; CR LF is one. */
  function AfterEol(s: string, j: nat): nat
    requires j < |s|
  {
    if s[j] == '\r' && j + 1 < |s| && s[j + 1] == '\n' then j + 2 else j + 1
  }

  /** The blocks of non-empty lines that an empty line ends; `line` and `block` are what was
      read before s. What is not ended is discarded, as the standard says. */
  function Parse(s: string, line: string, block: seq<string>): seq<seq<string>>
    decreases |s|
  {
    if s == "" then []
    else if !IsEol(s[0]) then Parse(s[1..], line + [s[0]], block)
    else
      var rest := s[AfterEol(s, 0)..];
      if line != "" then Parse(rest, "", block + [line])
      else Emit(block) + Parse(rest, "", [])
  }

  function Emit(block: seq<string>): seq<seq<string>> {
    if block == [] then [] else [block]
  }

  function NonEmpty(lines: seq<string>): seq<string> {
    if lines == [] then [] else (if lines[0] == "" then [] else [lines[0]]) + NonEmpty(lines[1..])
  }

  /** The blocks the loop sees: its frames' non-empty lines. */
  function Blocks(frames: seq<string>): seq<seq<string>> {
    if frames == [] then [] else Emit(NonEmpty(Split(frames[0]))) + Blocks(frames[1..])
  }

  // ---- One frame ----

  predicate OneLine(l: string) {
    forall i :: 0 <= i < |l| ==> !IsEol(l[i])
  }

  lemma {:induction false} SplitLine(l: string)
    requires OneLine(l)
    ensures Split(l) == [l]
  {
    if l != "" {
      SplitLine(l[..|l| - 1]);
      assert l == l[..|l| - 1] + [l[|l| - 1]];
    }
  }

  /** One more character: a new line, or one more on the last. */
  function Snoc(lines: seq<string>, c: char): (r: seq<string>)
    requires lines != []
    ensures r != []
  {
    if c == '\n' then lines + [""] else lines[..|lines| - 1] + [lines[|lines| - 1] + [c]]
  }

  lemma SplitSnoc(t: string, c: char)
    ensures Split(t + [c]) == Snoc(Split(t), c)
  {
    assert (t + [c])[..|t|] == t;
  }

  lemma SnocCons(l: string, lines: seq<string>, c: char)
    requires lines != []
    ensures Snoc([l] + lines, c) == [l] + Snoc(lines, c)
  {
    assert ([l] + lines)[..|lines|] == [l] + lines[..|lines| - 1];
  }

  lemma {:induction false} SplitAtNewline(l: string, g: string)
    requires OneLine(l)
    ensures Split((l + "\n") + g) == [l] + Split(g)
    decreases |g|
  {
    if g == "" {
      assert (l + "\n") + g == l + ['\n'];
      SplitSnoc(l, '\n');
      SplitLine(l);
    } else {
      var t, c := g[..|g| - 1], g[|g| - 1];
      assert g == t + [c];
      Reassociate(l + "\n", t, [c]);
      SplitAtNewline(l, t);
      SplitSnoc((l + "\n") + t, c);
      SplitSnoc(t, c);
      SnocCons(l, Split(t), c);
    }
  }

  lemma NonEmptyCons(l: string, lines: seq<string>)
    ensures NonEmpty([l] + lines) == (if l == "" then [] else [l]) + NonEmpty(lines)
  {
    assert ([l] + lines)[1..] == lines;
  }

  predicate HasReturn(s: string) {
    '\r' in s
  }

  /** A frame's text has no two newlines together and none at its end. */
  predicate Unbroken(f: string) {
    && (forall i :: 0 <= i && i + 1 < |f| ==> !(f[i] == '\n' && f[i + 1] == '\n'))
    && (f != "" ==> f[|f| - 1] != '\n')
  }

  predicate Plain(f: string) {
    Unbroken(f) && !HasReturn(f)
  }

  lemma PlainTail(f: string)
    requires Plain(f) && f != ""
    ensures Plain(f[1..]) && (f[0] == '\n' ==> f[1..] != "" && f[1] != '\n')
  {
    var g := f[1..];
    assert forall i :: 0 <= i < |g| ==> g[i] == f[i + 1];
  }

  lemma ParseStep(c: char, s: string, line: string, block: seq<string>)
    requires c != '\r'
    ensures Parse([c] + s, line, block) ==
            if c != '\n' then Parse(s, line + [c], block)
            else if line != "" then Parse(s, "", block + [line])
            else Emit(block) + Parse(s, "", [])
  {
    assert ([c] + s)[1..] == s;
  }

  lemma ParseEnd(rest: string, line: string, block: seq<string>)
    requires line == "" ==> block == []
    ensures Parse(BLANK + rest, line, block) == Emit(if line == "" then [] else block + [line]) + Parse(rest, "", [])
  {
    assert BLANK + rest == ['\n'] + (['\n'] + rest);
    ParseStep('\n', ['\n'] + rest, line, block);
    ParseStep('\n', rest, "", if line == "" then [] else block + [line]);
  }

  lemma LineThenRest(block: seq<string>, line: string, g: string)
    requires OneLine(line) && (line == "" ==> block == [])
    ensures block + NonEmpty(Split((line + "\n") + g))
         == (if line == "" then [] else block + [line]) + NonEmpty(Split(g))
  {
    SplitAtNewline(line, g);
    NonEmptyCons(line, Split(g));
    Reassociate(block, [line], NonEmpty(Split(g)));
    assert line == "" ==> [] + NonEmpty(Split(g)) == NonEmpty(Split(g));
  }

  /** On such a frame the standard's reading and the loop's agree. */
  lemma {:induction false} ParseFrame(f: string, rest: string, line: string, block: seq<string>)
    requires Plain(f) && OneLine(line)
    requires line == "" && block != [] ==> f != "" && f[0] != '\n'
    ensures Parse(f + (BLANK + rest), line, block) == Emit(block + NonEmpty(Split(line + f))) + Parse(rest, "", [])
    decreases |f|
  {
    if f == "" {
      assert f + (BLANK + rest) == BLANK + rest && line + f == line;
      ParseEnd(rest, line, block);
      SplitLine(line);
      NonEmptyCons(line, []);
      assert [line] + [] == [line] && block + [] == block;
    } else {
      var c, g := f[0], f[1..];
      PlainTail(f);
      assert f + (BLANK + rest) == [c] + (g + (BLANK + rest));
      ParseStep(c, g + (BLANK + rest), line, block);
      if c == '\n' {
        assert line + f == (line + "\n") + g && "" + g == g;
        LineThenRest(block, line, g);
        ParseFrame(g, rest, "", if line == "" then [] else block + [line]);
      } else {
        assert line + f == (line + [c]) + g;
        ParseFrame(g, rest, line + [c], block);
      }
    }
  }

  lemma BlocksCons(f: string, frames: seq<string>)
    ensures Blocks([f] + frames) == Emit(NonEmpty(Split(f))) + Blocks(frames)
  {
    assert ([f] + frames)[1..] == frames;
  }

  lemma ParseFirst(f: string, rest: string)
    requires Plain(f)
    ensures Parse(f + (BLANK + rest), "", []) == Emit(NonEmpty(Split(f))) + Parse(rest, "", [])
  {
    ParseFrame(f, rest, "", []);
    assert "" + f == f && [] + NonEmpty(Split(f)) == NonEmpty(Split(f));
  }

  /** While no frame holds a CR, the standard finds the loop's blocks and goes on in what the
      loop has left. */
  lemma {:induction false} ParseFrames(frames: seq<string>, left: string)
    requires forall i :: 0 <= i < |frames| ==> Plain(frames[i])
    ensures Parse(Rejoin(frames) + left, "", []) == Blocks(frames) + Parse(left, "", [])
    decreases |frames|
  {
    if frames == [] {
      assert Rejoin(frames) + left == left;
    } else {
      var f, rest := frames[0], Rejoin(frames[1..]) + left;
      assert Rejoin(frames) + left == f + (BLANK + rest);
      ParseFirst(f, rest);
      ParseFrames(frames[1..], left);
      Reassociate(Emit(NonEmpty(Split(f))), Blocks(frames[1..]), Parse(left, "", []));
    }
  }

  lemma FirstUnbroken(s: string)
    requires Boundary(s) >= 0
    ensures Unbroken(s[..Boundary(s)])
  {
  }

  lemma {:induction false} FramesUnbroken(s: string, i: nat)
    requires i < |Frames(s).0|
    ensures Unbroken(Frames(s).0[i])
    decreases |s|
  {
    FirstUnbroken(s);
    if i > 0 {
      FramesUnbroken(s[Boundary(s) + 2..], i - 1);
    }
  }

  // ---- A CR inside a frame ----

  predicate InBlocks(blocks: seq<seq<string>>, l: string) {
    exists i :: 0 <= i < |blocks| && l in blocks[i]
  }

  /** No line of the standard's holds a CR. */
  lemma {:induction false} ParsedLines(s: string, line: string, block: seq<string>, l: string)
    requires OneLine(line) && (forall x :: x in block ==> OneLine(x)) && InBlocks(Parse(s, line, block), l)
    ensures OneLine(l)
    decreases |s|
  {
    if s != "" {
      if !IsEol(s[0]) {
        ParsedLines(s[1..], line + [s[0]], block, l);
      } else {
        var rest := s[AfterEol(s, 0)..];
        if line != "" {
          ParsedLines(rest, "", block + [line], l);
        } else {
          InBlocksAppend(Emit(block), Parse(rest, "", []), l);
          if InBlocks(Parse(rest, "", []), l) {
            ParsedLines(rest, "", [], l);
          }
        }
      }
    }
  }

  lemma InBlocksAppend(a: seq<seq<string>>, b: seq<seq<string>>, l: string)
    ensures InBlocks(a + b, l) <==> InBlocks(a, l) || InBlocks(b, l)
  {
    if i :| 0 <= i < |a| && l in a[i] {
      assert (a + b)[i] == a[i];
    }
    if i :| 0 <= i < |b| && l in b[i] {
      assert (a + b)[|a| + i] == b[i];
    }
  }

  lemma {:induction false} ReturnSurvivesSplit(f: string) returns (l: string)
    requires HasReturn(f)
    ensures l in Split(f) && HasReturn(l)
    decreases |f|
  {
    var g, c := f[..|f| - 1], f[|f| - 1];
    var lines, n := Split(g), |Split(g)| - 1;
    assert f == g + [c] && lines == lines[..n] + [lines[n]];
    SplitSnoc(g, c);
    if HasReturn(g) {
      l := ReturnSurvivesSplit(g);
      if c != '\n' && l !in lines[..n] {
        l := lines[n] + [c];
      }
    } else {
      l := lines[n] + [c];
    }
  }

  lemma {:induction false} NonEmptyKeeps(lines: seq<string>, l: string)
    requires l in lines && l != ""
    ensures l in NonEmpty(lines)
  {
    assert lines == [lines[0]] + lines[1..];
    if l != lines[0] {
      NonEmptyKeeps(lines[1..], l);
    }
  }

  lemma {:induction false} ReturnInBlocks(frames: seq<string>, f: string) returns (l: string)
    requires f in frames && HasReturn(f)
    ensures InBlocks(Blocks(frames), l) && HasReturn(l)
  {
    assert frames == [frames[0]] + frames[1..];
    if f == frames[0] {
      l := ReturnSurvivesSplit(f);
      NonEmptyKeeps(Split(f), l);
      assert l in Emit(NonEmpty(Split(f)))[0];
    } else {
      l := ReturnInBlocks(frames[1..], f);
    }
    InBlocksAppend(Emit(NonEmpty(Split(frames[0]))), Blocks(frames[1..]), l);
  }

  // ---- What is left ----

  /** Two line ends in a row from j on, CR LF counted once. */
  predicate TwoEols(s: string, j: nat) {
    j < |s| && IsEol(s[j]) && AfterEol(s, j) < |s| && IsEol(s[AfterEol(s, j)])
  }

  /** Somewhere a line with text is followed by an empty one. */
  predicate EndsBlock(s: string) {
    exists k :: 0 <= k < |s| && !IsEol(s[k]) && TwoEols(s, k + 1)
  }

  lemma TwoEolsTail(s: string, j: nat)
    requires s != ""
    ensures TwoEols(s, j + 1) <==> TwoEols(s[1..], j)
  {
  }

  lemma EndsBlockTail(s: string)
    requires s != ""
    ensures EndsBlock(s) <==> EndsBlock(s[1..]) || (!IsEol(s[0]) && TwoEols(s, 1))
  {
    var t := s[1..];
    forall k | 0 <= k < |t| ensures t[k] == s[k + 1] && (TwoEols(s, k + 2) <==> TwoEols(t, k + 1)) {
      TwoEolsTail(s, k + 1);
    }
    if k :| 0 <= k < |t| && !IsEol(t[k]) && TwoEols(t, k + 1) {
      assert !IsEol(s[k + 1]) && TwoEols(s, (k + 1) + 1);
    }
    if k :| 0 <= k < |s| && !IsEol(s[k]) && TwoEols(s, k + 1) {
      assert k > 0 ==> !IsEol(t[k - 1]) && TwoEols(t, (k - 1) + 1);
    }
  }

  lemma EndsBlockRest(s: string)
    requires s != "" && IsEol(s[0])
    ensures EndsBlock(s) <==> EndsBlock(s[AfterEol(s, 0)..])
  {
    EndsBlockTail(s);
    if AfterEol(s, 0) == 2 {
      EndsBlockTail(s[1..]);
      assert s[1..][1..] == s[2..];
    }
  }

  /** Exactly when the standard finds nothing. */
  lemma {:induction false} ParseEmptyIff(s: string, line: string, block: seq<string>)
    ensures Parse(s, line, block) != [] <==>
            || EndsBlock(s)
            || (line != "" && TwoEols(s, 0))
            || (line == "" && block != [] && s != "" && IsEol(s[0]))
    decreases |s|
  {
    if s != "" {
      if !IsEol(s[0]) {
        ParseEmptyIff(s[1..], line + [s[0]], block);
        EndsBlockTail(s);
        TwoEolsTail(s, 0);
      } else {
        var rest := s[AfterEol(s, 0)..];
        EndsBlockRest(s);
        if line != "" {
          ParseEmptyIff(rest, "", block + [line]);
        } else {
          ParseEmptyIff(rest, "", []);
        }
      }
    }
  }

  // ---- The exact condition ----

  /** The loop sees exactly the blocks of the standard if and only if no frame holds a CR and
      no line left in the buffer is followed by an empty one. */
  lemma FramesMatchIff(s: string)
    ensures Blocks(Frames(s).0) == Parse(s, "", []) <==>
            (forall f :: f in Frames(s).0 ==> !HasReturn(f)) && !EndsBlock(Frames(s).1)
  {
    var (frames, left) := Frames(s);
    if f :| f in frames && HasReturn(f) {
      var l := ReturnInBlocks(frames, f);
      if InBlocks(Parse(s, "", []), l) {
        ParsedLines(s, "", [], l);
      }
    } else {
      forall i | 0 <= i < |frames| ensures Plain(frames[i]) {
        FramesUnbroken(s, i);
      }
      FramesRejoin(s);
      ParseFrames(frames, left);
      ParseEmptyIff(left, "", []);
      PrefixOnly(Blocks(frames), Parse(left, "", []));
    }
  }

  lemma PrefixOnly<T>(a: seq<T>, b: seq<T>)
    ensures a == a + b <==> b == []
  {
    assert |a + b| == |a| + |b|;
  }

  // ---- The same in terms of the text ----

  predicate BlankAt(s: string, j: int) {
    0 <= j && j + 1 < |s| && s[j] == '\n' && s[j + 1] == '\n'
  }

  /** The position after the last LF LF, or 0. */
  function LastEnd(s: string): (e: nat)
    ensures e <= |s| && (e != 0 ==> BlankAt(s, e - 2))
    ensures forall j :: BlankAt(s, j) ==> j + 2 <= e
  {
    if |s| < 2 then 0
    else if BlankAt(s, |s| - 2) then |s|
    else
      var front := s[..|s| - 1];
      assert forall j :: BlankAt(s, j) ==> BlankAt(front, j);
      LastEnd(front)
  }

  lemma {:induction false} RejoinReturn(frames: seq<string>)
    ensures HasReturn(Rejoin(frames)) <==> exists f :: f in frames && HasReturn(f)
  {
    if frames != [] {
      RejoinReturn(frames[1..]);
      assert frames == [frames[0]] + frames[1..];
      if f :| f in frames && HasReturn(f) {
        RejoinKeeps(frames, f);
      } else {
        assert frames[0] in frames && (forall f :: f in frames[1..] ==> f in frames);
      }
    }
  }

  /** The frames end after the last LF LF, or one LF before. */
  lemma FramesEnd(s: string)
    ensures
      var end := |Rejoin(Frames(s).0)|;
      && end <= |s| && s[..end] == Rejoin(Frames(s).0) && s[end..] == Frames(s).1
      && (LastEnd(s) == end || (LastEnd(s) == end + 1 && s[end] == '\n'))
  {
    var (frames, left) := Frames(s);
    FramesRejoin(s);
    var end := |Rejoin(frames)|;
    assert s[..end] == Rejoin(frames) && s[end..] == left;
    forall j | BlankAt(s, j) ensures j < end {
      assert !BlankAt(left, j - end);
      assert j >= end ==> (BlankAt(s, j) <==> BlankAt(left, j - end));
    }
    if frames != [] {
      RejoinEndsBlank(frames);
      assert BlankAt(s, end - 2);
    }
  }

  lemma {:induction false} RejoinEndsBlank(frames: seq<string>)
    requires frames != []
    ensures
      var r := Rejoin(frames);
      |r| >= 2 && r[|r| - 2] == '\n' && r[|r| - 1] == '\n'
  {
    if frames[1..] != [] {
      RejoinEndsBlank(frames[1..]);
    }
  }

  lemma OneMore(s: string, end: nat)
    requires end < |s| && s[end] == '\n'
    ensures HasReturn(s[..end + 1]) <==> HasReturn(s[..end])
    ensures EndsBlock(s[end + 1..]) <==> EndsBlock(s[end..])
  {
    var left := s[end..];
    assert s[..end + 1] == s[..end] + ['\n'];
    assert left[0] == '\n' && left[1..] == s[end + 1..];
    EndsBlockRest(left);
  }

  predicate ClearUpTo(s: string, end: nat)
    requires end <= |s|
  {
    !HasReturn(s[..end]) && !EndsBlock(s[end..])
  }

  lemma InTermsOfText(s: string)
    ensures (forall f :: f in Frames(s).0 ==> !HasReturn(f)) && !EndsBlock(Frames(s).1) <==> ClearUpTo(s, LastEnd(s))
  {
    var end := |Rejoin(Frames(s).0)|;
    FramesEnd(s);
    RejoinReturn(Frames(s).0);
    if LastEnd(s) == end + 1 {
      OneMore(s, end);
    }
    assert ClearUpTo(s, LastEnd(s)) <==> ClearUpTo(s, end);
  }

  /** The loop sees exactly the blocks of the standard if and only if no CR stands before the
      last LF LF of the text, and after it no line is followed by an empty one. */
  lemma FramesMatchStandardIff(s: string)
    ensures Blocks(Frames(s).0) == Parse(s, "", []) <==>
            !HasReturn(s[..LastEnd(s)]) && !EndsBlock(s[LastEnd(s)..])
  {
    FramesMatchIff(s);
    InTermsOfText(s);
  }

  /** In particular for every text without CR, runs of three or more newlines included. */
  lemma NewlinesOnlyMatch(s: string)
    requires !HasReturn(s)
    ensures Blocks(Frames(s).0) == Parse(s, "", [])
  {
    FramesMatchIff(s);
    FramesRejoin(s);
    NoReturnInParts(Frames(s).0, Frames(s).1);
    PlainLeftover(Frames(s).1);
  }

  lemma NoReturnInParts(frames: seq<string>, left: string)
    requires !HasReturn(Rejoin(frames) + left)
    ensures (forall f :: f in frames ==> !HasReturn(f)) && !HasReturn(left)
  {
    forall f | f in frames ensures !HasReturn(f) {
      if HasReturn(f) {
        RejoinKeeps(frames, f);
      }
    }
  }

  lemma PlainLeftover(left: string)
    requires !HasReturn(left) && Boundary(left) < 0
    ensures !EndsBlock(left)
  {
    assert forall i :: 0 <= i < |left| ==> left[i] in left;
  }

  lemma {:induction false} RejoinKeeps(frames: seq<string>, f: string)
    requires f in frames && HasReturn(f)
    ensures HasReturn(Rejoin(frames))
  {
    assert frames == [frames[0]] + frames[1..];
    if f != frames[0] {
      RejoinKeeps(frames[1..], f);
    }
  }
}
