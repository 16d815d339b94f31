/** Bounded capture of a command's output (agent/internal/executor/capwriter.go):
    the first half of the budget is a head buffer, the second a ring holding the tail. */
module CapWriter {

  type Byte = char

  // Go's int on the agent's platforms.
  const MAX_INT := 0x7fff_ffff_ffff_ffff

  // ---- The stream a reader should see ----

  function Lost(total: nat, half: nat): nat {
    if total > 2 * half then total - 2 * half else 0
  }

  function Min(a: nat, b: nat): nat {
    if a < b then a else b
  }

  /** The whole stream while it fits, else its first and last `half` bytes around a marker. */
  ghost function Rendered(stream: seq<Byte>, half: nat): seq<Byte> {
    if |stream| <= 2 * half then stream
    else stream[..half] + Marker(Decimal(|stream| - 2 * half)) + stream[|stream| - half..]
  }

  /** A stream of up to twice half bytes is rendered whole; of a longer one the first and the last
      half bytes are kept, around a line that says how many are missing. */
  lemma RenderedIs(stream: seq<Byte>, half: nat)
    ensures |stream| <= 2 * half ==> Rendered(stream, half) == stream
    ensures |stream| > 2 * half ==>
      Rendered(stream, half)
      == stream[..half] + ("\n...[" + Decimal(|stream| - 2 * half) + " bytes truncated]...\n")
         + stream[|stream| - half..]
  {
  }

  function Marker(count: string): seq<Byte> {
    "\n...[" + count + " bytes truncated]...\n"
  }

  /** The decimal numeral of n. */
  function Decimal(n: nat): string {
    if n < 10 then [Digit(n)] else Decimal(n / 10) + [Digit(n % 10)]
  }

  function Digit(d: nat): char
    requires d < 10
  {
    '0' + d as char
  }

  /** Reading a numeral back. */
  function Parse(s: string): int {
    if s == "" then 0 else 10 * Parse(s[..|s| - 1]) + (s[|s| - 1] as int - '0' as int)
  }

  lemma {:induction false} DecimalParses(n: nat)
    ensures Parse(Decimal(n)) == n && Decimal(n) != "" && (Decimal(n)[0] == '0' ==> n == 0)
    ensures forall i :: 0 <= i < |Decimal(n)| ==> '0' <= Decimal(n)[i] <= '9'
  {
    if n < 10 {
      assert Decimal(n)[..0] == "";
    } else {
      DecimalParses(n / 10);
      var s := Decimal(n);
      assert s[..|s| - 1] == Decimal(n / 10);
    }
  }

  function Pow10(k: nat): nat {
    if k == 0 then 1 else 10 * Pow10(k - 1)
  }

  lemma {:induction false} DecimalLength(n: nat, k: nat)
    requires k >= 1 && n < Pow10(k)
    ensures |Decimal(n)| <= k
  {
    if n >= 10 {
      DecimalLength(n / 10, k - 1);
    }
  }

  lemma MaxIntFits()
    ensures MAX_INT < Pow10(20)
  {
    assert Pow10(10) == 10_000_000_000;
    assert Pow10(20) == 10 * Pow10(19) == 100 * Pow10(18) == 1000 * Pow10(17) == 10000 * Pow10(16);
    assert Pow10(16) == 10 * Pow10(15) == 100 * Pow10(14) == 1000 * Pow10(13) == 10000 * Pow10(12);
    assert Pow10(12) == 10 * Pow10(11) == 100 * Pow10(10);
  }

  /** The digits of m still to be written, none when m is used up. */
  ghost function Pending(m: nat): string {
    if m == 0 then "" else Decimal(m)
  }

  lemma PendingStep(m: nat)
    requires m > 0
    ensures Pending(m) == Pending(m / 10) + [Digit(m % 10)]
  {
    if m < 10 {
      assert Pending(m / 10) == "";
    }
  }

  lemma DigitPlaced(numeral: string, m: nat, rest: string)
    requires m > 0 && numeral == Pending(m) + rest
    ensures numeral == Pending(m / 10) + ([Digit(m % 10)] + rest)
    ensures |rest| < |numeral|
  {
    PendingStep(m);
    assert (Pending(m / 10) + [Digit(m % 10)]) + rest == Pending(m / 10) + ([Digit(m % 10)] + rest);
  }

  /** The numeral of a machine integer fits the 20-byte buffer. */
  ghost function NumeralOf(n: nat): (s: string)
    requires n <= MAX_INT
    ensures s == Decimal(n) && |s| <= 20 && Parse(s) == n
  {
    MaxIntFits();
    DecimalLength(n, 20);
    DecimalParses(n);
    Decimal(n)
  }

  /** `itoa`: digits fill a 20-byte buffer from its end. The result is the numeral of n and
      parses back to n; a negative n, which no caller passes, would give the empty string. */
  method Itoa(n: int) returns (s: string)
    requires -MAX_INT - 1 <= n <= MAX_INT
    ensures n >= 0 ==> s == Decimal(n) && Parse(s) == n
    ensures n < 0 ==> s == ""
  {
    if n == 0 {
      DecimalParses(0);
      return "0";
    }
    if n < 0 {
      s := WriteDigits(n, "");
    } else {
      s := WriteDigits(n, NumeralOf(n));
    }
  }

  method WriteDigits(n: int, ghost numeral: string) returns (s: string)
    requires |numeral| <= 20 && numeral == if n > 0 then Decimal(n) else ""
    ensures s == numeral
  {
    var buf := new char[20];
    var i := buf.Length;
    var m := n;
    while m > 0
      invariant 0 <= i <= 20
      invariant n > 0 ==> m >= 0
      invariant numeral == (if m > 0 then Pending(m) else "") + buf[i..]
      decreases m
    {
      ghost var rest := buf[i..];
      DigitPlaced(numeral, m, rest);
      i := i - 1;
      buf[i] := Digit(m % 10);
      assert buf[i..] == [Digit(m % 10)] + rest;
      m := m / 10;
    }
    s := buf[i..];
  }

  // ---- The writer ----

  class Writer {
    var head: seq<Byte>
    var tail: seq<Byte>
    var tailPos: nat
    const max: int
    var total: nat
    ghost var stream: seq<Byte>   // everything written so far

    const half: int := max / 2

    /** The ring in chronological order. */
    ghost function Ordered(): seq<Byte>
      reads this
      requires tailPos <= |tail|
    {
      tail[tailPos..] + tail[..tailPos]
    }

    /** Head and ring are the first and the last bytes of the stream. */
    ghost predicate Valid()
      reads this
    {
      && max >= 1 && half == max / 2
      && total == |stream| <= MAX_INT
      && head == stream[..Min(half, |stream|)]
      && |tail| == Min(half, |stream| - |head|)
      && (|tail| < half ==> tailPos == 0)
      && (half > 0 ==> tailPos < half)
      && (half == 0 ==> tailPos == 0)
      && Ordered() == stream[|stream| - |tail|..]
    }

    constructor (max: int)
      ensures Valid() && stream == [] && this.max == if max <= 0 then 0x10_0000 else max
    {
      this.max := if max <= 0 then 0x10_0000 else max;
      head, tail, tailPos, total, stream := [], [], 0, 0, [];
    }

    /** Consumes all of p and says so. With a budget of one byte the ring has no room at
        all and indexing it faults: `ok` is false exactly then. */
    method Write(p: seq<Byte>) returns (n: nat, ok: bool)
      requires Valid() && total + |p| <= MAX_INT
      modifies this
      ensures ok <==> half > 0 || p == []
      ensures ok ==> Valid() && n == |p| && stream == old(stream) + p
    {
      n := |p|;
      ok := true;
      total := total + n;
      var rest := p;
      if |head| < half {
        var k := Min(half - |head|, |p|);
        head := head + p[..k];
        rest := p[k..];
        stream := stream + p[..k];
        assert old(stream) + p == stream + rest;
      }
      if |rest| == 0 {
        assert stream == old(stream) + p;
        return;
      }
      if half == 0 {
        ok := false;
        return;
      }
      Keep(rest);
    }

    /** Everything after the head goes into the ring. */
    method Keep(rest: seq<Byte>)
      requires half > 0 && total == |stream| + |rest| <= MAX_INT
      requires |stream| >= half && head == stream[..half]
      requires |tail| == Min(half, |stream| - half) && tailPos < half && (|tail| < half ==> tailPos == 0)
      requires Ordered() == stream[|stream| - |tail|..]
      modifies this`tail, this`tailPos, this`stream
      ensures Valid() && stream == old(stream) + rest
    {
      ghost var before := stream;
      var j := 0;
      while j < |rest|
        invariant 0 <= j <= |rest|
        invariant stream == before + rest[..j]
        invariant |tail| == Min(half, |stream| - half) && tailPos < half
        invariant |tail| < half ==> tailPos == 0
        invariant Ordered() == stream[|stream| - |tail|..]
      {
        Push(rest[j]);
        assert rest[..j + 1] == rest[..j] + [rest[j]];
        j := j + 1;
      }
      assert rest[..j] == rest;
    }

    /** One byte into the ring. */
    method Push(b: Byte)
      requires half > 0 && tailPos < half && |tail| <= half
      requires |tail| < half ==> tailPos == 0
      requires |stream| >= |tail| && Ordered() == stream[|stream| - |tail|..]
      modifies this`tail, this`tailPos, this`stream
      ensures stream == old(stream) + [b]
      ensures |tail| == Min(half, |old(tail)| + 1) && tailPos < half
      ensures |tail| < half ==> tailPos == 0
      ensures Ordered() == stream[|stream| - |tail|..]
    {
      ghost var was := Ordered();
      stream := stream + [b];
      if |tail| < half {
        tail := tail + [b];
        assert Ordered() == was + [b];
        return;
      }
      ghost var t := tail;
      tail := tail[tailPos := b];
      if tailPos + 1 == half {
        tailPos := 0;
        assert tail == t[..half - 1] + [b];
        assert Ordered() == tail;
        assert was == [t[half - 1]] + t[..half - 1];
      } else {
        tailPos := tailPos + 1;
        assert tail[tailPos..] == t[tailPos..];
        assert tail[..tailPos] == t[..tailPos - 1] + [b];
        assert was == [t[tailPos - 1]] + t[tailPos..] + t[..tailPos - 1];
      }
      assert Ordered() == was[1..] + [b];
    }

    method Truncated() returns (t: bool)
      requires Valid()
      ensures t <==> |stream| > 2 * half
    {
      t := total > |head| + |tail|;
    }

    method Dropped() returns (d: int)
      requires Valid()
      ensures d == Lost(|stream|, half)
    {
      var n := total - |head| - |tail|;
      d := if n < 0 then 0 else n;
    }

    method OrderedTail() returns (out: seq<Byte>)
      requires Valid()
      ensures out == Ordered()
    {
      if |tail| < half {
        return tail;
      }
      out := tail[tailPos..] + tail[..tailPos];
    }

    /** The capture depends on the stream alone, not on how it was cut into writes. */
    method Bytes() returns (out: seq<Byte>)
      requires Valid()
      ensures out == Rendered(stream, half)
    {
      var truncated := Truncated();
      var tailBytes := OrderedTail();
      if !truncated {
        assert stream == stream[..|stream| - |tail|] + stream[|stream| - |tail|..];
        return head + tailBytes;
      }
      var dropped := Dropped();
      var count := Itoa(dropped);
      out := head + Marker(count) + tailBytes;
    }
  }

  /** Writing the pieces of any split of a stream succeeds and captures that stream. */
  method WriteAll(w: Writer, pieces: seq<seq<Byte>>) returns (reported: nat)
    requires w.Valid() && w.half > 0 && w.total + |Flatten(pieces)| <= MAX_INT
    modifies w
    ensures w.Valid() && w.stream == old(w.stream) + Flatten(pieces) && reported == |Flatten(pieces)|
  {
    reported := 0;
    var i := 0;
    assert pieces[0..] == pieces;
    while i < |pieces|
      invariant 0 <= i <= |pieces| && w.Valid()
      invariant w.stream + Flatten(pieces[i..]) == old(w.stream) + Flatten(pieces)
      invariant reported + |Flatten(pieces[i..])| == |Flatten(pieces)|
    {
      assert pieces[i..][1..] == pieces[i + 1..];
      assert Flatten(pieces[i..]) == pieces[i] + Flatten(pieces[i + 1..]);
      ghost var was := w.stream;
      var n, ok := w.Write(pieces[i]);
      assert w.stream + Flatten(pieces[i + 1..]) == was + Flatten(pieces[i..]);
      reported := reported + n;
      i := i + 1;
    }
    assert Flatten(pieces[i..]) == [];
  }

  function Flatten(pieces: seq<seq<Byte>>): seq<Byte> {
    if pieces == [] then [] else pieces[0] + Flatten(pieces[1..])
  }
}
