/** Unpadded base32 (section 6 of RFC 4648) as src/server/modules/auth/totp.ts computes it:
    bits are shifted into a 32-bit integer that is never masked, so its high bits wrap away. */
module Base32 {
  import opened Prelude

  type Byte = b: int | 0 <= b < 256

  const ALPHABET := "ABCDEFGHIJKLMNOPQRSTUVWXYZ234567"

  // ---- 32-bit arithmetic, on the unsigned reading of the word ----

  const WORD := 0x1_0000_0000

  function Pow2(k: nat): (p: nat)
    ensures p > 0
  {
    if k == 0 then 1 else 2 * Pow2(k - 1)
  }

  /** `(value << k) | low` for low < 2^k. */
  function ShiftIn(value: nat, k: nat, low: nat): nat {
    (value * Pow2(k) + low) % WORD
  }

  /** `(value >>> k) & (2^n - 1)`. */
  function Field(value: nat, k: nat, n: nat): nat {
    (value / Pow2(k)) % Pow2(n)
  }

  // ---- Bit strings ----

  /** The n low bits of v, most significant first. */
  ghost function Bits(v: nat, n: nat): (s: seq<bool>)
    ensures |s| == n
  {
    if n == 0 then [] else Bits(v / 2, n - 1) + [v % 2 == 1]
  }

  /** The bits of all items, n bits each, in order. */
  ghost function AllBits(items: seq<int>, n: nat): seq<bool>
    requires forall i :: 0 <= i < |items| ==> items[i] >= 0
  {
    if items == [] then [] else AllBits(items[..|items| - 1], n) + Bits(items[|items| - 1], n)
  }

  lemma {:induction false} AllBitsLength(items: seq<int>, n: nat)
    requires forall i :: 0 <= i < |items| ==> items[i] >= 0
    ensures |AllBits(items, n)| == |items| * n
  {
    if items != [] {
      AllBitsLength(items[..|items| - 1], n);
      assert |items| * n == (|items| - 1) * n + n;
    }
  }

  ghost function Zeros(k: nat): seq<bool> {
    seq(k, _ => false)
  }

  lemma TimesDouble(x: nat, y: nat)
    ensures x * (2 * y) == 2 * (x * y)
  {
  }

  lemma HalfOfSum(half: nat, low: nat)
    ensures (2 * half + low) / 2 == half + low / 2 && (2 * half + low) % 2 == low % 2
  {
  }

  lemma {:induction false} BitsOfSum(high: nat, low: nat, n: nat, k: nat)
    requires low < Pow2(k)
    ensures Bits(high * Pow2(k) + low, n + k) == Bits(high, n) + Bits(low, k)
    decreases k
  {
    if k > 0 {
      var half := high * Pow2(k - 1);
      TimesDouble(high, Pow2(k - 1));
      HalfOfSum(half, low);
      BitsOfSum(high, low / 2, n, k - 1);
    }
  }

  lemma {:induction false} BitsInjective(v: nat, w: nat, n: nat)
    requires v < Pow2(n) && w < Pow2(n) && Bits(v, n) == Bits(w, n)
    ensures v == w
  {
    if n > 0 {
      var b, c := Bits(v, n), Bits(w, n);
      assert b[..n - 1] == Bits(v / 2, n - 1) && c[..n - 1] == Bits(w / 2, n - 1);
      assert b[n - 1] == (v % 2 == 1) && c[n - 1] == (w % 2 == 1);
      BitsInjective(v / 2, w / 2, n - 1);
    }
  }

  lemma {:induction false} AllBitsInjective(a: seq<int>, b: seq<int>, n: nat)
    requires |a| == |b|
    requires forall i :: 0 <= i < |a| ==> 0 <= a[i] < Pow2(n)
    requires forall i :: 0 <= i < |b| ==> 0 <= b[i] < Pow2(n)
    requires AllBits(a, n) == AllBits(b, n)
    ensures a == b
  {
    if a != [] {
      var a', b' := a[..|a| - 1], b[..|b| - 1];
      AllBitsLength(a', n);
      AllBitsLength(b', n);
      ConcatInjective(AllBits(a', n), Bits(a[|a| - 1], n), AllBits(b', n), Bits(b[|b| - 1], n));
      AllBitsInjective(a', b', n);
      BitsInjective(a[|a| - 1], b[|b| - 1], n);
    }
  }

  lemma ConcatInjective(s: seq<bool>, t: seq<bool>, s': seq<bool>, t': seq<bool>)
    requires |s| == |s'| && s + t == s' + t'
    ensures s == s' && t == t'
  {
    assert (s + t)[..|s|] == s && (s' + t')[..|s|] == s';
    assert (s + t)[|s|..] == t && (s' + t')[|s|..] == t';
  }

  lemma AllBitsSnoc(items: seq<int>, x: int, n: nat)
    requires x >= 0 && forall i :: 0 <= i < |items| ==> items[i] >= 0
    ensures AllBits(items + [x], n) == AllBits(items, n) + Bits(x, n)
  {
    assert (items + [x])[..|items|] == items;
  }

  // ---- The word's low bits survive the wrap ----

  lemma Pow2Values()
    ensures Pow2(0) == 1 && Pow2(1) == 2 && Pow2(2) == 4 && Pow2(3) == 8 && Pow2(4) == 16 && Pow2(5) == 32
    ensures Pow2(6) == 64 && Pow2(7) == 128 && Pow2(8) == 256 && Pow2(9) == 512 && Pow2(10) == 1024
    ensures Pow2(11) == 2048 && Pow2(12) == 4096
  {
  }

  lemma {:induction false} Pow2Add(a: nat, b: nat)
    ensures Pow2(a + b) == Pow2(a) * Pow2(b)
  {
    if a > 0 {
      Pow2Add(a - 1, b);
      assert 2 * (Pow2(a - 1) * Pow2(b)) == (2 * Pow2(a - 1)) * Pow2(b);
    }
  }

  lemma MulMono(a: nat, b: nat, d: nat)
    requires a <= b
    ensures a * d <= b * d
  {
  }

  lemma QuotientUnique(d: nat, q: nat, r: nat, q': nat, r': nat)
    requires r < d && r' < d && q * d + r == q' * d + r'
    ensures q == q' && r == r'
  {
    if q < q' {
      MulMono(q + 1, q', d);
    } else if q' < q {
      MulMono(q' + 1, q, d);
    }
  }

  lemma DivMod(x: nat, d: nat, q: nat, r: nat)
    requires d > 0 && x == q * d + r && r < d
    ensures x / d == q && x % d == r
  {
    QuotientUnique(d, q, r, x / d, x % d);
  }

  lemma MulAssoc(q: nat, a: nat, b: nat)
    ensures q * (a * b) == (q * b) * a
  {
  }

  lemma MulDistribute(x: nat, y: nat, a: nat)
    ensures (x + y) * a == x * a + y * a
  {
  }

  lemma ModMod(x: nat, a: nat, b: nat)
    requires a > 0 && b > 0 && a * b > 0
    ensures (x % (a * b)) % a == x % a
  {
    var q, r := x / (a * b), x % (a * b);
    var q2, r2 := r / a, r % a;
    assert x == q * (a * b) + r && r == q2 * a + r2;
    MulAssoc(q, a, b);
    MulDistribute(q * b, q2, a);
    DivMod(x, a, q * b + q2, r2);
  }

  lemma BelowProduct(r: nat, a: nat, low: nat, b: nat)
    requires r < a && low < b
    ensures r * b + low < a * b
  {
    MulMono(r + 1, a, b);
    MulDistribute(r, 1, b);
  }

  lemma ShiftMod(value: nat, a: nat, b: nat, low: nat)
    requires a > 0 && low < b
    ensures (value * b + low) % (a * b) == (value % a) * b + low
  {
    var q, r := value / a, value % a;
    assert value * b == q * (a * b) + r * b by {
      assert value == q * a + r;
      assert (q * a + r) * b == q * (a * b) + r * b;
    }
    BelowProduct(r, a, low, b);
    DivMod(value * b + low, a * b, q, r * b + low);
  }

  lemma Regroup(q: nat, a: nat, f: nat, b: nat)
    ensures (q * a + f) * b == q * (a * b) + f * b
  {
    MulAssoc(q, b, a);
    MulDistribute(q * a, f, b);
    assert (q * a) * b == q * (a * b);
  }

  lemma FieldTop(value: nat, a: nat, b: nat)
    requires a > 0 && b > 0
    ensures (value / b) % a == (value % (a * b)) / b
    ensures value % (a * b) == ((value / b) % a) * b + value % b
  {
    FieldTopOf(value, a, b, value / b, value % b, (value / b) / a, (value / b) % a);
  }

  lemma FieldTopOf(value: nat, a: nat, b: nat, v: nat, r: nat, q: nat, f: nat)
    requires a > 0 && b > 0 && a * b > 0 && value == v * b + r && r < b && v == q * a + f && f < a
    ensures f == (value % (a * b)) / b && value % (a * b) == f * b + r
  {
    Regroup(q, a, f, b);
    BelowProduct(f, a, r, b);
    DivMod(value, a * b, q, f * b + r);
    DivMod(f * b + r, b, f, r);
  }

  /** Shifting in k bits appends them to the n pending ones, whatever the high part. */
  lemma ShiftInKeeps(value: nat, n: nat, k: nat, low: nat)
    requires n + k <= 12 && low < Pow2(k)
    ensures ShiftIn(value, k, low) % Pow2(n + k) == (value % Pow2(n)) * Pow2(k) + low
  {
    Pow2Add(n + k, 32 - (n + k));
    Pow2Word();
    ModMod(value * Pow2(k) + low, Pow2(n + k), Pow2(32 - (n + k)));
    Pow2Add(n, k);
    ShiftMod(value, Pow2(n), Pow2(k), low);
  }

  lemma Pow2Word()
    ensures Pow2(32) == WORD
  {
    Pow2Values();
    Pow2Add(8, 8);
    Pow2Add(16, 16);
  }

  /** The field above the k low bits is the top of the n + k pending ones. */
  lemma FieldIsTop(value: nat, k: nat, n: nat)
    ensures Field(value, k, n) == (value % Pow2(n + k)) / Pow2(k)
    ensures Field(value, k, n) < Pow2(n)
    ensures value % Pow2(n + k) == Field(value, k, n) * Pow2(k) + value % Pow2(k)
  {
    Pow2Add(n, k);
    FieldTop(value, Pow2(n), Pow2(k));
  }

  /** The pending bits of the accumulator. */
  ghost function Pending(value: nat, n: nat): (s: seq<bool>)
    ensures |s| == n
  {
    Bits(value % Pow2(n), n)
  }

  lemma PendingShiftIn(value: nat, n: nat, k: nat, low: nat)
    requires n + k <= 12 && low < Pow2(k)
    ensures Pending(ShiftIn(value, k, low), n + k) == Pending(value, n) + Bits(low, k)
  {
    ShiftInKeeps(value, n, k, low);
    BitsOfSum(value % Pow2(n), low, n, k);
  }

  lemma PendingTop(value: nat, k: nat, n: nat)
    ensures Field(value, k, n) < Pow2(n)
    ensures Pending(value, n + k) == Bits(Field(value, k, n), n) + Pending(value, k)
  {
    FieldIsTop(value, k, n);
    BitsOfSum(Field(value, k, n), value % Pow2(k), n, k);
  }

  lemma {:induction false} BitsZero(n: nat)
    ensures Bits(0, n) == Zeros(n)
  {
    if n > 0 {
      BitsZero(n - 1);
      assert Zeros(n) == Zeros(n - 1) + [false];
    }
  }

  /** `(value << (5 - n)) & 31`: the pending bits followed by zeros. */
  lemma LastSymbol(value: nat, n: nat)
    requires n < 5
    ensures (value * Pow2(5 - n)) % WORD % 32 < 32
    ensures Bits((value * Pow2(5 - n)) % WORD % 32, 5) == Pending(value, n) + Zeros(5 - n)
  {
    ShiftInKeeps(value, n, 5 - n, 0);
    Pow2Values();
    BitsOfSum(value % Pow2(n), 0, n, 5 - n);
    BitsZero(5 - n);
  }

  // ---- What an encoding is ----

  predicate IsSymbols(symbols: seq<int>) {
    forall i :: 0 <= i < |symbols| ==> 0 <= symbols[i] < 32
  }

  function Pad(n: nat): nat {
    (5 - 8 * n % 5) % 5
  }

  /** RFC 4648 without padding: the symbols' bits are the bytes' bits and then zeros up to
      a multiple of five. */
  ghost predicate Encodes(bytes: seq<Byte>, symbols: seq<int>) {
    IsSymbols(symbols) && AllBits(symbols, 5) == AllBits(bytes, 8) + Zeros(Pad(|bytes|))
  }

  /** Decoding takes whole bytes off the front and drops the rest. */
  ghost predicate Decodes(symbols: seq<int>, bytes: seq<Byte>)
    requires IsSymbols(symbols)
  {
    |bytes| == 5 * |symbols| / 8 && AllBits(bytes, 8) <= AllBits(symbols, 5)
  }

  lemma EncodingLength(bytes: seq<Byte>, symbols: seq<int>)
    requires Encodes(bytes, symbols)
    ensures |symbols| == (8 * |bytes| + 4) / 5
  {
    AllBitsLength(symbols, 5);
    AllBitsLength(bytes, 8);
  }

  /** There is one encoding of given bytes and one decoding of given symbols. */
  lemma EncodingUnique(bytes: seq<Byte>, s: seq<int>, t: seq<int>)
    requires Encodes(bytes, s) && Encodes(bytes, t)
    ensures s == t
  {
    Pow2Values();
    EncodingLength(bytes, s);
    EncodingLength(bytes, t);
    AllBitsInjective(s, t, 5);
  }

  /** The round trip, on every byte sequence. */
  lemma DecodeOfEncode(bytes: seq<Byte>, symbols: seq<int>, back: seq<Byte>)
    requires Encodes(bytes, symbols) && Decodes(symbols, back)
    ensures back == bytes
  {
    EncodingLength(bytes, symbols);
    AllBitsLength(bytes, 8);
    AllBitsLength(back, 8);
    assert AllBits(symbols, 5)[..8 * |bytes|] == AllBits(bytes, 8) == AllBits(back, 8);
    Pow2Values();
    AllBitsInjective(back, bytes, 8);
  }

  /** The bits decoding drops. */
  ghost function Rest(symbols: seq<int>): seq<bool>
    requires IsSymbols(symbols)
  {
    var all := AllBits(symbols, 5);
    all[|all| - |all| % 8..]
  }

  /** The other direction holds exactly for canonical text: at most four bits are left over
      and they are zero. */
  lemma EncodeOfDecodeIff(symbols: seq<int>, bytes: seq<Byte>, again: seq<int>)
    requires IsSymbols(symbols) && Decodes(symbols, bytes) && Encodes(bytes, again)
    ensures again == symbols <==> |Rest(symbols)| < 5 && Rest(symbols) == Zeros(|Rest(symbols)|)
  {
    var all, rest := AllBits(symbols, 5), Rest(symbols);
    AllBitsLength(symbols, 5);
    AllBitsLength(bytes, 8);
    AllBitsLength(again, 5);
    EncodingLength(bytes, again);
    assert |all| - |all| % 8 == 8 * |bytes|;
    assert all == AllBits(bytes, 8) + rest;
    if again == symbols {
      ConcatInjective(AllBits(bytes, 8), rest, AllBits(bytes, 8), Zeros(Pad(|bytes|)));
    } else if |rest| < 5 && rest == Zeros(|rest|) {
      PadIsUnique(|bytes|, |rest|, |symbols|);
      Pow2Values();
      AllBitsInjective(again, symbols, 5);
    }
  }

  lemma PadIsUnique(n: nat, r: nat, m: nat)
    requires r < 5 && 8 * n + r == 5 * m
    ensures r == Pad(n)
  {
  }

  // ---- Text ----

  /** JavaScript's indexOf for one character. */
  function IndexIn(s: string, c: char): (k: int)
    ensures -1 <= k < |s| && (k >= 0 ==> s[k] == c && c !in s[..k]) && (k == -1 ==> c !in s)
  {
    if s == "" then -1
    else if s[0] == c then 0
    else var i := IndexIn(s[1..], c); if i < 0 then -1 else i + 1
  }

  function IndexOf(c: char): int {
    IndexIn(ALPHABET, c)
  }

  function SymbolChar(i: int): char
    requires 0 <= i < 32
  {
    ALPHABET[i]
  }

  /** The alphabet is A..Z then 2..7, so its characters are distinct and indexing inverts. */
  lemma AlphabetInverts(i: int)
    requires 0 <= i < 32
    ensures SymbolChar(i) == (if i < 26 then 'A' + i as char else '2' + (i - 26) as char)
    ensures IndexOf(SymbolChar(i)) == i
  {
    AlphabetLetters();
    AlphabetDigits();
    var k := IndexOf(ALPHABET[i]);
    assert ALPHABET[i] in ALPHABET;
    assert ALPHABET[k] == ALPHABET[i];
  }

  lemma AlphabetLetters()
    ensures forall i :: 0 <= i < 26 ==> ALPHABET[i] == 'A' + i as char
  {
  }

  lemma AlphabetDigits()
    ensures forall i :: 26 <= i < 32 ==> ALPHABET[i] == '2' + (i - 26) as char
  {
  }

  function Text(symbols: seq<int>): string
    requires IsSymbols(symbols)
  {
    seq(|symbols|, i requires 0 <= i < |symbols| => SymbolChar(symbols[i]))
  }

  function Upper(c: char): char {
    if 'a' <= c <= 'z' then 'A' + (c as int - 'a' as int) as char else c
  }

  function UpperAll(s: string): string {
    seq(|s|, i requires 0 <= i < |s| => Upper(s[i]))
  }

  function DropEquals(s: string): string {
    if s != "" && s[|s| - 1] == '=' then DropEquals(s[..|s| - 1]) else s
  }

  function DropSpaces(s: string): string {
    if s == "" then "" else
      DropSpaces(s[..|s| - 1]) + if Space(s[|s| - 1]) then "" else [s[|s| - 1]]
  }

  /** Upper case, then trailing '=' off, then white space out, in that order. */
  function Clean(s: string): string {
    DropSpaces(DropEquals(UpperAll(s)))
  }

  lemma {:induction false} DropSpacesNone(s: string)
    requires forall i :: 0 <= i < |s| ==> !Space(s[i])
    ensures DropSpaces(s) == s
  {
    if s != "" {
      DropSpacesNone(s[..|s| - 1]);
      assert s == s[..|s| - 1] + [s[|s| - 1]];
    }
  }

  lemma {:induction false} DropEqualsPadded(s: string, k: nat)
    requires s == "" || s[|s| - 1] != '='
    ensures DropEquals(s + seq(k, _ => '=')) == s
  {
    if k == 0 {
      assert s + seq(k, _ => '=') == s;
    } else {
      var t := s + seq(k, _ => '=');
      assert t[..|t| - 1] == s + seq(k - 1, _ => '=');
      DropEqualsPadded(s, k - 1);
    }
  }

  /** Decoding reads any casing of a canonical text with any amount of '=' behind it. */
  lemma CleanRestores(symbols: seq<int>, written: string, k: nat)
    requires IsSymbols(symbols) && |written| == |symbols|
    requires forall i :: 0 <= i < |symbols| ==> Upper(written[i]) == SymbolChar(symbols[i])
    ensures Clean(written + seq(k, _ => '=')) == Text(symbols)
  {
    assert UpperAll(written + seq(k, _ => '=')) == Text(symbols) + seq(k, _ => '=');
    forall i | 0 <= i < |symbols| ensures Text(symbols)[i] != '=' && !Space(Text(symbols)[i]) {
      UpperOfLower(symbols[i]);
    }
    DropEqualsPadded(Text(symbols), k);
    DropSpacesNone(Text(symbols));
  }

  datatype DecodeError = InvalidCharacter(c: char)

  // ---- The two loops ----

  /** Shifting an item of k bits into the accumulator appends its bits to those accounted for. */
  lemma Account(done: seq<bool>, value: nat, bits: nat, items: seq<int>, k: nat, item: nat, next: nat)
    requires bits + k <= 12 && item < Pow2(k) && forall i :: 0 <= i < |items| ==> items[i] >= 0
    requires done + Pending(value, bits) == AllBits(items, k)
    requires next == ShiftIn(value, k, item)
    ensures done + Pending(next, bits + k) == AllBits(items + [item], k)
  {
    AllBitsSnoc(items, item, k);
    PendingShiftIn(value, bits, k, item);
    Reassociate(done, Pending(value, bits), Bits(item, k));
  }

  /** Taking the top n pending bits as one output item moves them, and loses none. */
  lemma TakeOut(out: seq<int>, n: nat, value: nat, bits: nat, all: seq<bool>, item: nat)
    requires bits >= n && forall i :: 0 <= i < |out| ==> out[i] >= 0
    requires AllBits(out, n) + Pending(value, bits) == all
    requires item == Field(value, bits - n, n)
    ensures item < Pow2(n)
    ensures AllBits(out + [item], n) + Pending(value, bits - n) == all
  {
    PendingTop(value, bits - n, n);
    AllBitsSnoc(out, item, n);
    MoveAcross(AllBits(out, n), Bits(item, n), Pending(value, bits - n), Pending(value, bits),
               AllBits(out + [item], n), all);
  }

  lemma MoveAcross(left: seq<bool>, moved: seq<bool>, right: seq<bool>, before: seq<bool>, after: seq<bool>,
                   all: seq<bool>)
    requires left + before == all && before == moved + right && after == left + moved
    ensures after + right == all
  {
    Reassociate(left, moved, right);
  }

  lemma TextSnoc(symbols: seq<int>, s: int)
    requires IsSymbols(symbols) && 0 <= s < 32
    ensures Text(symbols + [s]) == Text(symbols) + [SymbolChar(s)]
  {
  }

  /** The symbols out so far and the accumulator's `bits` low bits hold exactly the bits of
      the bytes read. */
  ghost predicate Encoding(symbols: seq<int>, value: nat, bits: nat, bytes: seq<Byte>) {
    IsSymbols(symbols) && AllBits(symbols, 5) + Pending(value, bits) == AllBits(bytes, 8)
  }

  /** And the text written so far spells those symbols. */
  ghost predicate Writing(out: string, symbols: seq<int>, value: nat, bits: nat, bytes: seq<Byte>) {
    Encoding(symbols, value, bits, bytes) && out == Text(symbols)
  }

  lemma ReadByte(out: string, symbols: seq<int>, value: nat, bits: nat, buffer: seq<Byte>, i: nat, next: nat)
    requires i < |buffer| && bits <= 4 && Writing(out, symbols, value, bits, buffer[..i])
    requires next == ShiftIn(value, 8, buffer[i])
    ensures Writing(out, symbols, next, bits + 8, buffer[..i + 1])
  {
    AppendByte(symbols, value, bits, buffer[..i], buffer[i], next);
    assert buffer[..i + 1] == buffer[..i] + [buffer[i]];
  }

  lemma AppendByte(symbols: seq<int>, value: nat, bits: nat, bytes: seq<Byte>, b: Byte, next: nat)
    requires bits <= 4 && Encoding(symbols, value, bits, bytes) && next == ShiftIn(value, 8, b)
    ensures Encoding(symbols, next, bits + 8, bytes + [b])
  {
    Pow2Values();
    Account(AllBits(symbols, 5), value, bits, bytes, 8, b, next);
  }

  lemma WriteSymbol(out: string, symbols: seq<int>, value: nat, bits: nat, bytes: seq<Byte>, s: nat)
    requires bits >= 5 && Writing(out, symbols, value, bits, bytes) && s == Field(value, bits - 5, 5)
    ensures s < 32 && Writing(out + [SymbolChar(s)], symbols + [s], value, bits - 5, bytes)
  {
    TakeOut(symbols, 5, value, bits, AllBits(bytes, 8), s);
    Pow2Values();
    TextSnoc(symbols, s);
  }

  method Encode(buffer: seq<Byte>) returns (out: string, symbols: seq<int>)
    ensures Encodes(buffer, symbols) && out == Text(symbols)
    ensures |out| == (8 * |buffer| + 4) / 5
  {
    var bits, value: nat := 0, 0;
    out, symbols := "", [];
    for i := 0 to |buffer|
      invariant bits < 5 && Writing(out, symbols, value, bits, buffer[..i])
    {
      var next := ShiftIn(value, 8, buffer[i]);
      ReadByte(out, symbols, value, bits, buffer, i, next);
      value := next;
      bits := bits + 8;
      while bits >= 5
        invariant bits <= 12 && Writing(out, symbols, value, bits, buffer[..i + 1])
      {
        var s := Field(value, bits - 5, 5);
        WriteSymbol(out, symbols, value, bits, buffer[..i + 1], s);
        out := out + [SymbolChar(s)];
        symbols := symbols + [s];
        bits := bits - 5;
      }
    }
    assert buffer[..|buffer|] == buffer;
    out, symbols := Finish(out, symbols, value, bits, buffer);
    EncodingLength(buffer, symbols);
  }

  /** The bits left over go out as one symbol, zeros behind them. */
  method Finish(written: string, given: seq<int>, value: nat, bits: nat, ghost buffer: seq<Byte>)
    returns (out: string, symbols: seq<int>)
    requires bits < 5 && Writing(written, given, value, bits, buffer)
    ensures Encodes(buffer, symbols) && out == Text(symbols)
  {
    out, symbols := written, given;
    if bits > 0 {
      var s := (value * Pow2(5 - bits)) % WORD % 32;
      LastIsPadded(buffer, symbols, value, bits);
      TextSnoc(symbols, s);
      out := out + [SymbolChar(s)];
      symbols := symbols + [s];
    } else {
      NothingPending(buffer, symbols, value);
    }
  }

  lemma NothingPending(buffer: seq<Byte>, symbols: seq<int>, value: nat)
    requires Encoding(symbols, value, 0, buffer)
    ensures Encodes(buffer, symbols)
  {
    AllBitsLength(symbols, 5);
    AllBitsLength(buffer, 8);
    assert Zeros(0) == [] && Pad(|buffer|) == 0;
  }

  lemma LastIsPadded(buffer: seq<Byte>, symbols: seq<int>, value: nat, bits: nat)
    requires 0 < bits < 5 && Encoding(symbols, value, bits, buffer)
    ensures Encodes(buffer, symbols + [(value * Pow2(5 - bits)) % WORD % 32])
  {
    var s := (value * Pow2(5 - bits)) % WORD % 32;
    LastSymbol(value, bits);
    AllBitsSnoc(symbols, s, 5);
    AllBitsLength(symbols, 5);
    AllBitsLength(buffer, 8);
    PadIsUnique(|buffer|, 5 - bits, |symbols| + 1);
    assert AllBits(symbols, 5) + (Pending(value, bits) + Zeros(5 - bits))
           == (AllBits(symbols, 5) + Pending(value, bits)) + Zeros(5 - bits);
  }

  predicate AllIn(alphabet: string, s: string) {
    forall i :: 0 <= i < |s| ==> s[i] in alphabet
  }

  function Indices(alphabet: string, s: string): (symbols: seq<int>)
    requires |alphabet| == 32 && AllIn(alphabet, s)
    ensures IsSymbols(symbols)
  {
    seq(|s|, i requires 0 <= i < |s| => IndexIn(alphabet, s[i]))
  }

  /** The error names the first cleaned character outside the alphabet. */
  ghost predicate FirstBad(alphabet: string, clean: string, c: char) {
    exists i :: 0 <= i < |clean| && clean[i] == c && c !in alphabet && AllIn(alphabet, clean[..i])
  }

  /** The same relation for decoding. */
  ghost predicate Decoding(out: seq<Byte>, value: nat, bits: nat, symbols: seq<int>)
    requires IsSymbols(symbols)
  {
    AllBits(out, 8) + Pending(value, bits) == AllBits(symbols, 5)
  }

  lemma ReadSymbol(out: seq<Byte>, value: nat, bits: nat, symbols: seq<int>, index: nat, next: nat)
    requires bits < 8 && index < 32 && IsSymbols(symbols) && Decoding(out, value, bits, symbols)
    requires next == ShiftIn(value, 5, index)
    ensures Decoding(out, next, bits + 5, symbols + [index])
  {
    Pow2Values();
    Account(AllBits(out, 8), value, bits, symbols, 5, index, next);
  }

  lemma WriteByte(out: seq<Byte>, value: nat, bits: nat, symbols: seq<int>, b: nat)
    requires bits >= 8 && IsSymbols(symbols) && Decoding(out, value, bits, symbols)
    requires b == Field(value, bits - 8, 8)
    ensures b < 256 && Decoding(out + [b], value, bits - 8, symbols)
  {
    TakeOut(out, 8, value, bits, AllBits(symbols, 5), b);
    Pow2Values();
  }

  lemma ReadChar(alphabet: string, out: seq<Byte>, value: nat, bits: nat, clean: string, i: nat, next: nat)
    requires |alphabet| == 32 && i < |clean| && bits < 8 && clean[i] in alphabet
    requires DecodedTo(alphabet, clean[..i], out, value, bits)
    requires next == ShiftIn(value, 5, IndexIn(alphabet, clean[i]))
    ensures DecodedTo(alphabet, clean[..i + 1], out, next, bits + 5)
  {
    IndicesSnoc(alphabet, clean, i);
    ReadSymbol(out, value, bits, Indices(alphabet, clean[..i]), IndexIn(alphabet, clean[i]), next);
  }

  lemma IndicesSnoc(alphabet: string, clean: string, i: nat)
    requires |alphabet| == 32 && i < |clean| && clean[i] in alphabet && AllIn(alphabet, clean[..i])
    ensures AllIn(alphabet, clean[..i + 1])
    ensures Indices(alphabet, clean[..i + 1]) == Indices(alphabet, clean[..i]) + [IndexIn(alphabet, clean[i])]
  {
  }

  /** A cleaned prefix has been read: all of it is in the alphabet, and its bits are held. */
  ghost predicate DecodedTo(alphabet: string, read: string, out: seq<Byte>, value: nat, bits: nat)
    requires |alphabet| == 32
  {
    AllIn(alphabet, read) && Decoding(out, value, bits, Indices(alphabet, read))
  }

  lemma TakeByte(alphabet: string, read: string, out: seq<Byte>, value: nat, bits: nat, b: nat)
    requires |alphabet| == 32 && bits >= 8 && DecodedTo(alphabet, read, out, value, bits)
    requires b == Field(value, bits - 8, 8)
    ensures b < 256 && DecodedTo(alphabet, read, out + [b], value, bits - 8)
  {
    WriteByte(out, value, bits, Indices(alphabet, read), b);
  }

  /** One round of the loop: five bits in, and eight out when there are that many. */
  method Accumulate(alphabet: string, ghost clean: string, ghost i: nat, index: nat, held: seq<Byte>, value: nat,
                    bits: nat)
    returns (out: seq<Byte>, next: nat, left: nat)
    requires |alphabet| == 32 && i < |clean| && bits < 8 && clean[i] in alphabet && index == IndexIn(alphabet, clean[i])
    requires DecodedTo(alphabet, clean[..i], held, value, bits)
    ensures left < 8 && DecodedTo(alphabet, clean[..i + 1], out, next, left)
  {
    next := ShiftIn(value, 5, index);
    ReadChar(alphabet, held, value, bits, clean, i, next);
    out, left := held, bits + 5;
    if left >= 8 {
      var b := Field(next, left - 8, 8);
      TakeByte(alphabet, clean[..i + 1], out, next, left, b);
      out := out + [b];
      left := left - 8;
    }
  }

  method DecodeClean(alphabet: string, clean: string) returns (r: Result<seq<Byte>, DecodeError>)
    requires |alphabet| == 32
    ensures r.Ok? <==> AllIn(alphabet, clean)
    ensures r.Ok? ==> Decodes(Indices(alphabet, clean), r.value)
    ensures r.Err? ==> FirstBad(alphabet, clean, r.error.c)
  {
    var bits, value: nat := 0, 0;
    var out: seq<Byte> := [];
    for i := 0 to |clean|
      invariant bits < 8 && DecodedTo(alphabet, clean[..i], out, value, bits)
    {
      var index := IndexIn(alphabet, clean[i]);
      if index == -1 {
        return Err(InvalidCharacter(clean[i]));
      }
      out, value, bits := Accumulate(alphabet, clean, i, index, out, value, bits);
    }
    assert clean[..|clean|] == clean;
    WholeBytes(Indices(alphabet, clean), out, value, bits);
    r := Ok(out);
  }

  method Decode(input: string) returns (r: Result<seq<Byte>, DecodeError>)
    ensures r.Ok? <==> AllIn(ALPHABET, Clean(input))
    ensures r.Ok? ==> Decodes(Indices(ALPHABET, Clean(input)), r.value)
    ensures r.Err? ==> FirstBad(ALPHABET, Clean(input), r.error.c)
  {
    r := DecodeClean(ALPHABET, Clean(input));
  }

  lemma WholeBytes(symbols: seq<int>, out: seq<Byte>, value: nat, bits: nat)
    requires IsSymbols(symbols) && bits < 8 && Decoding(out, value, bits, symbols)
    ensures Decodes(symbols, out)
  {
    AllBitsLength(symbols, 5);
    AllBitsLength(out, 8);
  }

  function Lower(c: char): char {
    if 'A' <= c <= 'Z' then 'a' + (c as int - 'A' as int) as char else c
  }

  function LowerAll(s: string): string {
    seq(|s|, i requires 0 <= i < |s| => Lower(s[i]))
  }

  lemma UpperOfLower(i: int)
    requires 0 <= i < 32
    ensures Upper(SymbolChar(i)) == SymbolChar(i) == Upper(Lower(SymbolChar(i)))
    ensures SymbolChar(i) != '=' && !Space(SymbolChar(i))
  {
    AlphabetInverts(i);
    UpperOfAlphanumeric(SymbolChar(i));
  }

  lemma UpperOfAlphanumeric(c: char)
    requires 'A' <= c <= 'Z' || '2' <= c <= '7'
    ensures Upper(c) == c == Upper(Lower(c)) && c != '=' && !Space(c)
  {
  }

  /** The encoder's text reads back as its symbols. */
  lemma TextIndices(symbols: seq<int>)
    requires IsSymbols(symbols)
    ensures AllIn(ALPHABET, Text(symbols)) && Indices(ALPHABET, Text(symbols)) == symbols
  {
    forall i | 0 <= i < |symbols|
      ensures Text(symbols)[i] in ALPHABET && IndexIn(ALPHABET, Text(symbols)[i]) == symbols[i]
    {
      AlphabetInverts(symbols[i]);
    }
  }

  /** What a person may type for an encoding: either case, any padding. */
  lemma WrittenCleans(symbols: seq<int>, lower: bool, padding: nat)
    requires IsSymbols(symbols)
    ensures
      var written := if lower then LowerAll(Text(symbols)) else Text(symbols);
      Clean(written + seq(padding, _ => '=')) == Text(symbols)
  {
    var written := if lower then LowerAll(Text(symbols)) else Text(symbols);
    forall i | 0 <= i < |symbols| ensures Upper(written[i]) == SymbolChar(symbols[i]) {
      UpperOfLower(symbols[i]);
    }
    CleanRestores(symbols, written, padding);
  }

  /** `base32Decode(base32Encode(b)) == b`, also after lower-casing and padding the text. */
  method RoundTrip(bytes: seq<Byte>, lower: bool, padding: nat) returns (r: Result<seq<Byte>, DecodeError>)
    ensures r == Ok(bytes)
  {
    var text, symbols := Encode(bytes);
    WrittenCleans(symbols, lower, padding);
    TextIndices(symbols);
    r := Decode((if lower then LowerAll(text) else text) + seq(padding, _ => '='));
    DecodeOfEncode(bytes, symbols, r.value);
  }
}
