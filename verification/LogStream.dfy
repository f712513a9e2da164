/** networker/base/LogStream.h and LogStream.cpp: the fixed-size text buffer, and integers
    printed into it in place. */
module LogStreams {

  const SMALL_BUFFER: nat := 4000
  const LARGE_BUFFER: nat := 4000 * 1000
  const MAX_NUMERIC_SIZE: nat := 32

  const DIGITS: string := "9876543210123456789"
  const ZERO: nat := 9                             // where the 0 stands in DIGITS
  const DIGITS_HEX: string := "0123456789ABCDEF"

  // ---------------------------------------------------------------- what a number looks like

  function Glyph(d: nat): char
    requires d < 16
  {
    DIGITS_HEX[d]
  }

  predicate IsBase(base: nat) {
    base == 10 || base == 16
  }

  /** The digits of n, most significant first. */
  function Digits(n: nat, base: nat): (s: string)
    requires IsBase(base)
    ensures s != []
  {
    if n < base then [Glyph(n)] else Digits(n / base, base) + [Glyph(n % base)]
  }

  function Decimal(v: int): string {
    if v < 0 then "-" + Digits(-v, 10) else Digits(v, 10)
  }

  function ValueOf(c: char): nat {
    if '0' <= c <= '9' then c as nat - '0' as nat else if 'A' <= c <= 'F' then c as nat - 'A' as nat + 10 else 0
  }

  function ParseDigits(s: string, base: nat): nat {
    if s == [] then 0 else ParseDigits(s[..|s| - 1], base) * base + ValueOf(s[|s| - 1])
  }

  function ParseDecimal(s: string): int {
    if s != [] && s[0] == '-' then -(ParseDigits(s[1..], 10) as int) else ParseDigits(s, 10)
  }

  lemma GlyphValue(d: nat)
    requires d < 16
    ensures ValueOf(Glyph(d)) == d
  {
  }

  lemma DivParts(n: nat, base: nat)
    requires IsBase(base)
    ensures 0 <= n % base < base && base * (n / base) + n % base == n
    ensures n >= base ==> 0 < n / base < n
  {
  }

  lemma ParseSnoc(s: string, c: char, base: nat)
    requires IsBase(base)
    ensures ParseDigits(s + [c], base) == base * ParseDigits(s, base) + ValueOf(c)
  {
    var t := s + [c];
    assert t[..|t| - 1] == s && t[|t| - 1] == c;
    if base == 10 {
      assert ParseDigits(t, 10) == 10 * ParseDigits(t[..|t| - 1], 10) + ValueOf(c);
    } else {
      assert ParseDigits(t, 16) == 16 * ParseDigits(t[..|t| - 1], 16) + ValueOf(c);
    }
  }

  lemma {:induction false} DigitsParse(n: nat, base: nat)
    requires IsBase(base)
    ensures ParseDigits(Digits(n, base), base) == n
  {
    DivParts(n, base);
    if n < base {
      ParseSnoc([], Glyph(n), base);
      GlyphValue(n);
    } else {
      DigitsParse(n / base, base);
      ParseSnoc(Digits(n / base, base), Glyph(n % base), base);
      GlyphValue(n % base);
    }
  }

  /** The first digit is that of a number below the base, zero only if there is no other. */
  lemma {:induction false} DigitsHead(n: nat, base: nat)
    requires IsBase(base)
    ensures |Digits(n, base)| > 1 <==> n >= base
    ensures Digits(n, base)[0] == '0' <==> n == 0
    ensures Digits(n, base)[0] != '-'
  {
    if n >= base {
      DigitsHead(n / base, base);
    }
  }

  /** Printing loses nothing: the text of every integer parses back to it, and carries no
      leading zero. */
  lemma DecimalRoundTrip(v: int)
    ensures ParseDecimal(Decimal(v)) == v
    ensures v != 0 ==> Decimal(v)[if v < 0 then 1 else 0] != '0'
  {
    var n: nat := if v < 0 then -v else v;
    DigitsParse(n, 10);
    DigitsHead(n, 10);
    if v < 0 {
      assert Decimal(v)[1..] == Digits(n, 10);
    }
  }

  lemma HexRoundTrip(n: nat)
    ensures ParseDigits(Digits(n, 16), 16) == n
    ensures |Digits(n, 16)| > 1 ==> Digits(n, 16)[0] != '0'
  {
    DigitsParse(n, 16);
    DigitsHead(n, 16);
  }

  function Power(base: nat, k: nat): nat {
    if k == 0 then 1 else base * Power(base, k - 1)
  }

  /** n < base^k has at most k digits, for k > 0. */
  lemma {:induction false} DigitsLength(n: nat, base: nat, k: nat)
    requires IsBase(base) && k > 0 && n < Power(base, k)
    ensures |Digits(n, base)| <= k
    decreases k
  {
    if n >= base {
      assert Power(base, 1) == base;
      assert n / base < Power(base, k - 1);
      DigitsLength(n / base, base, k - 1);
    }
  }

  const TWO_63: int := 0x8000_0000_0000_0000
  const TWO_64: int := 0x1_0000_0000_0000_0000

  /** Every value of every integer type printed, with sign and terminator, and a pointer with
      its prefix, fits in the room that is checked for. */
  lemma NumericSizeSuffices(v: int)
    requires -TWO_63 <= v < TWO_64
    ensures |Decimal(v)| + 1 <= 21 <= MAX_NUMERIC_SIZE
    ensures v >= 0 ==> 2 + |Digits(v, 16)| + 1 <= 19 <= MAX_NUMERIC_SIZE
  {
    Powers();
    if v < 0 {
      DigitsLength(-v, 10, 19);
    } else {
      DigitsLength(v, 10, 20);
      DigitsLength(v, 16, 16);
    }
  }

  lemma Powers()
    ensures Power(10, 19) == 10_000_000_000_000_000_000 && Power(10, 20) == 100_000_000_000_000_000_000
    ensures Power(16, 16) == TWO_64
  {
    var p5 := Power(10, 5);
    assert p5 == 100_000;
    assert Power(10, 10) == 100_000 * p5;
    assert Power(10, 15) == 100_000 * Power(10, 10);
    assert Power(10, 19) == 10_000 * Power(10, 15);
    assert Power(16, 4) == 0x1_0000;
    assert Power(16, 8) == 0x1_0000 * Power(16, 4);
    assert Power(16, 12) == 0x1_0000 * Power(16, 8);
    assert Power(16, 16) == 0x1_0000 * Power(16, 12);
  }

  // ---------------------------------------------------------------- convert

  /** C++ i / 10 and i % 10: toward zero, the remainder with the sign of i. */
  function Quot10(i: int): int {
    if i >= 0 then i / 10 else -((-i) / 10)
  }

  function Rem10(i: int): int {
    i - Quot10(i) * 10
  }

  function Abs(a: int): nat {
    if a < 0 then -a else a
  }

  /** The digits of n, least significant first, as the loop produces them. */
  function LowDigits(n: nat, base: nat): (s: string)
    requires IsBase(base)
    ensures |s| == |Digits(n, base)|
  {
    if n < base then [Glyph(n)] else [Glyph(n % base)] + LowDigits(n / base, base)
  }

  function Reversed(s: string): (r: string)
    ensures |r| == |s|
  {
    if s == [] then [] else Reversed(s[1..]) + [s[0]]
  }

  lemma {:induction false} LowDigitsReversed(n: nat, base: nat)
    requires IsBase(base)
    ensures Reversed(LowDigits(n, base)) == Digits(n, base)
  {
    var s := LowDigits(n, base);
    if n < base {
      assert s[1..] == [] && Reversed([]) == [];
    } else {
      LowDigitsReversed(n / base, base);
      assert s[1..] == LowDigits(n / base, base);
    }
  }

  lemma {:induction false} ReversedAt(s: string, k: nat)
    requires k < |s|
    ensures Reversed(s)[k] == s[|s| - 1 - k]
  {
    if k < |s| - 1 { ReversedAt(s[1..], k); }
  }

  lemma {:induction false} ReversedAppend(s: string, c: char)
    ensures Reversed(s + [c]) == [c] + Reversed(s)
  {
    if s == [] {
      assert ([] + [c])[1..] == [];
      assert Reversed([c]) == Reversed([c][1..]) + [c];
    } else {
      assert (s + [c])[1..] == s[1..] + [c];
      ReversedAppend(s[1..], c);
    }
  }

  /** The table lookup zero[lsd] works for the negative remainders of a negative number. */
  lemma TableLookup(i: int)
    ensures -9 <= Rem10(i) <= 9 && Abs(Rem10(i)) == Abs(i) % 10 && Abs(Quot10(i)) == Abs(i) / 10
    ensures DIGITS[ZERO + Rem10(i)] == Glyph(Abs(i) % 10)
  {
  }

  /** One turn of the loop of convert takes the lowest digit and leaves the others. */
  lemma DigitStep(i: int)
    ensures -9 <= Rem10(i) <= 9
    ensures DIGITS[ZERO + Rem10(i)] == LowDigits(Abs(i), 10)[0]
    ensures LowDigits(Abs(i), 10)[1..] == if Quot10(i) != 0 then LowDigits(Abs(Quot10(i)), 10) else []
    ensures Quot10(i) != 0 ==> Abs(Quot10(i)) < Abs(i)
  {
    TableLookup(i);
  }

  function Quot16(i: nat): nat { i / 16 }

  function Rem16(i: nat): nat { i % 16 }

  lemma HexStep(i: nat)
    ensures Rem16(i) < 16 && DIGITS_HEX[Rem16(i)] == LowDigits(i, 16)[0]
    ensures LowDigits(i, 16)[1..] == if Quot16(i) != 0 then LowDigits(Quot16(i), 16) else []
    ensures Quot16(i) != 0 ==> Quot16(i) < i
  {
  }

  /** Swapping from both ends of buf[lo..hi) puts every element at its mirror image. */
  method SwapEnds(buf: array<char>, lo: nat, hi: nat)
    requires lo <= hi <= buf.Length
    modifies buf
    ensures forall k :: lo <= k < hi ==> buf[k] == old(buf[lo + hi - 1 - k])
    ensures forall k :: 0 <= k < lo || hi <= k < buf.Length ==> buf[k] == old(buf[k])
  {
    var i, n := 0, hi - lo;
    while i < n / 2
      invariant i <= n / 2
      invariant forall k :: 0 <= k < buf.Length ==>
                  buf[k] == old(if lo <= k < lo + i || hi - i <= k < hi then buf[lo + hi - 1 - k] else buf[k])
    {
      buf[lo + i], buf[hi - 1 - i] := buf[hi - 1 - i], buf[lo + i];
      i := i + 1;
    }
  }

  /** std::reverse on buf[lo..hi). */
  method ReverseRange(buf: array<char>, lo: nat, hi: nat)
    requires lo <= hi <= buf.Length
    modifies buf
    ensures buf[..] == old(buf[..lo]) + Reversed(old(buf[lo..hi])) + old(buf[hi..])
  {
    ghost var was := buf[lo..hi];
    SwapEnds(buf, lo, hi);
    forall k | lo <= k < hi ensures buf[k] == Reversed(was)[k - lo] {
      ReversedAt(was, k - lo);
    }
  }

  /** buf holds `before`, and after it the first digits of `all`, up to position p. */
  ghost predicate Holds(buf: array<char>, before: string, all: string, p: nat)
    reads buf
  {
    && |before| <= p <= buf.Length && p - |before| <= |all|
    && buf[..p] == before + all[..p - |before|]
  }

  method PutDigit(buf: array<char>, p: nat, c: char, ghost before: string, ghost all: string)
    requires Holds(buf, before, all, p) && p < buf.Length
    requires p - |before| < |all| && c == all[p - |before|]
    modifies buf
    ensures Holds(buf, before, all, p + 1)
  {
    ghost var was := buf[..p];
    buf[p] := c;
    assert buf[..p + 1] == was + [c];
    assert all[..p + 1 - |before|] == all[..p - |before|] + [c];
  }

  /** The loop of convert: digits from position `at` on, least significant first. */
  method WriteDigits(buf: array<char>, at: nat, value: int) returns (p: nat)
    requires at + |LowDigits(Abs(value), 10)| <= buf.Length
    modifies buf
    ensures p == at + |LowDigits(Abs(value), 10)|
    ensures buf[..p] == old(buf[..at]) + LowDigits(Abs(value), 10)
  {
    ghost var all := LowDigits(Abs(value), 10);
    ghost var rest := all;
    var i := value;
    p := at;
    var more := true;
    while more
      invariant Holds(buf, old(buf[..at]), all, p)
      invariant rest == (if more then LowDigits(Abs(i), 10) else []) && rest == all[p - at..]
      decreases more, Abs(i)
    {
      DigitStep(i);
      var lsd := Rem10(i);
      i := Quot10(i);
      PutDigit(buf, p, DIGITS[ZERO + lsd], old(buf[..at]), all);
      p := p + 1;
      more := i != 0;
      rest := rest[1..];
    }
    assert all[..p - at] == all;
  }

  /** What convert has written before it reverses: the digits, and the sign after them. */
  function LowSigned(v: int): string {
    LowDigits(Abs(v), 10) + if v < 0 then ['-'] else []
  }

  lemma LowSignedReversed(v: int)
    ensures Reversed(LowSigned(v)) == Decimal(v)
  {
    LowDigitsReversed(Abs(v), 10);
    if v < 0 {
      ReversedAppend(LowDigits(Abs(v), 10), '-');
    } else {
      assert LowSigned(v) == LowDigits(Abs(v), 10);
    }
  }

  method WriteSigned(buf: array<char>, at: nat, value: int) returns (p: nat)
    requires at + |LowSigned(value)| <= buf.Length
    modifies buf
    ensures p == at + |LowSigned(value)|
    ensures buf[..p] == old(buf[..at]) + LowSigned(value)
  {
    p := WriteDigits(buf, at, value);
    if value < 0 {
      buf[p] := '-';
      p := p + 1;
      assert buf[..p] == buf[..p - 1] + ['-'];
    }
  }

  /** convert: the text goes to buf from position `at`, followed by a NUL. */
  method Convert(buf: array<char>, at: nat, value: int) returns (len: nat)
    requires at + |Decimal(value)| + 1 <= buf.Length
    modifies buf
    ensures len == |Decimal(value)|
    ensures buf[..at + len + 1] == old(buf[..at]) + Decimal(value) + ['\0']
  {
    LowSignedReversed(value);
    var p := WriteSigned(buf, at, value);
    Finish(buf, at, p, old(buf[..at]), LowSigned(value));
    len := p - at;
  }

  /** The terminator, and the reversal of what was written. */
  method Finish(buf: array<char>, at: nat, p: nat, ghost before: string, ghost all: string)
    requires at <= p < buf.Length && |before| == at && p - at == |all| && buf[..p] == before + all
    modifies buf
    ensures buf[..p + 1] == before + Reversed(all) + ['\0']
  {
    buf[p] := '\0';
    ghost var tail := buf[p..];
    assert buf[..p] == before + all;
    assert buf[at..p] == buf[..p][at..] == all && buf[..at] == buf[..p][..at] == before;
    ReverseRange(buf, at, p);
    assert buf[..] == before + Reversed(all) + tail;
    assert buf[..p + 1] == buf[..][..p + 1];
  }

  method WriteHexDigits(buf: array<char>, at: nat, value: nat) returns (p: nat)
    requires at + |LowDigits(value, 16)| <= buf.Length
    modifies buf
    ensures p == at + |LowDigits(value, 16)|
    ensures buf[..p] == old(buf[..at]) + LowDigits(value, 16)
  {
    ghost var all := LowDigits(value, 16);
    ghost var rest := all;
    var i := value;
    p := at;
    var more := true;
    while more
      invariant Holds(buf, old(buf[..at]), all, p)
      invariant rest == (if more then LowDigits(i, 16) else []) && rest == all[p - at..]
      decreases more, i
    {
      HexStep(i);
      var lsd := Rem16(i);
      i := Quot16(i);
      PutDigit(buf, p, DIGITS_HEX[lsd], old(buf[..at]), all);
      p := p + 1;
      more := i != 0;
      rest := rest[1..];
    }
    assert all[..p - at] == all;
  }

  method ConvertHex(buf: array<char>, at: nat, value: nat) returns (len: nat)
    requires at + |Digits(value, 16)| + 1 <= buf.Length
    modifies buf
    ensures len == |Digits(value, 16)|
    ensures buf[..at + len + 1] == old(buf[..at]) + Digits(value, 16) + ['\0']
  {
    LowDigitsReversed(value, 16);
    var p := WriteHexDigits(buf, at, value);
    Finish(buf, at, p, old(buf[..at]), LowDigits(value, 16));
    len := p - at;
  }

  // ---------------------------------------------------------------- the fixed buffer

  class FixedBuffer {
    const data: array<char>
    var cur: nat

    ghost predicate Valid()
      reads this
    {
      cur <= data.Length
    }

    ghost function Contents(): (s: string)
      reads this, data
      requires Valid()
      ensures |s| == cur
    {
      data[..cur]
    }

    constructor (size: nat)
      ensures Valid() && fresh(data) && data.Length == size && Contents() == []
    {
      data := new char[size];
      cur := 0;
    }

    function Length(): nat
      reads this
    {
      cur
    }

    function Avail(): nat
      reads this
      requires Valid()
    {
      data.Length - cur
    }

    /** Takes the text only when it leaves at least one byte free. */
    method Append(buf: string)
      requires Valid()
      modifies this`cur, data
      ensures Valid()
      ensures Contents() == old(Contents()) + if old(Avail()) > |buf| then buf else []
    {
      if Avail() > |buf| {
        var i := 0;
        while i < |buf|
          invariant i <= |buf| && cur == old(cur)
          invariant data[..cur + i] == old(Contents()) + buf[..i]
          modifies data
        {
          data[cur + i] := buf[i];
          i := i + 1;
          assert data[..cur + i] == data[..cur + i - 1] + [buf[i - 1]];
        }
        assert buf[..i] == buf;
        cur := cur + |buf|;
      }
    }

    method Add(len: nat)
      requires Valid() && len <= Avail()
      modifies this`cur
      ensures Valid() && Contents() == data[..old(cur) + len]
    {
      cur := cur + len;
    }

    method Reset()
      modifies this`cur
      ensures Valid() && Contents() == []
    {
      cur := 0;
    }

    /** LogStream::formatInteger: the number goes in whole or not at all, and neither its text
        nor the terminator passes the end of the buffer. */
    method FormatInteger(v: int)
      requires Valid() && -TWO_63 <= v < TWO_64
      modifies this`cur, data
      ensures Valid() && (old(Avail()) >= MAX_NUMERIC_SIZE ==> cur < data.Length)
      ensures Contents() == old(Contents()) + if old(Avail()) >= MAX_NUMERIC_SIZE then Decimal(v) else []
    {
      if Avail() >= MAX_NUMERIC_SIZE {
        NumericSizeSuffices(v);
        var len := Convert(data, cur, v);
        assert data[..cur + len] == data[..cur + len + 1][..cur + len];
        Add(len);
      }
    }

    /** operator<<(const void*). */
    method FormatPointer(v: nat)
      requires Valid() && v < TWO_64
      modifies this`cur, data
      ensures Valid() && (old(Avail()) >= MAX_NUMERIC_SIZE ==> cur < data.Length)
      ensures Contents() == old(Contents()) + if old(Avail()) >= MAX_NUMERIC_SIZE then "0x" + Digits(v, 16) else []
    {
      if Avail() >= MAX_NUMERIC_SIZE {
        NumericSizeSuffices(v);
        data[cur] := '0';
        data[cur + 1] := 'x';
        assert data[..cur + 2] == old(Contents()) + "0x";
        var len := ConvertHex(data, cur + 2, v);
        assert data[..cur + 2 + len] == data[..cur + 2 + len + 1][..cur + 2 + len];
        Add(len + 2);
      }
    }
  }
}
