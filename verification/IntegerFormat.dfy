/** Printing integers into a character buffer, as LogStream does: digits from the low end through a moving pointer,
    then a reversal in place. */
module IntegerFormat {
  import opened Common

  /** The two digit tables; the decimal one is indexed from its middle, by remainders from -9 to 9. */
  const DIGITS := "9876543210123456789"
  const DIGITS_HEX := "0123456789ABCDEF"

  /** LogStream's room check, and the width of the small buffer. */
  const MAX_NUMERIC_SIZE: nat := 32
  const SMALL_BUFFER: nat := 4000

  // ---------------------------------------------------------------------------------------------------------------
  // The numerals

  /** The numeral of a natural number. */
  function Numeral(n: nat, base: nat): (s: string)
    requires 2 <= base <= 16
    ensures |s| > 0
  {
    if n < base then [DIGITS_HEX[n]]
    else
      QuotientIsLess(n, base);
      Numeral(n / base, base) + [DIGITS_HEX[n % base]]
  }

  function Dec(n: nat): string {
    Numeral(n, 10)
  }

  function Decimal(value: int): string {
    if value < 0 then "-" + Dec(-value) else Dec(value)
  }

  function Hex(value: nat): string {
    Numeral(value, 16)
  }

  predicate IsDigit(c: char, base: nat)
    requires base <= 16
  {
    exists d :: 0 <= d < base && DIGITS_HEX[d] == c
  }

  function DigitValue(c: char): int {
    if '0' <= c <= '9' then c as int - '0' as int else c as int - 'A' as int + 10
  }

  /** Reading a numeral: an independent left-to-right evaluation. */
  function Parse(s: string, base: nat): int {
    if s == "" then 0 else Parse(s[..|s| - 1], base) * base + DigitValue(s[|s| - 1])
  }

  function ParseDecimal(s: string): int {
    if s != "" && s[0] == '-' then -Parse(s[1..], 10) else Parse(s, 10)
  }

  lemma TableValue(d: nat)
    requires d < 16
    ensures DigitValue(DIGITS_HEX[d]) == d && DIGITS_HEX[d] != '-' && DIGITS_HEX[d] != '_'
    ensures DIGITS_HEX[d] == '0' <==> d == 0
  {
  }

  lemma ParseSnoc(s: string, c: char, base: nat)
    ensures Parse(s + [c], base) == Parse(s, base) * base + DigitValue(c)
  {
    assert (s + [c])[..|s|] == s;
  }

  lemma {:induction false} NumeralRoundTrip(n: nat, base: nat)
    requires 2 <= base <= 16
    ensures Parse(Numeral(n, base), base) == n
  {
    if n < base {
      ParseSnoc("", DIGITS_HEX[n], base);
      assert "" + [DIGITS_HEX[n]] == Numeral(n, base);
      TableValue(n);
    } else {
      NumeralRoundTrip(n / base, base);
      ParseSnoc(Numeral(n / base, base), DIGITS_HEX[n % base], base);
      TableValue(n % base);
      DivMod(n, base);
    }
  }

  /** Canonical form: digits of the base only, and no leading zero but for zero itself. */
  lemma {:induction false} NumeralCanonical(n: nat, base: nat)
    requires 2 <= base <= 16
    ensures forall i :: 0 <= i < |Numeral(n, base)| ==> IsDigit(Numeral(n, base)[i], base)
    ensures Numeral(n, base)[0] == '0' ==> n == 0
    ensures n == 0 ==> Numeral(n, base) == "0"
  {
    if n < base {
      TableValue(n);
    } else {
      NumeralCanonical(n / base, base);
      var shorter := Numeral(n / base, base);
      assert Numeral(n, base)[0] == shorter[0];
      forall i | 0 <= i < |Numeral(n, base)| ensures IsDigit(Numeral(n, base)[i], base) {
        if i < |shorter| { assert Numeral(n, base)[i] == shorter[i]; }
      }
    }
  }

  /** For every value, the most negative one included: parsing what is printed gives the value back, and the form is
      canonical -- a minus sign exactly for negative values, no leading zeros. */
  lemma DecimalRoundTrip(value: int)
    ensures ParseDecimal(Decimal(value)) == value
    ensures Decimal(value)[0] == '-' <==> value < 0
    ensures var digits := if value < 0 then Decimal(value)[1..] else Decimal(value);
            |digits| > 0 && (digits[0] == '0' ==> value == 0 && digits == "0")
  {
    var n := if value < 0 then -value else value;
    NumeralRoundTrip(n, 10);
    DecStart(n);
    if value < 0 { assert Decimal(value)[1..] == Dec(n); }
  }

  lemma DecStart(n: nat)
    ensures Dec(n)[0] != '-' && (Dec(n)[0] == '0' ==> n == 0 && Dec(n) == "0")
  {
    NumeralCanonical(n, 10);
    assert IsDigit(Dec(n)[0], 10);
  }

  function Power(base: nat, k: nat): nat {
    if k == 0 then 1 else base * Power(base, k - 1)
  }

  lemma {:induction false} NumeralLength(n: nat, base: nat, k: nat)
    requires 2 <= base <= 16 && k > 0 && n < Power(base, k)
    ensures |Numeral(n, base)| <= k
    decreases k
  {
    if n >= base {
      QuotientIsLess(n, base);
      QuotientBound(n, base, Power(base, k - 1));
      if k > 1 {
        NumeralLength(n / base, base, k - 1);
      }
    }
  }

  lemma QuotientIsLess(n: nat, b: nat)
    requires b >= 2 && n > 0
    ensures 0 <= n / b < n
  {
    MulMonotone(n, 2, b);
    QuotientBound(n, b, n);
  }

  /** Any 64-bit value, signed or unsigned, fits with its terminator into the room LogStream asks for. */
  lemma DecimalFits(value: int)
    requires -0x8000_0000_0000_0000 <= value < 0x1_0000_0000_0000_0000
    ensures |Decimal(value)| <= 20 < MAX_NUMERIC_SIZE
  {
    TenToThe20();
    if value < 0 { NumeralLength(-value, 10, 19); } else { NumeralLength(value, 10, 20); }
  }

  lemma TenToThe20()
    ensures Power(10, 19) == 10_000_000_000_000_000_000 && Power(10, 20) == 100_000_000_000_000_000_000
  {
    assert Power(10, 5) == 100_000;
    assert Power(10, 10) == 10_000_000_000;
    assert Power(10, 15) == 1_000_000_000_000_000;
    assert Power(10, 19) == 10_000_000_000_000_000_000;
  }

  lemma HexFits(value: nat)
    requires value < 0x1_0000_0000_0000_0000
    ensures |Hex(value)| <= 16
  {
    assert Power(16, 4) == 0x1_0000;
    assert Power(16, 8) == 0x1_0000_0000;
    assert Power(16, 12) == 0x1_0000_0000_0000;
    assert Power(16, 16) == 0x1_0000_0000_0000_0000;
    NumeralLength(value, 16, 16);
  }

  // ---------------------------------------------------------------------------------------------------------------
  // The printing loops

  /** C++ remainder: it takes the sign of the dividend. */
  function Rem10(i: int): int {
    i - 10 * Quot(i, 10)
  }

  function Abs(i: int): nat {
    if i < 0 then -i else i
  }

  function Reversed<T>(s: seq<T>): (r: seq<T>)
    ensures |r| == |s| && forall i :: 0 <= i < |s| ==> r[i] == s[|s| - 1 - i]
  {
    seq(|s|, i requires 0 <= i < |s| => s[|s| - 1 - i])
  }

  lemma ReversedSnoc<T>(s: seq<T>, x: T)
    ensures Reversed(s + [x]) == [x] + Reversed(s)
  {
  }

  lemma ReversedPart(was: string, now: string, lo: nat, hi: nat)
    requires lo <= hi <= |was| == |now|
    requires forall k :: lo <= k < hi ==> now[k] == was[lo + hi - 1 - k]
    ensures now[lo..hi] == Reversed(was[lo..hi])
  {
  }

  /** std::reverse on [lo, hi). */
  method Reverse(buf: array<char>, lo: nat, hi: nat)
    requires lo <= hi <= buf.Length
    modifies buf
    ensures buf[lo..hi] == Reversed(old(buf[lo..hi]))
    ensures forall k :: 0 <= k < lo || hi <= k < buf.Length ==> buf[k] == old(buf[k])
  {
    ghost var was := buf[..];
    var first, last := lo, hi;
    while last - first > 1
      invariant lo <= first <= last <= hi && first - lo == hi - last
      invariant forall k :: lo <= k < first || last <= k < hi ==> buf[k] == was[lo + hi - 1 - k]
      invariant forall k :: 0 <= k < lo || first <= k < last || hi <= k < buf.Length ==> buf[k] == was[k]
    {
      last := last - 1;
      buf[first], buf[last] := buf[last], buf[first];
      first := first + 1;
    }
    ghost var now := buf[..];
    ReversedPart(was, now, lo, hi);
    assert buf[lo..hi] == now[lo..hi] && old(buf[lo..hi]) == was[lo..hi];
  }

  /** The digits `done`, lowest first, are the low end of the numeral, and `i` is the number still to print. */
  ghost predicate Emitting(numeral: string, i: nat, done: string, base: nat)
    requires 2 <= base <= 16
  {
    if i == 0 then done != "" && numeral == Reversed(done) else numeral == Numeral(i, base) + Reversed(done)
  }

  lemma QuotientZeroIff(n: nat, b: nat)
    requires b > 0
    ensures if n < b then n / b == 0 && n % b == n else n / b > 0
  {
  }

  lemma FirstDigit(n: nat, base: nat)
    requires 2 <= base <= 16
    ensures Emitting(Numeral(n, base), n / base, [DIGITS_HEX[n % base]], base)
  {
    QuotientZeroIff(n, base);
    assert Reversed([DIGITS_HEX[n % base]]) == [DIGITS_HEX[n % base]];
  }

  lemma NextDigit(numeral: string, i: nat, done: string, base: nat)
    requires 2 <= base <= 16 && i > 0 && Emitting(numeral, i, done, base)
    ensures Emitting(numeral, i / base, done + [DIGITS_HEX[i % base]], base)
  {
    var digit := DIGITS_HEX[i % base];
    ReversedSnoc(done, digit);
    QuotientZeroIff(i, base);
    if i < base {
      assert numeral == [digit] + Reversed(done);
    } else {
      assert Numeral(i / base, base) + [digit] + Reversed(done) == Numeral(i / base, base) + ([digit] + Reversed(done));
    }
  }

  /** *p++ = c */
  method Put(buf: array<char>, start: nat, p: nat, c: char)
    requires start <= p < buf.Length
    modifies buf
    ensures buf[start..p + 1] == old(buf[start..p]) + [c]
    ensures forall k :: 0 <= k < buf.Length && k != p ==> buf[k] == old(buf[k])
  {
    buf[p] := c;
  }

  lemma SignedDigit(i: int)
    ensures -9 <= Rem10(i) <= 9 && DIGITS[9 + Rem10(i)] == DIGITS_HEX[Abs(i) % 10]
    ensures Abs(Quot(i, 10)) == Abs(i) / 10 && (Quot(i, 10) == 0 || (Quot(i, 10) < 0) == (i < 0))
  {
    var d := Abs(i) % 10;
    assert Rem10(i) == if i < 0 then -d else d;
  }

  lemma NextSignedDigit(numeral: string, i: int, done: string)
    requires i != 0 && Emitting(numeral, Abs(i), done, 10)
    ensures -9 <= Rem10(i) <= 9 && Abs(Quot(i, 10)) < Abs(i)
    ensures Emitting(numeral, Abs(Quot(i, 10)), done + [DIGITS[9 + Rem10(i)]], 10)
    ensures |done| < |numeral|
  {
    SignedDigit(i);
    NextDigit(numeral, Abs(i), done, 10);
  }

  /** convert's do-while loop, its first turn unrolled: the digits, lowest first. */
  method EmitDigits(buf: array<char>, start: nat, value: int) returns (p: nat)
    requires start + |Dec(Abs(value))| <= buf.Length
    modifies buf
    ensures p == start + |Dec(Abs(value))|
    ensures Reversed(buf[start..p]) == Dec(Abs(value))
    ensures forall k :: 0 <= k < start || p <= k < buf.Length ==> buf[k] == old(buf[k])
  {
    ghost var numeral := Dec(Abs(value));
    SignedDigit(value);
    FirstDigit(Abs(value), 10);
    Put(buf, start, start, DIGITS[9 + Rem10(value)]);
    var i := Quot(value, 10);
    p := start + 1;
    while i != 0
      invariant start < p <= start + |numeral|
      invariant Emitting(numeral, Abs(i), buf[start..p], 10)
      invariant forall k :: 0 <= k < start || p <= k < buf.Length ==> buf[k] == old(buf[k])
      decreases Abs(i)
    {
      NextSignedDigit(numeral, i, buf[start..p]);
      Put(buf, start, p, DIGITS[9 + Rem10(i)]);
      i := Quot(i, 10);
      p := p + 1;
    }
  }

  /** convert: prints `value` at `start`, NUL-terminated, and returns the number of characters. */
  method Convert(buf: array<char>, start: nat, value: int) returns (len: nat)
    requires start + |Decimal(value)| < buf.Length
    modifies buf
    ensures len == |Decimal(value)|
    ensures buf[start..start + len] == Decimal(value) && buf[start + len] == '\0'
    ensures forall k :: 0 <= k < start || start + len < k < buf.Length ==> buf[k] == old(buf[k])
  {
    var p := EmitDigits(buf, start, value);
    ghost var done := buf[start..p];
    if value < 0 {
      buf[p] := '-';
      ReversedSnoc(done, '-');
      done := done + ['-'];
      p := p + 1;
    }
    buf[p] := '\0';
    assert buf[start..p] == done;
    Reverse(buf, start, p);
    len := p - start;
  }

  /** convertHex. */
  method ConvertHex(buf: array<char>, start: nat, value: nat) returns (len: nat)
    requires start + |Hex(value)| < buf.Length
    modifies buf
    ensures len == |Hex(value)|
    ensures buf[start..start + len] == Hex(value) && buf[start + len] == '\0'
    ensures forall k :: 0 <= k < start || start + len < k < buf.Length ==> buf[k] == old(buf[k])
  {
    FirstDigit(value, 16);
    Put(buf, start, start, DIGITS_HEX[value % 16]);
    var i: nat, p := value / 16, start + 1;
    while i != 0
      invariant start < p <= start + |Hex(value)|
      invariant Emitting(Hex(value), i, buf[start..p], 16)
      invariant forall k :: 0 <= k < start || p <= k < buf.Length ==> buf[k] == old(buf[k])
    {
      NextDigit(Hex(value), i, buf[start..p], 16);
      Put(buf, start, p, DIGITS_HEX[i % 16]);
      i := i / 16;
      p := p + 1;
    }
    ghost var done := buf[start..p];
    buf[p] := '\0';
    assert buf[start..p] == done;
    Reverse(buf, start, p);
    len := p - start;
  }

  method PutPrefix(buf: array<char>, at: nat)
    requires at + 2 <= buf.Length
    modifies buf
    ensures buf[..at + 2] == old(buf[..at]) + "0x"
  {
    buf[at] := '0';
    buf[at + 1] := 'x';
  }

  // ---------------------------------------------------------------------------------------------------------------
  // The stream

  /** LogStream over its FixedBuffer: `cur` is the write position. */
  class LogStream {
    const data: array<char>
    var cur: nat

    ghost predicate Valid()
      reads this
    {
      data.Length == SMALL_BUFFER && cur <= data.Length
    }

    ghost function Contents(): string
      requires Valid()
      reads this, data
    {
      data[..cur]
    }

    constructor ()
      ensures Valid() && fresh(data) && Contents() == ""
    {
      data := new char[SMALL_BUFFER];
      cur := 0;
    }

    /** formatInteger on any type up to 64 bits: the whole numeral, or nothing when fewer than 32 bytes are left. */
    method FormatInteger(v: int)
      requires Valid() && -0x8000_0000_0000_0000 <= v < 0x1_0000_0000_0000_0000
      modifies this`cur, data
      ensures Valid()
      ensures Contents() == old(Contents()) + if 4000 - old(cur) >= 32 then Decimal(v) else ""
    {
      if data.Length - cur >= MAX_NUMERIC_SIZE {
        DecimalFits(v);
        ghost var before := data[..cur];
        var len := Convert(data, cur, v);
        assert data[..cur + len] == data[..cur] + data[cur..cur + len];
        assert data[..cur] == before;
        cur := cur + len;
      }
    }

    /** operator<< for pointers. */
    method FormatPointer(v: nat)
      requires Valid() && v < 0x1_0000_0000_0000_0000
      modifies this`cur, data
      ensures Valid()
      ensures Contents() == old(Contents()) + if 4000 - old(cur) >= 32 then "0x" + Hex(v) else ""
    {
      if data.Length - cur >= MAX_NUMERIC_SIZE {
        HexFits(v);
        PutPrefix(data, cur);
        ghost var before := data[..cur + 2];
        var len := ConvertHex(data, cur + 2, v);
        assert data[..cur + 2 + len] == data[..cur + 2] + data[cur + 2..cur + 2 + len];
        assert data[..cur + 2] == before;
        cur := cur + len + 2;
      }
    }
  }
}
