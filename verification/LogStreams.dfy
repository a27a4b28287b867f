/** Integer printing (muduo/base/LogStream.cpp: convert, convertHex, formatInteger) into a fixed buffer
    (muduo/base/LogStream.h: FixedBuffer). */
module LogStreams {
  import opened Common

  const SMALL_BUFFER: nat := 4000
  const MAX_NUMERIC_SIZE: nat := 32

  const MIN_INT64: int := -0x8000_0000_0000_0000
  const MAX_UINT64: int := 0xffff_ffff_ffff_ffff

  // ---- Numerals -------------------------------------------------------------------------------------------

  predicate Base(base: int) { base == 10 || base == 16 }

  function DigitChar(d: nat): char
    requires d < 16
  {
    "0123456789ABCDEF"[d]
  }

  function DigitValue(c: char): int {
    if '0' <= c <= '9' then c as int - '0' as int else c as int - 'A' as int + 10
  }

  /** The numeral of `n`, most significant digit first. */
  function Digits(n: nat, base: nat): (s: string)
    requires Base(base)
    ensures s != ""
  {
    if n < base then [DigitChar(n)] else Digits(n / base, base) + [DigitChar(n % base)]
  }

  function Text(value: int): string {
    if value < 0 then "-" + Digits(-value, 10) else Digits(value, 10)
  }

  function Value(s: string, base: nat): int {
    if s == "" then 0 else Value(s[..|s| - 1], base) * base + DigitValue(s[|s| - 1])
  }

  function ReadInt(s: string): int {
    if s != "" && s[0] == '-' then -Value(s[1..], 10) else Value(s, 10)
  }

  lemma {:induction false} DigitsReadBack(n: nat, base: nat)
    requires Base(base)
    ensures Value(Digits(n, base), base) == n
    ensures Digits(n, base)[0] == '0' <==> n == 0
    ensures n == 0 ==> Digits(n, base) == "0"
    ensures Digits(n, base)[0] != '-'
  {
    if n < base {
      OneDigit(n, base);
      hide *;
    } else {
      Splits(n, base);
      DigitsReadBack(n / base, base);
      var s, d := Digits(n / base, base), DigitChar(n % base);
      assert Digits(n, base) == s + [d];
      ValueSnoc(s, d, base);
      DigitFacts(n % base);
      hide *;
    }
  }

  lemma Splits(n: nat, base: nat)
    requires Base(base) && n >= base
    ensures 0 < n / base < n && n / base * base + n % base == n
  {
    if base == 10 {} else {}
  }

  lemma DigitFacts(d: nat)
    requires d < 16
    ensures DigitValue(DigitChar(d)) == d && (DigitChar(d) == '0' <==> d == 0) && DigitChar(d) != '-'
  {
  }

  lemma ValueSnoc(s: string, c: char, base: nat)
    ensures Value(s + [c], base) == Value(s, base) * base + DigitValue(c)
  {
    assert (s + [c])[..|s|] == s;
  }

  lemma OneDigit(n: nat, base: nat)
    requires Base(base) && n < base
    ensures var s := Digits(n, base);
      Value(s, base) == n && (s[0] == '0' <==> n == 0) && (n == 0 ==> s == "0") && s[0] != '-'
  {
    DigitFacts(n);
    ValueSnoc("", DigitChar(n), base);
    assert "" + [DigitChar(n)] == [DigitChar(n)];
    assert DigitChar(0) == '0';
    hide DigitChar, DigitValue, Value;
    assert Digits(n, base) == [DigitChar(n)];
  }

  /** The text of any number reads back as that number, and has no redundant leading zero. */
  lemma TextReadsBack(value: int)
    ensures ReadInt(Text(value)) == value
    ensures value != 0 ==> Text(value)[if value < 0 then 1 else 0] != '0'
    ensures value == 0 ==> Text(value) == "0"
  {
    if value < 0 {
      DigitsReadBack(-value, 10);
      assert Text(value)[1..] == Digits(-value, 10);
    } else {
      DigitsReadBack(value, 10);
    }
  }

  function Pow(base: nat, k: nat): nat {
    if k == 0 then 1 else base * Pow(base, k - 1)
  }

  lemma {:induction false} DigitsLength(n: nat, base: nat, k: nat)
    requires Base(base) && k > 0 && n < Pow(base, k)
    ensures |Digits(n, base)| <= k
  {
    assert Pow(base, 1) == base * Pow(base, 0);
    if n >= base {
      assert n / base < Pow(base, k - 1);
      DigitsLength(n / base, base, k - 1);
    }
  }

  /** Every integer of at most 64 bits takes at most 20 characters, and a pointer 16 digits. */
  lemma TextFits(value: int)
    requires MIN_INT64 <= value <= MAX_UINT64
    ensures |Text(value)| <= 20
    ensures value >= 0 ==> |Digits(value, 16)| <= 16
  {
    assert Pow(10, 5) == 100000;
    PowAdds(10, 5, 5);
    PowAdds(10, 10, 10);
    PowAdds(10, 1, 19);
    assert Pow(10, 1) == 10 * Pow(10, 0);
    assert Pow(16, 4) == 65536;
    PowAdds(16, 4, 4);
    PowAdds(16, 8, 8);
    if value < 0 {
      DigitsLength(-value, 10, 19);
    } else {
      DigitsLength(value, 10, 20);
      DigitsLength(value, 16, 16);
    }
  }

  lemma {:induction false} PowAdds(base: nat, j: nat, k: nat)
    ensures Pow(base, j + k) == Pow(base, j) * Pow(base, k)
  {
    if j > 0 {
      PowAdds(base, j - 1, k);
      assert Pow(base, j + k) == base * Pow(base, j - 1 + k);
      Associates(base, Pow(base, j - 1), Pow(base, k));
    }
  }

  lemma Associates(x: int, y: int, z: int)
    ensures x * (y * z) == x * y * z
  {
  }

  // ---- convert ----------------------------------------------------------------------------------------------

  function Abs(x: int): nat { if x < 0 then -x else x }

  const DIGITS: string := "9876543210123456789"

  function Reversed(s: string): (r: string)
    ensures |r| == |s|
    ensures forall k | 0 <= k < |s| :: r[k] == s[|s| - 1 - k]
  {
    if s == "" then "" else Reversed(s[1..]) + [s[0]]
  }

  lemma ReversedSnoc(s: string, c: char)
    ensures Reversed(s + [c]) == [c] + Reversed(s)
  {
  }

  /** What the loop has still to write before `done`: the digits of i, unless there are none left. */
  function Pending(i: nat, done: string, base: nat): string
    requires Base(base)
  {
    if i == 0 && done != "" then done else Digits(i, base) + done
  }

  lemma PendingStep(i: nat, done: string, base: nat)
    requires Base(base) && (i != 0 || done == "")
    ensures Pending(i / base, [DigitChar(i % base)] + done, base) == Pending(i, done, base)
  {
    if i >= base {
      assert Digits(i, base) + done == Digits(i / base, base) + ([DigitChar(i % base)] + done);
    }
  }

  lemma PendingEnds(i: nat, base: nat)
    requires Base(base)
    ensures Pending(i, "", base) == Digits(i, base)
  {
    assert Digits(i, base) + "" == Digits(i, base);
  }

  lemma PendingDone(done: string, base: nat)
    requires Base(base) && done != ""
    ensures Pending(0, done, base) == done
  {
  }

  lemma PendingLonger(i: nat, done: string, base: nat)
    requires Base(base) && (i != 0 || done == "")
    ensures |Pending(i, done, base)| > |done|
  {
  }

  lemma TableDigit(i: int, base: nat)
    requires Base(base) && (base == 16 ==> i >= 0)
    ensures var lsd := Rem(i, base);
      && (if base == 10 then -10 < lsd < 10 else 0 <= lsd < 16)
      && Digit(lsd, base) == DigitChar(Abs(i) % base) && Abs(Div(i, base)) == Abs(i) / base
  {
  }

  /** std::reverse. */
  method Reverse(buf: array<char>, first: nat, last: nat)
    requires first <= last <= buf.Length
    modifies buf
    ensures buf[first..last] == Reversed(old(buf[first..last]))
    ensures forall k | 0 <= k < buf.Length && (k < first || last <= k) :: buf[k] == old(buf[k])
  {
    hide Reversed;
    var i: int, j: int := first, last - 1;
    while i < j
      invariant first <= i && j < last && i - first == last - 1 - j && i <= j + 2
      invariant forall k | 0 <= k < buf.Length && (k < first || k >= last || i <= k <= j) :: buf[k] == old(buf[k])
      invariant forall k | first <= k < last && (k < i || j < k) :: buf[k] == old(buf[first + last - 1 - k])
    {
      buf[i], buf[j] := buf[j], buf[i];
      i, j := i + 1, j - 1;
    }
    ghost var was := old(buf[first..last]);
    forall k | 0 <= k < |was| ensures buf[first..last][k] == was[|was| - 1 - k] {
      assert buf[first + k] == old(buf[last - 1 - k]);
    }
  }

  /** The character for a remainder: `zero[lsd]`, whose index may be negative, or `digitsHex[lsd]`. */
  function Digit(lsd: int, base: nat): char
    requires Base(base) && (if base == 10 then -10 < lsd < 10 else 0 <= lsd < 16)
  {
    if base == 10 then DIGITS[9 + lsd] else DigitChar(lsd)
  }

  /** The loop of convert, and that of convertHex: digits of the remainders as they come. */
  method WriteDigits(buf: array<char>, at: nat, value: int, base: nat) returns (p: nat)
    requires Base(base) && (base == 16 ==> value >= 0) && at + |Digits(Abs(value), base)| <= buf.Length
    modifies buf
    ensures p == at + |Digits(Abs(value), base)| && Reversed(buf[at..p]) == Digits(Abs(value), base)
    ensures forall k | 0 <= k < buf.Length && (k < at || p <= k) :: buf[k] == old(buf[k])
  {
    hide Digits, Reversed, DigitChar, Pending;
    var i := value;
    p := at;
    ghost var done, all := "", Digits(Abs(value), base);
    PendingEnds(Abs(value), base);
    assert Reversed(buf[at..at]) == "";
    var again := true;
    while again
      invariant at <= p <= buf.Length && |done| == p - at && done == Reversed(buf[at..p])
      invariant i == 0 || (i < 0 <==> value < 0)
      invariant if again then i != 0 || done == "" else i == 0 && done != ""
      invariant Pending(Abs(i), done, base) == all
      invariant forall k | 0 <= k < buf.Length && (k < at || p <= k) :: buf[k] == old(buf[k])
      decreases again, Abs(i)
    {
      var lsd := Rem(i, base);
      var c := Digit(lsd, base);
      TableDigit(i, base);
      PendingStep(Abs(i), done, base);
      PendingLonger(Abs(i), done, base);
      ReversedSnoc(buf[at..p], c);
      i := Div(i, base);
      buf[p] := c;
      assert buf[at..p + 1] == buf[at..p] + [c];
      p := p + 1;
      done := [c] + done;
      again := i != 0;
    }
    PendingDone(done, base);
  }

  /** The sign, if any, and the terminator behind the digits. */
  method Terminate(buf: array<char>, at: nat, end: nat, negative: bool) returns (p: nat)
    requires at <= end && end + (if negative then 1 else 0) < buf.Length
    modifies buf
    ensures p == end + (if negative then 1 else 0) && buf[p] == '\0'
    ensures buf[at..p] == old(buf[at..end]) + if negative then "-" else ""
    ensures forall k | 0 <= k < buf.Length && (k < at || p < k) :: buf[k] == old(buf[k])
  {
    p := end;
    if negative {
      buf[p] := '-';
      p := p + 1;
    }
    buf[p] := '\0';
  }

  /** convert, for any type T of at most 64 bits: the digits, the sign and the terminator, reversed in
      place up to the terminator. */
  method Convert(buf: array<char>, at: nat, value: int) returns (len: nat)
    requires at + |Text(value)| < buf.Length
    modifies buf
    ensures len == |Text(value)| && buf[at..at + len] == Text(value) && buf[at + len] == '\0'
    ensures forall k | 0 <= k < buf.Length && (k < at || at + len < k) :: buf[k] == old(buf[k])
  {
    hide *;
    TextLength(value);
    var p := WriteDigits(buf, at, value, 10);
    ghost var digits := buf[at..p];
    SignedText(digits, value);
    p := Terminate(buf, at, p, value < 0);
    Reverse(buf, at, p);
    len := p - at;
  }

  lemma TextLength(value: int)
    ensures Base(10) && |Text(value)| == |Digits(Abs(value), 10)| + if value < 0 then 1 else 0
  {
  }

  lemma SignedText(digits: string, value: int)
    requires Reversed(digits) == Digits(Abs(value), 10)
    ensures Reversed(digits + if value < 0 then "-" else "") == Text(value)
  {
    hide Digits, Reversed;
    ReversedSnoc(digits, '-');
    assert digits + "" == digits;
  }

  method ConvertHex(buf: array<char>, at: nat, value: nat) returns (len: nat)
    requires at + |Digits(value, 16)| < buf.Length
    modifies buf
    ensures len == |Digits(value, 16)| && buf[at..at + len] == Digits(value, 16) && buf[at + len] == '\0'
    ensures forall k | 0 <= k < buf.Length && (k < at || at + len < k) :: buf[k] == old(buf[k])
  {
    hide Digits, Reversed;
    var p := WriteDigits(buf, at, value, 16);
    buf[p] := '\0';
    Reverse(buf, at, p);
    len := p - at;
  }

  // ---- The stream ---------------------------------------------------------------------------------------------

  /** LogStream over FixedBuffer<kSmallBuffer>. */
  class LogStream {
    const data: array<char>
    var cur: nat

    ghost predicate Valid()
      reads this
    {
      data.Length == SMALL_BUFFER && cur <= SMALL_BUFFER
    }

    function Contents(): string
      requires Valid()
      reads this, data
    {
      data[..cur]
    }

    function Avail(): int
      reads this
    {
      SMALL_BUFFER - cur
    }

    constructor ()
      ensures Valid() && Contents() == "" && fresh(data)
    {
      data := new char[SMALL_BUFFER];
      cur := 0;
    }

    /** Text that does not leave a byte free is dropped. */
    method Append(s: string)
      requires Valid()
      modifies this, data
      ensures Valid() && Contents() == old(Contents()) + if |s| < old(Avail()) then s else ""
    {
      if Avail() > |s| {
        ghost var before := data[..cur];
        for k := 0 to |s|
          invariant cur == old(cur) && data[..cur] == before && data[cur..cur + k] == s[..k]
        {
          data[cur + k] := s[k];
        }
        assert data[..cur + |s|] == data[..cur] + data[cur..cur + |s|];
        cur := cur + |s|;
      }
    }

    /** formatInteger: the 32 bytes it asks for always hold the text and its terminator. */
    method FormatInteger(v: int)
      requires Valid() && MIN_INT64 <= v <= MAX_UINT64
      modifies this, data
      ensures Valid() && Contents() == old(Contents()) + if old(Avail()) >= MAX_NUMERIC_SIZE then Text(v) else ""
    {
      if Avail() >= MAX_NUMERIC_SIZE {
        TextFits(v);
        hide Text, Digits;
        WriteInteger(v);
      }
    }

    method WriteInteger(v: int)
      requires data.Length == SMALL_BUFFER && cur + |Text(v)| < SMALL_BUFFER
      modifies this, data
      ensures cur <= SMALL_BUFFER && data[..cur] == old(data[..cur]) + Text(v)
    {
      hide Text;
      ghost var before := data[..cur];
      var at := cur;
      var len := Convert(data, at, v);
      cur := at + len;
      assert data[..at] == before;
      assert data[..cur] == data[..at] + data[at..cur];
    }

    /** operator<<(const void*): 0x and the hexadecimal digits. */
    method FormatPointer(v: nat)
      requires Valid() && v <= MAX_UINT64
      modifies this, data
      ensures Valid()
      ensures Contents() ==
        old(Contents()) + if old(Avail()) >= MAX_NUMERIC_SIZE then "0x" + Digits(v, 16) else ""
    {
      if Avail() >= MAX_NUMERIC_SIZE {
        TextFits(v);
        WritePointer(v);
      }
    }

    method WritePointer(v: nat)
      requires data.Length == SMALL_BUFFER && Base(16) && cur + 2 + |Digits(v, 16)| < SMALL_BUFFER
      modifies this, data
      ensures cur <= SMALL_BUFFER && data[..cur] == old(data[..cur]) + ("0x" + Digits(v, 16))
    {
      hide Digits;
      ghost var before := data[..cur];
      data[cur] := '0';
      data[cur + 1] := 'x';
      var at := cur + 2;
      ghost var prefix := before + "0x";
      assert data[..at] == prefix;
      var len := ConvertHex(data, at, v);
      assert data[..at] == prefix;
      cur := at + len;
      assert data[..cur] == data[..at] + data[at..cur];
      assert before + ("0x" + data[at..cur]) == prefix + data[at..cur];
    }
  }
}
