/** The string functions the program uses from its standard library, on strings as sequences of characters. */
module Text {
  import opened Wrappers

  // ----- Split and Join on a one-character separator -----

  function Split(s: string, sep: char): (parts: seq<string>)
    ensures |parts| >= 1
  {
    if s == "" then [""]
    else
      var rest := Split(s[1..], sep);
      if s[0] == sep then [""] + rest else [[s[0]] + rest[0]] + rest[1..]
  }

  function Join(parts: seq<string>, sep: char): string
    requires |parts| >= 1
  {
    if |parts| == 1 then parts[0] else parts[0] + [sep] + Join(parts[1..], sep)
  }

  lemma {:induction false} JoinOfSplit(s: string, sep: char)
    ensures Join(Split(s, sep), sep) == s
  {
    if s != "" {
      var rest := Split(s[1..], sep);
      JoinOfSplit(s[1..], sep);
      if s[0] == sep {
        assert ([""] + rest)[1..] == rest;
        assert s == [s[0]] + s[1..];
      } else {
        var parts := [[s[0]] + rest[0]] + rest[1..];
        assert Split(s, sep) == parts && parts[0] == [s[0]] + rest[0] && parts[1..] == rest[1..];
        assert Join(parts, sep) == [s[0]] + Join(rest, sep);
      }
    }
  }

  lemma {:induction false} SplitOne(s: string, sep: char)
    requires sep !in s
    ensures Split(s, sep) == [s]
  {
    if s != "" {
      SplitOne(s[1..], sep);
      assert [s[0]] + s[1..] == s;
    }
  }

  lemma {:induction false} SplitFirst(head: string, tail: string, sep: char)
    requires sep !in head
    ensures Split(head + [sep] + tail, sep) == [head] + Split(tail, sep)
  {
    var s := head + [sep] + tail;
    if head == "" {
      assert s[1..] == tail;
    } else {
      SplitFirst(head[1..], tail, sep);
      assert s[1..] == head[1..] + [sep] + tail;
      assert [head[0]] + head[1..] == head;
    }
  }

  // SplitN with at most two pieces.
  function SplitTwo(s: string, sep: char): (parts: seq<string>)
    ensures 1 <= |parts| <= 2
  {
    if s == "" then [""]
    else if s[0] == sep then ["", s[1..]]
    else
      var rest := SplitTwo(s[1..], sep);
      [[s[0]] + rest[0]] + rest[1..]
  }

  lemma {:induction false} SplitTwoWithout(s: string, sep: char)
    requires sep !in s
    ensures SplitTwo(s, sep) == [s]
  {
    if s != "" {
      SplitTwoWithout(s[1..], sep);
      assert [s[0]] + s[1..] == s;
    }
  }

  lemma {:induction false} SplitTwoAt(head: string, tail: string, sep: char)
    requires sep !in head
    ensures SplitTwo(head + [sep] + tail, sep) == [head, tail]
  {
    var s := head + [sep] + tail;
    if head == "" {
      assert s[1..] == tail;
    } else {
      SplitTwoAt(head[1..], tail, sep);
      assert s[1..] == head[1..] + [sep] + tail;
      assert [head[0]] + head[1..] == head;
    }
  }

  /** Two pieces are what stands before and after the first separator, and one piece is a string without any. */
  lemma {:induction false} SplitTwoIff(s: string, sep: char)
    ensures |SplitTwo(s, sep)| == 2 <==> sep in s
    ensures var parts := SplitTwo(s, sep); sep in s ==> s == parts[0] + [sep] + parts[1] && sep !in parts[0]
  {
    if s != "" {
      SplitTwoIff(s[1..], sep);
      assert s == [s[0]] + s[1..];
    }
  }

  // ----- Trimming -----

  predicate IsSpace(c: char) {
    c == ' ' || '\U{9}' <= c <= '\U{d}' || c == '\U{85}' || c == '\U{a0}'
  }

  predicate AllSpace(s: string) {
    forall i :: 0 <= i < |s| ==> IsSpace(s[i])
  }

  function TrimLeft(s: string): string {
    if s != "" && IsSpace(s[0]) then TrimLeft(s[1..]) else s
  }

  function TrimRight(s: string): string {
    if s != "" && IsSpace(s[|s| - 1]) then TrimRight(s[..|s| - 1]) else s
  }

  function TrimSpace(s: string): string {
    TrimRight(TrimLeft(s))
  }

  lemma {:induction false} TrimLeftDrops(s: string)
    ensures |TrimLeft(s)| <= |s| && TrimLeft(s) == s[|s| - |TrimLeft(s)|..]
    ensures AllSpace(s[..|s| - |TrimLeft(s)|])
    ensures TrimLeft(s) != "" ==> !IsSpace(TrimLeft(s)[0])
  {
    if s != "" && IsSpace(s[0]) {
      TrimLeftDrops(s[1..]);
      var n := |s| - |TrimLeft(s)|;
      assert s[..n] == [s[0]] + s[1..][..n - 1];
    }
  }

  lemma {:induction false} TrimRightDrops(s: string)
    ensures |TrimRight(s)| <= |s| && TrimRight(s) == s[..|TrimRight(s)|]
    ensures AllSpace(s[|TrimRight(s)|..])
    ensures TrimRight(s) != "" ==> !IsSpace(TrimRight(s)[|TrimRight(s)| - 1])
  {
    if s != "" && IsSpace(s[|s| - 1]) {
      var n := |TrimRight(s)|;
      TrimRightDrops(s[..|s| - 1]);
      assert s[n..] == s[..|s| - 1][n..] + [s[|s| - 1]];
    }
  }

  /** Trimming takes away white space only, at both ends only, and all of it. */
  lemma TrimSpaceTrims(s: string)
    ensures exists left, right :: s == left + TrimSpace(s) + right && AllSpace(left) && AllSpace(right)
    ensures TrimSpace(s) != "" ==> !IsSpace(TrimSpace(s)[0]) && !IsSpace(TrimSpace(s)[|TrimSpace(s)| - 1])
  {
    var t, tail := TrimSpace(s), TrimLeft(s);
    TrimLeftDrops(s);
    TrimRightDrops(tail);
    var left, right := s[..|s| - |tail|], tail[|t|..];
    assert s == left + t + right && AllSpace(left) && AllSpace(right);
    assert t != "" ==> t[0] == tail[0];
  }

  // ----- Case -----

  function Lower(c: char): char {
    if 'A' <= c <= 'Z' then c - 'A' + 'a' else c
  }

  function ToLower(s: string): string {
    if s == "" then "" else [Lower(s[0])] + ToLower(s[1..])
  }

  /** Lower-casing keeps every character but the capitals, each of which becomes its small letter. */
  lemma {:induction false} ToLowerAt(s: string, i: nat)
    requires i < |s|
    ensures |ToLower(s)| == |s|
    ensures 'A' <= s[i] <= 'Z' ==> 'a' <= ToLower(s)[i] <= 'z' && ToLower(s)[i] - 'a' == s[i] - 'A'
    ensures !('A' <= s[i] <= 'Z') ==> ToLower(s)[i] == s[i]
  {
    if |s| > 1 {
      ToLowerAt(s[1..], if i == 0 then 0 else i - 1);
    }
  }

  lemma {:induction false} LowerOfLower(s: string)
    requires forall i :: 0 <= i < |s| ==> !('A' <= s[i] <= 'Z')
    ensures ToLower(s) == s
  {
    if s != "" {
      LowerOfLower(s[1..]);
      assert s == [s[0]] + s[1..];
    }
  }

  // ----- 64-bit integers and decimals -----

  const TWO_64 := 0x1_0000_0000_0000_0000
  const MAX_INT64 := 0x7fff_ffff_ffff_ffff
  const MIN_INT64 := -0x8000_0000_0000_0000

  predicate IsInt64(x: int) {
    MIN_INT64 <= x <= MAX_INT64
  }

  // The value two's complement arithmetic keeps.
  function Wrap64(x: int): (w: int)
    ensures IsInt64(w) && (w - x) % TWO_64 == 0
    ensures IsInt64(x) ==> w == x
  {
    (x - MIN_INT64) % TWO_64 + MIN_INT64
  }

  predicate IsDigit(c: char) {
    '0' <= c <= '9'
  }

  function DigitChar(d: nat): char
    requires d < 10
  {
    '0' + d as char
  }

  function DigitValue(c: char): nat
    requires IsDigit(c)
  {
    (c - '0') as int
  }

  function FormatNat(n: nat): (s: string)
    ensures |s| >= 1 && forall i :: 0 <= i < |s| ==> IsDigit(s[i])
  {
    if n < 10 then [DigitChar(n)] else FormatNat(n / 10) + [DigitChar(n % 10)]
  }

  function FormatInt(x: int): string {
    if x < 0 then "-" + FormatNat(-x) else FormatNat(x)
  }

  predicate AllDigits(s: string) {
    |s| >= 1 && forall i :: 0 <= i < |s| ==> IsDigit(s[i])
  }

  function NatOf(s: string): nat
    requires forall i :: 0 <= i < |s| ==> IsDigit(s[i])
  {
    if s == "" then 0 else 10 * NatOf(s[..|s| - 1]) + DigitValue(s[|s| - 1])
  }

  datatype Parsed = Syntax | Range(limit: int) | Value(value: int)

  // ParseInt in base 10 and 64 bits: a sign, then digits; a value out of range yields the nearer limit.
  function ParseInt(s: string): Parsed {
    var negative := s != "" && s[0] == '-';
    var digits := if s != "" && (s[0] == '-' || s[0] == '+') then s[1..] else s;
    if !AllDigits(digits) then Syntax
    else
      var magnitude: int := NatOf(digits);
      var x: int := if negative then -magnitude else magnitude;
      if x > MAX_INT64 then Range(MAX_INT64) else if x < MIN_INT64 then Range(MIN_INT64) else Value(x)
  }

  // The integer that comes back when the error is ignored.
  function ParsedOrZero(p: Parsed): int {
    match p
    case Syntax => 0
    case Range(limit) => limit
    case Value(value) => value
  }

  lemma {:induction false} FirstDigit(n: nat)
    ensures n > 0 ==> FormatNat(n)[0] != '0'
    ensures n < 10 ==> |FormatNat(n)| == 1
  {
    if n >= 10 {
      FirstDigit(n / 10);
    }
  }

  /** An integer is printed without leading zeros, and with a sign only if it is negative. */
  lemma FormatIntIsShort(x: int)
    ensures FormatInt(x)[0] == '-' <==> x < 0
    ensures FormatInt(x)[0] == '0' ==> FormatInt(x) == "0"
    ensures x < 0 ==> FormatInt(x)[1] != '0'
  {
    if x < 0 {
      FirstDigit(-x);
    } else {
      FirstDigit(x);
      assert x == 0 ==> FormatNat(x) == [DigitChar(0)];
    }
  }

  lemma {:induction false} NatRoundTrip(n: nat)
    ensures NatOf(FormatNat(n)) == n
  {
    if n < 10 {
      assert FormatNat(n)[..0] == "";
    } else {
      NatRoundTrip(n / 10);
      var s := FormatNat(n);
      assert s[..|s| - 1] == FormatNat(n / 10);
    }
  }

  lemma NaturalRoundTrip(n: nat)
    requires n <= MAX_INT64
    ensures ParseInt(FormatNat(n)) == Value(n)
  {
    NatRoundTrip(n);
    assert IsDigit(FormatNat(n)[0]);
  }

  lemma NegativeRoundTrip(n: nat, x: int)
    requires MIN_INT64 <= x && x + n == 0
    ensures ParseInt("-" + FormatNat(n)) == Value(x)
  {
    NatRoundTrip(n);
    assert ("-" + FormatNat(n))[1..] == FormatNat(n);
  }

  /** A sign is optional, leading zeros count for nothing, and a number too large becomes the nearer limit. */
  lemma ParseIntOfDigits(digits: string, x: int)
    requires AllDigits(digits) && NatOf(digits) == x
    ensures ParseInt(digits) == (if x < 0x8000_0000_0000_0000 then Value(x) else Range(0x7fff_ffff_ffff_ffff))
    ensures ParseInt("+" + digits) == ParseInt(digits)
    ensures ParseInt("-" + digits) ==
      if x <= 0x8000_0000_0000_0000 then Value(-x) else Range(-0x8000_0000_0000_0000)
    ensures AllDigits("0" + digits) && NatOf("0" + digits) == x
  {
    assert IsDigit(digits[0]);
    assert ("+" + digits)[1..] == digits && ("-" + digits)[1..] == digits;
    ZeroFirst(digits);
  }

  lemma {:induction false} ZeroFirst(digits: string)
    requires forall i :: 0 <= i < |digits| ==> IsDigit(digits[i])
    ensures AllDigits("0" + digits) && NatOf("0" + digits) == NatOf(digits)
  {
    var s := "0" + digits;
    if digits == "" {
      assert s[..0] == "";
    } else {
      ZeroFirst(digits[..|digits| - 1]);
      assert s[..|s| - 1] == "0" + digits[..|digits| - 1];
    }
  }

  /** Printing an int64 and parsing it back gives the number again. */
  lemma DecimalRoundTrip(x: int)
    requires IsInt64(x)
    ensures ParseInt(FormatInt(x)) == Value(x)
  {
    if x < 0 {
      NegativeRoundTrip(-x, x);
    } else {
      NaturalRoundTrip(x);
    }
  }

  // ----- Hexadecimal -----

  newtype byte = x: int | 0 <= x < 256

  function HexChar(d: nat): char
    requires d < 16
  {
    if d < 10 then '0' + d as char else 'a' + (d - 10) as char
  }

  function HexValue(c: char): Option<nat> {
    if '0' <= c <= '9' then Some((c - '0') as int)
    else if 'a' <= c <= 'f' then Some((c - 'a') as int + 10)
    else if 'A' <= c <= 'F' then Some((c - 'A') as int + 10)
    else None
  }

  function EncodeHex(bytes: seq<byte>): string {
    if bytes == [] then ""
    else [HexChar(bytes[0] as int / 16), HexChar(bytes[0] as int % 16)] + EncodeHex(bytes[1..])
  }

  // Decoding accepts both cases and refuses anything else, an odd length included.
  function DecodeHex(s: string): Option<seq<byte>> {
    if s == "" then Some([])
    else if |s| == 1 then None
    else
      var high, low, rest := HexValue(s[0]), HexValue(s[1]), DecodeHex(s[2..]);
      if high.None? || low.None? || rest.None? || high.value >= 16 || low.value >= 16 then None
      else Some([(16 * high.value + low.value) as byte] + rest.value)
  }

  lemma {:induction false} HexRoundTrip(bytes: seq<byte>)
    ensures DecodeHex(EncodeHex(bytes)) == Some(bytes)
    ensures forall i :: 0 <= i < |EncodeHex(bytes)| ==> HexValue(EncodeHex(bytes)[i]).Some?
    ensures |EncodeHex(bytes)| == 2 * |bytes|
  {
    if bytes != [] {
      HexRoundTrip(bytes[1..]);
      var s := EncodeHex(bytes);
      assert s[2..] == EncodeHex(bytes[1..]);
      assert bytes == [bytes[0]] + bytes[1..];
    }
  }

  predicate IsHexDigit(c: char) {
    '0' <= c <= '9' || 'a' <= c <= 'f' || 'A' <= c <= 'F'
  }

  lemma HexValueIff(c: char)
    ensures HexValue(c).Some? <==> IsHexDigit(c)
    ensures HexValue(c).Some? ==> HexValue(c).value < 16
    ensures HexValue(Lower(c)) == HexValue(c)
  {
    if 'A' <= c <= 'F' {
      assert Lower(c) == c - 'A' + 'a';
    }
  }

  /** Exactly the strings of pairs of hexadecimal digits decode, and their case does not matter. */
  lemma {:induction false} DecodeHexIff(s: string)
    ensures DecodeHex(s).Some? <==> |s| % 2 == 0 && forall i :: 0 <= i < |s| ==> IsHexDigit(s[i])
    ensures DecodeHex(ToLower(s)) == DecodeHex(s)
  {
    if |s| >= 2 {
      var high, low, rest := s[0], s[1], s[2..];
      HexValueIff(high);
      HexValueIff(low);
      DecodeHexIff(rest);
      assert s == [high, low] + rest;
      assert s[1..] == [low] + rest && s[1..][1..] == rest;
      assert ToLower(s) == [Lower(high), Lower(low)] + ToLower(rest);
      assert ToLower(s)[2..] == ToLower(rest);
    }
  }
}
