/** UTF-8 (RFC 3629, section 3) and hexadecimal text. */
module D1Utf8 {
  import opened Wrappers

  type Byte = b: int | 0 <= b < 256

  /** What UTF-8 can carry: every code point but the surrogates. */
  predicate Scalar(n: int) { 0 <= n < 0xD800 || 0xE000 <= n <= 0x10FFFF }

  predicate Scalars(points: seq<int>) { forall i :: 0 <= i < |points| ==> Scalar(points[i]) }

  function EncodeOne(n: int): (bytes: seq<Byte>)
    requires Scalar(n)
    ensures 1 <= |bytes| <= 4
  {
    if n < 0x80 then [n]
    else if n < 0x800 then [0xC0 + n / 64, 0x80 + n % 64]
    else if n < 0x10000 then [0xE0 + n / 64 / 64, 0x80 + n / 64 % 64, 0x80 + n % 64]
    else [0xF0 + n / 64 / 64 / 64, 0x80 + n / 64 / 64 % 64, 0x80 + n / 64 % 64, 0x80 + n % 64]
  }

  function Encode(points: seq<int>): seq<Byte>
    requires Scalars(points)
  {
    if points == [] then [] else EncodeOne(points[0]) + Encode(points[1..])
  }

  predicate Tail(b: Byte) { 0x80 <= b < 0xC0 }

  /** Six more bits, from a continuation byte. */
  function Widen(high: int, b: Byte): (n: int)
    requires Tail(b) && high >= 0
    ensures n / 64 == high && 0x80 + n % 64 == b
  {
    var low: int := b;
    high * 64 + low - 0x80
  }

  /** The code point a byte string starts with; overlong forms and surrogates are refused. */
  function DecodeOne(s: seq<Byte>): (r: Option<(int, nat)>)
    ensures r.Some? ==> Scalar(r.value.0) && 1 <= r.value.1 <= |s|
    ensures r.Some? ==> EncodeOne(r.value.0) == s[..r.value.1]
  {
    if s == [] then None
    else
      var first: int := s[0];
      if first < 0x80 then Some((first, 1))
      else if 0xC2 <= first < 0xE0 && |s| >= 2 && Tail(s[1]) then Some((Widen(first - 0xC0, s[1]), 2))
      else if 0xE0 <= first < 0xF0 && |s| >= 3 && Tail(s[1]) && Tail(s[2]) then
        var n := Widen(Widen(first - 0xE0, s[1]), s[2]);
        if n >= 0x800 && Scalar(n) then Some((n, 3)) else None
      else if 0xF0 <= first < 0xF5 && |s| >= 4 && Tail(s[1]) && Tail(s[2]) && Tail(s[3]) then
        var n := Widen(Widen(Widen(first - 0xF0, s[1]), s[2]), s[3]);
        if n >= 0x10000 && Scalar(n) then Some((n, 4)) else None
      else None
  }

  function Decode(s: seq<Byte>): Option<seq<int>> {
    if s == [] then Some([])
    else
      match DecodeOne(s)
      case None => None
      case Some((n, used)) =>
        match Decode(s[used..])
        case None => None
        case Some(rest) => Some([n] + rest)
  }

  lemma JoinSplits(n: int)
    requires n >= 0
    ensures Tail(0x80 + n % 64) && Widen(n / 64, 0x80 + n % 64) == n
  {
  }

  lemma DecodeOneEncoded(n: int, rest: seq<Byte>)
    requires Scalar(n)
    ensures DecodeOne(EncodeOne(n) + rest) == Some((n, |EncodeOne(n)|))
  {
    hide Widen;
    var s := EncodeOne(n) + rest;
    if n >= 0x80 {
      JoinSplits(n);
      if n >= 0x800 {
        JoinSplits(n / 64);
        if n >= 0x10000 {
          JoinSplits(n / 64 / 64);
          assert s[..4] == EncodeOne(n);
        } else {
          assert s[..3] == EncodeOne(n);
        }
      } else {
        assert s[..2] == EncodeOne(n);
      }
    }
  }

  lemma {:induction false} EncodedDecodes(points: seq<int>)
    requires Scalars(points)
    ensures Decode(Encode(points)) == Some(points)
  {
    hide DecodeOne, EncodeOne, Scalar;
    if points != [] {
      var one, rest := EncodeOne(points[0]), Encode(points[1..]);
      DecodeOneEncoded(points[0], rest);
      assert (one + rest)[|one|..] == rest;
      EncodedDecodes(points[1..]);
      assert points == [points[0]] + points[1..];
    }
  }

  lemma {:induction false} DecodedEncodes(s: seq<Byte>)
    requires Decode(s).Some?
    ensures Scalars(Decode(s).value) && Encode(Decode(s).value) == s
  {
    hide DecodeOne, EncodeOne, Scalar;
    if s != [] {
      var (n, used) := DecodeOne(s).value;
      DecodedEncodes(s[used..]);
      var points := Decode(s).value;
      assert points[1..] == Decode(s[used..]).value;
      assert s == s[..used] + s[used..];
      forall i | 0 <= i < |points| ensures Scalar(points[i]) {
        if i > 0 {
          assert points[i] == points[1..][i - 1];
        }
      }
    }
  }

  /** Decoding is the exact inverse of encoding: it accepts nothing else. */
  lemma Utf8RoundTrip(points: seq<int>, s: seq<Byte>)
    ensures Scalars(points) && Encode(points) == s <==> Decode(s) == Some(points)
  {
    hide Decode, Encode, Scalars;
    if Scalars(points) {
      EncodedDecodes(points);
    }
    if Decode(s).Some? {
      DecodedEncodes(s);
    }
  }

  // ---- hexadecimal -----------------------------------------------------------------------

  const HEX := "0123456789abcdef"

  /** The value of one hexadecimal digit of either case. */
  function DigitValue(c: char): (v: Option<int>)
    ensures v.Some? ==> 0 <= v.value < 16
  {
    if '0' <= c <= '9' then Some(c as int - '0' as int)
    else if 'a' <= c <= 'f' then Some(c as int - 'a' as int + 10)
    else if 'A' <= c <= 'F' then Some(c as int - 'A' as int + 10)
    else None
  }

  predicate AllHex(s: string) { forall i :: 0 <= i < |s| ==> DigitValue(s[i]).Some? }

  function Hex(bytes: seq<Byte>): string {
    if bytes == [] then "" else HexPair(bytes[0]) + Hex(bytes[1..])
  }

  /** The bytes of an SQL blob literal. */
  function Unhex(s: string): Option<seq<Byte>> {
    if s == "" then Some([])
    else if |s| == 1 then None
    else
      match (DigitValue(s[0]), DigitValue(s[1]), Unhex(s[2..]))
      case (Some(high), Some(low), Some(rest)) => Some([high * 16 + low] + rest)
      case _ => None
  }

  lemma DigitRoundTrip(n: int)
    requires 0 <= n < 16
    ensures DigitValue(HEX[n]) == Some(n)
  {
  }

  function HexPair(b: Byte): string { [HEX[b / 16], HEX[b % 16]] }

  lemma PairRoundTrip(b: Byte)
    ensures DigitValue(HexPair(b)[0]) == Some(b / 16) && DigitValue(HexPair(b)[1]) == Some(b % 16)
    ensures '\n' !in HexPair(b)
  {
    DigitRoundTrip(b / 16);
    DigitRoundTrip(b % 16);
  }

  lemma {:induction false} HexIsOneLine(bytes: seq<Byte>)
    ensures '\n' !in Hex(bytes)
  {
    if bytes != [] {
      HexIsOneLine(bytes[1..]);
      PairRoundTrip(bytes[0]);
    }
  }

  lemma {:induction false} HexRoundTrip(bytes: seq<Byte>)
    ensures Unhex(Hex(bytes)) == Some(bytes) && '\n' !in Hex(bytes)
  {
    HexIsOneLine(bytes);
    if bytes != [] {
      hide HexPair, DigitValue;
      HexRoundTrip(bytes[1..]);
      PairRoundTrip(bytes[0]);
      assert Hex(bytes)[2..] == Hex(bytes[1..]);
      assert bytes == [bytes[0]] + bytes[1..];
    }
  }

  /** The number a run of hexadecimal digits writes. */
  function Number(digits: string): (n: int)
    requires AllHex(digits)
    ensures n >= 0
  {
    if digits == "" then 0
    else 16 * Number(digits[..|digits| - 1]) + DigitValue(digits[|digits| - 1]).value
  }

  /** A number written with a fixed count of digits. */
  function Fixed(n: nat, width: nat): (s: string)
    ensures |s| == width
  {
    if width == 0 then "" else Fixed(n / 16, width - 1) + [HEX[n % 16]]
  }

  function Power16(k: nat): nat { if k == 0 then 1 else 16 * Power16(k - 1) }

  lemma {:induction false} FixedRoundTrip(n: nat, width: nat)
    requires n < Power16(width)
    ensures AllHex(Fixed(n, width)) && Number(Fixed(n, width)) == n
  {
    if width > 0 {
      FixedRoundTrip(n / 16, width - 1);
      DigitRoundTrip(n % 16);
      var s := Fixed(n, width);
      assert s[..width - 1] == Fixed(n / 16, width - 1);
    }
  }
}
