/** UTF-8, as `str::bytes` writes it and `std::str::from_utf8` reads it (RFC 3629). */
module Utf8 {
  import opened Wrappers

  function EncodeChar(c: char): (b: Bytes)
    ensures 1 <= |b| <= 4
    ensures (c as int) < 128 <==> b[0] < 128
    ensures (c as int) < 128 ==> b == [c as int as byte]
    ensures (c as int) >= 128 ==> forall i :: 0 <= i < |b| ==> b[i] >= 128
  {
    var n := c as int;
    var m := n / 64;
    if n < 0x80 then [n as byte]
    else if n < 0x800 then [(0xC0 + m) as byte, Low(n)]
    else if n < 0x1_0000 then [(0xE0 + m / 64) as byte, Low(m), Low(n)]
    else [(0xF0 + m / 64 / 64) as byte, Low(m / 64), Low(m), Low(n)]
  }

  /** A continuation byte: the low six bits. */
  function Low(n: int): (x: byte)
    ensures Tail(x)
  {
    (0x80 + n % 64) as byte
  }

  function Encode(s: string): Bytes
  {
    if s == [] then [] else EncodeChar(s[0]) + Encode(s[1..])
  }

  predicate Tail(x: byte) { 0x80 <= x < 0xC0 }

  predicate Scalar(n: int) { 0 <= n < 0xD800 || 0xE000 <= n < 0x11_0000 }

  /** Six more bits. */
  function Shift(n: int, x: byte): int { n * 64 + (x as int - 0x80) }

  function Checked(n: int, least: int, len: nat): (r: Option<(char, nat)>)
    requires 0 <= least
    ensures r.Some? <==> n >= least && Scalar(n)
    ensures r.Some? ==> r.value.0 as int == n && r.value.1 == len
  {
    if n >= least && Scalar(n) then Some((n as char, len)) else None
  }

  /** The first character of `b` and how many bytes it takes; overlong forms and surrogates are refused. */
  function DecodeChar(b: Bytes): (r: Option<(char, nat)>)
    ensures r.Some? ==> 1 <= r.value.1 <= |b| && r.value.1 <= 4
  {
    if b == [] then None
    else if b[0] < 0x80 then Some((b[0] as int as char, 1))
    else if 0xC0 <= b[0] < 0xE0 && |b| >= 2 && Tail(b[1]) then
      Checked(Shift(b[0] as int - 0xC0, b[1]), 0x80, 2)
    else if 0xE0 <= b[0] < 0xF0 && |b| >= 3 && Tail(b[1]) && Tail(b[2]) then
      Checked(Shift(Shift(b[0] as int - 0xE0, b[1]), b[2]), 0x800, 3)
    else if 0xF0 <= b[0] < 0xF8 && |b| >= 4 && Tail(b[1]) && Tail(b[2]) && Tail(b[3]) then
      Checked(Shift(Shift(Shift(b[0] as int - 0xF0, b[1]), b[2]), b[3]), 0x1_0000, 4)
    else None
  }

  function Decode(b: Bytes): Option<string>
  {
    if b == [] then Some("")
    else
      var c := DecodeChar(b);
      if c.None? then None
      else
        var rest := Decode(b[c.value.1..]);
        if rest.Some? then Some([c.value.0] + rest.value) else None
  }

  lemma ShiftLow(n: int)
    requires 0 <= n
    ensures Shift(n / 64, Low(n)) == n
  {
  }

  lemma LowShift(n: int, x: byte)
    requires 0 <= n && Tail(x)
    ensures Shift(n, x) / 64 == n && Low(Shift(n, x)) == x
  {
  }

  lemma TwoRead(b: Bytes, n: int, rest: Bytes)
    requires 0x80 <= n < 0x800 && b == [(0xC0 + n / 64) as byte, Low(n)]
    ensures DecodeChar(b + rest) == Checked(n, 0x80, 2)
  {
    ShiftLow(n);
  }

  lemma ThreeRead(b: Bytes, n: int, rest: Bytes)
    requires 0x800 <= n < 0x1_0000 && b == [(0xE0 + n / 64 / 64) as byte, Low(n / 64), Low(n)]
    ensures DecodeChar(b + rest) == Checked(n, 0x800, 3)
  {
    ShiftLow(n);
    ShiftLow(n / 64);
  }

  lemma FourRead(b: Bytes, n: int, rest: Bytes)
    requires 0x1_0000 <= n < 0x11_0000
    requires b == [(0xF0 + n / 64 / 64 / 64) as byte, Low(n / 64 / 64), Low(n / 64), Low(n)]
    ensures DecodeChar(b + rest) == Checked(n, 0x1_0000, 4)
  {
    ShiftLow(n);
    ShiftLow(n / 64);
    ShiftLow(n / 64 / 64);
  }

  lemma CharRoundTrip(c: char, rest: Bytes)
    ensures DecodeChar(EncodeChar(c) + rest) == Some((c, |EncodeChar(c)|))
  {
    var n, b := c as int, EncodeChar(c);
    if 0x80 <= n < 0x800 {
      TwoRead(b, n, rest);
    } else if 0x800 <= n < 0x1_0000 {
      ThreeRead(b, n, rest);
    } else if 0x1_0000 <= n {
      FourRead(b, n, rest);
    }
  }

  /** Every string survives encoding and decoding. */
  lemma {:induction false} RoundTrip(s: string)
    ensures Decode(Encode(s)) == Some(s)
  {
    if s != [] {
      CharRoundTrip(s[0], Encode(s[1..]));
      assert Encode(s)[|EncodeChar(s[0])|..] == Encode(s[1..]);
      RoundTrip(s[1..]);
      assert s == [s[0]] + s[1..];
    }
  }

  lemma TwoBytes(c: char, n: int, x: byte)
    requires c as int == Shift(n, x) && 0 <= n < 0x20 && Tail(x) && c as int >= 0x80
    ensures EncodeChar(c) == [(0xC0 + n) as byte, x]
  {
    LowShift(n, x);
  }

  lemma ThreeBytes(c: char, n: int, x: byte, y: byte)
    requires c as int == Shift(Shift(n, x), y) && 0 <= n < 0x10 && Tail(x) && Tail(y) && c as int >= 0x800
    ensures EncodeChar(c) == [(0xE0 + n) as byte, x, y]
  {
    LowShift(Shift(n, x), y);
    LowShift(n, x);
  }

  lemma FourBytes(c: char, n: int, x: byte, y: byte, z: byte)
    requires c as int == Shift(Shift(Shift(n, x), y), z) && 0 <= n < 8 && Tail(x) && Tail(y) && Tail(z)
    requires c as int >= 0x1_0000
    ensures EncodeChar(c) == [(0xF0 + n) as byte, x, y, z]
  {
    LowShift(Shift(Shift(n, x), y), z);
    LowShift(Shift(n, x), y);
    LowShift(n, x);
  }

  lemma CharUnique(b: Bytes)
    requires DecodeChar(b).Some?
    ensures EncodeChar(DecodeChar(b).value.0) == b[..DecodeChar(b).value.1]
  {
    var (c, len) := DecodeChar(b).value;
    if len == 2 {
      TwoBytes(c, b[0] as int - 0xC0, b[1]);
    } else if len == 3 {
      ThreeBytes(c, b[0] as int - 0xE0, b[1], b[2]);
    } else if len == 4 {
      FourBytes(c, b[0] as int - 0xF0, b[1], b[2], b[3]);
    }
  }

  /** A byte string decodes in one way only: what decodes is the encoding of the result. */
  lemma {:induction false} DecodeUnique(b: Bytes)
    requires Decode(b).Some?
    ensures Encode(Decode(b).value) == b
  {
    if b != [] {
      var (c, n) := DecodeChar(b).value;
      CharUnique(b);
      DecodeUnique(b[n..]);
      EncodesBack(b, c, n, Decode(b[n..]).value);
    }
  }

  lemma EncodesBack(b: Bytes, c: char, n: nat, rest: string)
    requires n <= |b| && EncodeChar(c) == b[..n] && Encode(rest) == b[n..]
    ensures Encode([c] + rest) == b
  {
    assert ([c] + rest)[1..] == rest && b == b[..n] + b[n..];
  }
}
