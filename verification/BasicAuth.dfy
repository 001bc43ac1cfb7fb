/**
 * HTTP Basic credentials: `base64_encode` on the way out, `decode_auth_field` on the way
 * in (section 4 of RFC 4648, section 2 of RFC 7617).
 */
module BasicAuth {
  import opened Wrappers
  import opened Text
  import Utf8

  /** The standard alphabet: A-Z, a-z, 0-9, then '+' and '/'. */
  function Symbol(n: int): char
    requires 0 <= n < 64
  {
    if n < 26 then (65 + n) as char
    else if n < 52 then (71 + n) as char
    else if n < 62 then (n - 4) as char
    else if n == 62 then '+'
    else '/'
  }

  /** The alphabet of table 1 of RFC 4648. */
  lemma Alphabet(n: int)
    requires 0 <= n < 64
    ensures Symbol(n) ==
      if n < 26 then "ABCDEFGHIJKLMNOPQRSTUVWXYZ"[n]
      else if n < 52 then "abcdefghijklmnopqrstuvwxyz"[n - 26]
      else "0123456789+/"[n - 52]
  {
  }

  /** The value of a base64 symbol, by ranges of the alphabet. */
  function Value(c: char): Option<int>
  {
    if IsUpper(c) then Some(c as int - 65)
    else if IsLower(c) then Some(c as int - 71)
    else if IsDigit(c) then Some(c as int + 4)
    else if c == '+' then Some(62)
    else if c == '/' then Some(63)
    else None
  }

  /** Byte `i` of a group, zero past its end. */
  function At(chunk: Bytes, i: nat): (b: int)
    ensures 0 <= b < 256
  {
    if i < |chunk| then chunk[i] as int else 0
  }

  /** The printed text of up to three bytes. */
  function Quad(chunk: Bytes): (q: string)
    requires 1 <= |chunk| <= 3
    ensures |q| == 4
  {
    var b0, b1, b2 := At(chunk, 0), At(chunk, 1), At(chunk, 2);
    [Symbol(b0 / 4), Symbol(b0 % 4 * 16 + b1 / 16),
     if |chunk| > 1 then Symbol(b1 % 16 * 4 + b2 / 64) else '=',
     if |chunk| > 2 then Symbol(b2 % 64) else '=']
  }

  function Base64(b: Bytes): string
  {
    if b == [] then "" else if |b| <= 3 then Quad(b) else Quad(b[..3]) + Base64(b[3..])
  }

  /** Padded base64 is four characters for every three bytes or part of them. */
  lemma {:induction false} Base64Length(b: Bytes)
    ensures |Base64(b)| == 4 * ((|b| + 2) / 3)
  {
    if |b| > 3 {
      Base64Length(b[3..]);
      assert (|b| + 2) / 3 == (|b[3..]| + 2) / 3 + 1;
    }
  }

  lemma {:induction false} Base64Append(a: Bytes, chunk: Bytes)
    requires |a| % 3 == 0 && 1 <= |chunk| <= 3
    ensures Base64(a + chunk) == Base64(a) + Quad(chunk)
  {
    if a == [] {
      assert a + chunk == chunk;
    } else {
      assert (a + chunk)[..3] == a[..3] && (a + chunk)[3..] == a[3..] + chunk;
      Base64Append(a[3..], chunk);
      if |a| == 3 { assert a[..3] == a && a[3..] == []; }
    }
  }

  /** Division by a positive constant, from the quotient and the remainder. */
  lemma Quotient(t: int, k: int, q: int, r: int)
    requires k > 0 && t == q * k + r && 0 <= r < k
    ensures t / k == q && t % k == r
  {
    var d := t / k - q;
    assert d * k == r - t % k;
    MultipleGrows(d, k);
  }

  lemma MultipleGrows(d: int, k: int)
    requires k > 0
    ensures (d >= 1 ==> d * k >= k) && (d <= -1 ==> d * k <= -k)
  {
    if d >= 1 { assert (d - 1) * k >= 0; } else if d <= -1 { assert (d + 1) * k <= 0; }
  }

  function Triple(b0: int, b1: int, b2: int): int { b0 * 0x1_0000 + b1 * 0x100 + b2 }

  /** The 24-bit packing of the loop yields the same four symbols. */
  lemma Packing(b0: int, b1: int, b2: int)
    requires 0 <= b0 < 256 && 0 <= b1 < 256 && 0 <= b2 < 256
    ensures var t := Triple(b0, b1, b2);
      && t / 0x4_0000 % 64 == b0 / 4
      && t / 0x1000 % 64 == b0 % 4 * 16 + b1 / 16
      && t / 0x40 % 64 == b1 % 16 * 4 + b2 / 64
      && t % 64 == b2 % 64
  {
    var t := Triple(b0, b1, b2);
    var s0, s1, s2, s3 := b0 / 4, b0 % 4 * 16 + b1 / 16, b1 % 16 * 4 + b2 / 64, b2 % 64;
    assert t == ((s0 * 64 + s1) * 64 + s2) * 64 + s3;
    Quotient(t, 0x4_0000, s0, s1 * 0x1000 + s2 * 64 + s3);
    Quotient(t, 0x1000, s0 * 64 + s1, s2 * 64 + s3);
    Quotient(t, 0x40, (s0 * 64 + s1) * 64 + s2, s3);
    Quotient(s0, 64, 0, s0);
    Quotient(s0 * 64 + s1, 64, s0, s1);
    Quotient((s0 * 64 + s1) * 64 + s2, 64, s0 * 64 + s1, s2);
  }

  /** The body of the loop: one group through the 24-bit word. */
  method EncodeGroup(chunk: Bytes) returns (q: string)
    requires 1 <= |chunk| <= 3
    ensures q == Quad(chunk)
  {
    var triple := Triple(At(chunk, 0), At(chunk, 1), At(chunk, 2));
    Packing(At(chunk, 0), At(chunk, 1), At(chunk, 2));
    q := [Symbol(triple / 0x4_0000 % 64), Symbol(triple / 0x1000 % 64)];
    q := q + [if |chunk| > 1 then Symbol(triple / 0x40 % 64) else '='];
    q := q + [if |chunk| > 2 then Symbol(triple % 64) else '='];
  }

  /** `base64_encode`: three bytes at a time, packed into 24 bits. */
  method Base64Encode(input: Bytes) returns (out: string)
    ensures out == Base64(input)
  {
    out := "";
    var i := 0;
    ghost var groups := 0;
    while i < |input|
      invariant 0 <= i <= |input| && (i == 3 * groups || i == |input|)
      invariant out == Base64(input[..i])
    {
      var n := if |input| - i < 3 then |input| - i else 3;
      var q := EncodeGroup(input[i..i + n]);
      GroupStep(input, i, n, groups);
      out := out + q;
      i, groups := i + n, groups + 1;
    }
    assert input[..|input|] == input;
  }

  lemma GroupStep(input: Bytes, i: nat, n: nat, groups: nat)
    requires i == 3 * groups && 1 <= n <= 3 && i + n <= |input|
    ensures Base64(input[..i + n]) == Base64(input[..i]) + Quad(input[i..i + n])
  {
    Base64Append(input[..i], input[i..i + n]);
    assert input[..i] + input[i..i + n] == input[..i + n];
  }

  // ── the strict standard decoder ──

  /** Four characters back to bytes; the bits a padded group leaves over must be zero. */
  function UnQuad(q: string): Option<Bytes>
    requires |q| == 4
  {
    var v0, v1, v2, v3 := Value(q[0]), Value(q[1]), Value(q[2]), Value(q[3]);
    if v0.None? || v1.None? then None
    else
      var x0 := (v0.value * 4 + v1.value / 16) as byte;
      if q[2] == '=' && q[3] == '=' then
        if v1.value % 16 == 0 then Some([x0]) else None
      else if v2.None? then None
      else
        var x1 := (v1.value % 16 * 16 + v2.value / 4) as byte;
        if q[3] == '=' then
          if v2.value % 4 == 0 then Some([x0, x1]) else None
        else if v3.None? then None
        else Some([x0, x1, (v2.value % 4 * 64 + v3.value) as byte])
  }

  /** Padding is allowed in the last group only. */
  function UnBase64(s: string): Option<Bytes>
  {
    if s == "" then Some([])
    else if |s| < 4 then None
    else
      var head := UnQuad(s[..4]);
      var rest := UnBase64(s[4..]);
      if head.None? || rest.None? || (|s| > 4 && |head.value| < 3) then None
      else Some(head.value + rest.value)
  }

  lemma SymbolValue(n: int)
    requires 0 <= n < 64
    ensures Value(Symbol(n)) == Some(n) && Symbol(n) != '='
  {
  }

  lemma ValueSymbol(c: char)
    requires Value(c).Some?
    ensures 0 <= Value(c).value < 64 && Symbol(Value(c).value) == c && c != '='
  {
  }

  /** Three bytes as four six-bit values, and back. */
  lemma Regroup(b0: int, b1: int, b2: int)
    requires 0 <= b0 < 256 && 0 <= b1 < 256 && 0 <= b2 < 256
    ensures var s0, s1, s2, s3 := b0 / 4, b0 % 4 * 16 + b1 / 16, b1 % 16 * 4 + b2 / 64, b2 % 64;
      && s0 * 4 + s1 / 16 == b0 && s1 % 16 == b1 / 16
      && s1 % 16 * 16 + s2 / 4 == b1 && s2 % 4 == b2 / 64
      && s2 % 4 * 64 + s3 == b2
  {
    Quotient(b0 % 4 * 16 + b1 / 16, 16, b0 % 4, b1 / 16);
    Quotient(b1 % 16 * 4 + b2 / 64, 4, b1 % 16, b2 / 64);
  }

  /** Four six-bit values as three bytes, and back. */
  lemma Degroup(v0: int, v1: int, v2: int, v3: int)
    requires 0 <= v0 < 64 && 0 <= v1 < 64 && 0 <= v2 < 64 && 0 <= v3 < 64
    ensures var x0, x1, x2 := v0 * 4 + v1 / 16, v1 % 16 * 16 + v2 / 4, v2 % 4 * 64 + v3;
      && x0 / 4 == v0 && x0 % 4 * 16 + x1 / 16 == v1
      && x1 % 16 * 4 + x2 / 64 == v2 && x2 % 64 == v3
  {
    Quotient(v0 * 4 + v1 / 16, 4, v0, v1 / 16);
    Quotient(v1 % 16 * 16 + v2 / 4, 16, v1 % 16, v2 / 4);
    Quotient(v2 % 4 * 64 + v3, 64, v2 % 4, v3);
  }

  lemma QuadRoundTrip(chunk: Bytes)
    requires 1 <= |chunk| <= 3
    ensures UnQuad(Quad(chunk)) == Some(chunk)
  {
    var b0, b1, b2 := At(chunk, 0), At(chunk, 1), At(chunk, 2);
    SymbolValue(b0 / 4);
    SymbolValue(b0 % 4 * 16 + b1 / 16);
    SymbolValue(b1 % 16 * 4 + b2 / 64);
    SymbolValue(b2 % 64);
    Regroup(b0, b1, b2);
    assert UnQuad(Quad(chunk)).Some?;
    assert UnQuad(Quad(chunk)).value == chunk;
  }

  lemma QuadUnique(q: string)
    requires |q| == 4 && UnQuad(q).Some?
    ensures 1 <= |UnQuad(q).value| <= 3 && Quad(UnQuad(q).value) == q
  {
    if q[3] == '=' { PaddedUnique(q); } else { FullUnique(q); }
  }

  lemma PaddedUnique(q: string)
    requires |q| == 4 && UnQuad(q).Some? && q[3] == '='
    ensures 1 <= |UnQuad(q).value| <= 2 && Quad(UnQuad(q).value) == q
  {
    ValueSymbol(q[0]);
    ValueSymbol(q[1]);
    var v0, v1 := Value(q[0]).value, Value(q[1]).value;
    if q[2] == '=' {
      Degroup(v0, v1, 0, 0);
    } else {
      ValueSymbol(q[2]);
      Degroup(v0, v1, Value(q[2]).value, 0);
    }
  }

  lemma FullUnique(q: string)
    requires |q| == 4 && UnQuad(q).Some? && q[3] != '='
    ensures |UnQuad(q).value| == 3 && Quad(UnQuad(q).value) == q
  {
    ValueSymbol(q[0]);
    ValueSymbol(q[1]);
    ValueSymbol(q[2]);
    ValueSymbol(q[3]);
    Degroup(Value(q[0]).value, Value(q[1]).value, Value(q[2]).value, Value(q[3]).value);
  }

  /** Decoding undoes encoding, for every byte string. */
  lemma {:induction false} Base64RoundTrip(b: Bytes)
    ensures UnBase64(Base64(b)) == Some(b)
  {
    if 0 < |b| <= 3 {
      QuadRoundTrip(b);
      assert Quad(b)[..4] == Quad(b) && Quad(b)[4..] == "" && b + [] == b;
    } else if |b| > 3 {
      QuadRoundTrip(b[..3]);
      Base64RoundTrip(b[3..]);
      assert Base64(b)[..4] == Quad(b[..3]) && Base64(b)[4..] == Base64(b[3..]);
      assert b == b[..3] + b[3..];
    }
  }

  /** The strict decoder accepts canonical text only. */
  lemma {:induction false} Base64Canonical(s: string)
    requires UnBase64(s).Some?
    ensures Base64(UnBase64(s).value) == s
  {
    if s != "" {
      var head, rest := UnQuad(s[..4]).value, UnBase64(s[4..]).value;
      QuadUnique(s[..4]);
      Base64Canonical(s[4..]);
      assert s == s[..4] + s[4..];
      if |s| == 4 {
        assert rest == [] && head + rest == head;
      } else {
        assert rest != [];
        assert (head + rest)[..3] == head && (head + rest)[3..] == rest;
      }
    }
  }

  // ── credentials ──

  datatype AuthDefect = NotBase64 | NotUtf8 | NoSeparator | EmptyPair | EmptyUser | EmptyPassword

  /** `decode_auth_field`: base64, UTF-8, then the first colon. */
  function DecodeAuthField(raw: string): Result<(string, string), AuthDefect>
  {
    var bytes := UnBase64(raw);
    if bytes.None? then Err(NotBase64)
    else
      var text := Utf8.Decode(bytes.value);
      if text.None? then Err(NotUtf8)
      else
        var pair := SplitOnce(text.value, ':');
        if pair.None? then Err(NoSeparator)
        else
          var (user, password) := pair.value;
          if user == "" && password == "" then Err(EmptyPair)
          else if user == "" then Err(EmptyUser)
          else if password == "" then Err(EmptyPassword)
          else Ok((user, password))
  }

  function AuthField(user: string, password: string): string { Base64(Utf8.Encode(user + ":" + password)) }

  /** A pair survives the trip exactly when both halves are non-empty and the user has no colon. */
  lemma BasicRoundTrip(user: string, password: string)
    ensures DecodeAuthField(AuthField(user, password)) == Ok((user, password)) <==>
            user != "" && password != "" && ':' !in user
  {
    var text := user + ":" + password;
    Base64RoundTrip(Utf8.Encode(text));
    Utf8.RoundTrip(text);
    if ':' !in user { SplitOnceUnique(user, ':', password); }
  }

  /** Every accepted field is the encoding of the pair it decodes to. */
  lemma AuthFieldUnique(raw: string)
    requires DecodeAuthField(raw).Ok?
    ensures var (user, password) := DecodeAuthField(raw).value; raw == AuthField(user, password) && ':' !in user
  {
    var bytes := UnBase64(raw).value;
    Base64Canonical(raw);
    Utf8.DecodeUnique(bytes);
  }
}
