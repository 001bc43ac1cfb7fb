/**
 * `WWW-Authenticate: Bearer` challenges (section 2.1 of RFC 7235) and the token URL built
 * from them (section 2.1 of RFC 3986).
 */
module BearerChallenge {
  import opened Wrappers
  import opened Text
  import Utf8

  // ── characters ──

  predicate IsSep(c: char) { IsWhite(c) || c == ',' }

  predicate EndsKey(c: char) { IsSep(c) || c == '=' }

  function Lower(c: char): char { if IsUpper(c) then (c as int + 32) as char else c }

  predicate EqIgnoreCase(a: string, b: string)
  {
    |a| == |b| && forall i :: 0 <= i < |a| ==> Lower(a[i]) == Lower(b[i])
  }

  function TrimStart(s: string): string { s[Until(s, c => !IsWhite(c))..] }

  function TrimEnd(s: string): string
  {
    if s != "" && IsWhite(s[|s| - 1]) then TrimEnd(s[..|s| - 1]) else s
  }

  // ── the parser, one parameter at a time ──

  lemma {:induction false} StopUpTo(s: string, stop: char -> bool, j: nat)
    requires j < |s| && stop(s[j])
    ensures exists i :: 0 <= i < |s| && stop(s[i]) && forall k :: 0 <= k < i ==> !stop(s[k])
    decreases j
  {
    if k: nat :| k < j && stop(s[k]) { StopUpTo(s, stop, k); }
  }

  lemma StopExists(s: string, stop: char -> bool)
    requires !(forall k :: 0 <= k < |s| ==> !stop(s[k]))
    ensures exists i :: 0 <= i < |s| && stop(s[i]) && forall k :: 0 <= k < i ==> !stop(s[k])
  {
    var j :| 0 <= j < |s| && stop(s[j]);
    StopUpTo(s, stop, j);
  }

  /** How far the characters satisfying `stop` are avoided. */
  function Until(s: string, stop: char -> bool): (i: nat)
    ensures i <= |s|
    ensures forall k :: 0 <= k < i ==> !stop(s[k])
    ensures i < |s| ==> stop(s[i])
  {
    if forall k :: 0 <= k < |s| ==> !stop(s[k]) then |s|
    else
      StopExists(s, stop);
      var i :| 0 <= i < |s| && stop(s[i]) && forall k :: 0 <= k < i ==> !stop(s[k]);
      i
  }

  function SkipSeps(s: string): string { s[Until(s, c => !IsSep(c))..] }

  /** A key runs to '=' (which is consumed), ',' or whitespace. */
  function ReadKey(s: string): (r: (string, string))
    ensures |r.0| + |r.1| <= |s|
  {
    var i := Until(s, EndsKey);
    (s[..i], if i < |s| && s[i] == '=' then s[i + 1..] else s[i..])
  }

  /** A quoted value runs to the closing quote or the end, a bare one to ','. */
  function ReadValue(s: string): (r: (string, string))
    ensures |r.1| <= |s|
  {
    if s != "" && s[0] == '"' then
      var i := Until(s[1..], c => c == '"');
      (s[1..][..i], if i < |s| - 1 then s[1..][i + 1..] else "")
    else
      var i := Until(s, c => c == ',');
      (s[..i], s[i..])
  }

  function ParseParams(s: string, acc: map<string, string>): map<string, string>
    decreases |s|
  {
    var (key, s1) := ReadKey(SkipSeps(s));
    if s == "" || key == "" then acc
    else
      var (val, s2) := ReadValue(s1);
      ParseParams(s2, acc[key := val])
  }

  /** `parse_bearer_challenge` as a function of the header. */
  function Challenge(header: string): Option<map<string, string>>
  {
    var trimmed := TrimEnd(TrimStart(header));
    var i := IndexOf(trimmed, ' ');
    if i == |trimmed| || !EqIgnoreCase(trimmed[..i], "bearer") then None
    else Some(ParseParams(trimmed[i + 1..], map[]))
  }

  // ── the loops ──

  lemma UntilStep(s: string, stop: char -> bool, k: nat)
    requires k < |s| && forall j :: 0 <= j < k ==> !stop(s[j])
    requires stop(s[k])
    ensures Until(s, stop) == k
  {
    var i := Until(s, stop);
    assert i < |s| ==> stop(s[i]);
  }

  method Scan(s: string, stop: char -> bool) returns (i: nat)
    ensures i == Until(s, stop)
  {
    i := 0;
    while i < |s| && !stop(s[i])
      invariant i <= |s| && forall k :: 0 <= k < i ==> !stop(s[k])
    {
      i := i + 1;
    }
    if i < |s| { UntilStep(s, stop, i); }
  }

  method ScanKey(s: string) returns (key: string, rest: string)
    ensures (key, rest) == ReadKey(s)
  {
    var i := Scan(s, EndsKey);
    key := s[..i];
    rest := if i < |s| && s[i] == '=' then s[i + 1..] else s[i..];
  }

  method ScanValue(s: string) returns (val: string, rest: string)
    ensures (val, rest) == ReadValue(s)
  {
    if s != "" && s[0] == '"' {
      var i := Scan(s[1..], c => c == '"');
      val := s[1..][..i];
      rest := if i < |s| - 1 then s[1..][i + 1..] else "";
    } else {
      var i := Scan(s, c => c == ',');
      val := s[..i];
      rest := s[i..];
    }
  }

  /** One pass of the walk: separators, a key, and a value if there is a key. */
  method ReadParam(s: string) returns (key: string, val: string, rest: string)
    requires s != ""
    ensures key == ReadKey(SkipSeps(s)).0
    ensures key != "" ==> (val, rest) == ReadValue(ReadKey(SkipSeps(s)).1) && |rest| < |s|
  {
    var i := Scan(s, c => !IsSep(c));
    key, rest := ScanKey(s[i..]);
    val := "";
    if key != "" { val, rest := ScanValue(rest); }
  }

  /** `parse_bearer_challenge`: a consuming walk that terminates on every input. */
  method ParseBearerChallenge(header: string) returns (r: Option<map<string, string>>)
    ensures r == Challenge(header)
  {
    var trimmed := TrimEnd(TrimStart(header));
    var end := IndexOf(trimmed, ' ');
    if end == |trimmed| { return None; }
    if !EqIgnoreCase(trimmed[..end], "bearer") { return None; }
    var params := trimmed[end + 1..];
    var rest, out: map<string, string> := params, map[];
    while rest != ""
      invariant ParseParams(params, map[]) == ParseParams(rest, out)
      decreases |rest|
    {
      var key, val, s := ReadParam(rest);
      if key == "" { return Some(out); }
      out := out[key := val];
      rest := s;
    }
    r := Some(out);
  }

  // ── printing and reading back ──

  predicate ValidKey(k: string) { k != "" && forall i :: 0 <= i < |k| ==> !EndsKey(k[i]) }

  predicate Separators(s: string) { forall i :: 0 <= i < |s| ==> IsSep(s[i]) }

  /** One parameter: any separators, then `key="value"` or `key=value`. */
  datatype Param = Param(sep: string, key: string, val: string, quoted: bool)

  predicate ValidParam(p: Param)
  {
    && Separators(p.sep) && ValidKey(p.key)
    && if p.quoted then '"' !in p.val else ',' !in p.val && (p.val != "" ==> p.val[0] != '"')
  }

  function RenderParam(p: Param): string
  {
    p.sep + p.key + (if p.quoted then "=\"" + p.val + "\"" else "=" + p.val)
  }

  function Render(ps: seq<Param>): string
  {
    if ps == [] then "" else RenderParam(ps[0]) + Render(ps[1..])
  }

  /** A bare value ends at a comma, so the next parameter starts with one; the last has no blank at its end. */
  predicate Spelled(ps: seq<Param>)
  {
    ps != [] ==>
      && ValidParam(ps[0]) && Spelled(ps[1..])
      && (ps[0].quoted || (if |ps| > 1 then ps[1].sep != "" && ps[1].sep[0] == ','
                           else ps[0].val != "" ==> !IsWhite(ps[0].val[|ps[0].val| - 1])))
  }

  /** The map a parameter list denotes; a later key replaces an earlier one. */
  function ParamMap(ps: seq<Param>, acc: map<string, string>): map<string, string>
  {
    if ps == [] then acc else ParamMap(ps[1..], acc[ps[0].key := ps[0].val])
  }

  lemma SkipRendered(sep: string, key: string, tail: string)
    requires Separators(sep) && ValidKey(key)
    ensures SkipSeps(sep + key + tail) == key + tail
  {
    var s := sep + key + tail;
    assert s[|sep|] == key[0];
    UntilStep(s, c => !IsSep(c), |sep|);
    assert s[|sep|..] == key + tail;
  }

  lemma KeyRead(key: string, tail: string)
    requires ValidKey(key)
    ensures ReadKey(key + ['='] + tail) == (key, tail)
  {
    var s := key + ['='] + tail;
    UntilStep(s, EndsKey, |key|);
    assert s[..|key|] == key && s[|key| + 1..] == tail;
  }

  lemma ValueRead(val: string, rest: string)
    requires '"' !in val
    ensures ReadValue(['"'] + val + ['"'] + rest) == (val, rest)
  {
    var s := ['"'] + val + ['"'] + rest;
    assert s[1..] == val + ['"'] + rest;
    UntilStep(s[1..], c => c == '"', |val|);
    assert s[1..][..|val|] == val && s[1..][|val| + 1..] == rest;
  }

  lemma BareRead(val: string, rest: string)
    requires ',' !in val && (val != "" ==> val[0] != '"') && (rest != "" ==> rest[0] == ',')
    ensures ReadValue(val + rest) == (val, rest)
  {
    var s := val + rest;
    if rest != "" { UntilStep(s, c => c == ',', |val|); }
    assert s[..|val|] == val && s[|val|..] == rest;
  }

  lemma KeyValue(sep: string, key: string, value: string, acc: map<string, string>)
    requires Separators(sep) && ValidKey(key)
    ensures var (val, rest) := ReadValue(value);
      ParseParams(sep + key + ['='] + value, acc) == ParseParams(rest, acc[key := val])
  {
    var s := sep + key + ['='] + value;
    assert s == sep + key + (['='] + value);
    SkipRendered(sep, key, ['='] + value);
    assert SkipSeps(s) == key + ['='] + value;
    KeyRead(key, value);
  }

  lemma OneParam(p: Param, rest: string, acc: map<string, string>)
    requires ValidParam(p) && (p.quoted || rest == "" || rest[0] == ',')
    ensures ParseParams(RenderParam(p) + rest, acc) == ParseParams(rest, acc[p.key := p.val])
  {
    if p.quoted {
      var value := ['"'] + p.val + ['"'] + rest;
      assert RenderParam(p) + rest == p.sep + p.key + ['='] + value;
      KeyValue(p.sep, p.key, value, acc);
      ValueRead(p.val, rest);
    } else {
      assert RenderParam(p) + rest == p.sep + p.key + ['='] + (p.val + rest);
      KeyValue(p.sep, p.key, p.val + rest, acc);
      BareRead(p.val, rest);
    }
  }

  lemma {:induction false} RenderParses(ps: seq<Param>, acc: map<string, string>)
    requires Spelled(ps)
    ensures ParseParams(Render(ps), acc) == ParamMap(ps, acc)
  {
    if ps != [] {
      if |ps| > 1 && ps[1].sep != "" { assert Render(ps[1..])[0] == ps[1].sep[0]; }
      OneParam(ps[0], Render(ps[1..]), acc);
      RenderParses(ps[1..], acc[ps[0].key := ps[0].val]);
    }
  }

  lemma {:induction false} RenderEnds(ps: seq<Param>)
    requires ps != [] && Spelled(ps)
    ensures Render(ps) != "" && !IsWhite(Render(ps)[|Render(ps)| - 1])
  {
    if |ps| > 1 { RenderEnds(ps[1..]); } else { assert Render(ps[1..]) == ""; }
  }

  /**
   * Any spelling of a non-empty parameter list parses back to the map it denotes: any
   * letter case of the scheme, any separators, bare values, and quoted ones with commas and
   * blanks inside.
   */
  lemma ChallengeRoundTrip(scheme: string, ps: seq<Param>)
    requires EqIgnoreCase(scheme, "bearer") && ps != [] && Spelled(ps)
    ensures Challenge(scheme + " " + Render(ps)) == Some(ParamMap(ps, map[]))
  {
    var h := scheme + " " + Render(ps);
    RenderEnds(ps);
    assert Lower(h[0]) == 'b' && h[|h| - 1] == Render(ps)[|Render(ps)| - 1];
    assert TrimEnd(TrimStart(h)) == h;
    assert ' ' !in scheme by {
      forall i | 0 <= i < |scheme| ensures scheme[i] != ' ' { assert Lower(scheme[i]) == Lower("bearer"[i]); }
    }
    SplitOnceUnique(scheme, ' ', Render(ps));
    assert h == scheme + [' '] + Render(ps);
    var i := IndexOf(h, ' ');
    assert h[..i] == scheme && h[i + 1..] == Render(ps);
    RenderParses(ps, map[]);
  }

  lemma {:induction false} TrimEndPrefix(s: string)
    ensures TrimEnd(s) <= s
  {
    if s != "" && IsWhite(s[|s| - 1]) { TrimEndPrefix(s[..|s| - 1]); }
  }

  lemma StartKept(s: string)
    requires s != "" && !IsWhite(s[0])
    ensures TrimStart(s) == s
  {
  }

  /** A header of another scheme, or of none, is no bearer challenge. */
  lemma OtherScheme(scheme: string, rest: string)
    requires scheme != "" && (forall i :: 0 <= i < |scheme| ==> !IsWhite(scheme[i]))
    requires !EqIgnoreCase(scheme, "bearer") && (rest != "" ==> rest[0] == ' ')
    ensures Challenge(scheme + rest).None?
  {
    var h := scheme + rest;
    assert h[0] == scheme[0];
    StartKept(h);
    TrimEndPrefix(h);
    var t := TrimEnd(h);
    var i := IndexOf(t, ' ');
    if i < |t| {
      assert h[i] == ' ' && forall k :: 0 <= k < i ==> h[k] != ' ';
      assert forall k :: 0 <= k < |scheme| ==> h[k] == scheme[k];
      assert forall k :: 0 <= k < |scheme| ==> h[k] != ' ';
      assert i >= |scheme| && h[|scheme|] == rest[0];
      assert t[..i] == scheme;
    }
  }

  /** With distinct keys every parameter is in the map with its own value. */
  lemma {:induction false} ParamLookup(ps: seq<Param>, acc: map<string, string>, i: nat)
    requires i < |ps| && forall j :: i < j < |ps| ==> ps[j].key != ps[i].key
    ensures ps[i].key in ParamMap(ps, acc) && ParamMap(ps, acc)[ps[i].key] == ps[i].val
  {
    if i > 0 {
      ParamLookup(ps[1..], acc[ps[0].key := ps[0].val], i - 1);
    } else {
      KeyKept(ps[1..], acc[ps[0].key := ps[0].val], ps[0].key);
    }
  }

  lemma {:induction false} KeyKept(ps: seq<Param>, acc: map<string, string>, k: string)
    requires k in acc && forall j :: 0 <= j < |ps| ==> ps[j].key != k
    ensures k in ParamMap(ps, acc) && ParamMap(ps, acc)[k] == acc[k]
  {
    if ps != [] { KeyKept(ps[1..], acc[ps[0].key := ps[0].val], k); }
  }

  // ── the token URL ──

  predicate Unreserved(c: char)
  {
    IsAlnum(c) || c == '-' || c == '_' || c == '.' || c == '~' || c == ',' || c == '/' || c == ':'
  }

  function HexDigit(n: int): char
    requires 0 <= n < 16
  {
    if n < 10 then (48 + n) as char else (55 + n) as char
  }

  function HexValue(c: char): Option<int>
  {
    if IsDigit(c) then Some(c as int - 48) else if 'A' <= c <= 'F' then Some(c as int - 55) else None
  }

  function EncodeByte(b: byte): string
  {
    var c := b as int as char;
    if Unreserved(c) then [c] else ['%', HexDigit(b as int / 16), HexDigit(b as int % 16)]
  }

  function UrlEncodeBytes(b: Bytes): string
  {
    if b == [] then "" else EncodeByte(b[0]) + UrlEncodeBytes(b[1..])
  }

  function UrlEncode(s: string): string { UrlEncodeBytes(Utf8.Encode(s)) }

  lemma {:induction false} EncodeSnoc(b: Bytes, x: byte)
    ensures UrlEncodeBytes(b + [x]) == UrlEncodeBytes(b) + EncodeByte(x)
  {
    if b == [] {
      assert b + [x] == [x];
    } else {
      assert (b + [x])[1..] == b[1..] + [x];
      EncodeSnoc(b[1..], x);
    }
  }

  /** `urlencode`. */
  method PercentEncode(s: string) returns (out: string)
    ensures out == UrlEncode(s)
  {
    var bytes := Utf8.Encode(s);
    out := "";
    for i := 0 to |bytes|
      invariant out == UrlEncodeBytes(bytes[..i])
    {
      EncodeSnoc(bytes[..i], bytes[i]);
      assert bytes[..i] + [bytes[i]] == bytes[..i + 1];
      out := out + EncodeByte(bytes[i]);
    }
    assert bytes[..|bytes|] == bytes;
  }

  /** Percent-decoding: a plain character is its own byte. */
  function PercentDecode(s: string): Option<Bytes>
  {
    if s == "" then Some([])
    else if s[0] == '%' then
      if |s| < 3 || HexValue(s[1]).None? || HexValue(s[2]).None? then None
      else
        var rest := PercentDecode(s[3..]);
        if rest.None? then None else Some([(HexValue(s[1]).value * 16 + HexValue(s[2]).value) as byte] + rest.value)
    else if s[0] as int >= 256 then None
    else
      var rest := PercentDecode(s[1..]);
      if rest.None? then None else Some([s[0] as int as byte] + rest.value)
  }

  lemma {:induction false} PercentRoundTrip(b: Bytes)
    ensures PercentDecode(UrlEncodeBytes(b)) == Some(b)
  {
    if b != [] {
      PercentRoundTrip(b[1..]);
      var s := UrlEncodeBytes(b);
      var e := EncodeByte(b[0]);
      assert s[|e|..] == UrlEncodeBytes(b[1..]);
      assert b == [b[0]] + b[1..];
      if !Unreserved(b[0] as int as char) {
        assert s[0] == '%' && s[1] == HexDigit(b[0] as int / 16) && s[2] == HexDigit(b[0] as int % 16);
      } else {
        assert s[0] == b[0] as int as char;
      }
    }
  }

  /** What a client reads back from an encoded value. */
  function UrlDecode(s: string): Option<string>
  {
    var b := PercentDecode(s);
    if b.None? then None else Utf8.Decode(b.value)
  }

  /** Decoding undoes encoding, for every string. */
  lemma UrlRoundTrip(s: string)
    ensures UrlDecode(UrlEncode(s)) == Some(s)
  {
    PercentRoundTrip(Utf8.Encode(s));
    Utf8.RoundTrip(s);
  }

  /** Encoded text never contains a character that structures a query. */
  lemma {:induction false} EncodedIsPlain(b: Bytes, c: char)
    requires c == '&' || c == '=' || c == '?' || c == '#' || c == '+' || c == ' '
    ensures c !in UrlEncodeBytes(b)
  {
    if b != [] { EncodedIsPlain(b[1..], c); }
  }

  /** The URL `fetch_bearer_token` asks for a token. */
  function TokenUrl(realm: string, service: Option<string>, scope: Option<string>): string
  {
    var sep := if '?' in realm then "&" else "?";
    var url := realm + (if service.Some? then sep + "service=" + UrlEncode(service.value) else "");
    url + (if scope.Some? then (if service.Some? then "&" else sep) + "scope=" + UrlEncode(scope.value) else "")
  }

  // ── the URL can be read back ──

  /** The position of the last `?` or `&`, or the length when there is none. */
  function LastSep(s: string): (k: nat)
    ensures k <= |s|
    ensures k < |s| ==> (s[k] == '?' || s[k] == '&')
    ensures forall i :: k < i < |s| ==> s[i] != '?' && s[i] != '&'
    ensures k == |s| ==> '?' !in s && '&' !in s
  {
    var i, j := LastIndexOf(s, '&'), LastIndexOf(s, '?');
    if i == |s| then j else if j == |s| then i else if i < j then j else i
  }

  /** Takes the last parameter, of this name, off a URL. */
  function Peel(url: string, name: string): Option<(string, string)>
  {
    var k := LastSep(url);
    if k < |url| && name <= url[k + 1..] then
      var val := UrlDecode(url[k + 1 + |name|..]);
      if val.Some? then Some((url[..k], val.value)) else None
    else None
  }

  lemma PeelLast(front: string, sep: char, name: string, val: string)
    requires (sep == '?' || sep == '&') && '?' !in name && '&' !in name
    ensures Peel(front + [sep] + (name + UrlEncode(val)), name) == Some((front, val))
  {
    EncodedIsPlain(Utf8.Encode(val), '?');
    EncodedIsPlain(Utf8.Encode(val), '&');
    UrlRoundTrip(val);
    PeelText(front, sep, name, UrlEncode(val), val);
  }

  lemma PeelText(front: string, sep: char, name: string, text: string, val: string)
    requires (sep == '?' || sep == '&') && '?' !in name && '&' !in name && '?' !in text && '&' !in text
    requires UrlDecode(text) == Some(val)
    ensures Peel(front + [sep] + (name + text), name) == Some((front, val))
  {
    PartPeels(front, sep, name, text);
  }

  lemma PartPeels(front: string, sep: char, name: string, text: string)
    requires (sep == '?' || sep == '&') && '?' !in name && '&' !in name && '?' !in text && '&' !in text
    ensures var url := front + [sep] + (name + text);
      LastSep(url) == |front| && url[..|front|] == front && url[|front| + 1..] == name + text
        && url[|front| + 1 + |name|..] == text && name <= url[|front| + 1..]
  {
    var url := front + [sep] + (name + text);
    assert url[|front|] == sep;
    forall i | |front| < i < |url| ensures url[i] != '?' && url[i] != '&' {
      assert url[i] == (name + text)[i - |front| - 1];
    }
    assert url[|front| + 1..] == name + text;
    assert url[|front| + 1 + |name|..] == text;
  }

  /** The realm, service and scope of a token URL, by which of the two it has. */
  function ReadTokenUrl(url: string, hasService: bool, hasScope: bool): Option<(string, Option<string>, Option<string>)>
  {
    var scope := if hasScope then Peel(url, "scope=") else Some((url, ""));
    if scope.None? then None
    else
      var service := if hasService then Peel(scope.value.0, "service=") else Some((scope.value.0, ""));
      if service.None? then None
      else
        Some((service.value.0,
          if hasService then Some(service.value.1) else None,
          if hasScope then Some(scope.value.1) else None))
  }

  function WithService(realm: string, service: Option<string>): string
  {
    if service.None? then realm
    else realm + [if '?' in realm then '&' else '?'] + ("service=" + UrlEncode(service.value))
  }

  lemma UrlOfParts(realm: string, service: Option<string>, scope: Option<string>)
    ensures var front := WithService(realm, service);
      TokenUrl(realm, service, scope) ==
        if scope.None? then front
        else front + [if service.Some? || '?' in realm then '&' else '?'] + ("scope=" + UrlEncode(scope.value))
  {
  }

  /** The realm, service and scope are recoverable from the URL, whatever they contain and whichever are given. */
  lemma TokenUrlRecoverable(realm: string, service: Option<string>, scope: Option<string>)
    ensures ReadTokenUrl(TokenUrl(realm, service, scope), service.Some?, scope.Some?) == Some((realm, service, scope))
  {
    UrlOfParts(realm, service, scope);
    var front := WithService(realm, service);
    if scope.Some? {
      PeelLast(front, if service.Some? || '?' in realm then '&' else '?', "scope=", scope.value);
    }
    if service.Some? { PeelLast(realm, if '?' in realm then '&' else '?', "service=", service.value); }
  }
}
