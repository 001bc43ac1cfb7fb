/**
 * A codec that keeps every law: values are printed as length-prefixed parts, except that the
 * documents in play are a byte each, and the hash is a table on these. It is what makes
 * statements about all lawful codecs speak of something.
 */
module LawfulCodecs {
  import opened Wrappers
  import opened Json
  import opened Oci

  // ── parts ──

  function Unary(n: nat): Bytes { if n == 0 then [0] else [1] + Unary(n - 1) }

  lemma {:induction false} UnaryUnique(m: nat, n: nat, r: Bytes, s: Bytes)
    requires Unary(m) + r == Unary(n) + s
    ensures m == n && r == s
  {
    assert (Unary(m) + r)[0] == Unary(m)[0] && (Unary(n) + s)[0] == Unary(n)[0];
    if m == 0 || n == 0 {
      assert ([0] + r)[1..] == r && ([0] + s)[1..] == s;
    } else {
      assert (Unary(m) + r)[1..] == Unary(m - 1) + r && (Unary(n) + s)[1..] == Unary(n - 1) + s;
      UnaryUnique(m - 1, n - 1, r, s);
    }
  }

  /** Each part after its length. */
  function Join(xs: seq<Bytes>): Bytes
  {
    if xs == [] then [] else Unary(|xs[0]|) + (xs[0] + Join(xs[1..]))
  }

  lemma {:induction false} JoinUnique(xs: seq<Bytes>, ys: seq<Bytes>)
    requires Join(xs) == Join(ys)
    ensures xs == ys
  {
    if xs != [] && ys != [] {
      var x, y := xs[0] + Join(xs[1..]), ys[0] + Join(ys[1..]);
      UnaryUnique(|xs[0]|, |ys[0]|, x, y);
      assert x[..|xs[0]|] == xs[0] && y[..|ys[0]|] == ys[0];
      assert x[|xs[0]|..] == Join(xs[1..]) && y[|ys[0]|..] == Join(ys[1..]);
      JoinUnique(xs[1..], ys[1..]);
      assert xs == [xs[0]] + xs[1..] && ys == [ys[0]] + ys[1..];
    }
  }

  function Chars(s: string): Bytes { Join(seq(|s|, i requires 0 <= i < |s| => Unary(s[i] as int))) }

  lemma CharsUnique(s: string, t: string)
    requires Chars(s) == Chars(t)
    ensures s == t
  {
    var xs, ys :=
      seq(|s|, i requires 0 <= i < |s| => Unary(s[i] as int)), seq(|t|, i requires 0 <= i < |t| => Unary(t[i] as int));
    JoinUnique(xs, ys);
    assert |xs| == |s| && |ys| == |t|;
    forall i | 0 <= i < |s| ensures s[i] == t[i] {
      assert xs[i] == ys[i];
      UnaryUnique(s[i] as int, t[i] as int, [], []);
    }
  }

  /** The fields of an object, one after the other. */
  ghost function Fields(m: map<string, Bytes>): Bytes
  {
    if m == map[] then []
    else
      var k :| k in m;
      Join([Chars(k), m[k], Fields(m - {k})])
  }

  lemma {:induction false} FieldsUnique(m: map<string, Bytes>, n: map<string, Bytes>)
    requires Fields(m) == Fields(n)
    ensures m == n
    decreases |m|
  {
    if m != map[] && n != map[] {
      var k, xs := SomeField(m);
      var l, ys := SomeField(n);
      JoinUnique(xs, ys);
      SameParts(m, n, k, l, xs, ys);
      FieldsUnique(m - {k}, n - {k});
      SameButOne(m, n, k);
    } else {
      if m != map[] { var k, xs := SomeField(m); JoinUnique(xs, []); }
      if n != map[] { var l, ys := SomeField(n); JoinUnique(ys, []); }
    }
  }

  lemma SameParts(m: map<string, Bytes>, n: map<string, Bytes>, k: string, l: string, xs: seq<Bytes>, ys: seq<Bytes>)
    requires k in m && l in n && xs == ys
    requires xs == [Chars(k), m[k], Fields(m - {k})] && ys == [Chars(l), n[l], Fields(n - {l})]
    ensures k == l && m[k] == n[k] && Fields(m - {k}) == Fields(n - {k})
  {
    assert xs[0] == ys[0] && xs[1] == ys[1] && xs[2] == ys[2];
    CharsUnique(k, l);
  }

  lemma SameButOne(m: map<string, Bytes>, n: map<string, Bytes>, k: string)
    requires k in m && k in n && m[k] == n[k] && m - {k} == n - {k}
    ensures m == n
  {
    assert m == (m - {k})[k := m[k]] && n == (n - {k})[k := n[k]];
  }

  lemma SomeField(m: map<string, Bytes>) returns (k: string, parts: seq<Bytes>)
    requires m != map[]
    ensures k in m && parts == [Chars(k), m[k], Fields(m - {k})] && Fields(m) == Join(parts)
  {
    k :| k in m && Fields(m) == Join([Chars(k), m[k], Fields(m - {k})]);
    parts := [Chars(k), m[k], Fields(m - {k})];
  }

  // ── values ──

  /** What kind of value it is. */
  function Kind(j: Json): nat
  {
    match j
    case JNull => 0
    case JBool(b) => if b then 1 else 2
    case JInt(n) => if n < 0 then 3 else 4
    case JFloat(_) => 5
    case JStr(_) => 6
    case JArr(_) => 7
    case JObj(_) => 8
  }

  ghost function TextOf(j: Json): Bytes
    decreases j, 1
  {
    Join([Unary(Kind(j)), Payload(j)])
  }

  ghost function Payload(j: Json): Bytes
    decreases j, 0
  {
    match j
    case JNull => []
    case JBool(_) => []
    case JInt(n) => Unary(if n < 0 then -n else n)
    case JFloat(bits) => Unary(bits)
    case JStr(s) => Chars(s)
    case JArr(a) => Join(seq(|a|, i requires 0 <= i < |a| => TextOf(a[i])))
    case JObj(o) => Fields(map k | k in o :: TextOf(o[k]))
  }

  /** Different values have different text. */
  lemma {:induction false} TextUnique(x: Json, y: Json)
    requires TextOf(x) == TextOf(y)
    ensures x == y
    decreases x
  {
    var xs, ys := [Unary(Kind(x)), Payload(x)], [Unary(Kind(y)), Payload(y)];
    JoinUnique(xs, ys);
    assert xs[0] == ys[0] && xs[1] == ys[1];
    UnaryUnique(Kind(x), Kind(y), [], []);
    match x
    case JInt(n) => UnaryUnique(if n < 0 then -n else n, if y.n < 0 then -y.n else y.n, [], []);
    case JFloat(bits) => UnaryUnique(bits, y.bits, [], []);
    case JStr(s) => CharsUnique(s, y.s);
    case JArr(a) =>
      forall i, z | 0 <= i < |a| && TextOf(a[i]) == TextOf(z) ensures a[i] == z { TextUnique(a[i], z); }
      ArrUnique(a, y.a);
    case JObj(o) =>
      forall k, z | k in o && TextOf(o[k]) == TextOf(z) ensures o[k] == z { TextUnique(o[k], z); }
      ObjUnique(o, y.o);
    case _ =>
  }

  lemma ArrUnique(a: seq<Json>, b: seq<Json>)
    requires Payload(JArr(a)) == Payload(JArr(b))
    requires forall i, z :: 0 <= i < |a| && TextOf(a[i]) == TextOf(z) ==> a[i] == z
    ensures a == b
  {
    var ps, qs := Texts(a), Texts(b);
    JoinUnique(ps, qs);
    forall i | 0 <= i < |a| ensures a[i] == b[i] { assert ps[i] == qs[i]; }
  }

  lemma ObjUnique(o: map<string, Json>, p: map<string, Json>)
    requires Payload(JObj(o)) == Payload(JObj(p))
    requires forall k, z :: k in o && TextOf(o[k]) == TextOf(z) ==> o[k] == z
    ensures o == p
  {
    var ps, qs := FieldTexts(o), FieldTexts(p);
    FieldsUnique(ps, qs);
    assert o.Keys == ps.Keys == p.Keys;
    forall k | k in o ensures o[k] == p[k] { assert ps[k] == qs[k]; }
  }

  ghost function Texts(a: seq<Json>): (r: seq<Bytes>)
    ensures |r| == |a| && forall i :: 0 <= i < |a| ==> r[i] == TextOf(a[i])
  {
    seq(|a|, i requires 0 <= i < |a| => TextOf(a[i]))
  }

  ghost function FieldTexts(o: map<string, Json>): (r: map<string, Bytes>)
    ensures r.Keys == o.Keys && forall k :: k in o ==> r[k] == TextOf(o[k])
  {
    map k | k in o :: TextOf(o[k])
  }

  // ── a table of documents ──

  ghost predicate IsDoc(docs: seq<Json>, j: Json, i: nat) { i < |docs| && docs[i] == j }

  /** A document is its number, anything else its text after a nine. */
  ghost function Print(docs: seq<Json>, j: Json): (b: Bytes)
    requires |docs| <= 9
    ensures j in docs ==> |b| == 1 && b[0] as int < |docs| && docs[b[0]] == j
    ensures j !in docs ==> b == [9] + TextOf(j)
  {
    if i: nat :| IsDoc(docs, j, i) then [i as byte]
    else
      assert j !in docs by {
        if j in docs {
          var i: nat :| i < |docs| && docs[i] == j;
          assert IsDoc(docs, j, i);
        }
      }
      [9] + TextOf(j)
  }

  lemma PrintUnique(docs: seq<Json>, x: Json, y: Json)
    requires |docs| <= 9 && Print(docs, x) == Print(docs, y)
    ensures x == y
  {
    if x !in docs && y !in docs {
      assert Print(docs, x)[1..] == TextOf(x) && Print(docs, y)[1..] == TextOf(y);
      TextUnique(x, y);
    }
  }

  ghost function Read(docs: seq<Json>, b: Bytes): Option<Json>
    requires |docs| <= 9
  {
    if j: Json :| Print(docs, j) == b then Some(j) else None
  }

  lemma ReadPrinted(docs: seq<Json>, j: Json)
    requires |docs| <= 9
    ensures Read(docs, Print(docs, j)) == Some(j)
  {
    var r := Read(docs, Print(docs, j));
    assert r.Some? && Print(docs, r.value) == Print(docs, j);
    PrintUnique(docs, r.value, j);
  }

  /** A hash: sixty-three zeros and a digit. */
  function Name(i: nat): string
    requires i < 10
  {
    seq(63, _ => '0') + [(i + 48) as char]
  }

  lemma NameHex(i: nat)
    requires i < 10
    ensures IsHex64(Name(i)) && Name(i)[63] == (i + 48) as char && HexOf(DigestText(Name(i))) == Ok(Name(i))
  {
    HexOfText(Name(i));
  }

  /** The documents have a hash each, everything else shares the last one. */
  function Hash(b: Bytes): string { if |b| == 1 && b[0] < 9 then Name(b[0] as int) else Name(9) }

  lemma HashHex(b: Bytes)
    ensures IsHex64(Hash(b)) && Hash(b)[0] == '0'
  {
    var i := if |b| == 1 && b[0] < 9 then b[0] as int else 9;
    NameHex(i);
  }

  ghost function TableCodec(docs: seq<Json>): Codec
    requires |docs| <= 9
  {
    Codec(Hash, (b: Bytes) => Read(docs, b), (j: Json) => Print(docs, j), (j: Json) => Print(docs, j))
  }

  /** The laws hold of it. */
  lemma TableLawful(docs: seq<Json>)
    requires |docs| <= 9
    ensures TableCodec(docs).Lawful()
  {
    var c := TableCodec(docs);
    forall b ensures IsHex64(c.hash(b)) { HashHex(b); }
    forall j ensures c.parse(c.compact(j)) == Some(j) && c.parse(c.pretty(j)) == Some(j) { ReadPrinted(docs, j); }
  }

  /** Of documents without a repetition, the `i`-th is printed as `i` and hashes to the `i`-th name. */
  lemma TablePrints(docs: seq<Json>, i: nat)
    requires i < |docs| <= 9 && forall j, k :: 0 <= j < k < |docs| ==> docs[j] != docs[k]
    ensures Print(docs, docs[i]) == [i as byte] && Hash([i as byte]) == Name(i)
    ensures Read(docs, [i as byte]) == Some(docs[i])
  {
    ReadPrinted(docs, docs[i]);
  }
}
