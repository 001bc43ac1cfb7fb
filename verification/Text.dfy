/** The string operations of the Rust standard library that the parsers are built from. */
module Text {
  import opened Wrappers

  lemma {:induction false} FirstUpTo(s: string, c: char, j: nat)
    requires j < |s| && s[j] == c
    ensures exists i :: 0 <= i < |s| && s[i] == c && forall k :: 0 <= k < i ==> s[k] != c
    decreases j
  {
    if k: nat :| k < j && s[k] == c { FirstUpTo(s, c, k); }
  }

  lemma FirstExists(s: string, c: char)
    requires c in s
    ensures exists i :: 0 <= i < |s| && s[i] == c && forall k :: 0 <= k < i ==> s[k] != c
  {
    var j :| 0 <= j < |s| && s[j] == c;
    FirstUpTo(s, c, j);
  }

  lemma {:induction false} LastFrom(s: string, c: char, j: nat)
    requires j < |s| && s[j] == c
    ensures exists i :: 0 <= i < |s| && s[i] == c && forall k :: i < k < |s| ==> s[k] != c
    decreases |s| - j
  {
    if k: nat :| j < k < |s| && s[k] == c { LastFrom(s, c, k); }
  }

  lemma LastExists(s: string, c: char)
    requires c in s
    ensures exists i :: 0 <= i < |s| && s[i] == c && forall k :: i < k < |s| ==> s[k] != c
  {
    var j :| 0 <= j < |s| && s[j] == c;
    LastFrom(s, c, j);
  }

  /** `str::find(char)`: the first position of `c`, or the length when there is none. */
  function IndexOf(s: string, c: char): (i: nat)
    ensures i <= |s| && forall k :: 0 <= k < i ==> s[k] != c
    ensures i < |s| ==> s[i] == c
    ensures i == |s| <==> c !in s
  {
    if c !in s then |s|
    else
      FirstExists(s, c);
      var i :| 0 <= i < |s| && s[i] == c && forall k :: 0 <= k < i ==> s[k] != c;
      i
  }

  /** `str::rfind(char)`: the last position of `c`, or the length when there is none. */
  function LastIndexOf(s: string, c: char): (i: nat)
    ensures i <= |s|
    ensures i < |s| ==> s[i] == c && forall k :: i < k < |s| ==> s[k] != c
    ensures i == |s| <==> c !in s
  {
    if c !in s then |s|
    else
      LastExists(s, c);
      var i :| 0 <= i < |s| && s[i] == c && forall k :: i < k < |s| ==> s[k] != c;
      i
  }

  /** `str::split_once(char)`. */
  function SplitOnce(s: string, c: char): (r: Option<(string, string)>)
    ensures r.None? <==> c !in s
    ensures r.Some? ==> s == r.value.0 + [c] + r.value.1 && c !in r.value.0
  {
    var i := IndexOf(s, c);
    if i == |s| then None else Some((s[..i], s[i + 1..]))
  }

  /** `str::rsplit_once(char)`. */
  function RSplitOnce(s: string, c: char): (r: Option<(string, string)>)
    ensures r.None? <==> c !in s
    ensures r.Some? ==> s == r.value.0 + [c] + r.value.1 && c !in r.value.1
  {
    var i := LastIndexOf(s, c);
    if i == |s| then None else Some((s[..i], s[i + 1..]))
  }

  /** A string splits at the first `c` in one way only. */
  lemma SplitOnceUnique(a: string, c: char, b: string)
    requires c !in a
    ensures SplitOnce(a + [c] + b, c) == Some((a, b))
  {
    var s := a + [c] + b;
    assert s[|a|] == c && forall k :: 0 <= k < |a| ==> s[k] == a[k];
    assert IndexOf(s, c) == |a|;
    assert s[..|a|] == a && s[|a| + 1..] == b;
  }

  /** A string splits at the last `c` in one way only. */
  lemma RSplitOnceUnique(a: string, c: char, b: string)
    requires c !in b
    ensures RSplitOnce(a + [c] + b, c) == Some((a, b))
  {
    var s := a + [c] + b;
    var i := LastIndexOf(s, c);
    assert s[|a|] == c && forall k :: |a| < k < |s| ==> s[k] == b[k - |a| - 1];
    assert i == |a|;
    assert s[..|a|] == a && s[|a| + 1..] == b;
  }

  predicate StartsWith(s: string, p: string) { p <= s }

  predicate EndsWith(s: string, p: string) { |p| <= |s| && s[|s| - |p|..] == p }

  predicate OccursAt(s: string, p: string, i: nat) { i + |p| <= |s| && s[i..i + |p|] == p }

  /** `str::contains(&str)`. */
  predicate Contains(s: string, p: string) { exists i: nat :: i <= |s| && OccursAt(s, p, i) }

  predicate IsLower(c: char) { 'a' <= c <= 'z' }
  predicate IsUpper(c: char) { 'A' <= c <= 'Z' }
  predicate IsDigit(c: char) { '0' <= c <= '9' }
  predicate IsAlnum(c: char) { IsLower(c) || IsUpper(c) || IsDigit(c) }

  /** `char::is_whitespace`: the Unicode White_Space property. */
  predicate IsWhite(c: char)
  {
    var n := c as int;
    9 <= n <= 13 || n == 0x20 || n == 0x85 || n == 0xA0 || n == 0x1680 || 0x2000 <= n <= 0x200A
    || n == 0x2028 || n == 0x2029 || n == 0x202F || n == 0x205F || n == 0x3000
  }

  /** A natural number in decimal. */
  function Decimal(n: nat): string
  {
    var last := [('0' as int + n % 10) as char];
    if n < 10 then last else Decimal(n / 10) + last
  }
}
