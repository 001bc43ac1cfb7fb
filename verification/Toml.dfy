/** TOML value trees, as a TOML parser hands them to either projection, and raw specs. */
module Toml {
  import opened Wrappers
  import opened Json

  /** A date-time carries the text each of the two languages prints for it. */
  datatype Toml =
    | TStr(s: string)
    | TInt(n: int)
    | TFloat(bits: nat)
    | TBool(b: bool)
    | TDate(rust: string, python: string)
    | TArr(a: seq<Toml>)
    | TTable(t: map<string, Toml>)

  /** The IEEE 754 double with these bits is neither an infinity nor a NaN. */
  predicate Finite(bits: nat) { (bits / 0x10_0000_0000_0000) % 0x800 != 0x7FF }

  /** `toml_to_json` as a function: non-finite floats become null, date-times their text. */
  function ToJson(v: Toml): Json
  {
    match v
    case TStr(s) => JStr(s)
    case TInt(n) => JInt(n)
    case TFloat(bits) => if Finite(bits) then JFloat(bits) else JNull
    case TBool(b) => JBool(b)
    case TDate(rust, _) => JStr(rust)
    case TArr(a) => JArr(seq(|a|, i requires 0 <= i < |a| => ToJson(a[i])))
    case TTable(t) => JObj(map k | k in t :: ToJson(t[k]))
  }

  /** The Python projection of a config value. */
  function ToPython(v: Toml): Json
  {
    match v
    case TStr(s) => JStr(s)
    case TInt(n) => JInt(n)
    case TFloat(bits) => JFloat(bits)
    case TBool(b) => JBool(b)
    case TDate(_, python) => JStr(python)
    case TArr(a) => JArr(seq(|a|, i requires 0 <= i < |a| => ToPython(a[i])))
    case TTable(t) => JObj(map k | k in t :: ToPython(t[k]))
  }

  /** No non-finite float, and no date-time the two languages print differently. */
  predicate Portable(v: Toml)
  {
    match v
    case TFloat(bits) => Finite(bits)
    case TDate(rust, python) => rust == python
    case TArr(a) => forall i :: 0 <= i < |a| ==> Portable(a[i])
    case TTable(t) => forall k :: k in t ==> Portable(t[k])
    case _ => true
  }

  /** The two projections of a value agree exactly when it is portable. */
  lemma {:induction false} ProjectionsAgree(v: Toml)
    ensures ToJson(v) == ToPython(v) <==> Portable(v)
  {
    match v
    case TArr(a) =>
      forall i | 0 <= i < |a| ensures ToJson(a[i]) == ToPython(a[i]) <==> Portable(a[i]) { ProjectionsAgree(a[i]); }
      if ToJson(v) == ToPython(v) {
        forall i | 0 <= i < |a| ensures Portable(a[i]) { assert ToJson(v).a[i] == ToPython(v).a[i]; }
      }
    case TTable(t) =>
      forall k | k in t ensures ToJson(t[k]) == ToPython(t[k]) <==> Portable(t[k]) { ProjectionsAgree(t[k]); }
      if ToJson(v) == ToPython(v) {
        forall k | k in t ensures Portable(t[k]) { assert ToJson(v).o[k] == ToPython(v).o[k]; }
      }
    case _ =>
  }

  // ── back from JSON ──

  predicate NoNull(j: Json)
  {
    match j
    case JNull => false
    case JArr(a) => forall i :: 0 <= i < |a| ==> NoNull(a[i])
    case JObj(o) => forall k :: k in o ==> NoNull(o[k])
    case _ => true
  }

  /** A JSON tree as TOML; TOML has no null. */
  function FromJson(j: Json): (r: Option<Toml>)
    ensures r.Some? <==> NoNull(j)
  {
    match j
    case JNull => None
    case JBool(b) => Some(TBool(b))
    case JInt(n) => Some(TInt(n))
    case JFloat(bits) => Some(TFloat(bits))
    case JStr(s) => Some(TStr(s))
    case JArr(a) =>
      if forall i :: 0 <= i < |a| ==> FromJson(a[i]).Some? then
        Some(TArr(seq(|a|, i requires 0 <= i < |a| && FromJson(a[i]).Some? => FromJson(a[i]).value)))
      else None
    case JObj(o) =>
      if forall k :: k in o ==> FromJson(o[k]).Some? then
        Some(TTable(map k | k in o && FromJson(o[k]).Some? :: FromJson(o[k]).value))
      else None
  }

  /** Every float is finite: what a JSON number can be. */
  predicate Numeric(j: Json)
  {
    match j
    case JFloat(bits) => Finite(bits)
    case JArr(a) => forall i :: 0 <= i < |a| ==> Numeric(a[i])
    case JObj(o) => forall k :: k in o ==> Numeric(o[k])
    case _ => true
  }

  lemma {:induction false} ToJsonNumeric(v: Toml)
    ensures Numeric(ToJson(v))
  {
    match v
    case TArr(a) => forall i | 0 <= i < |a| ensures Numeric(ToJson(a[i])) { ToJsonNumeric(a[i]); }
    case TTable(t) => forall k | k in t ensures Numeric(ToJson(t[k])) { ToJsonNumeric(t[k]); }
    case _ =>
  }

  lemma {:induction false} FromJsonToJson(j: Json)
    requires NoNull(j) && Numeric(j)
    ensures ToJson(FromJson(j).value) == j
  {
    match j
    case JArr(a) =>
      var b := FromJson(j).value.a;
      forall i | 0 <= i < |a| ensures ToJson(b[i]) == a[i] { FromJsonToJson(a[i]); }
      assert ToJson(TArr(b)).a == a;
    case JObj(o) =>
      var t := FromJson(j).value.t;
      forall k | k in o ensures k in t && ToJson(t[k]) == o[k] { FromJsonToJson(o[k]); }
      assert ToJson(TTable(t)).o == o;
    case _ =>
  }

  // ── the loop over a table ──

  /** `toml_to_json`: tables are filled entry by entry. */
  method TomlToJson(v: Toml) returns (j: Json)
    ensures j == ToJson(v)
    decreases v, 1
  {
    match v {
      case TStr(s) => j := JStr(s);
      case TInt(n) => j := JInt(n);
      case TFloat(bits) => j := if Finite(bits) then JFloat(bits) else JNull;
      case TBool(b) => j := JBool(b);
      case TDate(rust, _) => j := JStr(rust);
      case TArr(_) => j := ArrayToJson(v);
      case TTable(_) => j := TableToJson(v);
    }
  }

  method ArrayToJson(v: Toml) returns (j: Json)
    requires v.TArr?
    ensures j == ToJson(v)
    decreases v, 0
  {
    var out := [];
    for i := 0 to |v.a|
      invariant |out| == i && forall k :: 0 <= k < i ==> out[k] == ToJson(v.a[k])
    {
      var x := TomlToJson(v.a[i]);
      out := out + [x];
    }
    j := JArr(out);
  }

  method TableToJson(v: Toml) returns (j: Json)
    requires v.TTable?
    ensures j == ToJson(v)
    decreases v, 0
  {
    var sorted: map<string, Json> := map[];
    var left := v.t.Keys;
    while left != {}
      invariant left <= v.t.Keys && sorted.Keys == v.t.Keys - left
      invariant forall k :: k in sorted ==> sorted[k] == ToJson(v.t[k])
      decreases |left|
    {
      var k :| k in left;
      var x := TomlToJson(v.t[k]);
      sorted := sorted[k := x];
      left := left - {k};
    }
    j := JObj(sorted);
  }
}
