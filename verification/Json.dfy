/**
 * JSON value trees, as serde_json sees them, and the field readers that serde derives.
 * A number is an integer or the bit pattern of an IEEE 754 double.
 */
module Json {
  import opened Wrappers

  datatype Json =
    | JNull
    | JBool(b: bool)
    | JInt(n: int)
    | JFloat(bits: nat)
    | JStr(s: string)
    | JArr(a: seq<Json>)
    | JObj(o: map<string, Json>)

  /** `Value::get(key)`. */
  function Field(j: Json, k: string): Option<Json>
  {
    if j.JObj? && k in j.o then Some(j.o[k]) else None
  }

  /** The object `j` has this field with this value. */
  predicate HasField(j: Json, k: string, v: Json) { j.JObj? && k in j.o && j.o[k] == v }

  predicate Lacks(j: Json, k: string) { !j.JObj? || k !in j.o }

  /** `Value::as_str` after `get`. */
  function StrField(j: Json, k: string): Option<string>
  {
    var f := Field(j, k);
    if f.Some? && f.value.JStr? then Some(f.value.s) else None
  }

  lemma FieldHolds(j: Json, k: string)
    ensures forall v :: Field(j, k) == Some(v) <==> HasField(j, k, v)
    ensures forall s :: StrField(j, k) == Some(s) <==> HasField(j, k, JStr(s))
  {
  }

  /** A `#[serde(default)] Option<String>` field: absent and `null` both read as `None`. */
  function OptStrField(j: Json, k: string): Option<Option<string>>
  {
    match Field(j, k)
    case None => Some(None)
    case Some(JNull) => Some(None)
    case Some(JStr(s)) => Some(Some(s))
    case Some(_) => None
  }

  /** A required `u64` field. */
  function U64Field(j: Json, k: string): Option<nat>
  {
    var f := Field(j, k);
    if f.Some? && f.value.JInt? && 0 <= f.value.n < U64_LIMIT then Some(f.value.n) else None
  }

  /** A list in which one element that does not read refuses the whole. */
  function Every<A>(js: seq<Json>, read: Json -> Option<A>): (r: Option<seq<A>>)
    ensures r.Some? <==> forall i :: 0 <= i < |js| ==> read(js[i]).Some?
    ensures r.Some? ==> |r.value| == |js| && forall i :: 0 <= i < |js| ==> read(js[i]) == Some(r.value[i])
  {
    if js == [] then Some([])
    else
      var x := read(js[0]);
      var rest := Every(js[1..], read);
      if x.Some? && rest.Some? then Some([x.value] + rest.value) else None
  }

  lemma EveryAppend<A>(xs: seq<Json>, ys: seq<Json>, read: Json -> Option<A>)
    requires Every(xs, read).Some? && Every(ys, read).Some?
    ensures Every(xs + ys, read) == Some(Every(xs, read).value + Every(ys, read).value)
  {
    var all := xs + ys;
    assert forall i :: 0 <= i < |xs| ==> all[i] == xs[i];
    assert forall i :: |xs| <= i < |all| ==> all[i] == ys[i - |xs|];
    EverySeq(all, read, Every(xs, read).value + Every(ys, read).value);
  }

  lemma EverySeq<A>(js: seq<Json>, read: Json -> Option<A>, out: seq<A>)
    requires |out| == |js| && forall i :: 0 <= i < |js| ==> read(js[i]) == Some(out[i])
    ensures Every(js, read) == Some(out)
  {
    assert Every(js, read).value == out;
  }
}
