/** JSON-shaped Python values: what `json.loads` produces and what `json.dump` writes. */
module Json {
  import opened Wrappers

  datatype Value =
    | Null
    | Bool(b: bool)
    | Int(i: int)
    | Float(f: real)
    | Str(s: string)
    | Arr(items: seq<Value>)
    | Obj(fields: map<string, Value>)

  /** A Python dict with string keys and JSON values: a chunk's metadata, an enrichment, a stored record. */
  type Record = map<string, Value>

  /** The strings of a list whose items are all strings; None as soon as one item is not. */
  function StrItems(vs: seq<Value>): (r: Option<seq<string>>)
    ensures r.Some? ==> |r.value| == |vs| && forall i :: 0 <= i < |vs| ==> vs[i] == Str(r.value[i])
    ensures r.None? ==> exists i :: 0 <= i < |vs| && !vs[i].Str?
  {
    if vs == [] then Some([])
    else if !vs[0].Str? then None
    else
      match StrItems(vs[1..])
      case None =>
        ghost var i :| 0 <= i < |vs[1..]| && !vs[1..][i].Str?;
        assert !vs[i + 1].Str?;
        None
      case Some(rest) => Some([vs[0].s] + rest)
  }

  /** A `List[str]` value read back as Dafny strings. */
  function AsStrings(v: Value): Option<seq<string>> {
    if v.Arr? then StrItems(v.items) else None
  }

  /** A Dafny sequence of strings as a JSON list of strings. */
  function StrArray(ss: seq<string>): Value {
    Arr(seq(|ss|, i requires 0 <= i < |ss| => Str(ss[i])))
  }

  /** StrArray and AsStrings are inverse to each other, in both directions. */
  lemma StrArrayRoundTrip(ss: seq<string>, v: Value)
    ensures AsStrings(StrArray(ss)) == Some(ss)
    ensures AsStrings(v) == Some(ss) ==> StrArray(ss) == v
  {
    var r := StrItems(StrArray(ss).items);
    assert r.Some? by {
      assert forall i :: 0 <= i < |ss| ==> StrArray(ss).items[i].Str?;
    }
    assert r.value == ss;
    if AsStrings(v) == Some(ss) {
      assert StrArray(ss).items == v.items;
    }
  }
}
