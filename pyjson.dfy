/** JSON values as `json.load` returns them, and the Python operations the modelled code
    applies to them: `in`, `[]` with a string key, iteration, `.items()`, `str()`, string
    concatenation and `sep.join`. Each operation raises what Python raises for a value of
    the wrong type. */
module PyJson {
  import opened Wrappers
  import opened Strings

  /** None, bool, int, float, str, list, or dict with its keys in insertion order. */
  datatype Json =
    | JNull
    | JBool(b: bool)
    | JInt(i: int)
    | JFloat(f: real)
    | JStr(s: string)
    | JList(elems: seq<Json>)
    | JObj(fields: seq<(string, Json)>)

  /** Python's `x is None` on what a JSON reader returned: None stands for a file that could
      not be read, and a file holding the literal `null` loads as None too. */
  predicate IsNone(j: Option<Json>) {
    j.None? || j.value.JNull?
  }

  /** The value stored under `key` in a dict's fields. */
  function Lookup(fields: seq<(string, Json)>, key: string): (r: Option<Json>)
    ensures r.Some? <==> exists i :: 0 <= i < |fields| && fields[i].0 == key
    ensures r.Some? ==> exists i :: 0 <= i < |fields| && fields[i] == (key, r.value)
  {
    if fields == [] then None
    else if fields[0].0 == key then Some(fields[0].1)
    else
      var r := Lookup(fields[1..], key);
      assert forall i :: 0 <= i < |fields| - 1 ==> fields[1..][i] == fields[i + 1];
      r
  }

  /** `key in j`: key test on a dict, element test on a list, substring test on a str;
      any other value raises TypeError. */
  function In(j: Json, key: string): (r: Outcome<bool>)
    ensures r.Raised? <==> !(j.JObj? || j.JList? || j.JStr?)
    ensures j.JObj? ==> r == Returned(Lookup(j.fields, key).Some?)
  {
    match j
    case JObj(fs) => Returned(Lookup(fs, key).Some?)
    case JList(es) => Returned(JStr(key) in es)
    case JStr(s) => Returned(Contains(s, key))
    case _ => Raised(TypeError)
  }

  /** `j[key]` with a string key: KeyError on a dict without it, TypeError on anything but a dict. */
  function Get(j: Json, key: string): (r: Outcome<Json>)
    ensures r.Returned? <==> j.JObj? && Lookup(j.fields, key).Some?
    ensures !j.JObj? ==> r == Raised(TypeError)
  {
    match j
    case JObj(fs) =>
      (match Lookup(fs, key)
       case Some(v) => Returned(v)
       case None => Raised(KeyError))
    case _ => Raised(TypeError)
  }

  /** `for x in j`: the keys of a dict, the elements of a list, the characters of a str. */
  function Iter(j: Json): (r: Outcome<seq<Json>>)
    ensures r.Raised? <==> !(j.JObj? || j.JList? || j.JStr?)
    ensures j.JList? ==> r == Returned(j.elems)
  {
    match j
    case JObj(fs) => Returned(seq(|fs|, i requires 0 <= i < |fs| => JStr(fs[i].0)))
    case JList(es) => Returned(es)
    case JStr(s) => Returned(seq(|s|, i requires 0 <= i < |s| => JStr([s[i]])))
    case _ => Raised(TypeError)
  }

  /** `j.items()`: only a dict has it. */
  function Items(j: Json): (r: Outcome<seq<(string, Json)>>)
    ensures r.Returned? <==> j.JObj?
  {
    if j.JObj? then Returned(j.fields) else Raised(AttributeError)
  }

  /** `str(j)`. Scalars are rendered as Python renders them; a float, a list and a dict go
      through `repr`, which the model does not interpret. */
  function Str(j: Json, repr: Json -> string): (r: string)
    ensures j.JStr? ==> r == j.s
    ensures j.JInt? ==> ParseInt(r) == Some(j.i)
  {
    match j
    case JNull => "None"
    case JBool(b) => if b then "True" else "False"
    case JInt(n) => ParseIntOfIntToString(n); IntToString(n)
    case JStr(s) => s
    case _ => repr(j)
  }

  /** `a + b` for a str `a`: only another str can be appended. */
  function Cat(a: string, b: Json): (r: Outcome<string>)
    ensures r.Returned? <==> b.JStr?
    ensures r.Returned? ==> r.value == a + b.s
  {
    if b.JStr? then Returned(a + b.s) else Raised(TypeError)
  }

  predicate AllStr(js: seq<Json>) {
    forall i :: 0 <= i < |js| ==> js[i].JStr?
  }

  function Strs(js: seq<Json>): (r: seq<string>)
    requires AllStr(js)
    ensures |r| == |js|
    ensures forall i :: 0 <= i < |js| ==> r[i] == js[i].s
  {
    seq(|js|, i requires 0 <= i < |js| => js[i].s)
  }

  /** `sep.join(j)`: iterates `j`, and every item must be a str. */
  function JoinJson(sep: string, j: Json): (r: Outcome<string>)
    ensures r.Returned? <==> Iter(j).Returned? && AllStr(Iter(j).value)
    ensures j.JList? && AllStr(j.elems) ==> r == Returned(JoinWith(sep, Strs(j.elems)))
  {
    match Iter(j)
    case Raised(e) => Raised(e)
    case Returned(items) => if AllStr(items) then Returned(JoinWith(sep, Strs(items))) else Raised(TypeError)
  }
}
