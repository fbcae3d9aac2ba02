/** What the two installer builders share: reading a JSON file, the exits of `cleanexit`,
    and the pieces of the pynsist configuration that both emit the same way. The
    configuration text is built by appending, section by section and item by item, and a
    missing entry ends the run with an exit code. */
module Pynsist {
  import opened Wrappers
  import opened Strings
  import opened PyJson

  /** What opening and decoding a JSON file gives. */
  datatype JsonFile = Unreadable | Malformed(error: string) | Parsed(json: Json)

  /** The end of a run: a value, `cleanexit(code, message)`, or an uncaught exception. */
  datatype Run<+T> = Ok(value: T) | Exit(code: int, message: string) | Fail(exc: Exc)

  /** An exit or an exception, passed on unchanged. */
  function Stop<T, U>(r: Run<T>): (s: Run<U>)
    requires !r.Ok?
    ensures s.Exit? <==> r.Exit?
    ensures s.Exit? ==> s.code == r.code && s.message == r.message
    ensures s.Fail? ==> s.exc == r.exc
  {
    match r
    case Exit(c, m) => Exit(c, m)
    case Fail(e) => Fail(e)
  }

  function Lift<T>(o: Outcome<T>): (r: Run<T>)
    ensures r.Ok? <==> o.Returned?
    ensures r.Ok? ==> r.value == o.value
    ensures r.Fail? ==> r.exc == o.exc
  {
    match o
    case Returned(v) => Ok(v)
    case Raised(e) => Fail(e)
  }

  /** `readJSON(path)`: a file that cannot be opened exits with 1, one that is no JSON with 2. */
  function ReadJson(files: string -> JsonFile, path: string): (r: Run<Json>)
    ensures r.Ok? <==> files(path).Parsed?
    ensures r.Ok? ==> r.value == files(path).json
    ensures (r.Exit? && r.code == 1) <==> files(path).Unreadable?
    ensures (r.Exit? && r.code == 2) <==> files(path).Malformed?
    ensures !r.Fail?
  {
    match files(path)
    case Unreadable => Exit(1, "Cannot read JSON " + path)
    case Malformed(e) => Exit(2, "JSON format error in " + path + " > " + e)
    case Parsed(j) => Ok(j)
  }

  /** `if key not in j: cleanexit(code, message)`. */
  function Check(j: Json, key: string, code: int, message: string): (r: Run<string>)
    ensures r.Ok? <==> In(j, key) == Returned(true)
    ensures r.Ok? ==> r.value == ""
    ensures r.Exit? <==> In(j, key) == Returned(false)
    ensures r.Exit? ==> r.code == code && r.message == message
  {
    match In(j, key)
    case Raised(e) => Fail(e)
    case Returned(present) => if present then Ok("") else Exit(code, message)
  }

  /** The check, then `j[key]`. */
  function Require(j: Json, key: string, code: int, message: string): (r: Run<Json>)
    ensures r.Ok? <==> Get(j, key).Returned?
    ensures r.Ok? ==> r.value == Get(j, key).value
    ensures r.Exit? <==> In(j, key) == Returned(false)
    ensures r.Exit? ==> r.code == code && r.message == message
  {
    var c := Check(j, key, code, message);
    if !c.Ok? then Stop(c) else Lift(Get(j, key))
  }

  /** `a + b` on two pieces of text, the first exit or exception winning. */
  function Then(a: Run<string>, b: Run<string>): (r: Run<string>)
    ensures r.Ok? <==> a.Ok? && b.Ok?
    ensures r.Ok? ==> r.value == a.value + b.value
    ensures !a.Ok? ==> r == a
    ensures a.Ok? && !b.Ok? ==> r == b
  {
    if !a.Ok? then a else if !b.Ok? then b else Ok(a.value + b.value)
  }

  /** The text a loop appends when it adds `f(x)` for each `x` in turn, ending at the
      first exit or exception. */
  function Emit<T>(xs: seq<T>, f: T -> Run<string>): Run<string>
  {
    if xs == [] then Ok("") else Then(Emit(xs[..|xs| - 1], f), f(xs[|xs| - 1]))
  }

  /** Once an item ends the run, the items after it are not looked at. */
  lemma {:induction false} EmitStops<T>(xs: seq<T>, k: nat, f: T -> Run<string>)
    requires k <= |xs| && !Emit(xs[..k], f).Ok?
    ensures Emit(xs, f) == Emit(xs[..k], f)
    decreases |xs|
  {
    if k < |xs| {
      var init := xs[..|xs| - 1];
      assert init[..k] == xs[..k];
      EmitStops(init, k, f);
    } else {
      assert xs[..k] == xs;
    }
  }

  /** One more item appends its text, or ends the run. */
  lemma EmitSnoc<T>(xs: seq<T>, k: nat, f: T -> Run<string>)
    requires k < |xs|
    ensures Emit(xs[..k + 1], f) == Then(Emit(xs[..k], f), f(xs[k]))
  {
    assert xs[..k + 1][..k] == xs[..k];
  }

  /** The whole text is emitted exactly when every item is. */
  lemma {:induction false} EmitOk<T>(xs: seq<T>, f: T -> Run<string>)
    ensures Emit(xs, f).Ok? <==> forall i :: 0 <= i < |xs| ==> f(xs[i]).Ok?
  {
    if xs != [] {
      var init := xs[..|xs| - 1];
      EmitOk(init, f);
      assert forall i :: 0 <= i < |init| ==> init[i] == xs[i];
    }
  }

  /** The first item that does not emit decides how the run ends. */
  lemma {:induction false} EmitFirstFailure<T>(xs: seq<T>, f: T -> Run<string>, k: nat)
    requires k < |xs|
    requires forall i :: 0 <= i < k ==> f(xs[i]).Ok?
    requires !f(xs[k]).Ok?
    ensures Emit(xs, f) == f(xs[k])
  {
    var pre := xs[..k];
    assert forall i :: 0 <= i < k ==> pre[i] == xs[i];
    EmitOk(pre, f);
    assert xs[..k + 1][..k] == pre;
    EmitStops(xs, k + 1, f);
  }

  /** A loop over three items appends their texts in order. */
  lemma Emit3<T>(a: T, b: T, c: T, f: T -> Run<string>)
    ensures Emit([a, b, c], f) == Then(Then(f(a), f(b)), f(c))
  {
    assert [a, b, c][..2] == [a, b];
    assert [a, b][..1] == [a];
    assert [a][..0] == [];
    assert Emit([a], f) == f(a) by {
      if f(a).Ok? {
        assert "" + f(a).value == f(a).value;
      }
    }
  }

  /** `name + "=" + v + "\n"`: only a str can be appended. */
  function StrLine(name: string, v: Json): (r: Run<string>)
    ensures r.Ok? <==> v.JStr?
    ensures r.Ok? ==> r.value == name + "=" + v.s + "\n"
    ensures !r.Exit?
  {
    if v.JStr? then Ok(name + "=" + v.s + "\n") else Fail(TypeError)
  }

  // ---------------------------------------------------------------------------
  // The Application lines that come from the makehuman configuration

  /** The `name` line taken from the configuration's `key`; exit 4 when it is missing. */
  function MhLine(mh: Json, key: string, name: string, mhconfig: string): (r: Run<string>)
    ensures r.Ok? <==> Get(mh, key).Returned? && Get(mh, key).value.JStr?
    ensures r.Ok? ==> r.value == name + "=" + Get(mh, key).value.s + "\n"
    ensures r.Exit? <==> In(mh, key) == Returned(false)
    ensures r.Exit? ==> r.code == 4 && r.message == "Missing " + key + " in " + mhconfig
  {
    var v := Require(mh, key, 4, "Missing " + key + " in " + mhconfig);
    if !v.Ok? then Stop(v) else StrLine(name, v.value)
  }

  /** `str(num)` of every number of a version. */
  function StrAll(xs: seq<Json>, repr: Json -> string): (r: seq<string>)
    ensures |r| == |xs|
    ensures forall i :: 0 <= i < |xs| ==> r[i] == Str(xs[i], repr)
  {
    seq(|xs|, i requires 0 <= i < |xs| => Str(xs[i], repr))
  }

  /** The version line: the numbers of the configuration's version joined by ".". */
  function VersionLine(mh: Json, mhconfig: string, repr: Json -> string): (r: Run<string>)
    ensures r.Exit? <==> In(mh, "version") == Returned(false)
    ensures r.Exit? ==> r.code == 4
    ensures r.Ok? <==> Get(mh, "version").Returned? && Iter(Get(mh, "version").value).Returned?
    ensures r.Ok? ==> r.value == "version=" + JoinWith(".", StrAll(Iter(Get(mh, "version").value).value, repr)) + "\n"
  {
    var v := Require(mh, "version", 4, "Missing version in " + mhconfig);
    if !v.Ok? then Stop(v)
    else
      match Iter(v.value)
      case Raised(e) => Fail(e)
      case Returned(nums) => Ok("version=" + JoinWith(".", StrAll(nums, repr)) + "\n")
  }

  /** A version given as a list of integers splits back into exactly those integers. */
  lemma {:induction false} VersionOfInts(ns: seq<int>, repr: Json -> string)
    requires |ns| >= 1
    ensures var nums := seq(|ns|, i requires 0 <= i < |ns| => JInt(ns[i]));
      var parts := SplitOn(JoinWith(".", StrAll(nums, repr)), '.');
      |parts| == |ns| && forall i :: 0 <= i < |ns| ==> ParseInt(parts[i]) == Some(ns[i])
  {
    var nums := seq(|ns|, i requires 0 <= i < |ns| => JInt(ns[i]));
    var strs := StrAll(nums, repr);
    forall i, j | 0 <= i < |strs| && 0 <= j < |strs[i]|
      ensures strs[i][j] != '.'
    {
      assert strs[i] == IntToString(ns[i]);
      var digits := NatToString(if ns[i] < 0 then -ns[i] else ns[i]);
      assert AllDigits(digits);
      assert strs[i] == digits || strs[i] == "-" + digits;
      assert strs[i][j] == '-' || IsDigit(strs[i][j]);
    }
    SplitOnJoin(strs, '.');
    forall i | 0 <= i < |ns|
      ensures ParseInt(strs[i]) == Some(ns[i])
    {
      assert Str(nums[i], repr) == strs[i];
    }
  }

  // ---------------------------------------------------------------------------
  // The Python section

  const PythonKeys: seq<string> := ["version", "bitness", "format"]

  /** One line of the Python section: the value rendered with `str`; exit 4 when missing. */
  function PythonItem(pyth: Json, item: string, repr: Json -> string): (r: Run<string>)
    ensures r.Ok? <==> Get(pyth, item).Returned?
    ensures r.Ok? ==> r.value == item + "=" + Str(Get(pyth, item).value, repr) + "\n"
    ensures r.Exit? <==> In(pyth, item) == Returned(false)
    ensures r.Exit? ==> r.code == 4 && r.message == "Missing " + item + " in Python"
  {
    var v := Require(pyth, item, 4, "Missing " + item + " in Python");
    if !v.Ok? then Stop(v) else Ok(item + "=" + Str(v.value, repr) + "\n")
  }

  /** The Python section has the version, bitness and format lines, in that order. */
  lemma PythonText(pyth: Json, repr: Json -> string)
    requires Get(pyth, "version").Returned? && Get(pyth, "bitness").Returned? && Get(pyth, "format").Returned?
    ensures Emit(PythonKeys, item => PythonItem(pyth, item, repr)) ==
      Ok("version" + "=" + Str(Get(pyth, "version").value, repr) + "\n"
         + ("bitness" + "=" + Str(Get(pyth, "bitness").value, repr) + "\n")
         + ("format" + "=" + Str(Get(pyth, "format").value, repr) + "\n"))
  {
    var f := item => PythonItem(pyth, item, repr);
    Emit3("version", "bitness", "format", f);
    assert f("version") == Ok("version" + "=" + Str(Get(pyth, "version").value, repr) + "\n");
    assert f("bitness") == Ok("bitness" + "=" + Str(Get(pyth, "bitness").value, repr) + "\n");
    assert f("format") == Ok("format" + "=" + Str(Get(pyth, "format").value, repr) + "\n");
  }

  method EmitPython(pyth: Json, repr: Json -> string) returns (r: Run<string>)
    ensures r == Emit(PythonKeys, item => PythonItem(pyth, item, repr))
  {
    var keys := PythonKeys;
    ghost var f := item => PythonItem(pyth, item, repr);
    var text := "";
    var i := 0;
    while i < |keys|
      invariant 0 <= i <= |keys|
      invariant Emit(keys[..i], f) == Ok(text)
    {
      var item := keys[i];
      EmitSnoc(keys, i, f);
      var present := In(pyth, item);
      if present.Raised? {
        EmitStops(keys, i + 1, f);
        return Fail(present.exc);
      }
      if !present.value {
        EmitStops(keys, i + 1, f);
        return Exit(4, "Missing " + item + " in Python");
      }
      var v := Get(pyth, item);
      if v.Raised? {
        EmitStops(keys, i + 1, f);
        return Fail(v.exc);
      }
      text := text + (item + "=" + Str(v.value, repr) + "\n");
      i := i + 1;
    }
    assert keys[..|keys|] == keys;
    r := Ok(text);
  }

  // ---------------------------------------------------------------------------
  // The Include section

  const IncludeKeys: seq<string> := ["packages", "pypi_wheels", "files"]

  /** `for elem in j: outtext += line(elem)`. */
  function Lines(j: Json, line: Json -> Run<string>): (r: Run<string>)
    ensures Iter(j).Raised? ==> r == Fail(Iter(j).exc)
    ensures Iter(j).Returned? ==> r == Emit(Iter(j).value, line)
  {
    match Iter(j)
    case Raised(e) => Fail(e)
    case Returned(xs) => Emit(xs, line)
  }

  /** One wheel: `name==version`. */
  function WheelLine(wheels: Json, elem: Json): (r: Run<string>)
    ensures r.Ok? <==> elem.JStr? && Get(wheels, elem.s).Returned? && Get(wheels, elem.s).value.JStr?
    ensures r.Ok? ==> r.value == elem.s + "==" + Get(wheels, elem.s).value.s + "\n"
    ensures !r.Exit?
  {
    if !elem.JStr? then Fail(TypeError)
    else
      match Get(wheels, elem.s)
      case Raised(e) => Fail(e)
      case Returned(v) => if v.JStr? then Ok(elem.s + "==" + v.s + "\n") else Fail(TypeError)
  }

  /** The Include items: nothing for "packages", then the wheels after "pypi_wheels= ",
      then the files after "\nfiles= ", each file as `fileLine` renders it. */
  function IncludeItem(incl: Json, item: string, fileLine: Json -> Run<string>): (r: Run<string>)
    ensures item !in {"pypi_wheels", "files"} ==> r == Ok("")
    ensures item == "pypi_wheels" && r.Ok? ==>
      (Get(incl, "pypi_wheels").Returned? &&
       Lines(Get(incl, "pypi_wheels").value, e => WheelLine(Get(incl, "pypi_wheels").value, e)).Ok? &&
       r.value == "pypi_wheels= " + Lines(Get(incl, "pypi_wheels").value, e => WheelLine(Get(incl, "pypi_wheels").value, e)).value)
    ensures item == "files" && r.Ok? ==>
      (Get(incl, "files").Returned? &&
       Lines(Get(incl, "files").value, fileLine).Ok? &&
       r.value == "\nfiles= " + Lines(Get(incl, "files").value, fileLine).value)
  {
    if item == "pypi_wheels" then
      match Get(incl, "pypi_wheels")
      case Raised(e) => Fail(e)
      case Returned(wheels) => Then(Ok("pypi_wheels= "), Lines(wheels, e => WheelLine(wheels, e)))
    else if item == "files" then
      match Get(incl, "files")
      case Raised(e) => Fail(e)
      case Returned(files) => Then(Ok("\nfiles= "), Lines(files, fileLine))
    else Ok("")
  }

  /** Every item of the Include section emits without an exit: the section only raises. */
  lemma {:induction false} IncludeNeverExits(incl: Json, fileLine: Json -> Run<string>)
    requires forall e :: !fileLine(e).Exit?
    ensures !Emit(IncludeKeys, item => IncludeItem(incl, item, fileLine)).Exit?
  {
    var f := item => IncludeItem(incl, item, fileLine);
    Emit3("packages", "pypi_wheels", "files", f);
    if Get(incl, "pypi_wheels").Returned? {
      var wheels := Get(incl, "pypi_wheels").value;
      if Iter(wheels).Returned? {
        EmitNeverExits(Iter(wheels).value, e => WheelLine(wheels, e));
      }
    }
    if Get(incl, "files").Returned? && Iter(Get(incl, "files").value).Returned? {
      EmitNeverExits(Iter(Get(incl, "files").value).value, fileLine);
    }
  }

  lemma {:induction false} EmitNeverExits<T>(xs: seq<T>, f: T -> Run<string>)
    requires forall i :: 0 <= i < |xs| ==> !f(xs[i]).Exit?
    ensures !Emit(xs, f).Exit?
  {
    if xs != [] {
      var init := xs[..|xs| - 1];
      assert forall i :: 0 <= i < |init| ==> init[i] == xs[i];
      EmitNeverExits(init, f);
    }
  }

  method EmitLines(elems: seq<Json>, line: Json -> Run<string>) returns (r: Run<string>)
    ensures r == Emit(elems, line)
  {
    var text := "";
    var j := 0;
    while j < |elems|
      invariant 0 <= j <= |elems|
      invariant Emit(elems[..j], line) == Ok(text)
    {
      EmitSnoc(elems, j, line);
      var l := line(elems[j]);
      if !l.Ok? {
        EmitStops(elems, j + 1, line);
        return l;
      }
      text := text + l.value;
      j := j + 1;
    }
    assert elems[..|elems|] == elems;
    r := Ok(text);
  }

  method EmitInclude(incl: Json, fileLine: Json -> Run<string>) returns (r: Run<string>)
    ensures r == Emit(IncludeKeys, item => IncludeItem(incl, item, fileLine))
  {
    var keys := IncludeKeys;
    ghost var f := item => IncludeItem(incl, item, fileLine);
    var text := "";
    var i := 0;
    while i < |keys|
      invariant 0 <= i <= |keys|
      invariant Emit(keys[..i], f) == Ok(text)
    {
      var item := keys[i];
      EmitSnoc(keys, i, f);
      if item == "pypi_wheels" || item == "files" {
        var head := if item == "pypi_wheels" then "pypi_wheels= " else "\nfiles= ";
        var v := Get(incl, item);
        if v.Raised? {
          EmitStops(keys, i + 1, f);
          return Fail(v.exc);
        }
        var elems := Iter(v.value);
        if elems.Raised? {
          EmitStops(keys, i + 1, f);
          return Fail(elems.exc);
        }
        var body;
        if item == "pypi_wheels" {
          body := EmitLines(elems.value, e => WheelLine(v.value, e));
        } else {
          body := EmitLines(elems.value, fileLine);
        }
        assert f(item) == Then(Ok(head), body);
        if !body.Ok? {
          EmitStops(keys, i + 1, f);
          return body;
        }
        text := text + (head + body.value);
      }
      i := i + 1;
    }
    assert keys[..|keys|] == keys;
    r := Ok(text);
  }

  // ---------------------------------------------------------------------------
  // Sections

  const Categories: seq<string> := ["Application", "Python", "Include"]

  /** A section: exit 3 when the category is missing, else its header "\n[cat]\n" and its body. */
  function Section(pynsist: Json, cat: string, body: Json -> Run<string>, conf: string): (r: Run<string>)
    ensures In(pynsist, cat) == Returned(false) ==> r == Exit(3, "Missing " + cat + " in " + conf)
    ensures r.Ok? <==> Get(pynsist, cat).Returned? && body(Get(pynsist, cat).value).Ok?
    ensures r.Ok? ==> r.value == "\n[" + cat + "]\n" + body(Get(pynsist, cat).value).value
  {
    var v := Require(pynsist, cat, 3, "Missing " + cat + " in " + conf);
    if !v.Ok? then Stop(v) else Then(Ok("\n[" + cat + "]\n"), body(v.value))
  }

  // ---------------------------------------------------------------------------
  // The Application section

  const AppKeys: seq<string> := ["name", "version", "publisher", "script", "icon"]

  /** The name, version and publisher lines, which come from the makehuman configuration:
      its "name", its "version" and its "copyright". */
  function ConfigItem(item: string, mh: Json, mhconfig: string, repr: Json -> string): Run<string> {
    if item == "name" then MhLine(mh, "name", "name", mhconfig)
    else if item == "version" then VersionLine(mh, mhconfig, repr)
    else MhLine(mh, "copyright", "publisher", mhconfig)
  }

  /** One Application item: exit 4 unless the item is listed; name, version and
      publisher from the makehuman configuration; the other items as `other` renders
      the listed value. */
  function AppItem(appl: Json, item: string, mh: Json, mhconfig: string,
                   other: (string, Json) -> Run<string>, repr: Json -> string): (r: Run<string>)
    ensures In(appl, item) == Returned(false) ==> r == Exit(4, "Missing " + item + " in Application")
    ensures r.Ok? ==> In(appl, item) == Returned(true)
    ensures In(appl, item) == Returned(true) && item in {"name", "version", "publisher"} ==>
      r == ConfigItem(item, mh, mhconfig, repr)
    ensures In(appl, item) == Returned(true) && item !in {"name", "version", "publisher"} ==>
      r == (if Get(appl, item).Returned? then other(item, Get(appl, item).value) else Fail(Get(appl, item).exc))
  {
    var c := Check(appl, item, 4, "Missing " + item + " in Application");
    if !c.Ok? then c
    else if item in {"name", "version", "publisher"} then ConfigItem(item, mh, mhconfig, repr)
    else
      match Get(appl, item)
      case Raised(e) => Fail(e)
      case Returned(v) => other(item, v)
  }

  /** A complete Application section lists all five items, and the makehuman
      configuration has a str name and copyright and an iterable version. */
  lemma ApplicationRequired(appl: Json, mh: Json, mhconfig: string, other: (string, Json) -> Run<string>, repr: Json -> string)
    requires Emit(AppKeys, item => AppItem(appl, item, mh, mhconfig, other, repr)).Ok?
    ensures forall i :: 0 <= i < |AppKeys| ==> In(appl, AppKeys[i]) == Returned(true)
    ensures Get(mh, "name").Returned? && Get(mh, "name").value.JStr?
    ensures Get(mh, "copyright").Returned? && Get(mh, "copyright").value.JStr?
    ensures Get(mh, "version").Returned? && Iter(Get(mh, "version").value).Returned?
  {
    var f := item => AppItem(appl, item, mh, mhconfig, other, repr);
    EmitOk(AppKeys, f);
    assert f(AppKeys[0]).Ok? && f(AppKeys[1]).Ok? && f(AppKeys[2]).Ok?;
  }

  /** The first Application item that is not listed ends the run with exit 4. */
  lemma ApplicationMissing(appl: Json, mh: Json, mhconfig: string, other: (string, Json) -> Run<string>,
                           repr: Json -> string, k: nat)
    requires k < |AppKeys|
    requires forall i :: 0 <= i < k ==> AppItem(appl, AppKeys[i], mh, mhconfig, other, repr).Ok?
    requires In(appl, AppKeys[k]) == Returned(false)
    ensures Emit(AppKeys, item => AppItem(appl, item, mh, mhconfig, other, repr)) ==
      Exit(4, "Missing " + AppKeys[k] + " in Application")
  {
    EmitFirstFailure(AppKeys, item => AppItem(appl, item, mh, mhconfig, other, repr), k);
  }

  method EmitApplication(appl: Json, appItem: (Json, string) -> Run<string>) returns (r: Run<string>)
    ensures r == Emit(AppKeys, item => appItem(appl, item))
  {
    var keys := AppKeys;
    ghost var f := item => appItem(appl, item);
    var text := "";
    var i := 0;
    while i < |keys|
      invariant 0 <= i <= |keys|
      invariant Emit(keys[..i], f) == Ok(text)
    {
      EmitSnoc(keys, i, f);
      var line := appItem(appl, keys[i]);
      if !line.Ok? {
        EmitStops(keys, i + 1, f);
        return line;
      }
      text := text + line.value;
      i := i + 1;
    }
    assert keys[..|keys|] == keys;
    r := Ok(text);
  }

  // ---------------------------------------------------------------------------
  // The whole configuration

  /** The body of a section: the Application items as `appItem` renders them, the Python
      lines, or the Include items with the files as `fileLine` renders them. */
  function Body(cat: string, v: Json, appItem: (Json, string) -> Run<string>, fileLine: Json -> Run<string>,
                repr: Json -> string): Run<string> {
    if cat == "Application" then Emit(AppKeys, item => appItem(v, item))
    else if cat == "Python" then Emit(PythonKeys, item => PythonItem(v, item, repr))
    else Emit(IncludeKeys, item => IncludeItem(v, item, fileLine))
  }

  /** The section of one category, with that category's items as its body. */
  function Sectioned(pynsist: Json, cat: string, appItem: (Json, string) -> Run<string>, fileLine: Json -> Run<string>,
                     conf: string, repr: Json -> string): Run<string> {
    Section(pynsist, cat, v => Body(cat, v, appItem, fileLine, repr), conf)
  }

  /** The sections of the pynsist configuration, in the order Application, Python, Include. */
  function Sections(pynsist: Json, appItem: (Json, string) -> Run<string>, fileLine: Json -> Run<string>,
                    conf: string, repr: Json -> string): Run<string> {
    Emit(Categories, cat => Sectioned(pynsist, cat, appItem, fileLine, conf, repr))
  }

  /** A complete configuration is the Application, Python and Include sections in that
      order, each behind its header. */
  lemma SectionOrder(pynsist: Json, appItem: (Json, string) -> Run<string>, fileLine: Json -> Run<string>,
                     conf: string, repr: Json -> string)
    requires Sections(pynsist, appItem, fileLine, conf, repr).Ok?
    ensures Get(pynsist, "Application").Returned? && Get(pynsist, "Python").Returned? && Get(pynsist, "Include").Returned?
    ensures Body("Application", Get(pynsist, "Application").value, appItem, fileLine, repr).Ok?
    ensures Body("Python", Get(pynsist, "Python").value, appItem, fileLine, repr).Ok?
    ensures Body("Include", Get(pynsist, "Include").value, appItem, fileLine, repr).Ok?
    ensures Sections(pynsist, appItem, fileLine, conf, repr).value ==
      "\n[" + "Application" + "]\n" + Body("Application", Get(pynsist, "Application").value, appItem, fileLine, repr).value
      + ("\n[" + "Python" + "]\n" + Body("Python", Get(pynsist, "Python").value, appItem, fileLine, repr).value)
      + ("\n[" + "Include" + "]\n" + Body("Include", Get(pynsist, "Include").value, appItem, fileLine, repr).value)
  {
    var g := cat => Sectioned(pynsist, cat, appItem, fileLine, conf, repr);
    Emit3("Application", "Python", "Include", g);
    assert g("Application").Ok? && g("Python").Ok? && g("Include").Ok?;
  }

  /** The first category that is missing ends the run with exit 3. */
  lemma MissingCategory(pynsist: Json, appItem: (Json, string) -> Run<string>, fileLine: Json -> Run<string>,
                        conf: string, repr: Json -> string, k: nat)
    requires k < |Categories|
    requires forall i :: 0 <= i < k ==> Sectioned(pynsist, Categories[i], appItem, fileLine, conf, repr).Ok?
    requires In(pynsist, Categories[k]) == Returned(false)
    ensures Sections(pynsist, appItem, fileLine, conf, repr) == Exit(3, "Missing " + Categories[k] + " in " + conf)
  {
    EmitFirstFailure(Categories, cat => Sectioned(pynsist, cat, appItem, fileLine, conf, repr), k);
  }

  /** The items of one section, each category by its own loop. */
  method EmitBody(cat: string, v: Json, appItem: (Json, string) -> Run<string>, fileLine: Json -> Run<string>,
                  repr: Json -> string) returns (body: Run<string>)
    ensures body == Body(cat, v, appItem, fileLine, repr)
  {
    if cat == "Application" {
      body := EmitApplication(v, appItem);
    } else if cat == "Python" {
      body := EmitPython(v, repr);
    } else {
      body := EmitInclude(v, fileLine);
    }
  }

  /** One section: its header, then its items; exit 3 when the category is missing. */
  method EmitSection(pynsist: Json, cat: string, appItem: (Json, string) -> Run<string>, fileLine: Json -> Run<string>,
                     conf: string, repr: Json -> string) returns (r: Run<string>)
    ensures r == Sectioned(pynsist, cat, appItem, fileLine, conf, repr)
  {
    var present := In(pynsist, cat);
    if present.Raised? {
      return Fail(present.exc);
    }
    if !present.value {
      return Exit(3, "Missing " + cat + " in " + conf);
    }
    var v := Get(pynsist, cat);
    if v.Raised? {
      return Fail(v.exc);
    }
    var body := EmitBody(cat, v.value, appItem, fileLine, repr);
    r := Then(Ok("\n[" + cat + "]\n"), body);
  }

  /** The loop over the categories; each section's items are appended by their own loop. */
  method EmitSections(pynsist: Json, appItem: (Json, string) -> Run<string>, fileLine: Json -> Run<string>,
                      conf: string, repr: Json -> string) returns (r: Run<string>)
    ensures r == Sections(pynsist, appItem, fileLine, conf, repr)
  {
    r := EmitCategories(pynsist, Categories, appItem, fileLine, conf, repr);
  }

  /** The sections of `cats`, in order, up to the first that does not emit. */
  method EmitCategories(pynsist: Json, cats: seq<string>, appItem: (Json, string) -> Run<string>,
                        fileLine: Json -> Run<string>, conf: string, repr: Json -> string) returns (r: Run<string>)
    ensures r == Emit(cats, cat => Sectioned(pynsist, cat, appItem, fileLine, conf, repr))
  {
    ghost var g := cat => Sectioned(pynsist, cat, appItem, fileLine, conf, repr);
    var outtext := "";
    var c := 0;
    while c < |cats|
      invariant 0 <= c <= |cats|
      invariant Emit(cats[..c], g) == Ok(outtext)
    {
      var section := EmitSection(pynsist, cats[c], appItem, fileLine, conf, repr);
      EmitSnoc(cats, c, g);
      if !section.Ok? {
        EmitStops(cats, c + 1, g);
        return section;
      }
      outtext := outtext + section.value;
      c := c + 1;
    }
    assert cats[..|cats|] == cats;
    r := Ok(outtext);
  }
}
