/** The installer builder for Windows: as the plain build, but the configuration also
    names the pynsist directory and the repository, the script and the icon are copied
    into the pynsist directory, and the repository is copied without the ignored
    directories and files. */
module WinBuild {
  import opened Wrappers
  import opened Paths
  import opened PyJson
  import opened Pynsist

  /** The fields `evaluatePynsistCfg` sets. */
  datatype Setup = Setup(pynsistcfg: Option<Json>, pynsistdir: Option<string>, repodir: Option<string>,
                         ignoredirs: Json, ignorefiles: Json)

  const Defaults: Setup := Setup(None, None, None, JList([]), JList([]))

  /** Script and icon: the listed file is copied into the pynsist directory under its base
      name, and the line names the copy; a failed copy exits with 2. `copy` gives the
      error text of a failed copy. */
  function CopiedLine(pynsistdir: string, copy: (string, string) -> Option<string>, item: string, v: Json): (r: Run<string>)
    ensures r.Ok? <==> v.JStr? && copy(v.s, Join(pynsistdir, BaseName(v.s))).None?
    ensures r.Ok? ==> r.value == item + "=" + BaseName(v.s) + "\n"
    ensures r.Exit? <==> v.JStr? && copy(v.s, Join(pynsistdir, BaseName(v.s))).Some?
    ensures r.Exit? ==> r.code == 2
  {
    if !v.JStr? then Fail(TypeError)
    else
      var base := BaseName(v.s);
      match copy(v.s, Join(pynsistdir, base))
      case Some(error) => Exit(2, error)
      case None => Ok(item + "=" + base + "\n")
  }

  function AppLine(mh: Json, mhconfig: string, pynsistdir: string, copy: (string, string) -> Option<string>,
                   repr: Json -> string): (Json, string) -> Run<string> {
    (appl, item) => AppItem(appl, item, mh, mhconfig, (it, v) => CopiedLine(pynsistdir, copy, it, v), repr)
  }

  /** A file of the Include section: "_REPODIR_" stands for the repository name. */
  function RepoFile(reponame: string, elem: Json): (r: Run<string>)
    ensures elem == JStr("_REPODIR_") ==> r == Ok(reponame + "\n")
    ensures elem != JStr("_REPODIR_") ==> (r.Ok? <==> elem.JStr?)
    ensures elem != JStr("_REPODIR_") && r.Ok? ==> r.value == elem.s + "\n"
    ensures !r.Exit?
  {
    if elem == JStr("_REPODIR_") then Ok(reponame + "\n")
    else if elem.JStr? then Ok(elem.s + "\n")
    else Fail(TypeError)
  }

  function FileLine(reponame: string): Json -> Run<string> {
    e => RepoFile(reponame, e)
  }

  /** `evaluatePynsistCfg`: "pynsistfile", "pynsistdir", "reponame" and "mhconfigfile"
      are required (exit 3), the makehuman configuration is read, and then "pynsist" is
      required (exit 4). The directory and the repository name are joined as paths, so
      each must be a str. */
  function Evaluate(conf: string, tmp: string, files: string -> JsonFile, copy: (string, string) -> Option<string>,
                    repr: Json -> string): Run<string> {
    var top := ReadJson(files, conf);
    if !top.Ok? then Stop(top)
    else
      var cfg := Require(top.value, "pynsistfile", 3, "Missing 'pynsistfile' in " + conf);
      if !cfg.Ok? then Stop(cfg)
      else
        var dir := Require(top.value, "pynsistdir", 3, "Missing 'pynsistdir' in " + conf);
        if !dir.Ok? then Stop(dir)
        else if !dir.value.JStr? then Fail(TypeError)
        else
          var pynsistdir := Join(tmp, dir.value.s);
          var repo := Require(top.value, "reponame", 3, "Missing 'reponame' in " + conf);
          if !repo.Ok? then Stop(repo)
          else if !repo.value.JStr? then Fail(TypeError)
          else
            Rest(conf, top.value, pynsistdir, repo.value.s, files, copy, repr)
  }

  /** The part of `evaluatePynsistCfg` after the paths are known: the makehuman
      configuration, then "pynsist" and the sections. */
  function Rest(conf: string, top: Json, pynsistdir: string, reponame: string, files: string -> JsonFile,
                copy: (string, string) -> Option<string>, repr: Json -> string): Run<string> {
    var mhc := Require(top, "mhconfigfile", 3, "Missing 'mhconfigfile' in " + conf);
    if !mhc.Ok? then Stop(mhc)
    else if !mhc.value.JStr? then Fail(TypeError)
    else
      var mh := ReadJson(files, mhc.value.s);
      if !mh.Ok? then Stop(mh)
      else
        var pynsist := Require(top, "pynsist", 4, "Missing 'pynsist' in " + conf);
        if !pynsist.Ok? then Stop(pynsist)
        else Sections(pynsist.value, AppLine(mh.value, mhc.value.s, pynsistdir, copy, repr),
                      FileLine(reponame), conf, repr)
  }

  method EmitRest(conf: string, json: Json, pynsistdir: string, reponame: string, files: string -> JsonFile,
                  copy: (string, string) -> Option<string>, repr: Json -> string) returns (r: Run<string>)
    requires json.JObj?
    ensures r == Rest(conf, json, pynsistdir, reponame, files, copy, repr)
  {
    var has := In(json, "mhconfigfile");
    if !has.value {
      return Exit(3, "Missing 'mhconfigfile' in " + conf);
    }
    var mhconfig := Get(json, "mhconfigfile").value;
    if !mhconfig.JStr? {
      return Fail(TypeError);
    }
    var mhobject := ReadJson(files, mhconfig.s);
    if !mhobject.Ok? {
      return Stop(mhobject);
    }

    has := In(json, "pynsist");
    if !has.value {
      return Exit(4, "Missing 'pynsist' in " + conf);
    }
    var pynsist := Get(json, "pynsist").value;
    r := EmitSections(pynsist, AppLine(mhobject.value, mhconfig.s, pynsistdir, copy, repr),
                      FileLine(reponame), conf, repr);
  }

  /** The fields after `evaluatePynsistCfg`, each set when its step is reached; the ignore
      lists are replaced only when the configuration has them. */
  function Configure(conf: string, tmp: string, files: string -> JsonFile, s: Setup): Setup {
    var top := ReadJson(files, conf);
    if !top.Ok? || !Get(top.value, "pynsistfile").Returned? then s
    else
      var s1 := s.(pynsistcfg := Some(Get(top.value, "pynsistfile").value));
      var dir := Get(top.value, "pynsistdir");
      if !dir.Returned? || !dir.value.JStr? then s1
      else
        var pynsistdir := Join(tmp, dir.value.s);
        var s2 := s1.(pynsistdir := Some(pynsistdir));
        var repo := Get(top.value, "reponame");
        if !repo.Returned? || !repo.value.JStr? then s2
        else
          var s3 := s2.(repodir := Some(Join(pynsistdir, repo.value.s)));
          var s4 := if Get(top.value, "ignoredirs").Returned? then s3.(ignoredirs := Get(top.value, "ignoredirs").value) else s3;
          if Get(top.value, "ignorefiles").Returned? then s4.(ignorefiles := Get(top.value, "ignorefiles").value) else s4
  }

  /** The exits before any section is written, in the order of the checks. */
  lemma TopLevelExits(conf: string, tmp: string, files: string -> JsonFile, copy: (string, string) -> Option<string>,
                      repr: Json -> string, mhconfig: string)
    requires files(conf).Parsed?
    ensures In(files(conf).json, "pynsistfile") == Returned(false) ==>
      Evaluate(conf, tmp, files, copy, repr) == Exit(3, "Missing 'pynsistfile' in " + conf)
    ensures Get(files(conf).json, "pynsistfile").Returned? && In(files(conf).json, "pynsistdir") == Returned(false) ==>
      Evaluate(conf, tmp, files, copy, repr) == Exit(3, "Missing 'pynsistdir' in " + conf)
    ensures Get(files(conf).json, "pynsistfile").Returned? && Get(files(conf).json, "pynsistdir").Returned? &&
            Get(files(conf).json, "pynsistdir").value.JStr? && In(files(conf).json, "reponame") == Returned(false) ==>
      Evaluate(conf, tmp, files, copy, repr) == Exit(3, "Missing 'reponame' in " + conf)
    ensures Get(files(conf).json, "pynsistfile").Returned? && Get(files(conf).json, "pynsistdir").Returned? &&
            Get(files(conf).json, "pynsistdir").value.JStr? && Get(files(conf).json, "reponame").Returned? &&
            Get(files(conf).json, "reponame").value.JStr? && In(files(conf).json, "mhconfigfile") == Returned(false) ==>
      Evaluate(conf, tmp, files, copy, repr) == Exit(3, "Missing 'mhconfigfile' in " + conf)
    ensures Get(files(conf).json, "pynsistfile").Returned? && Get(files(conf).json, "pynsistdir").Returned? &&
            Get(files(conf).json, "pynsistdir").value.JStr? && Get(files(conf).json, "reponame").Returned? &&
            Get(files(conf).json, "reponame").value.JStr? && Get(files(conf).json, "mhconfigfile") == Returned(JStr(mhconfig)) &&
            In(files(conf).json, "pynsist") == Returned(false) ==>
      Evaluate(conf, tmp, files, copy, repr) ==
        match files(mhconfig)
        case Unreadable => Exit(1, "Cannot read JSON " + mhconfig)
        case Malformed(e) => Exit(2, "JSON format error in " + mhconfig + " > " + e)
        case Parsed(_) => Exit(4, "Missing 'pynsist' in " + conf)
  {
  }

  /** A run that produces the configuration has set the pynsist directory below `tmp`,
      the repository directory below it, and the ignore lists from the configuration
      where it names them and as they were otherwise. */
  lemma ConfiguredWhenOk(conf: string, tmp: string, files: string -> JsonFile, copy: (string, string) -> Option<string>,
                         repr: Json -> string, s: Setup)
    requires Evaluate(conf, tmp, files, copy, repr).Ok?
    ensures var top := files(conf).json;
      var c := Configure(conf, tmp, files, s);
      top.JObj? &&
      c.pynsistcfg == Some(Get(top, "pynsistfile").value) &&
      c.pynsistdir == Some(Join(tmp, Get(top, "pynsistdir").value.s)) &&
      c.repodir == Some(Join(Join(tmp, Get(top, "pynsistdir").value.s), Get(top, "reponame").value.s)) &&
      c.ignoredirs == (if Lookup(top.fields, "ignoredirs").Some? then Lookup(top.fields, "ignoredirs").value else s.ignoredirs) &&
      c.ignorefiles == (if Lookup(top.fields, "ignorefiles").Some? then Lookup(top.fields, "ignorefiles").value else s.ignorefiles)
  {
  }

  // ---------------------------------------------------------------------------
  // mkdir

  datatype Node = Dir | File

  /** `mkdir(folder)` on a file system given as the kind of each existing path: an
      existing directory is left alone, a file in its place exits with 2, and otherwise
      the directory is created unless the system refuses with `refusal`. */
  function Mkdir(fs: map<string, Node>, folder: string, refusal: Option<string>): (r: Run<map<string, Node>>)
    ensures r.Ok? <==> (folder in fs && fs[folder] == Dir) || (folder !in fs && refusal.None?)
    ensures r.Ok? ==> r.value.Keys == fs.Keys + {folder} && r.value[folder] == Dir
    ensures r.Ok? ==> forall p :: p in fs ==> r.value[p] == fs[p]
    ensures folder in fs && fs[folder] == File ==> r == Exit(2, "File exists instead of folder " + folder)
    ensures folder !in fs && refusal.Some? ==> r == Exit(2, refusal.value)
    ensures !r.Fail?
  {
    if folder in fs && fs[folder] == Dir then Ok(fs)
    else if folder in fs then Exit(2, "File exists instead of folder " + folder)
    else if refusal.Some? then Exit(2, refusal.value)
    else Ok(fs[folder := Dir])
  }

  /** Making the same directory again changes nothing. */
  lemma MkdirIdempotent(fs: map<string, Node>, folder: string, refusal: Option<string>, again: Option<string>)
    requires Mkdir(fs, folder, refusal).Ok?
    ensures Mkdir(Mkdir(fs, folder, refusal).value, folder, again) == Mkdir(fs, folder, refusal)
  {
  }

  // ---------------------------------------------------------------------------
  // The ignore filter of copyRepo

  /** Some pattern of `pats` matches `name`; `matches` stands for `re.match`. */
  predicate MatchesSome(pats: seq<Json>, name: string, matches: (string, string) -> bool)
    requires AllStr(pats)
  {
    exists i :: 0 <= i < |pats| && matches(pats[i].s, name)
  }

  /** Whether `name` is skipped: every pattern is tried, and `re.match` raises TypeError on
      a pattern that is not a str. */
  function Ignored(name: string, patterns: Json, matches: (string, string) -> bool): (r: Outcome<bool>)
    ensures r.Returned? <==> Iter(patterns).Returned? && AllStr(Iter(patterns).value)
    ensures r.Returned? ==> (r.value <==> MatchesSome(Iter(patterns).value, name, matches))
  {
    match Iter(patterns)
    case Raised(e) => Raised(e)
    case Returned(pats) =>
      if !AllStr(pats) then Raised(TypeError) else Returned(MatchesSome(pats, name, matches))
  }

  /** The entries of one directory that are created or copied, in order. */
  function Kept(entries: seq<string>, patterns: Json, matches: (string, string) -> bool): Outcome<seq<string>> {
    if entries == [] then Returned([])
    else
      match Kept(entries[..|entries| - 1], patterns, matches)
      case Raised(e) => Raised(e)
      case Returned(k) =>
        var last := entries[|entries| - 1];
        match Ignored(last, patterns, matches)
        case Raised(e) => Raised(e)
        case Returned(skip) => Returned(if skip then k else k + [last])
  }

  /** With well-formed patterns, exactly the entries no pattern matches are kept. */
  lemma {:induction false} KeptExactly(entries: seq<string>, patterns: Json, matches: (string, string) -> bool)
    requires Iter(patterns).Returned? && AllStr(Iter(patterns).value)
    ensures Kept(entries, patterns, matches).Returned?
    ensures forall x :: x in Kept(entries, patterns, matches).value <==>
      x in entries && !MatchesSome(Iter(patterns).value, x, matches)
  {
    if entries != [] {
      var init := entries[..|entries| - 1];
      KeptExactly(init, patterns, matches);
      assert entries == init + [entries[|entries| - 1]];
    }
  }

  /** The skip test of one entry: the `dontcreate` loop over the patterns. */
  method DontCreate(name: string, patterns: Json, matches: (string, string) -> bool) returns (r: Outcome<bool>)
    ensures r == Ignored(name, patterns, matches)
  {
    var pats := Iter(patterns);
    if pats.Raised? {
      return Raised(pats.exc);
    }
    var dontcreate := false;
    var i := 0;
    while i < |pats.value|
      invariant 0 <= i <= |pats.value|
      invariant AllStr(pats.value[..i])
      invariant dontcreate <==> exists j :: 0 <= j < i && matches(pats.value[j].s, name)
    {
      var pat := pats.value[i];
      if !pat.JStr? {
        return Raised(TypeError);
      }
      if matches(pat.s, name) {
        dontcreate := true;
      }
      i := i + 1;
    }
    assert pats.value[..i] == pats.value;
    r := Returned(dontcreate);
  }

  /** The loop over the entries of one directory, each tested by `DontCreate`. */
  method Select(entries: seq<string>, patterns: Json, matches: (string, string) -> bool) returns (r: Outcome<seq<string>>)
    ensures r == Kept(entries, patterns, matches)
  {
    var kept := [];
    var i := 0;
    while i < |entries|
      invariant 0 <= i <= |entries|
      invariant Kept(entries[..i], patterns, matches) == Returned(kept)
    {
      var elem := entries[i];
      assert entries[..i + 1][..i] == entries[..i];
      var dontcreate := DontCreate(elem, patterns, matches);
      if dontcreate.Raised? {
        KeptStops(entries, i + 1, patterns, matches);
        return Raised(dontcreate.exc);
      }
      if !dontcreate.value {
        kept := kept + [elem];
      }
      i := i + 1;
    }
    assert entries[..|entries|] == entries;
    r := Returned(kept);
  }

  lemma {:induction false} KeptStops(entries: seq<string>, k: nat, patterns: Json, matches: (string, string) -> bool)
    requires k <= |entries| && Kept(entries[..k], patterns, matches).Raised?
    ensures Kept(entries, patterns, matches) == Kept(entries[..k], patterns, matches)
    decreases |entries|
  {
    if k < |entries| {
      var init := entries[..|entries| - 1];
      assert init[..k] == entries[..k];
      KeptStops(init, k, patterns, matches);
    } else {
      assert entries[..k] == entries;
    }
  }

  // ---------------------------------------------------------------------------

  class WinBuilder {
    const tmp: string
    const conf: string
    var pynsistcfg: Option<Json>
    var pynsistdir: Option<string>
    var repodir: Option<string>
    var ignoredirs: Json
    var ignorefiles: Json

    function Current(): Setup
      reads this
    {
      Setup(pynsistcfg, pynsistdir, repodir, ignoredirs, ignorefiles)
    }

    constructor (tmp: string, path: string)
      ensures this.tmp == tmp && conf == path && Current() == Defaults
    {
      this.tmp := tmp;
      conf := path;
      pynsistcfg := None;
      pynsistdir := None;
      repodir := None;
      ignoredirs := JList([]);
      ignorefiles := JList([]);
    }

    method EvaluatePynsistCfg(files: string -> JsonFile, copy: (string, string) -> Option<string>, repr: Json -> string)
      returns (r: Run<string>)
      modifies this
      ensures r == Evaluate(conf, tmp, files, copy, repr)
      ensures Current() == Configure(conf, tmp, files, old(Current()))
    {
      var top := ReadJson(files, conf);
      if !top.Ok? {
        return Stop(top);
      }
      var json := top.value;
      var has := In(json, "pynsistfile");
      if has.Raised? {
        return Fail(has.exc);
      }
      if !has.value {
        return Exit(3, "Missing 'pynsistfile' in " + conf);
      }
      var cfg := Get(json, "pynsistfile");
      if cfg.Raised? {
        return Fail(cfg.exc);
      }
      pynsistcfg := Some(cfg.value);

      // json is a dict from here on, so `in` and `[]` no longer raise
      has := In(json, "pynsistdir");
      if !has.value {
        return Exit(3, "Missing 'pynsistdir' in " + conf);
      }
      var dir := Get(json, "pynsistdir").value;
      if !dir.JStr? {
        return Fail(TypeError);
      }
      pynsistdir := Some(Join(tmp, dir.s));

      has := In(json, "reponame");
      if !has.value {
        return Exit(3, "Missing 'reponame' in " + conf);
      }
      var reponame := Get(json, "reponame").value;
      if !reponame.JStr? {
        return Fail(TypeError);
      }
      repodir := Some(Join(pynsistdir.value, reponame.s));

      has := In(json, "ignoredirs");
      if has.value {
        ignoredirs := Get(json, "ignoredirs").value;
      }
      has := In(json, "ignorefiles");
      if has.value {
        ignorefiles := Get(json, "ignorefiles").value;
      }

      r := EmitRest(conf, json, pynsistdir.value, reponame.s, files, copy, repr);
    }
  }
}
