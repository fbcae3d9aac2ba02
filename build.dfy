/** The installer configuration builder for the plain build: it reads its own JSON file,
    then the makehuman configuration that file names, and produces the text of the
    pynsist configuration, or the exit of `cleanexit`. */
module Build {
  import opened Wrappers
  import opened PyJson
  import opened Pynsist

  /** A file of the Include section, on a line of its own. */
  function FileLine(elem: Json): (r: Run<string>)
    ensures r.Ok? <==> elem.JStr?
    ensures r.Ok? ==> r.value == elem.s + "\n"
    ensures !r.Exit?
  {
    if elem.JStr? then Ok(elem.s + "\n") else Fail(TypeError)
  }

  /** The Application items; script and icon are written as listed. */
  function AppLine(mh: Json, mhconfig: string, repr: Json -> string): (Json, string) -> Run<string> {
    (appl, item) => AppItem(appl, item, mh, mhconfig, StrLine, repr)
  }

  /** `evaluatePynsistCfg`: the configuration file needs "pynsistfile" and "mhconfigfile"
      (exit 3), the makehuman configuration it names is read, and only then is "pynsist"
      required (exit 4). */
  function Evaluate(conf: string, files: string -> JsonFile, repr: Json -> string): Run<string> {
    var top := ReadJson(files, conf);
    if !top.Ok? then Stop(top)
    else
      var cfg := Require(top.value, "pynsistfile", 3, "Missing 'pynsistfile' in " + conf);
      if !cfg.Ok? then Stop(cfg)
      else
        var mhc := Require(top.value, "mhconfigfile", 3, "Missing 'mhconfigfile' in " + conf);
        if !mhc.Ok? then Stop(mhc)
        else if !mhc.value.JStr? then Fail(TypeError)
        else
          var mh := ReadJson(files, mhc.value.s);
          if !mh.Ok? then Stop(mh)
          else
            var pynsist := Require(top.value, "pynsist", 4, "Missing 'pynsist' in " + conf);
            if !pynsist.Ok? then Stop(pynsist)
            else Sections(pynsist.value, AppLine(mh.value, mhc.value.s, repr), FileLine, conf, repr)
  }

  /** The name of the pynsist configuration file, once the configuration gives one. */
  function CfgName(conf: string, files: string -> JsonFile): Option<Json> {
    var top := ReadJson(files, conf);
    if top.Ok? && Get(top.value, "pynsistfile").Returned? then Some(Get(top.value, "pynsistfile").value) else None
  }

  /** The exits before any section is written: 3 for a missing "pynsistfile" or
      "mhconfigfile", then the reading of the makehuman configuration, then 4 for a
      missing "pynsist". */
  lemma TopLevelExits(conf: string, files: string -> JsonFile, repr: Json -> string, mhconfig: string)
    requires files(conf).Parsed?
    ensures In(files(conf).json, "pynsistfile") == Returned(false) ==>
      Evaluate(conf, files, repr) == Exit(3, "Missing 'pynsistfile' in " + conf)
    ensures Get(files(conf).json, "pynsistfile").Returned? && In(files(conf).json, "mhconfigfile") == Returned(false) ==>
      Evaluate(conf, files, repr) == Exit(3, "Missing 'mhconfigfile' in " + conf)
    ensures Get(files(conf).json, "pynsistfile").Returned? && Get(files(conf).json, "mhconfigfile") == Returned(JStr(mhconfig)) &&
            In(files(conf).json, "pynsist") == Returned(false) ==>
      Evaluate(conf, files, repr) ==
        match files(mhconfig)
        case Unreadable => Exit(1, "Cannot read JSON " + mhconfig)
        case Malformed(e) => Exit(2, "JSON format error in " + mhconfig + " > " + e)
        case Parsed(_) => Exit(4, "Missing 'pynsist' in " + conf)
  {
  }

  /** A configuration text is produced exactly when both files are read, the keys are
      there, and the sections are written; the text is that of the sections. */
  lemma EvaluateOk(conf: string, files: string -> JsonFile, repr: Json -> string)
    ensures Evaluate(conf, files, repr).Ok? <==>
      files(conf).Parsed? && Get(files(conf).json, "pynsistfile").Returned? &&
      Get(files(conf).json, "mhconfigfile").Returned? && Get(files(conf).json, "mhconfigfile").value.JStr? &&
      files(Get(files(conf).json, "mhconfigfile").value.s).Parsed? && Get(files(conf).json, "pynsist").Returned? &&
      Sections(Get(files(conf).json, "pynsist").value,
               AppLine(files(Get(files(conf).json, "mhconfigfile").value.s).json, Get(files(conf).json, "mhconfigfile").value.s, repr),
               FileLine, conf, repr).Ok?
    ensures Evaluate(conf, files, repr).Ok? ==>
      Evaluate(conf, files, repr) ==
      Sections(Get(files(conf).json, "pynsist").value,
               AppLine(files(Get(files(conf).json, "mhconfigfile").value.s).json, Get(files(conf).json, "mhconfigfile").value.s, repr),
               FileLine, conf, repr)
  {
  }

  class WinBuilder {
    const conf: string
    var pynsistcfg: Option<Json>

    constructor (path: string)
      ensures conf == path && pynsistcfg == None
    {
      conf := path;
      pynsistcfg := None;
    }

    method EvaluatePynsistCfg(files: string -> JsonFile, repr: Json -> string) returns (r: Run<string>)
      modifies this
      ensures r == Evaluate(conf, files, repr)
      ensures pynsistcfg == if CfgName(conf, files).Some? then CfgName(conf, files) else old(pynsistcfg)
    {
      var top := ReadJson(files, conf);
      if !top.Ok? {
        return Stop(top);
      }
      var json := top.value;
      var has := In(json, "pynsistfile");
      if has.Raised? {
        return Fail(has.exc);
      }
      if !has.value {
        return Exit(3, "Missing 'pynsistfile' in " + conf);
      }
      var cfg := Get(json, "pynsistfile");
      if cfg.Raised? {
        return Fail(cfg.exc);
      }
      pynsistcfg := Some(cfg.value);

      // json is a dict from here on, so `in` and `[]` no longer raise
      has := In(json, "mhconfigfile");
      if !has.value {
        return Exit(3, "Missing 'mhconfigfile' in " + conf);
      }
      var mhconfig := Get(json, "mhconfigfile").value;
      if !mhconfig.JStr? {
        return Fail(TypeError);
      }
      var mhobject := ReadJson(files, mhconfig.s);
      if !mhobject.Ok? {
        return Stop(mhobject);
      }

      has := In(json, "pynsist");
      if !has.value {
        return Exit(4, "Missing 'pynsist' in " + conf);
      }
      var pynsist := Get(json, "pynsist").value;
      r := EmitSections(pynsist, AppLine(mhobject.value, mhconfig.s, repr), FileLine, conf, repr);
    }
  }
}
