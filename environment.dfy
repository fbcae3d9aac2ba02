/** The collaborators the modelled code calls but does not define, as uninterpreted functions. */
module Environment {
  import opened Wrappers

  /** The regular files on disk: each path that `os.path.isfile` accepts, mapped to
      `int(os.stat(path).st_mtime)`. */
  type FileSystem = map<string, int>

  /** `open(path, "r")`: the lines read (each with its line end), or the message of the OSError. */
  datatype TextFile = Opened(lines: seq<string>) | OpenFailed(error: string)

  /** A colour as the code keeps it: a Python list of floats, normally three of them. */
  type Rgb = seq<real>

  /** The `env.*` helpers of the application environment object. */
  datatype Env = Env(
    formatPath: string -> string,                         // env.formatPath (URI notation)
    stdSysPath: string -> string,                         // env.stdSysPath(type): system asset root
    stdUserPath: string -> string,                        // env.stdUserPath(type): user asset root
    existDataFile: (string, string, string) -> Option<string>,  // env.existDataFile(a, b, name)
    existDataDir: (string, string, Option<string>) -> Option<string>, // env.existDataDir(type, base[, folder])
    fullPath: string -> string                            // env.fullPath
  )

  /** Python's float handling, which the model does not interpret. */
  datatype Floats = Floats(
    parse: string -> Option<real>,   // float(token), None where it raises ValueError
    show: real -> string,            // str(x)
    round4: real -> real             // round(x, 4)
  )
}
