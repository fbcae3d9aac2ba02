/** The asset-metadata scanners of the file cache: each reads the header of an asset file
    (or the JSON object of a skeleton or pose) and produces one cache entry. */
module FileHelper {
  import opened Wrappers
  import opened Strings
  import opened Paths
  import opened Environment
  import opened PyJson

  /** One file-cache entry, the list `[name, uuid, path, folder, obj_file, thumbfile, author, tags]`.
      `uuid` is the int 0 when a scanned file has none, and a JSON `author` may be any value. */
  datatype CacheEntry = CacheEntry(
    name: string, uuid: Json, path: string, folder: string,
    objFile: Option<string>, thumb: Option<string>, author: Json, tags: string)

  /** The stem of a path: everything before its extension. */
  function Stem(path: string): string {
    SplitExt(path).0
  }

  /** `hasThumb`: the path with its extension replaced by `.thumb`, when that file exists. */
  function HasThumb(path: string, fs: FileSystem): (r: Option<string>)
    ensures r.Some? <==> Stem(path) + ".thumb" in fs
    ensures r.Some? ==> r.value == Stem(path) + ".thumb" && EndsWith(r.value, ".thumb")
  {
    var thumbfile := Stem(path) + ".thumb";
    if thumbfile in fs then Some(thumbfile) else None
  }

  /** `.encode('ascii', 'ignore').lower().decode()`: the ASCII characters, lower-cased. */
  function AsciiLower(s: string): (r: string)
    ensures Folded(r)
  {
    Lower(AsciiOnly(s))
  }

  /** Text as the scanners store names, tags and authors: ASCII without capitals. */
  predicate Folded(s: string) {
    forall i :: 0 <= i < |s| ==> s[i] < '\U{80}' && !('A' <= s[i] <= 'Z')
  }

  // ---------------------------------------------------------------------------
  // Scanning the lines of a file

  /** A `for line in fp` loop: `step` gives the scanner's variables after one line, or
      `None` where the body leaves the loop with `break`. */
  function Scan<S>(step: (S, string) -> Option<S>, s: S, lines: seq<string>): S
    decreases |lines|
  {
    if lines == [] then s
    else
      match step(s, lines[0])
      case None => s
      case Some(t) => Scan(step, t, lines[1..])
  }

  /** Nothing after a line that always breaks the loop is read. */
  lemma {:induction false} ScanStopsAt<S>(step: (S, string) -> Option<S>, s: S, lines: seq<string>, k: nat)
    requires k < |lines|
    requires forall t :: step(t, lines[k]).None?
    ensures Scan(step, s, lines) == Scan(step, s, lines[..k])
    decreases k
  {
    if k > 0 {
      match step(s, lines[0])
      case None =>
      case Some(t) =>
        assert lines[..k][1..] == lines[1..][..k - 1];
        ScanStopsAt(step, t, lines[1..], k - 1);
    }
  }

  /** A value of the scanner's variables that no later line changes is the final one. */
  lemma {:induction false} ScanKeeps<S, T>(step: (S, string) -> Option<S>, get: S -> T, s: S, lines: seq<string>)
    requires forall j, t :: 0 <= j < |lines| && step(t, lines[j]).Some? ==> get(step(t, lines[j]).value) == get(t)
    ensures get(Scan(step, s, lines)) == get(s)
    decreases |lines|
  {
    if lines != [] {
      match step(s, lines[0])
      case None =>
      case Some(t) =>
        assert forall j :: 0 <= j < |lines| - 1 ==> lines[1..][j] == lines[j + 1];
        ScanKeeps(step, get, t, lines[1..]);
    }
  }

  /** The last line that sets a value decides it, provided no earlier line breaks the loop. */
  lemma {:induction false} ScanLast<S, T>(step: (S, string) -> Option<S>, get: S -> T, s: S,
                                          lines: seq<string>, k: nat, v: T)
    requires k < |lines|
    requires forall j, t :: 0 <= j < k ==> step(t, lines[j]).Some?
    requires forall t :: step(t, lines[k]).Some? && get(step(t, lines[k]).value) == v
    requires forall j, t :: k < j < |lines| && step(t, lines[j]).Some? ==> get(step(t, lines[j]).value) == get(t)
    ensures get(Scan(step, s, lines)) == v
    decreases k
  {
    var t := step(s, lines[0]).value;
    assert forall j :: 0 <= j < |lines| - 1 ==> lines[1..][j] == lines[j + 1];
    if k == 0 {
      ScanKeeps(step, get, t, lines[1..]);
    } else {
      ScanLast(step, get, t, lines[1..], k - 1, v);
    }
  }

  // ---------------------------------------------------------------------------
  // getCacheDataMHCLO

  /** The variables of the MHCLO scan. */
  datatype Clo = Clo(name: string, uuid: Json, objFile: Option<string>, author: string, tags: seq<string>)

  const CloStart := Clo("", JInt(0), None, "unknown", [])

  /** The keys whose value is the second word of their line. */
  const CloKeys: set<string> := {"name", "uuid", "obj_file"}

  /** A line with two words or more whose first word is numeric ends the header. */
  predicate CloStops(line: string) {
    var w := Words(line);
    |w| >= 2 && IsNumeric(w[0])
  }

  /** A line that sets `key` (one of the CloKeys). */
  predicate CloSets(line: string, key: string) {
    var w := Words(line);
    |w| >= 2 && !IsNumeric(w[0]) && w[0] == key
  }

  /** The value the scan holds for one of the CloKeys. */
  function Field(c: Clo, key: string): Option<string> {
    if key == "name" then Some(c.name)
    else if key == "uuid" then (if c.uuid.JStr? then Some(c.uuid.s) else None)
    else c.objFile
  }

  /** One line of the MHCLO header loop. */
  function CloStep(s: Clo, line: string): (r: Option<Clo>)
    ensures r.None? <==> CloStops(line)
    ensures |Words(line)| < 2 ==> r == Some(s)
    ensures forall key :: key in CloKeys && CloSets(line, key) ==> Field(r.value, key) == Some(Words(line)[1])
    ensures forall key :: key in CloKeys && r.Some? && !CloSets(line, key) ==> Field(r.value, key) == Field(s, key)
    ensures r.Some? && r.value.author != s.author ==>
      StartsWith(Words(line)[1], "author") && r.value.author == JoinWith(" ", Words(line)[2..])
    ensures r.Some? ==> r.value.tags == s.tags || r.value.tags == s.tags + [AsciiLower(JoinWith(" ", Words(line)[1..]))]
  {
    var w := Words(line);
    if |w| < 2 then Some(s)
    else if IsNumeric(w[0]) then None
    else if w[0] == "name" then Some(s.(name := w[1]))
    else if w[0] == "uuid" then Some(s.(uuid := JStr(w[1])))
    else if w[0] == "obj_file" then Some(s.(objFile := Some(w[1])))
    else if Contains(line, "author") then
      (if StartsWith(w[1], "author") then Some(s.(author := JoinWith(" ", w[2..]))) else Some(s))
    else if Contains(line, "tag") then Some(s.(tags := s.tags + [AsciiLower(JoinWith(" ", w[1..]))]))
    else Some(s)
  }

  function CloEntry(c: Clo, path: string, folder: string, thumb: Option<string>): CacheEntry {
    CacheEntry(c.name, c.uuid, path, folder, c.objFile, thumb, JStr(c.author), JoinWith("|", c.tags))
  }

  /** `getCacheDataMHCLO`: scans the header of a clothes file. */
  method GetCacheDataMHCLO(path: string, folder: string, file: TextFile, fs: FileSystem) returns (r: Outcome<CacheEntry>)
    ensures file.OpenFailed? ==> r == Raised(OSError)
    ensures file.Opened? ==> r == Returned(CloEntry(Scan(CloStep, CloStart, file.lines), path, folder, HasThumb(path, fs)))
  {
    if file.OpenFailed? {
      return Raised(OSError);
    }
    var lines := file.lines;
    var thumbfile := HasThumb(path, fs);
    var uuid: Json := JInt(0);
    var name := "";
    var objFile: Option<string> := None;
    var author := "unknown";
    var tags: seq<string> := [];
    var i := 0;
    while i < |lines|
      invariant 0 <= i <= |lines|
      invariant Scan(CloStep, CloStart, lines) == Scan(CloStep, Clo(name, uuid, objFile, author, tags), lines[i..])
    {
      var line := lines[i];
      var words := Words(line);
      assert lines[i..][0] == line && lines[i..][1..] == lines[i + 1..];
      if |words| < 2 {
        i := i + 1;
        continue;
      }
      if IsNumeric(words[0]) {
        break;
      }
      if words[0] == "name" {
        name := words[1];
      } else if words[0] == "uuid" {
        uuid := JStr(words[1]);
      } else if words[0] == "obj_file" {
        objFile := Some(words[1]);
      } else if Contains(line, "author") {
        if StartsWith(words[1], "author") {
          author := JoinWith(" ", words[2..]);
        }
      } else if Contains(line, "tag") {
        tags := tags + [AsciiLower(JoinWith(" ", words[1..]))];
      }
      i := i + 1;
    }
    var mtags := JoinWith("|", tags);
    r := Returned(CacheEntry(name, uuid, path, folder, objFile, thumbfile, JStr(author), mtags));
  }

  /** The MHCLO scan reads nothing after the first line whose first word is numeric. */
  lemma CloStopsAtNumeric(s: Clo, lines: seq<string>, k: nat)
    requires k < |lines| && CloStops(lines[k])
    ensures Scan(CloStep, s, lines) == Scan(CloStep, s, lines[..k])
  {
    ScanStopsAt(CloStep, s, lines, k);
  }

  /** `name`, `uuid` and `obj_file` take the second word of their last line in the header. */
  lemma CloLastWins(s: Clo, lines: seq<string>, k: nat, key: string)
    requires key in CloKeys
    requires k < |lines| && CloSets(lines[k], key)
    requires forall j :: 0 <= j < k ==> !CloStops(lines[j])
    requires forall j :: k < j < |lines| ==> !CloSets(lines[j], key)
    ensures Field(Scan(CloStep, s, lines), key) == Some(Words(lines[k])[1])
  {
    var get := (c: Clo) => Field(c, key);
    ScanLast(CloStep, get, s, lines, k, Some(Words(lines[k])[1]));
  }

  /** The author is the default or the words after a second word starting with "author". */
  lemma {:induction false} CloAuthorOrigin(s: Clo, lines: seq<string>)
    ensures var a := Scan(CloStep, s, lines).author;
      a == s.author ||
      exists j :: 0 <= j < |lines| && |Words(lines[j])| >= 2 && StartsWith(Words(lines[j])[1], "author")
                  && a == JoinWith(" ", Words(lines[j])[2..])
    decreases |lines|
  {
    if lines != [] {
      match CloStep(s, lines[0])
      case None =>
      case Some(t) =>
        CloAuthorOrigin(t, lines[1..]);
        assert forall j :: 0 <= j < |lines| - 1 ==> lines[1..][j] == lines[j + 1];
    }
  }

  /** Every tag of the list is ASCII without capitals. */
  predicate AllFolded(tags: seq<string>) {
    forall i :: 0 <= i < |tags| ==> Folded(tags[i])
  }

  /** One MHCLO line keeps the tags folded. */
  lemma CloStepFolded(s: Clo, line: string)
    requires AllFolded(s.tags) && CloStep(s, line).Some?
    ensures AllFolded(CloStep(s, line).value.tags)
  {
    var t := CloStep(s, line).value;
    if t.tags != s.tags {
      var x := AsciiLower(JoinWith(" ", Words(line)[1..]));
      assert t.tags == s.tags + [x];
      forall i | 0 <= i < |t.tags|
        ensures Folded(t.tags[i])
      {
        if i == |s.tags| {
          assert t.tags[i] == x;
        } else {
          assert t.tags[i] == s.tags[i];
        }
      }
    }
  }

  /** Every tag the MHCLO scan collects is ASCII without capitals. */
  lemma {:induction false} CloTagsFolded(s: Clo, lines: seq<string>)
    requires AllFolded(s.tags)
    ensures AllFolded(Scan(CloStep, s, lines).tags)
    decreases |lines|
  {
    if lines != [] && CloStep(s, lines[0]).Some? {
      var t := CloStep(s, lines[0]).value;
      CloStepFolded(s, lines[0]);
      CloTagsFolded(t, lines[1..]);
      assert Scan(CloStep, s, lines) == Scan(CloStep, t, lines[1..]);
    }
  }

  // ---------------------------------------------------------------------------
  // getCacheDataBVH

  /** The variables of the BVH meta-file scan. */
  datatype Bvh = Bvh(name: string, author: string, tags: seq<string>)

  predicate BvhNameLine(line: string) {
    var w := Words(line);
    |w| >= 2 && w[0] == "name"
  }

  /** One line of the meta-file loop, which never breaks. */
  function BvhStep(s: Bvh, line: string): (r: Option<Bvh>)
    ensures r.Some?
    ensures |Words(line)| < 2 ==> r == Some(s)
    ensures BvhNameLine(line) ==> r.value.name == AsciiLower(JoinWith("_", Words(line)[1..]))
    ensures !BvhNameLine(line) ==> r.value.name == s.name
    ensures r.value.tags == s.tags || r.value.tags == s.tags + [AsciiLower(JoinWith(" ", Words(line)[1..]))]
  {
    var w := Words(line);
    if |w| < 2 then Some(s)
    else if w[0] == "name" then Some(s.(name := AsciiLower(JoinWith("_", w[1..]))))
    else if w[0] == "tag" then Some(s.(tags := s.tags + [AsciiLower(JoinWith(" ", w[1..]))]))
    else if w[0] == "author" then Some(s.(author := AsciiLower(JoinWith(" ", w[1..]))))
    else Some(s)
  }

  function BvhEntry(b: Bvh, path: string, folder: string, thumb: Option<string>): CacheEntry {
    CacheEntry(b.name, JStr("bvh_" + BaseName(Stem(path))), path, folder, None, thumb, JStr(b.author), JoinWith("|", b.tags))
  }

  /** `getCacheDataBVH`: the entry of a motion file, refined by its `.meta` file when there is one.
      `meta` is what opening that file gives. */
  method GetCacheDataBVH(path: string, folder: string, fs: FileSystem, meta: TextFile) returns (r: Outcome<CacheEntry>)
    ensures r.Returned? ==> r.value.uuid == JStr("bvh_" + BaseName(Stem(path)))
    ensures Stem(path) + ".meta" !in fs ==>
      r == Returned(CacheEntry(BaseName(Stem(path)), JStr("bvh_" + BaseName(Stem(path))), path, folder,
                               None, HasThumb(path, fs), JStr("unknown"), ""))
    ensures Stem(path) + ".meta" in fs ==>
      r == (match meta
            case OpenFailed(_) => Raised(OSError)
            case Opened(lines) =>
              Returned(BvhEntry(Scan(BvhStep, Bvh(BaseName(Stem(path)), "unknown", []), lines), path, folder, HasThumb(path, fs))))
  {
    var filename := Stem(path);
    var metafile := filename + ".meta";
    var name := BaseName(filename);
    var uuid := "bvh_" + name;
    var author := "unknown";
    var thumbfile := HasThumb(path, fs);
    var tags: seq<string> := [];
    if metafile in fs {
      if meta.OpenFailed? {
        return Raised(OSError);
      }
      var lines := meta.lines;
      var i := 0;
      while i < |lines|
        invariant 0 <= i <= |lines|
        invariant Scan(BvhStep, Bvh(BaseName(filename), "unknown", []), lines) == Scan(BvhStep, Bvh(name, author, tags), lines[i..])
      {
        var words := Words(lines[i]);
        assert lines[i..][0] == lines[i] && lines[i..][1..] == lines[i + 1..];
        if |words| >= 2 {
          if words[0] == "name" {
            name := AsciiLower(JoinWith("_", words[1..]));
          } else if words[0] == "tag" {
            tags := tags + [AsciiLower(JoinWith(" ", words[1..]))];
          } else if words[0] == "author" {
            author := AsciiLower(JoinWith(" ", words[1..]));
          }
        }
        i := i + 1;
      }
    }
    var mtags := JoinWith("|", tags);
    r := Returned(CacheEntry(name, JStr(uuid), path, folder, None, thumbfile, JStr(author), mtags));
  }

  /** The last `name` line of a meta file names the motion: its words joined by "_", folded. */
  lemma BvhLastName(s: Bvh, lines: seq<string>, k: nat)
    requires k < |lines| && BvhNameLine(lines[k])
    requires forall j :: k < j < |lines| ==> !BvhNameLine(lines[j])
    ensures Scan(BvhStep, s, lines).name == AsciiLower(JoinWith("_", Words(lines[k])[1..]))
  {
    var get := (b: Bvh) => b.name;
    ScanLast(BvhStep, get, s, lines, k, AsciiLower(JoinWith("_", Words(lines[k])[1..])));
  }

  // ---------------------------------------------------------------------------
  // getCacheDataJSON

  /** `extension[3:]`: the extension from its fourth character on (".mhpose" gives "pose"). */
  function ExtTail(ext: string): (r: string)
    ensures |ext| >= 3 ==> ext == ext[..3] + r
    ensures |ext| < 3 ==> r == ""
  {
    if |ext| >= 3 then ext[3..] else ""
  }

  /** `json[key] if key in json else default`. */
  function GetOrDefault(json: Json, key: string, default: Json): (r: Outcome<Json>)
    ensures json.JObj? ==> r == Returned(Lookup(json.fields, key).GetOr(default))
  {
    match In(json, key)
    case Raised(e) => Raised(e)
    case Returned(found) => if found then Get(json, key) else Returned(default)
  }

  /** The entry `getCacheDataJSON` builds from a JSON object it could read. */
  function JsonEntry(path: string, folder: string, json: Json, fs: FileSystem): (r: Outcome<CacheEntry>)
    ensures r.Returned? ==> r.value.uuid == JStr(ExtTail(SplitExt(path).1) + "_" + r.value.name)
    ensures r.Returned? ==> r.value.path == path && r.value.folder == folder && r.value.objFile == None
                            && r.value.thumb == HasThumb(path, fs) && Folded(r.value.tags)
    ensures !(json.JObj? || json.JList? || json.JStr?) ==> r == Raised(TypeError)
  {
    var thumbfile := HasThumb(path, fs);
    var (filename, extension) := SplitExt(path);
    match GetOrDefault(json, "name", JStr(filename))
    case Raised(e) => Raised(e)
    case Returned(name) =>
      if !name.JStr? then Raised(TypeError)
      else
        var uuid := ExtTail(extension) + "_" + name.s;
        match GetOrDefault(json, "author", JStr("unknown"))
        case Raised(e) => Raised(e)
        case Returned(author) =>
          match In(json, "tags")
          case Raised(e) => Raised(e)
          case Returned(hasTags) =>
            var mtags :=
              if !hasTags then Returned("")
              else match Get(json, "tags")
                   case Raised(e) => Raised(e)
                   case Returned(t) =>
                     (match JoinJson("|", t)
                      case Raised(e) => Raised(e)
                      case Returned(joined) => Returned(AsciiLower(joined)));
            match mtags
            case Raised(e) => Raised(e)
            case Returned(m) => Returned(CacheEntry(name.s, JStr(uuid), path, folder, None, thumbfile, author, m))
  }

  /** A dict without "name" is named by the path without its extension; with a str "name", by that. */
  lemma JsonName(path: string, folder: string, fields: seq<(string, Json)>, fs: FileSystem)
    requires JsonEntry(path, folder, JObj(fields), fs).Returned?
    ensures var e := JsonEntry(path, folder, JObj(fields), fs).value;
      match Lookup(fields, "name")
      case None => e.name == Stem(path)
      case Some(n) => n == JStr(e.name)
  {
  }

  /** A dict whose "name" (if any) is a str and whose "tags" (if any) is a list of str gives an entry. */
  lemma JsonEntryOfDict(path: string, folder: string, fields: seq<(string, Json)>, fs: FileSystem)
    requires Lookup(fields, "name").None? || Lookup(fields, "name").value.JStr?
    requires Lookup(fields, "tags").None? || (Lookup(fields, "tags").value.JList? && AllStr(Lookup(fields, "tags").value.elems))
    ensures var r := JsonEntry(path, folder, JObj(fields), fs);
      r.Returned? &&
      r.value.author == Lookup(fields, "author").GetOr(JStr("unknown")) &&
      r.value.tags == (match Lookup(fields, "tags")
                       case None => ""
                       case Some(t) => AsciiLower(JoinWith("|", Strs(t.elems))))
  {
  }

  /** `getCacheDataJSON` as written: a file `readJSON` cannot read, or one holding `null`,
      passes `json is None` and reaches `self.logLine`, which the class does not have, so the
      call raises AttributeError. */
  function CacheDataJSONAsWritten(path: string, folder: string, json: Option<Json>, fs: FileSystem): (r: Outcome<Option<CacheEntry>>)
    ensures IsNone(json) ==> r == Raised(AttributeError)
    ensures !IsNone(json) ==> (r.Returned? <==> JsonEntry(path, folder, json.value, fs).Returned?)
    ensures !IsNone(json) && r.Returned? ==> r.value == Some(JsonEntry(path, folder, json.value, fs).value)
  {
    if IsNone(json) then Raised(AttributeError)
    else
      match JsonEntry(path, folder, json.value, fs)
      case Raised(e) => Raised(e)
      case Returned(e) => Returned(Some(e))
  }

  /** `getCacheDataJSON` as documented: None when the file cannot be read or holds `null`. */
  function CacheDataJSON(path: string, folder: string, json: Option<Json>, fs: FileSystem): (r: Outcome<Option<CacheEntry>>)
    ensures r == Returned(None) <==> IsNone(json)
    ensures !IsNone(json) ==> (r.Returned? <==> JsonEntry(path, folder, json.value, fs).Returned?)
    ensures !IsNone(json) && r.Returned? ==> r.value == Some(JsonEntry(path, folder, json.value, fs).value)
  {
    if IsNone(json) then Returned(None)
    else
      match JsonEntry(path, folder, json.value, fs)
      case Raised(e) => Raised(e)
      case Returned(e) => Returned(Some(e))
  }

  /** The two agree on every file that loads to something other than None, and differ
      exactly on the others. */
  lemma JsonFinding(path: string, folder: string, json: Option<Json>, fs: FileSystem)
    ensures !IsNone(json) ==> CacheDataJSONAsWritten(path, folder, json, fs) == CacheDataJSON(path, folder, json, fs)
    ensures IsNone(json) ==> CacheDataJSONAsWritten(path, folder, json, fs) == Raised(AttributeError)
                             && CacheDataJSON(path, folder, json, fs) == Returned(None)
  {
  }

  /** A file whose whole content is the JSON literal `null` takes the None branch in both
      readings: AttributeError as written, None as intended. */
  lemma JsonNullFile(path: string, folder: string, fs: FileSystem)
    ensures CacheDataJSONAsWritten(path, folder, Some(JNull), fs) == Raised(AttributeError)
    ensures CacheDataJSON(path, folder, Some(JNull), fs) == Returned(None)
  {
  }

  // ---------------------------------------------------------------------------
  // getCacheDataMHM

  /** The variables of the MHM header scan; `name` starts as None. */
  datatype Mhm = Mhm(name: Option<string>, uuid: Json, author: string, tags: seq<string>)

  const MhmStart := Mhm(None, JInt(0), "unknown", [])

  /** The modifier lines end the header. */
  predicate MhmStops(line: string) {
    StartsWith(line, "modifier")
  }

  predicate MhmKeyLine(line: string, key: string) {
    var w := Words(line);
    !MhmStops(line) && |w| >= 2 && w[0] == key
  }

  /** A line that sets the tags: not a name, author or uuid line, but one containing "tags". */
  predicate MhmTagsLine(line: string) {
    var w := Words(line);
    !MhmStops(line) && |w| >= 2 && w[0] != "name" && w[0] != "author" && w[0] != "uuid" && Contains(line, "tags")
  }

  /** A line that sets the tags in the code as written: a name line containing "tags" is one
      too, since the name test stands apart from the `elif` chain. */
  predicate MhmTagsLineAsWritten(line: string) {
    var w := Words(line);
    !MhmStops(line) && |w| >= 2 && w[0] != "author" && w[0] != "uuid" && Contains(line, "tags")
  }

  /** A name line that also contains "tags", where the two readings of the loop part. */
  predicate MhmNameTagsLine(line: string) {
    MhmKeyLine(line, "name") && Contains(line, "tags")
  }

  function MhmTags(line: string): seq<string>
    requires |Words(line)| >= 2
  {
    SplitOn(JoinWith(" ", Words(line)[1..]), ';')
  }

  /** One line of the MHM loop exactly as written: the name test is a separate `if`, so a
      name line that contains "tags" also reaches the tags branch of the `elif` chain below it. */
  function MhmStepAsWritten(s: Mhm, line: string): (r: Option<Mhm>)
    ensures r.None? <==> MhmStops(line)
    ensures MhmKeyLine(line, "name") ==> r.value.name == Some(JoinWith(" ", Words(line)[1..]))
    ensures r.Some? && !MhmKeyLine(line, "name") ==> r.value.name == s.name
    ensures MhmTagsLineAsWritten(line) ==> r.value.tags == MhmTags(line)
    ensures r.Some? && !MhmTagsLineAsWritten(line) ==> r.value.tags == s.tags
  {
    if StartsWith(line, "modifier") then None
    else
      var w := Words(line);
      if |w| < 2 then Some(s)
      else
        var s1 := if w[0] == "name" then s.(name := Some(JoinWith(" ", w[1..]))) else s;
        if w[0] == "author" then Some(s1.(author := JoinWith(" ", w[1..])))
        else if w[0] == "uuid" then Some(s1.(uuid := JStr(w[1])))
        else if Contains(line, "tags") then Some(s1.(tags := SplitOn(JoinWith(" ", w[1..]), ';')))
        else Some(s1)
  }

  /** One line of the MHM loop with the name test joined to the `elif` chain. */
  function MhmStep(s: Mhm, line: string): (r: Option<Mhm>)
    ensures r.None? <==> MhmStops(line)
    ensures MhmKeyLine(line, "name") ==> r == Some(s.(name := Some(JoinWith(" ", Words(line)[1..]))))
    ensures r.Some? && !MhmKeyLine(line, "name") ==> r.value.name == s.name
    ensures MhmTagsLine(line) ==> r.value.tags == MhmTags(line)
    ensures r.Some? && !MhmTagsLine(line) ==> r.value.tags == s.tags
  {
    if StartsWith(line, "modifier") then None
    else
      var w := Words(line);
      if |w| < 2 then Some(s)
      else if w[0] == "name" then Some(s.(name := Some(JoinWith(" ", w[1..]))))
      else if w[0] == "author" then Some(s.(author := JoinWith(" ", w[1..])))
      else if w[0] == "uuid" then Some(s.(uuid := JStr(w[1])))
      else if Contains(line, "tags") then Some(s.(tags := SplitOn(JoinWith(" ", w[1..]), ';')))
      else Some(s)
  }

  /** A name line that contains "tags" (such as "name tags demo"): as written it also
      replaces the tags by the rest of the line split on ";", which is never empty, while
      the corrected step leaves the tags as they were. */
  lemma MhmNameLineSetsTags(s: Mhm, line: string)
    requires MhmKeyLine(line, "name") && Contains(line, "tags")
    ensures MhmStepAsWritten(s, line) == Some(s.(name := Some(JoinWith(" ", Words(line)[1..])), tags := MhmTags(line)))
    ensures MhmStep(s, line) == Some(s.(name := Some(JoinWith(" ", Words(line)[1..]))))
    ensures MhmTags(line) != []
  {
  }

  function MhmEntry(m: Mhm, path: string, folder: string, thumb: Option<string>): CacheEntry {
    CacheEntry(m.name.GetOr(BaseName(Stem(path))), m.uuid, path, folder, None, thumb, JStr(m.author), JoinWith("|", m.tags))
  }

  /** `getCacheDataMHM`: scans the header of a model file, with the name test apart from the
      `elif` chain as the code has it. */
  method GetCacheDataMHM(path: string, folder: string, file: TextFile, fs: FileSystem) returns (r: Outcome<CacheEntry>)
    ensures file.OpenFailed? ==> r == Raised(OSError)
    ensures file.Opened? ==> r == Returned(MhmEntry(Scan(MhmStepAsWritten, MhmStart, file.lines), path, folder, HasThumb(path, fs)))
  {
    if file.OpenFailed? {
      return Raised(OSError);
    }
    var lines := file.lines;
    var thumbfile := HasThumb(path, fs);
    var uuid: Json := JInt(0);
    var name: Option<string> := None;
    var author := "unknown";
    var tags: seq<string> := [];
    var i := 0;
    while i < |lines|
      invariant 0 <= i <= |lines|
      invariant Scan(MhmStepAsWritten, MhmStart, lines) == Scan(MhmStepAsWritten, Mhm(name, uuid, author, tags), lines[i..])
    {
      var line := lines[i];
      assert lines[i..][0] == line && lines[i..][1..] == lines[i + 1..];
      if StartsWith(line, "modifier") {
        break;
      }
      var words := Words(line);
      if |words| < 2 {
        i := i + 1;
        continue;
      }
      if words[0] == "name" {
        name := Some(JoinWith(" ", words[1..]));
      }
      if words[0] == "author" {
        author := JoinWith(" ", words[1..]);
      } else if words[0] == "uuid" {
        uuid := JStr(words[1]);
      } else if Contains(line, "tags") {
        tags := SplitOn(JoinWith(" ", words[1..]), ';');
      }
      i := i + 1;
    }
    if name.None? {
      name := Some(BaseName(Stem(path)));
    }
    var mtags := JoinWith("|", tags);
    r := Returned(CacheEntry(name.value, uuid, path, folder, None, thumbfile, JStr(author), mtags));
  }

  /** The MHM scan reads nothing from the first modifier line on. */
  lemma MhmStopsAtModifier(s: Mhm, lines: seq<string>, k: nat)
    requires k < |lines| && MhmStops(lines[k])
    ensures Scan(MhmStepAsWritten, s, lines) == Scan(MhmStepAsWritten, s, lines[..k])
  {
    ScanStopsAt(MhmStepAsWritten, s, lines, k);
  }

  /** Without a name line the model is named after its file, without directory or extension. */
  lemma MhmNameFallback(path: string, folder: string, lines: seq<string>, fs: FileSystem)
    requires forall j :: 0 <= j < |lines| ==> !MhmKeyLine(lines[j], "name")
    ensures MhmEntry(Scan(MhmStepAsWritten, MhmStart, lines), path, folder, HasThumb(path, fs)).name == BaseName(Stem(path))
  {
    var get := (m: Mhm) => m.name;
    ScanKeeps(MhmStepAsWritten, get, MhmStart, lines);
  }

  /** As written, the last line that sets the tags decides them; a name line containing
      "tags" counts as one. */
  lemma MhmLastTags(s: Mhm, lines: seq<string>, k: nat)
    requires k < |lines| && MhmTagsLineAsWritten(lines[k])
    requires forall j :: 0 <= j < k ==> !MhmStops(lines[j])
    requires forall j :: k < j < |lines| ==> !MhmTagsLineAsWritten(lines[j])
    ensures Scan(MhmStepAsWritten, s, lines).tags == MhmTags(lines[k])
  {
    var get := (m: Mhm) => m.tags;
    ScanLast(MhmStepAsWritten, get, s, lines, k, MhmTags(lines[k]));
  }

  /** With the corrected step the last tags line proper decides the tags, whatever name lines
      follow it. */
  lemma MhmLastTagsIntended(s: Mhm, lines: seq<string>, k: nat)
    requires k < |lines| && MhmTagsLine(lines[k])
    requires forall j :: 0 <= j < k ==> !MhmStops(lines[j])
    requires forall j :: k < j < |lines| ==> !MhmTagsLine(lines[j])
    ensures Scan(MhmStep, s, lines).tags == MhmTags(lines[k])
  {
    var get := (m: Mhm) => m.tags;
    ScanLast(MhmStep, get, s, lines, k, MhmTags(lines[k]));
  }

  /** The code as written and the corrected step scan a file alike unless one of its name lines
      contains "tags". */
  lemma {:induction false} MhmScansAgree(s: Mhm, lines: seq<string>)
    requires forall j :: 0 <= j < |lines| ==> !MhmNameTagsLine(lines[j])
    ensures Scan(MhmStepAsWritten, s, lines) == Scan(MhmStep, s, lines)
    decreases |lines|
  {
    if lines != [] {
      assert !MhmNameTagsLine(lines[0]);
      assert MhmStepAsWritten(s, lines[0]) == MhmStep(s, lines[0]);
      match MhmStep(s, lines[0])
      case None =>
      case Some(t) =>
        assert forall j :: 0 <= j < |lines| - 1 ==> lines[1..][j] == lines[j + 1];
        MhmScansAgree(t, lines[1..]);
    }
  }

  // ---------------------------------------------------------------------------
  // hasThumb

  lemma RFindBeyond(s: string, t: string, c: char)
    requires c !in t
    ensures RFind(s + t, c) == RFind(s, c)
    decreases |t|
  {
    if t != [] {
      assert (s + t)[..|s + t| - 1] == s + t[..|t| - 1];
      RFindBeyond(s, t[..|t| - 1], c);
    } else {
      assert s + t == s;
    }
  }

  /** A stem whose base name has a character other than a dot keeps `.thumb` as its extension. */
  predicate NamedStem(stem: string) {
    exists j :: RFind(stem, '/') < j < |stem| && stem[j] != '.'
  }

  /** The thumbnail of a thumbnail file is that file itself. */
  lemma ThumbOfThumb(path: string, fs: FileSystem)
    requires HasThumb(path, fs).Some? && NamedStem(Stem(path))
    ensures HasThumb(HasThumb(path, fs).value, fs) == HasThumb(path, fs)
  {
    var stem := Stem(path);
    var t := stem + ".thumb";
    RFindBeyond(stem, ".thumb", '/');
    assert t == stem + ['.'] + "thumb";
    RFindAfter(stem, "thumb", '.');
    var j :| RFind(stem, '/') < j < |stem| && stem[j] != '.';
    assert t[j] == stem[j];
    assert t[..|stem|] == stem;
    assert SplitExt(t).0 == stem;
  }
}
