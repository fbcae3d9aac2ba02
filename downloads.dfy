/** The download-and-import layout: the list of asset packs offered for download, the
    checks made before a download or an extraction starts, the rule that only one
    background job runs at a time, and where the parent asset of a material lives. */
module Downloads {
  import opened Wrappers
  import opened Strings
  import opened Paths
  import opened Environment
  import opened PyJson

  /** The background jobs the layout starts, one worker thread each. */
  datatype Job = Unzip | Download | ListDownload | FilesDownload

  const DefaultItems: seq<Json> := [JStr(""), JStr("Standard Asset Pack"), JStr("Additional Makehuman2 Asset Pack")]

  /** Python's truth value of `self.error`: None and "" are false. */
  predicate Truthy(e: Option<string>) {
    e.Some? && e.value != ""
  }

  // ---------------------------------------------------------------------------
  // The pack list

  /** `text += suffix` where `text` may be any value from the pack list: a str grows by
      the suffix, a list by the suffix's characters, anything else raises TypeError. */
  function Append(text: Json, suffix: Outcome<string>): (r: Outcome<Json>)
    ensures r.Returned? <==> (text.JStr? || text.JList?) && suffix.Returned?
    ensures r.Returned? && text.JStr? ==> r.value == JStr(text.s + suffix.value)
    ensures r.Returned? && text.JList? ==> r.value.JList? && |r.value.elems| == |text.elems| + |suffix.value|
  {
    match suffix
    case Raised(e) => Raised(e)
    case Returned(s) =>
      if text.JStr? then Returned(JStr(text.s + s))
      else if text.JList? then Returned(JList(text.elems + Iter(JStr(s)).value))
      else Raised(TypeError)
  }

  /** The combo-box text of one pack: its description (else its key), then ", " and the
      license, then " (" size " mb)", each part only when the pack has it. */
  function PackText(key: string, elem: Json, repr: Json -> string): (r: Outcome<Json>)
    ensures !(elem.JObj? || elem.JList? || elem.JStr?) ==> r == Raised(TypeError)
  {
    match BaseText(key, elem)
    case Raised(e) => Raised(e)
    case Returned(t0) =>
      match AddLicense(elem, t0)
      case Raised(e) => Raised(e)
      case Returned(t1) => AddSize(elem, t1, repr)
  }

  function BaseText(key: string, elem: Json): Outcome<Json> {
    match In(elem, "descr")
    case Raised(e) => Raised(e)
    case Returned(hasDescr) => if hasDescr then Get(elem, "descr") else Returned(JStr(key))
  }

  function AddLicense(elem: Json, t: Json): Outcome<Json> {
    match In(elem, "license")
    case Raised(e) => Raised(e)
    case Returned(hasLicense) =>
      if !hasLicense then Returned(t)
      else match Get(elem, "license")
           case Raised(e) => Raised(e)
           case Returned(l) => Append(t, Cat(", ", l))
  }

  function AddSize(elem: Json, t: Json, repr: Json -> string): Outcome<Json> {
    match In(elem, "size")
    case Raised(e) => Raised(e)
    case Returned(hasSize) =>
      if !hasSize then Returned(t)
      else match Get(elem, "size")
           case Raised(e) => Raised(e)
           case Returned(sz) => Append(t, Returned(" (" + Str(sz, repr) + " mb)"))
  }

  /** The text of a pack whose description, license and size are present or absent as the
      options say, all of them strings (a size is rendered with `str`). */
  function ExpectedText(key: string, descr: Option<string>, license: Option<string>, size: Option<string>): string {
    descr.GetOr(key)
    + (if license.Some? then ", " + license.value else "")
    + (if size.Some? then " (" + size.value + " mb)" else "")
  }

  function StrField(fields: seq<(string, Json)>, k: string): Option<string>
    requires Lookup(fields, k).None? || Lookup(fields, k).value.JStr?
  {
    if Lookup(fields, k).Some? then Some(Lookup(fields, k).value.s) else None
  }

  /** A pack given as a dict with string description and license gets the text the
      combo box shows: description or key, license, size. */
  lemma PackTextOfDict(key: string, fields: seq<(string, Json)>, repr: Json -> string)
    requires Lookup(fields, "descr").None? || Lookup(fields, "descr").value.JStr?
    requires Lookup(fields, "license").None? || Lookup(fields, "license").value.JStr?
    ensures PackText(key, JObj(fields), repr) ==
      Returned(JStr(ExpectedText(key, StrField(fields, "descr"), StrField(fields, "license"),
                                 if Lookup(fields, "size").Some? then Some(Str(Lookup(fields, "size").value, repr)) else None)))
  {
    var elem := JObj(fields);
    var d := StrField(fields, "descr").GetOr(key);
    var lic := if StrField(fields, "license").Some? then ", " + StrField(fields, "license").value else "";
    var sz := if Lookup(fields, "size").Some? then " (" + Str(Lookup(fields, "size").value, repr) + " mb)" else "";
    assert BaseText(key, elem) == Returned(JStr(d));
    if Lookup(fields, "license").Some? {
      var l := Lookup(fields, "license").value;
      assert Get(elem, "license") == Returned(l);
      assert Cat(", ", l) == Returned(lic);
      assert In(elem, "license") == Returned(true);
      assert Append(JStr(d), Cat(", ", l)) == Returned(JStr(d + lic));
    } else {
      assert In(elem, "license") == Returned(false);
      assert d + lic == d;
    }
    assert AddLicense(elem, JStr(d)) == Returned(JStr(d + lic));
    if Lookup(fields, "size").Some? {
      assert Get(elem, "size") == Returned(Lookup(fields, "size").value);
      assert In(elem, "size") == Returned(true);
    } else {
      assert In(elem, "size") == Returned(false);
      assert d + lic + sz == d + lic;
    }
    assert AddSize(elem, JStr(d + lic), repr) == Returned(JStr(d + lic + sz));
  }

  /** What `formList` has built so far: the texts, the urls, and the exception that
      stopped it, if any. */
  datatype Formed = Formed(texts: seq<Json>, urls: seq<Json>, error: Option<Exc>)

  /** The `formList` loop over the first packs. A text is appended before its url is read,
      so an exception in reading the url leaves one text more than urls. */
  function Form(packs: seq<(string, Json)>, repr: Json -> string): (f: Formed)
    ensures f.error.None? ==> |f.texts| == |f.urls|
    ensures |f.urls| <= |f.texts| <= |f.urls| + 1
    ensures |f.texts| <= |packs|
  {
    if packs == [] then Formed([], [], None)
    else
      var f := Form(packs[..|packs| - 1], repr);
      if f.error.Some? then f
      else FormStep(f, packs[|packs| - 1], repr)
  }

  /** One turn of the `formList` loop. */
  function FormStep(f: Formed, pack: (string, Json), repr: Json -> string): (g: Formed)
    requires f.error.None? && |f.texts| == |f.urls|
    ensures g.error.None? ==> |g.texts| == |g.urls|
    ensures |g.urls| <= |g.texts| <= |g.urls| + 1
    ensures |g.texts| <= |f.texts| + 1
  {
    var (key, elem) := pack;
    match In(elem, "url")
    case Raised(e) => f.(error := Some(e))
    case Returned(hasUrl) =>
      if !hasUrl then f
      else
        match PackText(key, elem, repr)
        case Raised(e) => f.(error := Some(e))
        case Returned(text) =>
          match Get(elem, "url")
          case Raised(e) => Formed(f.texts + [text], f.urls, Some(e))
          case Returned(url) => Formed(f.texts + [text], f.urls + [url], None)
  }

  /** Once a pack raises, the packs after it are not looked at. */
  lemma {:induction false} FormStops(packs: seq<(string, Json)>, k: nat, repr: Json -> string)
    requires k <= |packs| && Form(packs[..k], repr).error.Some?
    ensures Form(packs, repr) == Form(packs[..k], repr)
    decreases |packs|
  {
    if k < |packs| {
      var init := packs[..|packs| - 1];
      assert init[..k] == packs[..k];
      FormStops(init, k, repr);
    } else {
      assert packs[..k] == packs;
    }
  }

  /** The urls of the packs that have one, in order. */
  function PackUrls(packs: seq<(string, Json)>): seq<Json>
    requires forall i :: 0 <= i < |packs| ==> packs[i].1.JObj?
  {
    if packs == [] then []
    else
      var last := packs[|packs| - 1].1;
      PackUrls(packs[..|packs| - 1])
      + (if Lookup(last.fields, "url").Some? then [Lookup(last.fields, "url").value] else [])
  }

  /** When every pack is a dict and the list is formed without an exception, the urls
      are those of the packs that have one, in the packs' order. */
  lemma {:induction false} FormUrls(packs: seq<(string, Json)>, repr: Json -> string)
    requires forall i :: 0 <= i < |packs| ==> packs[i].1.JObj?
    requires Form(packs, repr).error.None?
    ensures Form(packs, repr).urls == PackUrls(packs)
  {
    if packs != [] {
      var init := packs[..|packs| - 1];
      assert forall i :: 0 <= i < |init| ==> init[i] == packs[i];
      FormUrls(init, repr);
    }
  }

  // ---------------------------------------------------------------------------
  // The layout

  /** Where a material of an asset goes: found (or not), the directory, and the message
      stored in `env.last_error` on the way, if any. */
  datatype ParentPath = ParentPath(found: bool, path: Option<string>, lastError: Option<string>)

  /** `assetjson[key]["belongs_to"]`: what the material `key` belongs to. */
  function Belonging(assetjson: Json, key: string): Outcome<Json> {
    match Get(assetjson, key)
    case Raised(e) => Raised(e)
    case Returned(asset) => Get(asset, "belongs_to")
  }

  /** `parentAsset`: the directory of the asset the material `key` belongs to. An
      unassigned belonging gives the user-data directory; a core asset is looked up by
      type and folder, except eyes, which share one directory per base mesh; any other
      parent by the type and title of the parent asset in the list. `mtype` must be a str
      for the directory lookup, which raises TypeError otherwise. */
  function ParentAsset(assetjson: Json, key: string, env: Env, basename: string, pathUserdata: string,
                       titleToFileName: Json -> string, repr: Json -> string): (r: Outcome<ParentPath>)
    ensures r.Returned? && r.value.found ==> r.value.path.Some? && r.value.lastError.None?
    ensures r.Returned? && r.value.lastError.Some? ==> !r.value.found && r.value.path.None?
    ensures Belonging(assetjson, key).Returned? &&
            Get(Belonging(assetjson, key).value, "belonging_is_assigned") == Returned(JBool(false)) ==>
      r == Returned(ParentPath(false, Some(pathUserdata), None))
    ensures r.Returned? && Belonging(assetjson, key).Returned? &&
            In(Belonging(assetjson, key).value, "belongs_to_core_asset") == Returned(true) &&
            Get(Belonging(assetjson, key).value, "belonging_is_assigned") != Returned(JBool(false)) &&
            CoreType(Belonging(assetjson, key).value, "eyes") ==>
      r.value.path == env.existDataDir("eyes", basename, None)
  {
    match Belonging(assetjson, key)
    case Raised(e) => Raised(e)
    case Returned(pobj) =>
      match Get(pobj, "belonging_is_assigned")
      case Raised(e) => Raised(e)
      case Returned(isAssigned) =>
        if isAssigned == JBool(false) then Returned(ParentPath(false, Some(pathUserdata), None))
        else
          match In(pobj, "belongs_to_core_asset")
          case Raised(e) => Raised(e)
          case Returned(isCore) =>
            if isCore then CoreParent(pobj, env, basename)
            else
              match Get(pobj, "belongs_to_id")
              case Raised(e) => Raised(e)
              case Returned(id) =>
                match Get(assetjson, Str(id, repr))
                case Raised(e) => Raised(e)
                case Returned(parent) =>
                  match Get(parent, "type")
                  case Raised(e) => Raised(e)
                  case Returned(mtype) =>
                    match Get(pobj, "belongs_to_title")
                    case Raised(e) => Raised(e)
                    case Returned(title) =>
                      if !mtype.JStr? then Raised(TypeError)
                      else
                        var path := env.existDataDir(mtype.s, basename, Some(titleToFileName(title)));
                        if path.None? then Returned(ParentPath(false, env.existDataDir(mtype.s, basename, None), None))
                        else Returned(ParentPath(true, path, None))
  }

  /** The core asset is named "t/folder" for the type `t`. */
  predicate CoreType(pobj: Json, t: string) {
    var c := Get(pobj, "belongs_to_core_asset");
    c.Returned? && c.value.JStr? && SplitOn(c.value.s, '/')[0] == t
  }

  /** The core-asset branch of `parentAsset`: "type/folder" names the directory. A value
      that is not a str has no `split`; one without exactly one "/" does not unpack. */
  function CoreParent(pobj: Json, env: Env, basename: string): (r: Outcome<ParentPath>)
    ensures r.Returned? ==> exists s :: Get(pobj, "belongs_to_core_asset") == Returned(JStr(s)) && |SplitOn(s, '/')| == 2
    ensures r.Returned? && r.value.found ==> r.value.path.Some? && r.value.lastError.None?
    ensures r.Returned? && !r.value.found ==> r.value.path.None? && r.value.lastError.Some?
    ensures r.Returned? && CoreType(pobj, "eyes") ==>
      r.value.path == env.existDataDir("eyes", basename, None)
  {
    match Get(pobj, "belongs_to_core_asset")
    case Raised(e) => Raised(e)
    case Returned(core) =>
      if !core.JStr? then Raised(AttributeError)
      else
        var parts := SplitOn(core.s, '/');
        if |parts| != 2 then Raised(ValueError)
        else
          var (mtype, folder) := (parts[0], parts[1]);
          var path := if mtype == "eyes" then env.existDataDir(mtype, basename, None)
                      else env.existDataDir(mtype, basename, Some(folder));
          if path.None? then Returned(ParentPath(false, None, Some("core assets not found: " + core.s)))
          else Returned(ParentPath(true, path, None))
  }

  /** What `defaultList` leaves: the default texts, and the default urls unless a release key
      is missing, which raises KeyError before `packurls` is assigned. */
  predicate DefaultListed(info: map<string, string>, items: seq<Json>, urls: seq<Json>, oldUrls: seq<Json>, r: Option<Exc>) {
    items == DefaultItems
    && (r.None? <==> "url_fileserver" in info && "url_systemassets" in info && "url_systemassets2" in info)
    && (r.Some? ==> r == Some(KeyError) && urls == oldUrls)
    && (r.None? ==> urls == [JStr(""), JStr(info["url_fileserver"] + "/" + info["url_systemassets"]),
                             JStr(info["url_fileserver"] + "/" + info["url_systemassets2"])])
  }

  /** What `formList(packs)` leaves: both lists are emptied first, so `packs.items()` raising
      AttributeError on a non-dict leaves them empty; a dict gives what the pack loop forms. */
  predicate FormListed(packs: Json, repr: Json -> string, items: seq<Json>, urls: seq<Json>, r: Option<Exc>) {
    (!packs.JObj? ==> r == Some(AttributeError) && items == [] && urls == [])
    && (packs.JObj? ==> items == Form(packs.fields, repr).texts && urls == Form(packs.fields, repr).urls
                        && r == Form(packs.fields, repr).error)
  }

  /** What `getAssetPackList` leaves, given what reading the list file gave. A list file that
      could not be read or holds `null` takes the default list; `"packs" in` and
      `["packs"]` can raise on a list file that is not a dict, before either list is touched. */
  predicate PackListed(info: map<string, string>, json: Option<Json>, repr: Json -> string, items: seq<Json>, urls: seq<Json>,
                       oldItems: seq<Json>, oldUrls: seq<Json>, r: Option<Exc>) {
    if IsNone(json) then DefaultListed(info, items, urls, oldUrls, r)
    else
      var has := In(json.value, "packs");
      if has.Raised? then r == Some(has.exc) && items == oldItems && urls == oldUrls
      else if !has.value then DefaultListed(info, items, urls, oldUrls, r)
      else
        var packs := Get(json.value, "packs");
        if packs.Raised? then r == Some(packs.exc) && items == oldItems && urls == oldUrls
        else FormListed(packs.value, repr, items, urls, r)
  }

  /** A pack list read without an exception has one url per text, so the index of the entry
      chosen in the combo box also selects its url. */
  lemma PackListAligned(info: map<string, string>, json: Option<Json>, repr: Json -> string, items: seq<Json>, urls: seq<Json>,
                        oldItems: seq<Json>, oldUrls: seq<Json>)
    requires PackListed(info, json, repr, items, urls, oldItems, oldUrls, None)
    ensures |items| == |urls|
  {
    if !IsNone(json) && In(json.value, "packs") == Returned(true) && Get(json.value, "packs").Returned? {
      var packs := Get(json.value, "packs").value;
      if packs.JObj? {
        assert Form(packs.fields, repr).error.None?;
      }
    }
  }

  /** A list file holding `null` reads as None and takes the default list, as one that could
      not be read does. */
  lemma NullListIsDefault(info: map<string, string>, repr: Json -> string, items: seq<Json>, urls: seq<Json>,
                          oldItems: seq<Json>, oldUrls: seq<Json>, r: Option<Exc>)
    ensures PackListed(info, Some(JNull), repr, items, urls, oldItems, oldUrls, r)
            <==> PackListed(info, None, repr, items, urls, oldItems, oldUrls, r)
    ensures PackListed(info, Some(JNull), repr, items, urls, oldItems, oldUrls, r)
            <==> DefaultListed(info, items, urls, oldUrls, r)
  {
  }

  class DownLoadImport {
    const releaseInfo: map<string, string>   // env.release_info
    var packitems: seq<Json>
    var packurls: seq<Json>
    var bckproc: Option<Job>                 // the job running in the background
    var error: Option<string>                // the text the last job left
    var assetjson: Option<Json>
    var assetpackjson: Option<Json>
    var filename: string                     // the text of the file-name field
    var lastdownload: Option<string>         // glob.lastdownload

    constructor (releaseInfo: map<string, string>)
      ensures this.releaseInfo == releaseInfo
      ensures packitems == [] && packurls == [] && bckproc == None && error == None
      ensures assetjson == None && assetpackjson == None && filename == "" && lastdownload == None
    {
      this.releaseInfo := releaseInfo;
      packitems := [];
      packurls := [];
      bckproc := None;
      error := None;
      assetjson := None;
      assetpackjson := None;
      filename := "";
      lastdownload := None;
    }

    /** `defaultList`: the two standard packs behind an empty first entry, their urls on
        the file server. A missing release key raises KeyError after the texts are set. */
    method DefaultList() returns (r: Option<Exc>)
      modifies this
      ensures DefaultListed(releaseInfo, packitems, packurls, old(packurls), r)
      ensures bckproc == old(bckproc) && error == old(error) && assetjson == old(assetjson)
      ensures assetpackjson == old(assetpackjson) && filename == old(filename) && lastdownload == old(lastdownload)
    {
      packitems := DefaultItems;
      if "url_fileserver" !in releaseInfo || "url_systemassets" !in releaseInfo || "url_systemassets2" !in releaseInfo {
        return Some(KeyError);
      }
      packurls := [
        JStr(""),
        JStr(releaseInfo["url_fileserver"] + "/" + releaseInfo["url_systemassets"]),
        JStr(releaseInfo["url_fileserver"] + "/" + releaseInfo["url_systemassets2"])
      ];
      r := None;
    }

    /** `formList`: one text and one url per pack that has a url, in the packs' order.
        Both lists are emptied before `packs.items()`, which needs a dict. */
    method FormList(packs: Json, repr: Json -> string) returns (r: Option<Exc>)
      modifies this
      ensures FormListed(packs, repr, packitems, packurls, r)
      ensures bckproc == old(bckproc) && error == old(error) && assetjson == old(assetjson)
      ensures assetpackjson == old(assetpackjson) && filename == old(filename) && lastdownload == old(lastdownload)
    {
      packitems := [];
      packurls := [];
      if !packs.JObj? {
        return Some(AttributeError);
      }
      var items := packs.fields;
      var i := 0;
      while i < |items|
        invariant 0 <= i <= |items|
        invariant Form(items[..i], repr) == Formed(packitems, packurls, None)
        invariant bckproc == old(bckproc) && error == old(error) && assetjson == old(assetjson)
        invariant assetpackjson == old(assetpackjson) && filename == old(filename) && lastdownload == old(lastdownload)
      {
        var key, elem := items[i].0, items[i].1;
        assert items[..i + 1][..i] == items[..i];
        assert Form(items[..i + 1], repr) == FormStep(Formed(packitems, packurls, None), items[i], repr);
        var hasUrl := In(elem, "url");
        if hasUrl.Raised? {
          FormStops(items, i + 1, repr);
          return Some(hasUrl.exc);
        }
        if hasUrl.value {
          var text := PackText(key, elem, repr);
          if text.Raised? {
            FormStops(items, i + 1, repr);
            return Some(text.exc);
          }
          packitems := packitems + [text.value];
          var url := Get(elem, "url");
          if url.Raised? {
            FormStops(items, i + 1, repr);
            return Some(url.exc);
          }
          packurls := packurls + [url.value];
        }
        i := i + 1;
      }
      assert items[..|items|] == items;
      r := None;
    }

    /** `getAssetPackList`: the packs of the list file when it was read and has "packs",
        the default list otherwise. `json` is what reading the list file gave. */
    method GetAssetPackList(json: Option<Json>, repr: Json -> string) returns (r: Option<Exc>)
      modifies this
      ensures assetpackjson == json
      ensures PackListed(releaseInfo, json, repr, packitems, packurls, old(packitems), old(packurls), r)
      ensures bckproc == old(bckproc) && error == old(error) && assetjson == old(assetjson)
      ensures filename == old(filename) && lastdownload == old(lastdownload)
    {
      assetpackjson := json;
      if !IsNone(json) {
        var hasPacks := In(json.value, "packs");
        if hasPacks.Raised? {
          return Some(hasPacks.exc);
        }
        if hasPacks.value {
          var packs := Get(json.value, "packs");
          if packs.Raised? {
            return Some(packs.exc);
          }
          r := FormList(packs.value, repr);
          return;
        }
      }
      r := DefaultList();
    }

    /** `extractZip`: only a name ending in ".zip" is extracted, and only when no job runs. */
    method ExtractZip() returns (started: bool)
      modifies this
      ensures started <==> EndsWith(old(filename), ".zip") && old(bckproc).None?
      ensures started ==> bckproc == Some(Unzip)
      ensures !started ==> bckproc == old(bckproc)
      ensures packitems == old(packitems) && packurls == old(packurls) && error == old(error)
      ensures assetjson == old(assetjson) && filename == old(filename) && lastdownload == old(lastdownload)
    {
      var fname := filename;
      if !EndsWith(fname, ".zip") {
        return false;
      }
      started := false;
      if bckproc == None {
        bckproc := Some(Unzip);
        started := true;
      }
    }

    /** `downLoad`: only an ftp, http or https url is fetched, and only when no job runs;
        the download is then named after the last part of the url in `tempdir`. */
    method DownLoad(url: string, tempdir: string) returns (started: bool)
      modifies this
      ensures started <==> (StartsWith(url, "ftp:") || StartsWith(url, "http:") || StartsWith(url, "https:")) && old(bckproc).None?
      ensures started ==> bckproc == Some(Download) && lastdownload == Some(Join(tempdir, BaseName(url)))
                          && filename == Join(tempdir, BaseName(url))
      ensures !started ==> bckproc == old(bckproc) && lastdownload == old(lastdownload) && filename == old(filename)
      ensures packitems == old(packitems) && packurls == old(packurls) && error == old(error) && assetjson == old(assetjson)
    {
      if !(StartsWith(url, "ftp:") || StartsWith(url, "http:") || StartsWith(url, "https:")) {
        return false;
      }
      var name := BaseName(url);
      started := false;
      if bckproc == None {
        lastdownload := Some(Join(tempdir, name));
        filename := lastdownload.value;
        bckproc := Some(Download);
        started := true;
      }
    }

    /** `listDownLoad`: fetching the asset lists forgets the asset list read so far. */
    method ListDownLoad() returns (started: bool)
      modifies this
      ensures started <==> old(bckproc).None?
      ensures started ==> bckproc == Some(ListDownload) && assetjson == None
      ensures !started ==> bckproc == old(bckproc) && assetjson == old(assetjson)
      ensures packitems == old(packitems) && packurls == old(packurls) && error == old(error)
      ensures filename == old(filename) && lastdownload == old(lastdownload)
    {
      started := false;
      if bckproc == None {
        assetjson := None;
        bckproc := Some(ListDownload);
        started := true;
      }
    }

    /** The last step of `singleDownLoad`: the files of one asset are fetched when no job runs. */
    method StartFilesDownload() returns (started: bool)
      modifies this
      ensures started <==> old(bckproc).None?
      ensures started ==> bckproc == Some(FilesDownload)
      ensures !started ==> bckproc == old(bckproc)
      ensures packitems == old(packitems) && packurls == old(packurls) && error == old(error)
      ensures assetjson == old(assetjson) && filename == old(filename) && lastdownload == old(lastdownload)
    {
      started := false;
      if bckproc == None {
        bckproc := Some(FilesDownload);
        started := true;
      }
    }

    /** `finishUnzip`: the finished job is forgotten. Reading the finishing message of a
        job that is not there raises AttributeError. */
    method FinishUnzip() returns (r: Option<Exc>)
      modifies this
      ensures bckproc == None
      ensures r.Some? <==> old(bckproc).None?
      ensures packitems == old(packitems) && packurls == old(packurls) && error == old(error)
      ensures assetjson == old(assetjson) && filename == old(filename) && lastdownload == old(lastdownload)
    {
      if bckproc.None? {
        return Some(AttributeError);
      }
      bckproc := None;
      r := None;
    }

    /** `finishLoad`: the finished download is forgotten; only a job without error text
        has its finishing message read. */
    method FinishLoad() returns (r: Option<Exc>)
      modifies this
      ensures bckproc == None
      ensures r.Some? <==> old(bckproc).None? && !Truthy(error)
      ensures packitems == old(packitems) && packurls == old(packurls) && error == old(error)
      ensures assetjson == old(assetjson) && filename == old(filename) && lastdownload == old(lastdownload)
    {
      if !Truthy(error) && bckproc.None? {
        return Some(AttributeError);
      }
      bckproc := None;
      r := None;
    }

    /** `finishListLoad`: as `finishLoad`, then the pack list is read again from the
        freshly loaded file (the result of reading it is `json`). */
    method FinishListLoad(json: Option<Json>, repr: Json -> string) returns (r: Option<Exc>)
      modifies this
      ensures bckproc == None
      ensures old(bckproc).None? && !Truthy(error) ==>
        r == Some(AttributeError) && packitems == old(packitems) && packurls == old(packurls) && assetpackjson == old(assetpackjson)
      ensures !(old(bckproc).None? && !Truthy(error)) ==>
        assetpackjson == json && PackListed(releaseInfo, json, repr, packitems, packurls, old(packitems), old(packurls), r)
      ensures error == old(error) && assetjson == old(assetjson) && filename == old(filename) && lastdownload == old(lastdownload)
    {
      if !Truthy(error) && bckproc.None? {
        return Some(AttributeError);
      }
      bckproc := None;
      r := GetAssetPackList(json, repr);
    }
  }
}
