/** The attributes of a material, the `.mhmat` line parser that sets them, the texture path
    resolution it uses, and the text the material is saved as. */
module MatFile {
  import opened Wrappers
  import opened Strings
  import opened Paths
  import opened Environment

  /** The keys whose value is a texture file, resolved before it is stored. */
  const TextureKeys: seq<string> := ["diffuseTexture", "normalmapTexture", "aomapTexture", "metallicRoughnessTexture", "emissiveTexture"]
  /** The attribute the `shaderParam litsphereTexture` line sets. */
  const LitsphereKey: string := "sp_litsphereTexture"
  const BoolKeys: seq<string> := ["transparent", "alphaToCoverage", "backfaceCull"]
  const ColorKeys: seq<string> := ["ambientColor", "diffuseColor", "emissiveColor", "specularColor", "colorationColor"]
  /** The intensities clamped to [0, 1]. */
  const UnitKeys: seq<string> := ["normalmapIntensity", "roughnessFactor", "metallicFactor", "emissiveFactor"]
  /** The values a boolean key accepts as true, after lower-casing. */
  const TrueWords: seq<string> := ["yes", "enabled", "true"]

  /** The identity of a material. */
  datatype Ident = Ident(name: Option<string>, description: Option<string>, filename: Option<string>,
                         mhmatdir: string, tags: seq<string>)

  datatype Colors = Colors(ambient: Rgb, diffuse: Rgb, specular: Rgb, emissive: Rgb, coloration: Rgb)

  /** The coloration method (0 off, 1 and 2 the two pixel transforms) and the one last applied. */
  datatype Coloration = Coloration(mode: int, oldColor: Rgb, oldMethod: int)

  /** The physically based rendering factors; `mrFound` records a `roughnessFactor` line. */
  datatype Pbr = Pbr(metallic: real, roughness: real, mrFound: bool, emissive: real, normalmap: real, aomap: real)

  datatype Flags = Flags(transparent: bool, alphaToCoverage: bool, backfaceCull: bool)

  /** The shader and its `sp_` parameters other than the litsphere texture. */
  datatype Shading = Shading(shader: string, additiveShading: real, params: map<string, string>)

  /** The attributes of a `Material` object. The texture-file attributes exist only once set, so
      they are kept in `maps` by attribute name, and `hasattr` is membership. */
  datatype Attrs = Attrs(ident: Ident, maps: map<string, string>, colors: Colors, coloration: Coloration,
                         pbr: Pbr, flags: Flags, shading: Shading)

  /** The state after `__init__`: `default()` followed by name and filename unset. */
  function Initial(objdir: string): (a: Attrs)
    ensures a.maps == map[] && a.ident.tags == [] && a.ident.name == None && a.ident.description == None
    ensures a.shading.shader == "phong" && a.coloration.mode == 0 && !a.pbr.mrFound
  {
    Attrs(Ident(None, None, None, objdir, []), map[],
          Colors([1.0, 1.0, 1.0], [1.0, 1.0, 1.0], [0.5, 0.5, 0.5], [0.0, 0.0, 0.0], [1.0, 1.0, 1.0]),
          Coloration(0, [1.0, 1.0, 1.0], 0),
          Pbr(0.0, 0.0, false, 0.0, 1.0, 1.0),
          Flags(false, false, false),
          Shading("phong", 0.0, map[]))
  }

  /** `getattr(self, key)` for a colour key. */
  function Color(c: Colors, key: string): Rgb
    requires key in ColorKeys
  {
    if key == "ambientColor" then c.ambient
    else if key == "diffuseColor" then c.diffuse
    else if key == "emissiveColor" then c.emissive
    else if key == "specularColor" then c.specular
    else c.coloration
  }

  function SetColor(c: Colors, key: string, v: Rgb): (r: Colors)
    requires key in ColorKeys
    ensures Color(r, key) == v
  {
    if key == "ambientColor" then c.(ambient := v)
    else if key == "diffuseColor" then c.(diffuse := v)
    else if key == "emissiveColor" then c.(emissive := v)
    else if key == "specularColor" then c.(specular := v)
    else c.(coloration := v)
  }

  function Bool(f: Flags, key: string): bool
    requires key in BoolKeys
  {
    if key == "transparent" then f.transparent
    else if key == "alphaToCoverage" then f.alphaToCoverage
    else f.backfaceCull
  }

  function SetBool(f: Flags, key: string, b: bool): (r: Flags)
    requires key in BoolKeys
    ensures Bool(r, key) == b
  {
    if key == "transparent" then f.(transparent := b)
    else if key == "alphaToCoverage" then f.(alphaToCoverage := b)
    else f.(backfaceCull := b)
  }

  function SetUnit(p: Pbr, key: string, v: real): Pbr
    requires key in UnitKeys
  {
    if key == "normalmapIntensity" then p.(normalmap := v)
    else if key == "roughnessFactor" then p.(roughness := v, mrFound := true)
    else if key == "metallicFactor" then p.(metallic := v)
    else p.(emissive := v)
  }

  /** `max(lo, min(hi, x))`. */
  function Clamp(lo: real, hi: real, x: real): (r: real)
    requires lo <= hi
    ensures lo <= r <= hi
    ensures lo <= x <= hi ==> r == x
  {
    var m := if x < hi then x else hi;
    if m > lo then m else lo
  }

  function Sum(c: seq<real>): real {
    if c == [] then 0.0 else Sum(c[..|c| - 1]) + c[|c| - 1]
  }

  function Min(a: int, b: int): int {
    if a < b then a else b
  }

  // ---------------------------------------------------------------------------
  // Resolving a texture file name

  /** The name without its first `/`-separated segment: `"/".join(name.split("/")[1:])`. */
  function DropFirstSegment(name: string): string {
    JoinWith("/", SplitOn(name, '/')[1..])
  }

  /** `mhmatdir[:-10]`: the directory with "/materials" (or its last ten characters) cut off. */
  function CutMaterials(dir: string): string {
    if |dir| >= 10 then dir[..|dir| - 10] else ""
  }

  /** The asset folder of an equipment type: "skins" for the base mesh. */
  function AssetType(eqtype: string): string {
    if eqtype == "base" then "skins" else eqtype
  }

  /** The file name looked up in the asset roots: a leading segment is dropped when the name
      starts with the asset type. */
  function RootRelative(eqtype: string, filename: string): string {
    if StartsWith(filename, AssetType(eqtype)) && '/' in filename then DropFirstSegment(filename) else filename
  }

  /** `isExistent`: the first existing file among the candidate places, or None. */
  function IsExistent(dir: string, eqtype: string, env: Env, fs: FileSystem, filename: string): Option<string> {
    var p1 := Join(dir, filename);
    if p1 in fs then Some(p1)
    else if EndsWith(dir, "materials") && Join(CutMaterials(dir), filename) in fs then Some(Join(CutMaterials(dir), filename))
    else if '/' in filename && Join(dir, DropFirstSegment(filename)) in fs then Some(Join(dir, DropFirstSegment(filename)))
    else FromRoots(eqtype, env, fs, filename)
  }

  /** The last two places `isExistent` tries: the system and then the user asset root. */
  function FromRoots(eqtype: string, env: Env, fs: FileSystem, filename: string): Option<string> {
    var itype := AssetType(eqtype);
    var f := RootRelative(eqtype, filename);
    if Join(env.stdSysPath(itype), f) in fs then Some(Join(env.stdSysPath(itype), f))
    else if Join(env.stdUserPath(itype), f) in fs then Some(Join(env.stdUserPath(itype), f))
    else None
  }

  /** The places `isExistent` tries, in order. */
  function Candidates(dir: string, eqtype: string, env: Env, filename: string): seq<string> {
    [Join(dir, filename)]
    + (if EndsWith(dir, "materials") then [Join(CutMaterials(dir), filename)] else [])
    + (if '/' in filename then [Join(dir, DropFirstSegment(filename))] else [])
    + [Join(env.stdSysPath(AssetType(eqtype)), RootRelative(eqtype, filename)),
       Join(env.stdUserPath(AssetType(eqtype)), RootRelative(eqtype, filename))]
  }

  /** The first of `ps` that is a file. */
  function FirstFile(ps: seq<string>, fs: FileSystem): (r: Option<string>)
    ensures r.None? <==> forall i :: 0 <= i < |ps| ==> ps[i] !in fs
    ensures r.Some? ==> exists i :: 0 <= i < |ps| && ps[i] == r.value && r.value in fs
                                    && forall j :: 0 <= j < i ==> ps[j] !in fs
  {
    if ps == [] then None
    else if ps[0] in fs then Some(ps[0])
    else
      var r := FirstFile(ps[1..], fs);
      assert forall i :: 1 <= i < |ps| ==> ps[i] == ps[1..][i - 1];
      r
  }

  /** `isExistent` returns the first candidate that exists, in the documented order. */
  lemma IsExistentIsFirstFile(dir: string, eqtype: string, env: Env, fs: FileSystem, filename: string)
    ensures IsExistent(dir, eqtype, env, fs, filename) == FirstFile(Candidates(dir, eqtype, env, filename), fs)
  {
    var a := [Join(dir, filename)];
    var b := if EndsWith(dir, "materials") then [Join(CutMaterials(dir), filename)] else [];
    var c := if '/' in filename then [Join(dir, DropFirstSegment(filename))] else [];
    var d := [Join(env.stdSysPath(AssetType(eqtype)), RootRelative(eqtype, filename)),
              Join(env.stdUserPath(AssetType(eqtype)), RootRelative(eqtype, filename))];
    assert Candidates(dir, eqtype, env, filename) == a + (b + (c + d));
    FirstFileConcat(a, b + (c + d), fs);
    FirstFileConcat(b, c + d, fs);
    FirstFileConcat(c, d, fs);
    FromRootsIsFirstFile(eqtype, env, fs, filename);
  }

  lemma FromRootsIsFirstFile(eqtype: string, env: Env, fs: FileSystem, filename: string)
    ensures FromRoots(eqtype, env, fs, filename)
         == FirstFile([Join(env.stdSysPath(AssetType(eqtype)), RootRelative(eqtype, filename)),
                       Join(env.stdUserPath(AssetType(eqtype)), RootRelative(eqtype, filename))], fs)
  {
    var d := [Join(env.stdSysPath(AssetType(eqtype)), RootRelative(eqtype, filename)),
              Join(env.stdUserPath(AssetType(eqtype)), RootRelative(eqtype, filename))];
    assert FirstFile(d, fs) == if d[0] in fs then Some(d[0]) else FirstFile(d[1..], fs);
    assert FirstFile(d[1..], fs) == if d[1] in fs then Some(d[1]) else None;
  }

  lemma {:induction false} FirstFileConcat(ps: seq<string>, qs: seq<string>, fs: FileSystem)
    ensures FirstFile(ps + qs, fs) == if FirstFile(ps, fs).Some? then FirstFile(ps, fs) else FirstFile(qs, fs)
  {
    if ps != [] {
      assert (ps + qs)[1..] == ps[1..] + qs;
      FirstFileConcat(ps[1..], qs, fs);
    } else {
      assert ps + qs == qs;
    }
  }

  /** A file found under the material's own directory is what `isExistent` returns. */
  lemma ResolvesInMatDir(dir: string, eqtype: string, env: Env, fs: FileSystem, filename: string)
    requires Join(dir, filename) in fs
    ensures IsExistent(dir, eqtype, env, fs, filename) == Some(Join(dir, filename))
  {
  }

  /** `textureRelName`: a texture path as it is written into a saved material. */
  function TextureRelName(dir: string, eqtype: string, env: Env, path: string): string {
    var p := env.formatPath(path);
    var fobjdir := env.formatPath(dir);
    if StartsWith(p, fobjdir) then SliceFrom(p, |fobjdir| + 1)
    else
      var sys := env.formatPath(env.stdSysPath(eqtype));
      var user := env.formatPath(env.stdUserPath(eqtype));
      var rest :=
        if StartsWith(fobjdir, user) then SliceFrom(fobjdir, |user| + 1)
        else if StartsWith(fobjdir, sys) then SliceFrom(fobjdir, |sys| + 1)
        else "";
      var relpath := if rest != "" then eqtype + "/" + SplitOn(rest, '/')[0] + "/" + BaseName(p) else BaseName(p);
      env.formatPath(relpath)
  }

  /** Python's `s[n:]` for n >= 0: empty once n passes the end. */
  function SliceFrom(s: string, n: nat): (r: string)
    ensures EndsWith(s, r)
  {
    if n <= |s| then s[n..] else ""
  }

  /** A texture under the material directory is saved by its name relative to that directory,
      and that name resolves back to the same file. */
  lemma RelNameResolvesBack(dir: string, eqtype: string, env: Env, fs: FileSystem, b: string)
    requires dir != [] && !EndsWith(dir, "/") && !StartsWith(b, "/")
    requires env.formatPath(Join(dir, b)) == Join(dir, b) && env.formatPath(dir) == dir
    requires Join(dir, b) in fs
    ensures TextureRelName(dir, eqtype, env, Join(dir, b)) == b
    ensures IsExistent(dir, eqtype, env, fs, TextureRelName(dir, eqtype, env, Join(dir, b))) == Some(Join(dir, b))
  {
    var p := Join(dir, b);
    assert p == dir + "/" + b;
    assert p[..|dir|] == dir;
    assert p[|dir| + 1..] == b;
  }

  // ---------------------------------------------------------------------------
  // Parsing a .mhmat file

  /** What the parser needs from outside the material: the environment, the files, Python's floats. */
  datatype Ctx = Ctx(env: Env, fs: FileSystem, eqtype: string, py: Floats)

  /** `[float(w) for w in ws]`: ValueError at the first token that is no float. */
  function ParseFloats(py: Floats, ws: seq<string>): (r: Option<seq<real>>)
    ensures r.Some? ==> |r.value| == |ws|
  {
    if ws == [] then Some([])
    else match py.parse(ws[0])
      case None => None
      case Some(x) =>
        match ParseFloats(py, ws[1..])
        case None => None
        case Some(xs) => Some([x] + xs)
  }

  /** `int(token)` inside the bare `try`: 0 when it raises. Values above 2 are reset to 0. */
  function ColorationValue(words: seq<string>): (m: int)
    ensures m <= 2
  {
    var val := if |words| >= 2 && ParseInt(words[1]).Some? then ParseInt(words[1]).value else 0;
    if val > 2 then 0 else val
  }

  /** The last `/`-separated segment: `arg.split("/")[-1]`. */
  function LastSegment(arg: string): string {
    var parts := SplitOn(arg, '/');
    parts[|parts| - 1]
  }

  /** The branch of the parser a line's first word selects. */
  datatype Key =
    | Comment | TextureKey(attr: string) | NameKey | DescriptionKey | TagKey | ShaderKey
    | BoolKey(attr: string) | ColorationKey | ColorKey(attr: string) | UnitKey(attr: string)
    | AomapKey | ShaderParamKey | OtherKey

  function KeyOf(w: string): (k: Key)
    ensures k.TextureKey? ==> k.attr in TextureKeys
    ensures k.BoolKey? ==> k.attr in BoolKeys
    ensures k.ColorKey? ==> k.attr in ColorKeys
    ensures k.UnitKey? ==> k.attr in UnitKeys
  {
    if w == "#" || w == "//" then Comment
    else if w in TextureKeys then TextureKey(w)
    else if w == "name" then NameKey
    else if w == "description" then DescriptionKey
    else if w == "tag" then TagKey
    else if w == "shader" then ShaderKey
    else if w in BoolKeys then BoolKey(w)
    else if w == "colorationMethod" then ColorationKey
    else if w in ColorKeys then ColorKey(w)
    else if w in UnitKeys then UnitKey(w)
    else if w == "aomapIntensity" then AomapKey
    else if w == "shaderParam" then ShaderParamKey
    else OtherKey   // shaderConfig and unknown keys
  }

  /** One line of a `.mhmat` file applied to the attributes. */
  function ParseLine(a: Attrs, ctx: Ctx, line: string): Outcome<Attrs> {
    var words := Words(line);
    if |words| == 0 then Returned(a) else ParseWords(a, ctx, KeyOf(words[0]), words)
  }

  /** The branch of the parser for `key`, given all the words of the line. */
  function ParseWords(a: Attrs, ctx: Ctx, key: Key, words: seq<string>): Outcome<Attrs>
    requires |words| >= 1 && key == KeyOf(words[0])
  {
    var rest := JoinWith(" ", words[1..]);
    match key
    case Comment => Returned(a)
    case TextureKey(attr) =>
      if |words| < 2 then Raised(IndexError)
      else (match IsExistent(a.ident.mhmatdir, ctx.eqtype, ctx.env, ctx.fs, words[1])
        case Some(p) => Returned(a.(maps := a.maps[attr := p]))
        case None => Returned(a))
    case NameKey => Returned(a.(ident := a.ident.(name := Some(rest))))
    case DescriptionKey => Returned(a.(ident := a.ident.(description := Some(rest))))
    case TagKey => Returned(a.(ident := a.ident.(tags := a.ident.tags + [Lower(rest)])))
    case ShaderKey =>
      if |words| < 2 then Raised(IndexError)
      else Returned(a.(shading := a.shading.(shader := if '/' in words[1] then LastSegment(words[1]) else words[1])))
    case BoolKey(attr) =>
      if |words| < 2 then Raised(IndexError)
      else Returned(a.(flags := SetBool(a.flags, attr, Lower(words[1]) in TrueWords)))
    case ColorationKey => Returned(a.(coloration := a.coloration.(mode := ColorationValue(words))))
    case ColorKey(attr) =>
      (match ParseFloats(ctx.py, words[1..Min(4, |words|)])
       case None => Raised(ValueError)
       case Some(c) => Returned(a.(colors := SetColor(a.colors, attr, c))))
    case UnitKey(attr) =>
      if |words| < 2 then Raised(IndexError)
      else (match ctx.py.parse(words[1])
        case None => Raised(ValueError)
        case Some(x) => Returned(a.(pbr := SetUnit(a.pbr, attr, Clamp(0.0, 1.0, x)))))
    case AomapKey =>
      if |words| < 2 then Raised(IndexError)
      else (match ctx.py.parse(words[1])
        case None => Raised(ValueError)
        case Some(x) => Returned(a.(pbr := a.pbr.(aomap := Clamp(0.0, 2.0, x)))))
    case ShaderParamKey =>
      if |words| < 3 then Raised(IndexError)
      else if words[1] == "litsphereTexture" then
        (match ctx.env.existDataFile("shaders", "litspheres", BaseName(words[2]))
         case Some(p) => Returned(a.(maps := a.maps[LitsphereKey := p]))
         case None => Returned(a))
      else if words[1] == "AdditiveShading" then
        (match ctx.py.parse(words[2])
         case None => Raised(ValueError)
         case Some(x) => Returned(a.(shading := a.shading.(additiveShading := x))))
      else Returned(a.(shading := a.shading.(params := a.shading.params[words[1] := words[2]])))
    case OtherKey => Returned(a)
  }

  /** The parser after the lines `ls`: the attributes so far, and the exception that stopped it. */
  datatype Parsed = Parsed(attrs: Attrs, error: Option<Exc>)

  function ParseLines(a: Attrs, ctx: Ctx, ls: seq<string>): Parsed
    decreases |ls|
  {
    if ls == [] then Parsed(a, None)
    else
      var p := ParseLines(a, ctx, ls[..|ls| - 1]);
      if p.error.Some? then p
      else match ParseLine(p.attrs, ctx, ls[|ls| - 1])
        case Raised(e) => Parsed(p.attrs, Some(e))
        case Returned(a') => Parsed(a', None)
  }

  /** A `shaderParam litsphereTexture` line with its file name. */
  predicate IsLitsphereLine(line: string) {
    var words := Words(line);
    |words| >= 3 && words[0] == "shaderParam" && words[1] == "litsphereTexture"
  }

  /** `loadMatFile`'s parameter `path` after a line that did not raise: a litsphere line
      rebinds it to the litsphere file it looks up, which is None when there is none. */
  function Rebind(ctx: Ctx, line: string, path: Option<string>): (r: Option<string>)
    ensures !IsLitsphereLine(line) ==> r == path
  {
    if IsLitsphereLine(line) then ctx.env.existDataFile("shaders", "litspheres", BaseName(Words(line)[2])) else path
  }

  /** `path` after the lines the parser got through: the line that raised, and those after
      it, rebind nothing. */
  function PathAfter(a: Attrs, ctx: Ctx, ls: seq<string>, path: Option<string>): Option<string>
    decreases |ls|
  {
    if ls == [] then path
    else
      var init := ls[..|ls| - 1];
      var p := ParseLines(a, ctx, init);
      var q := PathAfter(a, ctx, init, path);
      if p.error.Some? || ParseLine(p.attrs, ctx, ls[|ls| - 1]).Raised? then q
      else Rebind(ctx, ls[|ls| - 1], q)
  }

  /** The rules applied once the whole file is read, with `path` as the lines left it. With no
      name read and `path` rebound to None, `os.path.basename(None)` raises TypeError after
      the roughness rule and before the description and shader rules. */
  function Finish(a: Attrs, path: Option<string>): (r: Parsed)
    ensures r.error.Some? <==> a.ident.name.None? && path.None?
    ensures r.error.Some? ==> r.error == Some(TypeError) && r.attrs.ident == a.ident && r.attrs.shading == a.shading
    ensures r.error.None? ==> r.attrs.ident.name.Some? && r.attrs.ident.description.Some?
    ensures r.error.None? ==> (r.attrs.shading.shader == "litsphere" ==> LitsphereKey in r.attrs.maps)
    ensures r.error.None? && a.ident.name.None? ==> r.attrs.ident.name == Some(BaseName(path.value))
    ensures a.ident.name.Some? ==> r.attrs.ident.name == a.ident.name
    ensures r.attrs.maps == a.maps && r.attrs.ident.tags == a.ident.tags && r.attrs.colors == a.colors
    ensures !a.pbr.mrFound ==> r.attrs.pbr.roughness == 1.0 - Sum(a.colors.specular) / 3.0
  {
    var p := if !a.pbr.mrFound then a.pbr.(roughness := 1.0 - Sum(a.colors.specular) / 3.0) else a.pbr;
    if a.ident.name.None? && path.None? then Parsed(a.(pbr := p), Some(TypeError))
    else
      var name := if a.ident.name.None? then Some(BaseName(path.value)) else a.ident.name;
      var description := if a.ident.description.None? then Some(name.value + " material") else a.ident.description;
      var shader := if a.shading.shader == "litsphere" && LitsphereKey !in a.maps then "phong" else a.shading.shader;
      Parsed(a.(pbr := p, ident := a.ident.(name := name, description := description), shading := a.shading.(shader := shader)), None)
  }

  // ---------------------------------------------------------------------------
  // Lemmas about the parser

  /** Blank lines and lines whose first word is exactly "#" or "//" change nothing. */
  lemma SkippedLine(a: Attrs, ctx: Ctx, line: string)
    requires Words(line) == [] || Words(line)[0] in ["#", "//"]
    ensures ParseLine(a, ctx, line) == Returned(a)
  {
  }

  /** A line whose key the parser does not know changes nothing. */
  lemma UnknownKey(a: Attrs, ctx: Ctx, line: string)
    requires |Words(line)| > 0
    requires Words(line)[0] !in TextureKeys + BoolKeys + ColorKeys + UnitKeys
             + ["#", "//", "name", "description", "tag", "shader", "colorationMethod", "aomapIntensity", "shaderParam"]
    ensures ParseLine(a, ctx, line) == Returned(a)
  {
  }

  /** A texture line stores the resolved file, and only when it resolves. */
  lemma TextureLine(a: Attrs, ctx: Ctx, key: string, file: string)
    requires key in TextureKeys && IsWord(file)
    ensures var r := ParseLine(a, ctx, key + " " + file);
      match IsExistent(a.ident.mhmatdir, ctx.eqtype, ctx.env, ctx.fs, file)
      case Some(p) => r == Returned(a.(maps := a.maps[key := p]))
      case None => r == Returned(a)
  {
    LineWords(a, ctx, key, file);
    KeyOfTexture(key);
  }

  /** A "key value" line is parsed by the branch of its key, on its two words. */
  lemma LineWords(a: Attrs, ctx: Ctx, key: string, value: string)
    requires IsWord(key) && IsWord(value)
    ensures ParseLine(a, ctx, key + " " + value) == ParseWords(a, ctx, KeyOf(key), [key, value])
  {
    WordsKV(key, value);
  }

  /** A boolean key is true exactly for "yes", "enabled" and "true", in any letter case. */
  lemma BoolLine(a: Attrs, ctx: Ctx, key: string, value: string)
    requires key in BoolKeys && IsWord(value)
    ensures ParseLine(a, ctx, key + " " + value) == Returned(a.(flags := SetBool(a.flags, key, Lower(value) in TrueWords)))
  {
    WordsKV(key, value);
    KeyOfBool(key);
  }

  /** `colorationMethod`: a non-integer becomes 0, and so does any value above 2; others are kept. */
  lemma ColorationLine(a: Attrs, ctx: Ctx, value: string)
    requires IsWord(value)
    ensures var r := ParseLine(a, ctx, "colorationMethod" + " " + value);
      r.Returned? && r.value == a.(coloration := a.coloration.(mode := r.value.coloration.mode))
      && r.value.coloration.mode == match ParseInt(value) case Some(m) => (if m > 2 then 0 else m) case None => 0
  {
    WordsKV("colorationMethod", value);
    assert KeyOf("colorationMethod") == ColorationKey;
  }

  /** A line of one of the UnitKeys sets that value, clamped into [0, 1]. */
  lemma UnitLine(a: Attrs, ctx: Ctx, key: string, value: string, x: real)
    requires key in UnitKeys && IsWord(value) && ctx.py.parse(value) == Some(x)
    ensures ParseLine(a, ctx, key + " " + value) == Returned(a.(pbr := SetUnit(a.pbr, key, Clamp(0.0, 1.0, x))))
  {
    WordsKV(key, value);
    KeyOfUnit(key);
    var words := Words(key + " " + value);
    assert words[0] == key && words[1] == value;
    UnitWords(a, ctx, key, words, x);
  }

  lemma UnitWords(a: Attrs, ctx: Ctx, key: string, words: seq<string>, x: real)
    requires |words| >= 2 && KeyOf(words[0]) == UnitKey(key) && ctx.py.parse(words[1]) == Some(x)
    ensures ParseWords(a, ctx, UnitKey(key), words) == Returned(a.(pbr := SetUnit(a.pbr, key, Clamp(0.0, 1.0, x))))
  {
  }

  /** An `aomapIntensity` line sets that value, clamped into [0, 2]. */
  lemma AomapLine(a: Attrs, ctx: Ctx, value: string, x: real)
    requires IsWord(value) && ctx.py.parse(value) == Some(x)
    ensures ParseLine(a, ctx, "aomapIntensity" + " " + value) == Returned(a.(pbr := a.pbr.(aomap := Clamp(0.0, 2.0, x))))
  {
    WordsKV("aomapIntensity", value);
    assert KeyOf("aomapIntensity") == AomapKey;
  }

  /** An intensity line clamps the value into [0, 1]; `aomapIntensity` into [0, 2]. */
  lemma IntensityLine(a: Attrs, ctx: Ctx, key: string, value: string, x: real)
    requires key in UnitKeys + ["aomapIntensity"] && IsWord(value) && ctx.py.parse(value) == Some(x)
    ensures var r := ParseLine(a, ctx, key + " " + value);
      r.Returned? && r.value == a.(pbr := r.value.pbr)
      && (key == "normalmapIntensity" ==> r.value.pbr == a.pbr.(normalmap := Clamp(0.0, 1.0, x)))
      && (key == "roughnessFactor" ==> r.value.pbr == a.pbr.(roughness := Clamp(0.0, 1.0, x), mrFound := true))
      && (key == "metallicFactor" ==> r.value.pbr == a.pbr.(metallic := Clamp(0.0, 1.0, x)))
      && (key == "emissiveFactor" ==> r.value.pbr == a.pbr.(emissive := Clamp(0.0, 1.0, x)))
      && (key == "aomapIntensity" ==> r.value.pbr == a.pbr.(aomap := Clamp(0.0, 2.0, x)))
  {
    if key in UnitKeys {
      UnitLine(a, ctx, key, value, x);
    } else {
      AomapLine(a, ctx, value, x);
    }
  }

  /** The tag a line adds: the lower-cased rest of a "tag" line. */
  function LineTags(line: string): seq<string> {
    var ws := Words(line);
    if |ws| > 0 && ws[0] == "tag" then [Lower(JoinWith(" ", ws[1..]))] else []
  }

  /** The tags the lines add, in order. */
  function FileTags(ls: seq<string>): seq<string>
    decreases |ls|
  {
    if ls == [] then [] else FileTags(ls[..|ls| - 1]) + LineTags(ls[|ls| - 1])
  }

  /** Only a tag line touches the tags, and it appends. */
  lemma LineAddsTags(a: Attrs, ctx: Ctx, line: string)
    ensures ParseLine(a, ctx, line).Returned? ==>
      ParseLine(a, ctx, line).value.ident.tags == a.ident.tags + LineTags(line)
  {
    var ws := Words(line);
    if |ws| > 0 {
      var k := KeyOf(ws[0]);
      assert k == TagKey <==> ws[0] == "tag";
      if k.BoolKey? {
        assert ParseWords(a, ctx, k, ws).Returned? ==> ParseWords(a, ctx, k, ws).value.ident == a.ident;
      }
    }
  }

  /** Tags accumulate: each tag line of the file appends one, after those already there
      (from earlier lines and earlier loads). */
  lemma {:induction false} ParseLinesTags(a: Attrs, ctx: Ctx, ls: seq<string>)
    ensures ParseLines(a, ctx, ls).error.None? ==> ParseLines(a, ctx, ls).attrs.ident.tags == a.ident.tags + FileTags(ls)
    decreases |ls|
  {
    if ls != [] {
      var init := ls[..|ls| - 1];
      ParseLinesTags(a, ctx, init);
      var p := ParseLines(a, ctx, init);
      if p.error.None? {
        LineAddsTags(p.attrs, ctx, ls[|ls| - 1]);
      }
    }
  }

  lemma KeyOfTexture(k: string)
    requires k in TextureKeys
    ensures KeyOf(k) == TextureKey(k)
  {
  }

  lemma KeyOfBool(k: string)
    requires k in BoolKeys
    ensures KeyOf(k) == BoolKey(k)
  {
  }

  lemma KeyOfColor(k: string)
    requires k in ColorKeys
    ensures KeyOf(k) == ColorKey(k)
  {
  }

  lemma KeyOfUnit(k: string)
    requires k in UnitKeys
    ensures KeyOf(k) == UnitKey(k)
  {
  }

  /** The words of "key value" for single words key and value. */
  lemma WordsKV(key: string, value: string)
    requires IsWord(key) && IsWord(value)
    ensures Words(key + " " + value) == [key, value]
  {
    WordsCons(key, value);
    WordsOfWord(value);
  }

  /** Parsing stops at the first exception and keeps what the earlier lines set. */
  lemma {:induction false} ParseLinesConcat(a: Attrs, ctx: Ctx, xs: seq<string>, ys: seq<string>)
    ensures var p := ParseLines(a, ctx, xs);
      ParseLines(a, ctx, xs + ys) == if p.error.Some? then p else ParseLines(p.attrs, ctx, ys)
    decreases |ys|
  {
    if ys == [] {
      assert xs + ys == xs;
    } else {
      var ys' := ys[..|ys| - 1];
      ParseLinesConcat(a, ctx, xs, ys');
      assert (xs + ys)[..|xs + ys| - 1] == xs + ys';
      assert (xs + ys)[|xs + ys| - 1] == ys[|ys| - 1];
    }
  }

  /** `path` stops changing once a line raises, and otherwise follows the later lines. */
  lemma {:induction false} PathAfterConcat(a: Attrs, ctx: Ctx, xs: seq<string>, ys: seq<string>, path: Option<string>)
    ensures var p := ParseLines(a, ctx, xs);
      PathAfter(a, ctx, xs + ys, path) ==
        if p.error.Some? then PathAfter(a, ctx, xs, path) else PathAfter(p.attrs, ctx, ys, PathAfter(a, ctx, xs, path))
    decreases |ys|
  {
    if ys == [] {
      assert xs + ys == xs;
    } else {
      var ys' := ys[..|ys| - 1];
      PathAfterConcat(a, ctx, xs, ys', path);
      ParseLinesConcat(a, ctx, xs, ys');
      assert (xs + ys)[..|xs + ys| - 1] == xs + ys';
      assert (xs + ys)[|xs + ys| - 1] == ys[|ys| - 1];
    }
  }

  /** Without a litsphere line, `path` stays the material file. */
  lemma {:induction false} PathKeptWithoutLitsphere(a: Attrs, ctx: Ctx, ls: seq<string>, path: Option<string>)
    requires forall i :: 0 <= i < |ls| ==> !IsLitsphereLine(ls[i])
    ensures PathAfter(a, ctx, ls, path) == path
    decreases |ls|
  {
    if ls != [] {
      PathKeptWithoutLitsphere(a, ctx, ls[..|ls| - 1], path);
    }
  }

  /** A litsphere line the parser reaches rebinds `path` to the file it looks up, whatever it
      was before. */
  lemma LitsphereRebinds(a: Attrs, ctx: Ctx, ls: seq<string>, line: string, path: Option<string>)
    requires IsLitsphereLine(line) && ParseLines(a, ctx, ls).error.None?
    ensures PathAfter(a, ctx, ls + [line], path) == ctx.env.existDataFile("shaders", "litspheres", BaseName(Words(line)[2]))
  {
    assert (ls + [line])[..|ls|] == ls;
    assert KeyOf(Words(line)[0]) == ShaderParamKey;
  }
}
