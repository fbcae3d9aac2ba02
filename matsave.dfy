/** The text `saveMatFile` writes for a material, and the proof that loading that text back
    restores the attributes it was written from. */
module MatSave {
  import opened Wrappers
  import opened Strings
  import opened Paths
  import opened Environment
  import opened MatFile

  /** `str(b)` for a bool. */
  function ShowBool(b: bool): string {
    if b then "True" else "False"
  }

  /** `str(s)` for an attribute that may still be None. */
  function ShowOpt(s: Option<string>): string {
    match s
    case None => "None"
    case Some(v) => v
  }

  /** A `key value` line. */
  function Line(key: string, value: string): string {
    key + " " + value
  }

  /** `f"{c[0]} {c[1]} {c[2]}"` for a colour. */
  function ColorText(py: Floats, c: Rgb): string
    requires |c| >= 3
  {
    py.show(c[0]) + " " + py.show(c[1]) + " " + py.show(c[2])
  }

  /** What `roundColor` leaves in a colour: every component rounded to four decimals. */
  function Rounded(py: Floats, c: Rgb): (r: Rgb)
    ensures |r| == |c|
  {
    seq(|c|, i requires 0 <= i < |c| => py.round4(c[i]))
  }

  /** The colours the text indexes hold at least three components. */
  predicate Printable(a: Attrs) {
    |a.colors.ambient| >= 3 && |a.colors.diffuse| >= 3 && |a.colors.specular| >= 3 && |a.colors.emissive| >= 3
    && (a.coloration.mode != 0 ==> |a.colors.coloration| >= 3)
  }

  // ---------------------------------------------------------------------------
  // The lines of the saved text

  function IdentLines(a: Attrs): seq<string> {
    [Line("#", "MakeHuman2 Material definition for " + ShowOpt(a.ident.name)),
     Line("name", ShowOpt(a.ident.name)),
     Line("description", ShowOpt(a.ident.description)),
     ""]
  }

  function ColorLines(a: Attrs, py: Floats): seq<string>
    requires |a.colors.ambient| >= 3 && |a.colors.diffuse| >= 3 && |a.colors.specular| >= 3 && |a.colors.emissive| >= 3
  {
    [Line("ambientColor", ColorText(py, a.colors.ambient)),
     Line("diffuseColor", ColorText(py, a.colors.diffuse)),
     Line("specularColor", ColorText(py, a.colors.specular)),
     Line("emissiveColor", ColorText(py, a.colors.emissive))]
  }

  function FactorLines(a: Attrs, py: Floats): seq<string> {
    [Line("metallicFactor", py.show(a.pbr.metallic)),
     Line("roughnessFactor", py.show(a.pbr.roughness)),
     ""]
  }

  function FlagLines(a: Attrs): seq<string> {
    [Line("transparent", ShowBool(a.flags.transparent)),
     Line("alphaToCoverage", ShowBool(a.flags.alphaToCoverage)),
     Line("backfaceCull", ShowBool(a.flags.backfaceCull)),
     ""]
  }

  /** The name a saved material refers to the texture of attribute `key` by. */
  function RelName(a: Attrs, eqtype: string, env: Env, key: string): string
    requires key in a.maps
  {
    TextureRelName(a.ident.mhmatdir, eqtype, env, a.maps[key])
  }

  /** The line naming the texture of `key`, present only when that attribute is set. */
  function MapLine(a: Attrs, eqtype: string, env: Env, key: string): seq<string> {
    if key in a.maps then [Line(key, RelName(a, eqtype, env, key))] else []
  }

  function NormalBlock(a: Attrs, eqtype: string, env: Env, py: Floats): seq<string> {
    if "normalmapTexture" in a.maps then
      MapLine(a, eqtype, env, "normalmapTexture") + [Line("normalmapIntensity", py.show(a.pbr.normalmap))]
    else []
  }

  /** The occlusion block: the intensity is written with or without a map. */
  function OcclusionBlock(a: Attrs, eqtype: string, env: Env, py: Floats): seq<string> {
    MapLine(a, eqtype, env, "aomapTexture") + [Line("aomapIntensity", py.show(a.pbr.aomap))]
  }

  function EmissiveBlock(a: Attrs, eqtype: string, env: Env, py: Floats): seq<string> {
    if "emissiveTexture" in a.maps then
      MapLine(a, eqtype, env, "emissiveTexture") + [Line("emissiveFactor", py.show(a.pbr.emissive))]
    else []
  }

  /** The coloration block, only when a coloration method is set; its colour line has two spaces. */
  function ColorationBlock(a: Attrs, py: Floats): seq<string>
    requires Printable(a)
  {
    if a.coloration.mode != 0 then
      [Line("colorationMethod", IntToString(a.coloration.mode)),
       Line("colorationColor", " " + ColorText(py, a.colors.coloration))]
    else []
  }

  function BlockLines(a: Attrs, eqtype: string, env: Env, py: Floats): seq<string>
    requires Printable(a)
  {
    MapLine(a, eqtype, env, "diffuseTexture") + NormalBlock(a, eqtype, env, py) + OcclusionBlock(a, eqtype, env, py)
    + MapLine(a, eqtype, env, "metallicRoughnessTexture") + EmissiveBlock(a, eqtype, env, py) + ColorationBlock(a, py)
  }

  /** Only the base name of the litsphere texture is saved. */
  function LitsphereLine(a: Attrs): string {
    if LitsphereKey in a.maps then Line("shaderParam", Line("litsphereTexture", BaseName(a.maps[LitsphereKey]))) else ""
  }

  function TailLines(a: Attrs): seq<string> {
    ["", "", Line("shader", a.shading.shader), LitsphereLine(a), "", ""]
  }

  /** The lines of the text `saveMatFile` writes. */
  function MatLines(a: Attrs, eqtype: string, env: Env, py: Floats): seq<string>
    requires Printable(a)
  {
    IdentLines(a) + ColorLines(a, py) + FactorLines(a, py) + FlagLines(a)
    + BlockLines(a, eqtype, env, py) + TailLines(a)
  }

  /** The text `saveMatFile` writes. */
  function MatText(a: Attrs, eqtype: string, env: Env, py: Floats): string
    requires Printable(a)
  {
    JoinWith("\n", MatLines(a, eqtype, env, py))
  }

  // ---------------------------------------------------------------------------
  // What the text holds

  /** The file names a material's maps, each behind its key, exactly for the maps that are set;
      the occlusion intensity is always written. */
  lemma BlocksFollowMaps(a: Attrs, eqtype: string, env: Env, py: Floats)
    requires Printable(a)
    ensures var bs := BlockLines(a, eqtype, env, py);
      Line("aomapIntensity", py.show(a.pbr.aomap)) in bs
      && (forall k :: k in TextureKeys && k in a.maps ==> Line(k, RelName(a, eqtype, env, k)) in bs)
      && (a.coloration.mode != 0 ==> Line("colorationMethod", IntToString(a.coloration.mode)) in bs)
      && (a.coloration.mode == 0 ==> |bs| <= 8)
  {
  }

  /** Reading the text back line by line gives the lines it was joined from, when none of
      them holds a line break. */
  lemma TextSplitsIntoLines(a: Attrs, eqtype: string, env: Env, py: Floats)
    requires Printable(a)
    requires var ls := MatLines(a, eqtype, env, py);
      forall i, j :: 0 <= i < |ls| && 0 <= j < |ls[i]| ==> ls[i][j] != '\n'
    ensures SplitOn(MatText(a, eqtype, env, py), '\n') == MatLines(a, eqtype, env, py)
  {
    assert "\n" == ['\n'];
    SplitOnJoin(MatLines(a, eqtype, env, py), '\n');
  }

  // ---------------------------------------------------------------------------
  // Loading the saved text back

  /** Python prints the float `x` as one token that `float()` reads back to `x`. */
  predicate FloatToken(py: Floats, x: real) {
    IsWord(py.show(x)) && py.parse(py.show(x)) == Some(x)
  }

  /** A colour of three components, each printed as such a token. */
  predicate RgbTokens(py: Floats, c: Rgb) {
    |c| == 3 && FloatToken(py, c[0]) && FloatToken(py, c[1]) && FloatToken(py, c[2])
  }

  /** The four colours the text always holds read back. */
  predicate ColorTokens(a: Attrs, py: Floats) {
    RgbTokens(py, a.colors.ambient) && RgbTokens(py, a.colors.diffuse)
    && RgbTokens(py, a.colors.specular) && RgbTokens(py, a.colors.emissive)
  }

  /** Every float the saved text holds for `a` reads back: the four colours, the two factors,
      the occlusion intensity, the normal intensity and the emissive factor when their block is
      written, and the coloration colour when a method is set. */
  predicate FloatsReadBack(a: Attrs, py: Floats) {
    ColorTokens(a, py)
    && FloatToken(py, a.pbr.metallic) && FloatToken(py, a.pbr.roughness) && FloatToken(py, a.pbr.aomap)
    && ("normalmapTexture" in a.maps ==> FloatToken(py, a.pbr.normalmap))
    && ("emissiveTexture" in a.maps ==> FloatToken(py, a.pbr.emissive))
    && (a.coloration.mode != 0 ==> RgbTokens(py, a.colors.coloration))
  }

  /** Words separated by single spaces: what a `name` or `description` line reads back. */
  predicate Normalized(s: string) {
    s == JoinWith(" ", Words(s))
  }

  /** The attributes whose saved text reads back to them: values the parser produces (three
      components per colour, factors inside their clamp ranges, a coloration method of at most 2,
      a one-word shader without `/`), a name and a description, and one-word file names. */
  predicate Savable(a: Attrs, eqtype: string, env: Env) {
    a.ident.name.Some? && Normalized(a.ident.name.value)
    && a.ident.description.Some? && Normalized(a.ident.description.value)
    && |a.colors.ambient| == 3 && |a.colors.diffuse| == 3 && |a.colors.specular| == 3 && |a.colors.emissive| == 3
    && (a.coloration.mode != 0 ==> |a.colors.coloration| == 3)
    && a.coloration.mode <= 2
    && 0.0 <= a.pbr.metallic <= 1.0 && 0.0 <= a.pbr.roughness <= 1.0 && 0.0 <= a.pbr.normalmap <= 1.0
    && 0.0 <= a.pbr.emissive <= 1.0 && 0.0 <= a.pbr.aomap <= 2.0
    && IsWord(a.shading.shader) && '/' !in a.shading.shader
    && (forall k :: k in TextureKeys && k in a.maps ==> IsWord(RelName(a, eqtype, env, k)))
    && (LitsphereKey in a.maps ==> IsWord(BaseName(a.maps[LitsphereKey])))
  }

  /** What loading the text saved from `a` sets over the state `b`, the texture maps aside: the
      name, description, colours, factors and flags of `a`, the shader, the intensities whose
      block was written and the coloration when it is on. */
  function Reloaded(b: Attrs, a: Attrs): Attrs {
    var on := a.coloration.mode != 0;
    b.(ident := b.ident.(name := a.ident.name, description := a.ident.description),
       colors := a.colors.(coloration := if on then a.colors.coloration else b.colors.coloration),
       coloration := b.coloration.(mode := if on then a.coloration.mode else b.coloration.mode),
       pbr := b.pbr.(metallic := a.pbr.metallic, roughness := a.pbr.roughness, mrFound := true,
                     normalmap := if "normalmapTexture" in a.maps then a.pbr.normalmap else b.pbr.normalmap,
                     emissive := if "emissiveTexture" in a.maps then a.pbr.emissive else b.pbr.emissive,
                     aomap := a.pbr.aomap),
       flags := a.flags,
       shading := b.shading.(shader := a.shading.shader))
  }

  /** Saving and loading again restores the saved attributes: the text parses without an
      exception, and only the texture maps depend on what the names resolve to at load time. */
  lemma SaveLoadRoundTrip(b: Attrs, ctx: Ctx, a: Attrs)
    requires Savable(a, ctx.eqtype, ctx.env) && FloatsReadBack(a, ctx.py)
    ensures var p := ParseLines(b, ctx, MatLines(a, ctx.eqtype, ctx.env, ctx.py));
      p.error == None && p.attrs == Reloaded(b, a).(maps := p.attrs.maps)
  {
    var py := ctx.py;
    var head := IdentLines(a) + ColorLines(a, py) + FactorLines(a, py) + FlagLines(a);
    var blocks := BlockLines(a, ctx.eqtype, ctx.env, py);
    var x := HeadReloaded(b, a);
    HeadRoundTrip(b, ctx, a);
    assert ParseLines(b, ctx, head) == Parsed(x, None);
    BlocksRoundTrip(x, ctx, a);
    var y := ParseLines(x, ctx, blocks).attrs;
    ParseLinesConcat(b, ctx, head, blocks);
    TailRoundTrip(y, ctx, a);
    var z := ParseLines(y, ctx, TailLines(a)).attrs;
    ParseLinesConcat(b, ctx, head + blocks, TailLines(a));
    assert MatLines(a, ctx.eqtype, ctx.env, py) == head + blocks + TailLines(a);
    assert z == Reloaded(b, a).(maps := z.maps);
  }

  /** A `str(float)` that prints 0.0, 0.5 and 1.0 as Python does and reads them back. */
  const ShortFloats := Floats(
    t => if t == "0.0" then Some(0.0) else if t == "0.5" then Some(0.5) else if t == "1.0" then Some(1.0) else None,
    x => if x == 0.0 then "0.0" else if x == 0.5 then "0.5" else "1.0",
    x => x)

  /** The default material of `__init__`, named and described "skin". */
  function SkinMaterial(): Attrs {
    var a := Initial("");
    a.(ident := a.ident.(name := Some("skin"), description := Some("skin")))
  }

  /** The default material, once named, meets the round trip's conditions. */
  lemma SkinMaterialSavable(env: Env)
    ensures Savable(SkinMaterial(), "skin", env) && FloatsReadBack(SkinMaterial(), ShortFloats)
  {
    var a := SkinMaterial();
    WordsOfWord("skin");
    WordsOfWord("phong");
    assert JoinWith(" ", ["skin"]) == "skin";
    ShortFloatTokens();
    assert ColorTokens(a, ShortFloats);
  }

  lemma ShortFloatTokens()
    ensures FloatToken(ShortFloats, 0.0) && FloatToken(ShortFloats, 0.5) && FloatToken(ShortFloats, 1.0)
  {
    assert IsWord("0.0") && IsWord("0.5") && IsWord("1.0");
    assert ShortFloats.show(0.5) == "0.5";
    assert ShortFloats.parse("0.5") == Some(0.5);
    assert ShortFloats.show(1.0) == "1.0";
    assert ShortFloats.parse("1.0") == Some(1.0);
  }

  /** Saving the default material and loading it again restores it. */
  lemma SkinMaterialRoundTrip(b: Attrs, env: Env, fs: FileSystem)
    ensures var ctx := Ctx(env, fs, "skin", ShortFloats);
      var p := ParseLines(b, ctx, MatLines(SkinMaterial(), ctx.eqtype, ctx.env, ctx.py));
      p.error == None && p.attrs == Reloaded(b, SkinMaterial()).(maps := p.attrs.maps)
  {
    SkinMaterialSavable(env);
    SaveLoadRoundTrip(b, Ctx(env, fs, "skin", ShortFloats), SkinMaterial());
  }

  /** The state after the first fifteen lines: identity, colours, factors and flags. */
  function HeadReloaded(b: Attrs, a: Attrs): Attrs {
    b.(ident := b.ident.(name := a.ident.name, description := a.ident.description),
       colors := b.colors.(ambient := a.colors.ambient, diffuse := a.colors.diffuse,
                           specular := a.colors.specular, emissive := a.colors.emissive),
       pbr := b.pbr.(metallic := a.pbr.metallic, roughness := a.pbr.roughness, mrFound := true),
       flags := a.flags)
  }

  /** The state the blocks leave over `x`, the texture maps aside. */
  function BlocksReloaded(x: Attrs, a: Attrs): Attrs {
    var on := a.coloration.mode != 0;
    x.(colors := x.colors.(coloration := if on then a.colors.coloration else x.colors.coloration),
       coloration := x.coloration.(mode := if on then a.coloration.mode else x.coloration.mode),
       pbr := x.pbr.(normalmap := if "normalmapTexture" in a.maps then a.pbr.normalmap else x.pbr.normalmap,
                     emissive := if "emissiveTexture" in a.maps then a.pbr.emissive else x.pbr.emissive,
                     aomap := a.pbr.aomap))
  }

  lemma HeadRoundTrip(b: Attrs, ctx: Ctx, a: Attrs)
    requires Savable(a, ctx.eqtype, ctx.env) && FloatsReadBack(a, ctx.py)
    ensures ParseLines(b, ctx, IdentLines(a) + ColorLines(a, ctx.py) + FactorLines(a, ctx.py) + FlagLines(a))
         == Parsed(HeadReloaded(b, a), None)
  {
    var py := ctx.py;
    var x1 := b.(ident := b.ident.(name := a.ident.name, description := a.ident.description));
    IdentRoundTrip(b, ctx, a);
    var x2 := x1.(colors := x1.colors.(ambient := a.colors.ambient, diffuse := a.colors.diffuse,
                                       specular := a.colors.specular, emissive := a.colors.emissive));
    ColorsRoundTrip(x1, ctx, a);
    var x3 := x2.(pbr := x2.pbr.(metallic := a.pbr.metallic, roughness := a.pbr.roughness, mrFound := true));
    FactorsRoundTrip(x2, ctx, a);
    FlagsRoundTrip(x3, ctx, a);
    ParseLinesConcat(b, ctx, IdentLines(a), ColorLines(a, py));
    ParseLinesConcat(b, ctx, IdentLines(a) + ColorLines(a, py), FactorLines(a, py));
    ParseLinesConcat(b, ctx, IdentLines(a) + ColorLines(a, py) + FactorLines(a, py), FlagLines(a));
    assert x3.(flags := a.flags) == HeadReloaded(b, a);
  }

  lemma IdentRoundTrip(x: Attrs, ctx: Ctx, a: Attrs)
    requires a.ident.name.Some? && Normalized(a.ident.name.value)
    requires a.ident.description.Some? && Normalized(a.ident.description.value)
    ensures ParseLines(x, ctx, IdentLines(a))
         == Parsed(x.(ident := x.ident.(name := a.ident.name, description := a.ident.description)), None)
  {
    var ls := IdentLines(a);
    var x1 := x.(ident := x.ident.(name := a.ident.name));
    var x2 := x1.(ident := x1.ident.(description := a.ident.description));
    HeaderLine(x, ctx, "MakeHuman2 Material definition for " + a.ident.name.value);
    NameLine(x, ctx, a.ident.name.value);
    DescriptionLine(x1, ctx, a.ident.description.value);
    ParseLinesChain(ctx, ls, [x, x, x1, x2, x2]);
  }

  lemma ColorsRoundTrip(x: Attrs, ctx: Ctx, a: Attrs)
    requires ColorTokens(a, ctx.py)
    ensures ParseLines(x, ctx, ColorLines(a, ctx.py))
         == Parsed(x.(colors := x.colors.(ambient := a.colors.ambient, diffuse := a.colors.diffuse,
                                          specular := a.colors.specular, emissive := a.colors.emissive)), None)
  {
    var c := a.colors;
    var x1 := x.(colors := SetColor(x.colors, "ambientColor", c.ambient));
    var x2 := x1.(colors := SetColor(x1.colors, "diffuseColor", c.diffuse));
    var x3 := x2.(colors := SetColor(x2.colors, "specularColor", c.specular));
    var x4 := x3.(colors := SetColor(x3.colors, "emissiveColor", c.emissive));
    ColorsChain(ctx, a, x, x1, x2, x3, x4);
    assert x1.colors == x.colors.(ambient := c.ambient);
    assert x2.colors == x1.colors.(diffuse := c.diffuse);
    assert x3.colors == x2.colors.(specular := c.specular);
    assert x4.colors == x3.colors.(emissive := c.emissive);
  }

  /** The four colour lines, each parsed from the state the previous one left. */
  lemma ColorsChain(ctx: Ctx, a: Attrs, x: Attrs, x1: Attrs, x2: Attrs, x3: Attrs, x4: Attrs)
    requires ColorTokens(a, ctx.py)
    requires x1 == x.(colors := SetColor(x.colors, "ambientColor", a.colors.ambient))
    requires x2 == x1.(colors := SetColor(x1.colors, "diffuseColor", a.colors.diffuse))
    requires x3 == x2.(colors := SetColor(x2.colors, "specularColor", a.colors.specular))
    requires x4 == x3.(colors := SetColor(x3.colors, "emissiveColor", a.colors.emissive))
    ensures ParseLines(x, ctx, ColorLines(a, ctx.py)) == Parsed(x4, None)
  {
    var ls := ColorLines(a, ctx.py);
    assert ls == ls[..2] + ls[2..];
    ColorPair(ctx, "ambientColor", a.colors.ambient, "diffuseColor", a.colors.diffuse, ls[..2], x, x1, x2);
    ColorPair(ctx, "specularColor", a.colors.specular, "emissiveColor", a.colors.emissive, ls[2..], x2, x3, x4);
    ParseLinesConcat(x, ctx, ls[..2], ls[2..]);
  }

  /** Two colour lines in a row. */
  lemma ColorPair(ctx: Ctx, k0: string, c0: Rgb, k1: string, c1: Rgb, ls: seq<string>, x: Attrs, x1: Attrs, x2: Attrs)
    requires k0 in ["ambientColor", "diffuseColor", "specularColor", "emissiveColor"]
    requires k1 in ["ambientColor", "diffuseColor", "specularColor", "emissiveColor"]
    requires RgbTokens(ctx.py, c0) && RgbTokens(ctx.py, c1)
    requires ls == [Line(k0, ColorText(ctx.py, c0)), Line(k1, ColorText(ctx.py, c1))]
    requires x1 == x.(colors := SetColor(x.colors, k0, c0))
    requires x2 == x1.(colors := SetColor(x1.colors, k1, c1))
    ensures ParseLines(x, ctx, ls) == Parsed(x2, None)
  {
    ColorLine(x, ctx, k0, c0);
    ColorLine(x1, ctx, k1, c1);
    Chain2(ctx, ls, [x, x1, x2]);
  }

  lemma FactorsRoundTrip(x: Attrs, ctx: Ctx, a: Attrs)
    requires 0.0 <= a.pbr.metallic <= 1.0 && 0.0 <= a.pbr.roughness <= 1.0
    requires FloatToken(ctx.py, a.pbr.metallic) && FloatToken(ctx.py, a.pbr.roughness)
    ensures ParseLines(x, ctx, FactorLines(a, ctx.py))
         == Parsed(x.(pbr := x.pbr.(metallic := a.pbr.metallic, roughness := a.pbr.roughness, mrFound := true)), None)
  {
    var x1 := x.(pbr := x.pbr.(metallic := a.pbr.metallic));
    var x2 := x1.(pbr := x1.pbr.(roughness := a.pbr.roughness, mrFound := true));
    FactorLine(x, ctx, "metallicFactor", a.pbr.metallic);
    FactorLine(x1, ctx, "roughnessFactor", a.pbr.roughness);
    ParseLinesChain(ctx, FactorLines(a, ctx.py), [x, x1, x2, x2]);
  }

  lemma FlagsRoundTrip(x: Attrs, ctx: Ctx, a: Attrs)
    ensures ParseLines(x, ctx, FlagLines(a)) == Parsed(x.(flags := a.flags), None)
  {
    var f := a.flags;
    var x1 := x.(flags := SetBool(x.flags, "transparent", f.transparent));
    var x2 := x1.(flags := SetBool(x1.flags, "alphaToCoverage", f.alphaToCoverage));
    var x3 := x2.(flags := SetBool(x2.flags, "backfaceCull", f.backfaceCull));
    BoolSaved(x, ctx, "transparent", f.transparent);
    BoolSaved(x1, ctx, "alphaToCoverage", f.alphaToCoverage);
    BoolSaved(x2, ctx, "backfaceCull", f.backfaceCull);
    ParseLinesChain(ctx, FlagLines(a), [x, x1, x2, x3, x3]);
  }

  lemma BlocksRoundTrip(x: Attrs, ctx: Ctx, a: Attrs)
    requires Savable(a, ctx.eqtype, ctx.env) && FloatsReadBack(a, ctx.py)
    ensures var p := ParseLines(x, ctx, BlockLines(a, ctx.eqtype, ctx.env, ctx.py));
      p.error == None && p.attrs == BlocksReloaded(x, a).(maps := p.attrs.maps)
  {
    var py := ctx.py;
    var eqtype := ctx.eqtype;
    var env := ctx.env;
    var d := MapLine(a, eqtype, env, "diffuseTexture");
    var n := NormalBlock(a, eqtype, env, py);
    var o := OcclusionBlock(a, eqtype, env, py);
    var m := MapLine(a, eqtype, env, "metallicRoughnessTexture");
    var e := EmissiveBlock(a, eqtype, env, py);
    var c := ColorationBlock(a, py);
    MapLineRoundTrip(x, ctx, a, "diffuseTexture");
    var x1 := ParseLines(x, ctx, d).attrs;
    NormalRoundTrip(x1, ctx, a);
    var x2 := ParseLines(x1, ctx, n).attrs;
    OcclusionRoundTrip(x2, ctx, a);
    var x3 := ParseLines(x2, ctx, o).attrs;
    MapLineRoundTrip(x3, ctx, a, "metallicRoughnessTexture");
    var x4 := ParseLines(x3, ctx, m).attrs;
    EmissiveRoundTrip(x4, ctx, a);
    var x5 := ParseLines(x4, ctx, e).attrs;
    ColorationRoundTrip(x5, ctx, a);
    var x6 := ParseLines(x5, ctx, c).attrs;
    ParseLinesConcat(x, ctx, d, n);
    ParseLinesConcat(x, ctx, d + n, o);
    ParseLinesConcat(x, ctx, d + n + o, m);
    ParseLinesConcat(x, ctx, d + n + o + m, e);
    ParseLinesConcat(x, ctx, d + n + o + m + e, c);
    assert BlockLines(a, eqtype, env, py) == d + n + o + m + e + c;
    assert x6 == BlocksReloaded(x, a).(maps := x6.maps);
  }

  /** A map line changes nothing but the maps. */
  lemma MapLineRoundTrip(x: Attrs, ctx: Ctx, a: Attrs, key: string)
    requires key in TextureKeys
    requires key in a.maps ==> IsWord(RelName(a, ctx.eqtype, ctx.env, key))
    ensures var p := ParseLines(x, ctx, MapLine(a, ctx.eqtype, ctx.env, key));
      p.error == None && p.attrs == x.(maps := p.attrs.maps)
  {
    if key in a.maps {
      var ls := MapLine(a, ctx.eqtype, ctx.env, key);
      MapSaved(x, ctx, key, RelName(a, ctx.eqtype, ctx.env, key));
      ParseLinesChain(ctx, ls, [x, ParseLine(x, ctx, ls[0]).value]);
    }
  }

  lemma NormalRoundTrip(x: Attrs, ctx: Ctx, a: Attrs)
    requires Savable(a, ctx.eqtype, ctx.env) && FloatsReadBack(a, ctx.py)
    ensures var p := ParseLines(x, ctx, NormalBlock(a, ctx.eqtype, ctx.env, ctx.py));
      p.error == None
      && p.attrs == (if "normalmapTexture" in a.maps then x.(pbr := x.pbr.(normalmap := a.pbr.normalmap)) else x)
                    .(maps := p.attrs.maps)
  {
    var k := "normalmapTexture";
    if k in a.maps {
      var ls := NormalBlock(a, ctx.eqtype, ctx.env, ctx.py);
      MapSaved(x, ctx, k, RelName(a, ctx.eqtype, ctx.env, k));
      var x1 := ParseLine(x, ctx, ls[0]).value;
      FactorLine(x1, ctx, "normalmapIntensity", a.pbr.normalmap);
      ParseLinesChain(ctx, ls, [x, x1, x1.(pbr := x1.pbr.(normalmap := a.pbr.normalmap))]);
    }
  }

  lemma OcclusionRoundTrip(x: Attrs, ctx: Ctx, a: Attrs)
    requires Savable(a, ctx.eqtype, ctx.env) && FloatsReadBack(a, ctx.py)
    ensures var p := ParseLines(x, ctx, OcclusionBlock(a, ctx.eqtype, ctx.env, ctx.py));
      p.error == None && p.attrs == x.(pbr := x.pbr.(aomap := a.pbr.aomap)).(maps := p.attrs.maps)
  {
    var k := "aomapTexture";
    var ls := OcclusionBlock(a, ctx.eqtype, ctx.env, ctx.py);
    if k in a.maps {
      MapSaved(x, ctx, k, RelName(a, ctx.eqtype, ctx.env, k));
      var x1 := ParseLine(x, ctx, ls[0]).value;
      AomapLine(x1, ctx, a.pbr.aomap);
      ParseLinesChain(ctx, ls, [x, x1, x1.(pbr := x1.pbr.(aomap := a.pbr.aomap))]);
    } else {
      AomapLine(x, ctx, a.pbr.aomap);
      ParseLinesChain(ctx, ls, [x, x.(pbr := x.pbr.(aomap := a.pbr.aomap))]);
    }
  }

  lemma EmissiveRoundTrip(x: Attrs, ctx: Ctx, a: Attrs)
    requires Savable(a, ctx.eqtype, ctx.env) && FloatsReadBack(a, ctx.py)
    ensures var p := ParseLines(x, ctx, EmissiveBlock(a, ctx.eqtype, ctx.env, ctx.py));
      p.error == None
      && p.attrs == (if "emissiveTexture" in a.maps then x.(pbr := x.pbr.(emissive := a.pbr.emissive)) else x)
                    .(maps := p.attrs.maps)
  {
    var k := "emissiveTexture";
    if k in a.maps {
      var ls := EmissiveBlock(a, ctx.eqtype, ctx.env, ctx.py);
      var l0 := Line(k, RelName(a, ctx.eqtype, ctx.env, k));
      var l1 := Line("emissiveFactor", ctx.py.show(a.pbr.emissive));
      assert ls == [l0, l1];
      MapSaved(x, ctx, k, RelName(a, ctx.eqtype, ctx.env, k));
      var x1 := ParseLine(x, ctx, l0).value;
      var x2 := x1.(pbr := x1.pbr.(emissive := a.pbr.emissive));
      FactorLine(x1, ctx, "emissiveFactor", a.pbr.emissive);
      assert SetUnit(x1.pbr, "emissiveFactor", a.pbr.emissive) == x2.pbr;
      Chain2(ctx, ls, [x, x1, x2]);
    }
  }

  lemma ColorationRoundTrip(x: Attrs, ctx: Ctx, a: Attrs)
    requires Savable(a, ctx.eqtype, ctx.env) && FloatsReadBack(a, ctx.py)
    ensures ParseLines(x, ctx, ColorationBlock(a, ctx.py))
         == Parsed(if a.coloration.mode != 0
                   then x.(colors := x.colors.(coloration := a.colors.coloration),
                           coloration := x.coloration.(mode := a.coloration.mode))
                   else x, None)
  {
    if a.coloration.mode != 0 {
      var x1 := x.(coloration := x.coloration.(mode := a.coloration.mode));
      var x2 := x1.(colors := SetColor(x1.colors, "colorationColor", a.colors.coloration));
      ModeLine(x, ctx, a.coloration.mode);
      ColorationColorLine(x1, ctx, a.colors.coloration);
      ParseLinesChain(ctx, ColorationBlock(a, ctx.py), [x, x1, x2]);
    }
  }

  lemma TailRoundTrip(x: Attrs, ctx: Ctx, a: Attrs)
    requires Savable(a, ctx.eqtype, ctx.env)
    ensures var p := ParseLines(x, ctx, TailLines(a));
      p.error == None && p.attrs == x.(shading := x.shading.(shader := a.shading.shader)).(maps := p.attrs.maps)
  {
    var x1 := x.(shading := x.shading.(shader := a.shading.shader));
    ShaderLine(x, ctx, a.shading.shader);
    if LitsphereKey in a.maps {
      LitsphereSaved(x1, ctx, BaseName(a.maps[LitsphereKey]), None);
    }
    var x2 := ParseLine(x1, ctx, LitsphereLine(a)).value;
    ParseLinesChain(ctx, TailLines(a), [x, x, x, x1, x2, x2, x2]);
  }

  // ---------------------------------------------------------------------------
  // Single saved lines, parsed back

  /** A run of lines each of which parses from the state the previous one left. */
  lemma {:induction false} ParseLinesChain(ctx: Ctx, ls: seq<string>, xs: seq<Attrs>)
    requires |xs| == |ls| + 1
    requires forall i :: 0 <= i < |ls| ==> ParseLine(xs[i], ctx, ls[i]) == Returned(xs[i + 1])
    ensures ParseLines(xs[0], ctx, ls) == Parsed(xs[|ls|], None)
    decreases |ls|
  {
    if ls != [] {
      ParseLinesChain(ctx, ls[..|ls| - 1], xs[..|ls|]);
    }
  }

  /** `ParseLinesChain` for two lines, stated without a quantifier. */
  lemma Chain2(ctx: Ctx, ls: seq<string>, xs: seq<Attrs>)
    requires |ls| == 2 && |xs| == 3
    requires ParseLine(xs[0], ctx, ls[0]) == Returned(xs[1])
    requires ParseLine(xs[1], ctx, ls[1]) == Returned(xs[2])
    ensures ParseLines(xs[0], ctx, ls) == Parsed(xs[2], None)
  {
    ParseLinesChain(ctx, ls, xs);
  }

  lemma HeaderLine(x: Attrs, ctx: Ctx, rest: string)
    ensures ParseLine(x, ctx, Line("#", rest)) == Returned(x)
  {
    WordsCons("#", rest);
  }

  lemma NameLine(x: Attrs, ctx: Ctx, n: string)
    requires Normalized(n)
    ensures ParseLine(x, ctx, Line("name", n)) == Returned(x.(ident := x.ident.(name := Some(n))))
  {
    WordsCons("name", n);
    assert Words(Line("name", n))[1..] == Words(n);
  }

  lemma DescriptionLine(x: Attrs, ctx: Ctx, d: string)
    requires Normalized(d)
    ensures ParseLine(x, ctx, Line("description", d)) == Returned(x.(ident := x.ident.(description := Some(d))))
  {
    WordsCons("description", d);
    assert Words(Line("description", d))[1..] == Words(d);
  }

  /** The printed components of a colour are its three words. */
  lemma ColorTextWords(py: Floats, c: Rgb)
    requires RgbTokens(py, c)
    ensures Words(ColorText(py, c)) == [py.show(c[0]), py.show(c[1]), py.show(c[2])]
  {
    var s0, s1, s2 := py.show(c[0]), py.show(c[1]), py.show(c[2]);
    assert ColorText(py, c) == s0 + " " + (s1 + " " + s2);
    WordsCons(s0, s1 + " " + s2);
    WordsCons(s1, s2);
    WordsOfWord(s2);
  }

  /** The three printed components read back to the colour. */
  lemma ColorFloats(py: Floats, c: Rgb)
    requires RgbTokens(py, c)
    ensures ParseFloats(py, [py.show(c[0]), py.show(c[1]), py.show(c[2])]) == Some(c)
  {
    var w2 := [py.show(c[2])];
    assert w2[1..] == [] && [c[2]] + [] == [c[2]];
    assert ParseFloats(py, w2) == Some([c[2]]);
    var w1 := [py.show(c[1])] + w2;
    assert w1[1..] == w2 && [c[1]] + [c[2]] == [c[1], c[2]];
    assert ParseFloats(py, w1) == Some([c[1], c[2]]);
    var w0 := [py.show(c[0])] + w1;
    assert w0[1..] == w1 && [c[0]] + [c[1], c[2]] == [c[0], c[1], c[2]];
    assert ParseFloats(py, w0) == Some([c[0], c[1], c[2]]);
    assert w0 == [py.show(c[0]), py.show(c[1]), py.show(c[2])];
    assert c == [c[0], c[1], c[2]];
  }

  /** A line whose words are a colour key and the printed components sets that colour. */
  lemma ColorWordsLine(x: Attrs, ctx: Ctx, key: string, c: Rgb, line: string)
    requires key in ColorKeys && KeyOf(key) == ColorKey(key)
    requires RgbTokens(ctx.py, c)
    requires Words(line) == [key, ctx.py.show(c[0]), ctx.py.show(c[1]), ctx.py.show(c[2])]
    ensures ParseLine(x, ctx, line) == Returned(x.(colors := SetColor(x.colors, key, c)))
  {
    var ws := Words(line);
    assert ws[1..Min(4, |ws|)] == [ctx.py.show(c[0]), ctx.py.show(c[1]), ctx.py.show(c[2])];
    ColorFloats(ctx.py, c);
  }

  lemma ColorLine(x: Attrs, ctx: Ctx, key: string, c: Rgb)
    requires key in ["ambientColor", "diffuseColor", "specularColor", "emissiveColor"]
    requires RgbTokens(ctx.py, c)
    ensures ParseLine(x, ctx, Line(key, ColorText(ctx.py, c))) == Returned(x.(colors := SetColor(x.colors, key, c)))
  {
    WordsCons(key, ColorText(ctx.py, c));
    ColorTextWords(ctx.py, c);
    KeyOfColor(key);
    ColorWordsLine(x, ctx, key, c, Line(key, ColorText(ctx.py, c)));
  }

  /** The coloration colour line, two spaces after the key included. */
  lemma ColorationColorLine(x: Attrs, ctx: Ctx, c: Rgb)
    requires RgbTokens(ctx.py, c)
    ensures ParseLine(x, ctx, Line("colorationColor", " " + ColorText(ctx.py, c)))
         == Returned(x.(colors := SetColor(x.colors, "colorationColor", c)))
  {
    var t := ColorText(ctx.py, c);
    WordsCons("colorationColor", " " + t);
    assert (" " + t)[1..] == t;
    ColorTextWords(ctx.py, c);
    KeyOfColor("colorationColor");
    ColorWordsLine(x, ctx, "colorationColor", c, Line("colorationColor", " " + t));
  }

  lemma FactorLine(x: Attrs, ctx: Ctx, key: string, v: real)
    requires key in UnitKeys && 0.0 <= v <= 1.0 && FloatToken(ctx.py, v)
    ensures ParseLine(x, ctx, Line(key, ctx.py.show(v))) == Returned(x.(pbr := SetUnit(x.pbr, key, v)))
  {
    IntensityLine(x, ctx, key, ctx.py.show(v), v);
  }

  lemma AomapLine(x: Attrs, ctx: Ctx, v: real)
    requires 0.0 <= v <= 2.0 && FloatToken(ctx.py, v)
    ensures ParseLine(x, ctx, Line("aomapIntensity", ctx.py.show(v))) == Returned(x.(pbr := x.pbr.(aomap := v)))
  {
    IntensityLine(x, ctx, "aomapIntensity", ctx.py.show(v), v);
  }

  /** `str(b)` for a bool reads back as the same bool. */
  lemma BoolSaved(x: Attrs, ctx: Ctx, key: string, b: bool)
    requires key in BoolKeys
    ensures ParseLine(x, ctx, Line(key, ShowBool(b))) == Returned(x.(flags := SetBool(x.flags, key, b)))
  {
    assert Lower("True") == "true";
    assert Lower("False") == "false";
    BoolLine(x, ctx, key, ShowBool(b));
  }

  lemma MapSaved(x: Attrs, ctx: Ctx, key: string, rel: string)
    requires key in TextureKeys && IsWord(rel)
    ensures var r := ParseLine(x, ctx, Line(key, rel)); r.Returned? && r.value == x.(maps := r.value.maps)
  {
    TextureLine(x, ctx, key, rel);
  }

  lemma ModeLine(x: Attrs, ctx: Ctx, m: int)
    requires m <= 2
    ensures ParseLine(x, ctx, Line("colorationMethod", IntToString(m)))
         == Returned(x.(coloration := x.coloration.(mode := m)))
  {
    IntToStringIsWord(m);
    ColorationLine(x, ctx, IntToString(m));
    ParseIntOfIntToString(m);
  }

  lemma IntToStringIsWord(m: int)
    ensures IsWord(IntToString(m))
  {
    var d := NatToString(if m < 0 then -m else m);
    assert forall i :: 0 <= i < |d| ==> IsDigit(d[i]);
    if m < 0 {
      assert IntToString(m) == "-" + d;
      assert forall i :: 1 <= i < |IntToString(m)| ==> IntToString(m)[i] == d[i - 1];
    }
  }

  lemma ShaderLine(x: Attrs, ctx: Ctx, s: string)
    requires IsWord(s) && '/' !in s
    ensures ParseLine(x, ctx, Line("shader", s)) == Returned(x.(shading := x.shading.(shader := s)))
  {
    WordsKV("shader", s);
  }

  /** The saved litsphere line changes nothing but the maps, and rebinds `loadMatFile`'s
      `path` to the litsphere file of that name. */
  lemma LitsphereSaved(x: Attrs, ctx: Ctx, bn: string, path: Option<string>)
    requires IsWord(bn)
    ensures var r := ParseLine(x, ctx, Line("shaderParam", Line("litsphereTexture", bn)));
      r.Returned? && r.value == x.(maps := r.value.maps)
    ensures Rebind(ctx, Line("shaderParam", Line("litsphereTexture", bn)), path)
         == ctx.env.existDataFile("shaders", "litspheres", BaseName(bn))
  {
    var line := Line("shaderParam", Line("litsphereTexture", bn));
    ShaderParamWords();
    WordsCons("shaderParam", Line("litsphereTexture", bn));
    WordsKV("litsphereTexture", bn);
    KeyOfShaderParam();
    LitsphereWords(x, ctx, line, bn, path);
  }

  lemma ShaderParamWords()
    ensures IsWord("shaderParam") && IsWord("litsphereTexture")
  {
    var w, v := "shaderParam", "litsphereTexture";
    assert forall i :: 0 <= i < |w| ==> 'A' <= w[i] <= 'z';
    assert forall i :: 0 <= i < |v| ==> 'A' <= v[i] <= 'z';
  }

  lemma KeyOfShaderParam()
    ensures KeyOf("shaderParam") == ShaderParamKey
  {
  }

  /** A `shaderParam litsphereTexture` line changes nothing but the maps, and rebinds `path` to
      the litsphere file it looks up. */
  lemma LitsphereWords(x: Attrs, ctx: Ctx, line: string, bn: string, path: Option<string>)
    requires Words(line) == ["shaderParam", "litsphereTexture", bn] && KeyOf("shaderParam") == ShaderParamKey
    ensures var r := ParseLine(x, ctx, line); r.Returned? && r.value == x.(maps := r.value.maps)
    ensures Rebind(ctx, line, path) == ctx.env.existDataFile("shaders", "litspheres", BaseName(bn))
  {
    assert ParseLine(x, ctx, line) == ParseWords(x, ctx, ShaderParamKey, Words(line));
  }
}
