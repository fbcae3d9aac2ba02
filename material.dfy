/** A mesh material (`Material`): its attributes, the six texture handles it binds for them,
    loading and saving its `.mhmat` file, and the colour step applied to its diffuse texture. */
module Material {
  import opened Wrappers
  import opened Environment
  import opened Texture
  import opened MatFile
  import opened MatSave
  import opened Paths

  const DiffuseKey: string := "diffuseTexture"
  const NormalKey: string := "normalmapTexture"
  const AoKey: string := "aomapTexture"
  const MrKey: string := "metallicRoughnessTexture"
  const EmissiveKey: string := "emissiveTexture"

  /** The attributes that own a handle slot: `tex_diffuse`, `tex_nomap`, `tex_aomap`, `tex_mrmap`,
      `tex_emmap` and `tex_litsphere`. */
  const SlotKeys: seq<string> := TextureKeys + [LitsphereKey]

  /** `freeTextures` releases the diffuse slot first, then these in this order. */
  const FreeOrder: seq<string> := [LitsphereKey, AoKey, MrKey, NormalKey, EmissiveKey]

  /** `open(path, "w")`: succeeds, or fails with the message of the IOError. */
  datatype Target = Writable | Unwritable(error: string)

  // ---------------------------------------------------------------------------
  // What releasing and binding a handle does to the cache

  /** The user map after `delete()` on handle `h`: only "user" handles drop a reference. */
  ghost function Freed(u: UserMap, h: MHTexture): UserMap
    reads h
  {
    if h.textype == "user" then DeleteResult(u, h.texture, h.obj) else u
  }

  ghost function FreeOps(h: MHTexture): seq<CacheOp>
    reads h
  {
    if h.textype == "user" then [DeleteOp(h.texture, h.obj)] else []
  }

  /** Handles released one after the other. */
  ghost function FreedAll(u: UserMap, hs: seq<MHTexture>): UserMap
    reads set h | h in hs
    decreases |hs|
  {
    if hs == [] then u else Freed(FreedAll(u, hs[..|hs| - 1]), hs[|hs| - 1])
  }

  ghost function FreeOpsAll(hs: seq<MHTexture>): seq<CacheOp>
    reads set h | h in hs
    decreases |hs|
  {
    if hs == [] then [] else FreeOpsAll(hs[..|hs| - 1]) + FreeOps(hs[|hs| - 1])
  }

  lemma Ends<T>(s: seq<T>)
    ensures s[..0] == [] && s[..|s|] == s && s + [] == s
  {
  }

  lemma Assoc<T>(a: seq<T>, b: seq<T>, c: seq<T>)
    ensures a + (b + c) == (a + b) + c
  {
  }

  lemma TakeSnoc<T>(s: seq<T>, i: nat)
    requires i < |s|
    ensures s[..i + 1] == s[..i] + [s[i]]
  {
  }

  lemma FreedSnoc(u: UserMap, hs: seq<MHTexture>, h: MHTexture)
    ensures FreedAll(u, hs + [h]) == Freed(FreedAll(u, hs), h)
    ensures FreeOpsAll(hs + [h]) == FreeOpsAll(hs) + FreeOps(h)
  {
    assert (hs + [h])[..|hs|] == hs;
  }

  /** The user map after `load(path, loadType, addRef)` by a fresh handle `h` whose own texture is `own`:
      a cached user entry gains a reference when `addRef` holds, an existing file adds a user entry
      (system loads go to the system pool), and a missing file changes nothing. */
  function LoadResult(u: UserMap, path: string, loadType: string, addRef: bool, obj: Owner,
                      fs: FileSystem, own: TexId, h: MHTexture): UserMap
  {
    if loadType == "user" && path in u.textures then (if addRef then IncResult(u, path, obj) else u)
    else if path !in fs || loadType == "system" then u
    else AddUserResult(u, path, Entry(own, 1, fs[path], Some(h), [obj]))
  }

  function LoadOps(u: UserMap, path: string, loadType: string, addRef: bool, obj: Owner, fs: FileSystem): seq<CacheOp> {
    if loadType == "user" && path in u.textures then (if addRef then [IncOp(path, obj)] else [])
    else if path !in fs then []
    else if loadType == "system" then [AddSysOp(path)]
    else [AddUserOp(path)]
  }

  /** The user map after `unicolor` binds the colour of cache key `key`. */
  function ColorResult(u: UserMap, key: string, textype: string, obj: Owner, own: TexId): UserMap {
    if key in u.textures then IncResult(u, key, obj)
    else if textype == "system" then u
    else AddUserResult(u, key, Entry(own, 1, 0, None, [obj]))
  }

  function ColorOps(u: UserMap, key: string, textype: string, obj: Owner): seq<CacheOp> {
    if key in u.textures then [IncOp(key, obj)]
    else if textype == "system" then [AddSysOp(key)]
    else [AddUserOp(key)]
  }

  // ---------------------------------------------------------------------------
  // Material

  class Material {
    const repo: TextureRepo
    const env: Env
    /** `self.type`: the equipment type, "system" for the base mesh. */
    const eqtype: string
    var attrs: Attrs
    /** The handle slots that are not None, by the attribute they serve. */
    var slots: map<string, MHTexture>
    /** `env.last_error`, as far as this material sets it. */
    var lastError: Option<string>

    ghost predicate Valid()
      reads this, repo`keys, repo`textures
    {
      repo.Valid() && forall k :: k in slots ==> k in SlotKeys && slots[k].repo == repo
    }

    /** `Material(glob, objdir, eqtype)`: the defaults, no handles. */
    constructor (repo: TextureRepo, env: Env, objdir: string, eqtype: string)
      requires repo.Valid()
      ensures Valid() && this.repo == repo && this.env == env && this.eqtype == eqtype
      ensures attrs == Initial(objdir) && slots == map[] && lastError == None
    {
      this.repo := repo;
      this.env := env;
      this.eqtype := eqtype;
      attrs := Initial(objdir);
      slots := map[];
      lastError := None;
    }

    /** `getName()` of the handle in slot `k`: "" for an empty slot or a handle that bound nothing. */
    function BoundName(k: string): string
      reads this, slots.Values
    {
      if k in slots && slots[k].name.Some? then slots[k].name.value else ""
    }

    /** `mapChanged`: the attribute is set and names what the slot already holds. */
    function MapChanged(k: string): bool
      reads this, slots.Values
    {
      k in attrs.maps && attrs.maps[k] == BoundName(k)
    }

    /** `colorChanged`: the slot already holds the generated texture of colour `colname`. */
    function ColorChanged(colname: string, k: string): Outcome<bool>
      requires colname in ColorKeys
      reads this, slots.Values
    {
      match Texture.ColorKey(repo.qt.pack, Color(attrs.colors, colname))
      case Raised(e) => Raised(e)
      case Returned(key) => Returned(BoundName(k) == key)
    }

    /** `tex_x.getTexture()`: an empty slot is None, which has no such method. */
    function Bound(k: string): Outcome<Option<TexId>>
      reads this, slots.Values
    {
      if k in slots then Returned(slots[k].GetTexture()) else Raised(AttributeError)
    }

    /** The user map and the calls made once slot `k` is released. */
    ghost function FreedUser(k: string): UserMap
      reads this, repo`keys, repo`textures, slots.Values
    {
      if k in slots then Freed(repo.User(), slots[k]) else repo.User()
    }

    ghost function FreedOps(k: string): seq<CacheOp>
      reads this, slots.Values
    {
      if k in slots then FreeOps(slots[k]) else []
    }

    /** The handles of the slots `ks` that are set, in that order. */
    function Handles(ks: seq<string>): seq<MHTexture>
      reads this
      decreases |ks|
    {
      if ks == [] then []
      else Handles(ks[..|ks| - 1]) + (if ks[|ks| - 1] in slots then [slots[ks[|ks| - 1]]] else [])
    }

    lemma HandlesSnoc(ks: seq<string>, k: string)
      ensures Handles(ks + [k]) == Handles(ks) + (if k in slots then [slots[k]] else [])
    {
      assert (ks + [k])[..|ks|] == ks;
    }

    lemma HandlesOne(k: string)
      ensures Handles([k]) == if k in slots then [slots[k]] else []
    {
      assert [k][..0] == [];
    }

    /** Slot `k` holds a "user" handle for `obj` with own texture `own` that loaded the file attribute
        `k` names into a cache that was `u0` with calls `t0` before; `r` is what the load returned. */
    ghost predicate FileBound(u0: UserMap, t0: seq<CacheOp>, own: TexId, k: string, loadType: string,
                              addRef: bool, obj: Owner, fs: FileSystem, r: Option<TexId>)
      requires k in attrs.maps
      reads this, repo, slots.Values
    {
      var path := attrs.maps[k];
      k in slots && slots[k].textype == "user" && slots[k].obj == obj && r == slots[k].GetTexture()
      && (r.Some? <==> (loadType == "user" && path in u0.textures) || path in fs)
      && (r.Some? ==> MapChanged(k))
      && repo.User() == LoadResult(u0, path, loadType, addRef, obj, fs, own, slots[k])
      && repo.trace == t0 + LoadOps(u0, path, loadType, addRef, obj, fs)
    }

    /** Slot `k` holds a `textype` handle for `obj` with own texture `own` that bound the colour `rgb`
        into a cache that was `u0` with calls `t0` before; `r` is what `unicolor` gave. */
    ghost predicate ColorBound(u0: UserMap, t0: seq<CacheOp>, own: TexId, k: string, rgb: Rgb,
                               textype: string, obj: Owner, r: Outcome<Option<TexId>>)
      reads this, repo, slots.Values
    {
      k in slots && slots[k].textype == textype && slots[k].obj == obj
      && (|rgb| < 3 ==> r == Raised(IndexError) && repo.User() == u0 && repo.trace == t0)
      && (|rgb| >= 3 ==>
            var key := Texture.ColorKey(repo.qt.pack, rgb).value;
            r == Returned(Some(slots[k].texture)) && BoundName(k) == key
            && repo.User() == ColorResult(u0, key, textype, obj, own)
            && repo.trace == t0 + ColorOps(u0, key, textype, obj))
    }

    /** Slot `k` holds a new handle; the other slots are as they were. */
    twostate predicate Rebound(k: string)
      reads this
    {
      k in slots && fresh(slots[k]) && slots - {k} == old(slots) - {k}
    }

    // -------------------------------------------------------------------------
    // Releasing handles

    /** `freeTexture(attrib)`: release the handle of one slot and empty the slot. */
    method FreeTexture(k: string)
      requires Valid()
      modifies this, repo, repo.qt
      ensures Valid() && attrs == old(attrs) && lastError == old(lastError)
      ensures slots == old(slots) - {k}
      ensures repo.User() == old(FreedUser(k)) && repo.trace == old(repo.trace) + old(FreedOps(k))
      ensures repo.systextures == old(repo.systextures) && repo.qt.nextId == old(repo.qt.nextId)
    {
      if k in slots {
        slots[k].Delete();
        slots := slots - {k};
      }
    }

    /** `freeTextures`: release every handle; a "system" material destroys its diffuse texture
        instead of releasing it. The slots keep their handles. */
    method FreeTextures()
      requires Valid()
      modifies repo, repo.qt
      ensures Valid()
      ensures var hs := (if eqtype != "system" then Handles([DiffuseKey]) else []) + Handles(FreeOrder);
        repo.User() == FreedAll(old(repo.User()), hs) && repo.trace == old(repo.trace) + FreeOpsAll(hs)
      ensures repo.systextures == old(repo.systextures)
    {
      ghost var first := if eqtype != "system" then Handles([DiffuseKey]) else [];
      HandlesOne(DiffuseKey);
      if DiffuseKey in slots {
        if eqtype != "system" {
          var h := slots[DiffuseKey];
          FreedSnoc(old(repo.User()), [], h);
          assert [] + [h] == [h];
          h.Delete();
        } else {
          slots[DiffuseKey].Destroy();
        }
      }
      ReleaseEach(FreeOrder, old(repo.User()), old(repo.trace), first);
    }

    /** The loop of `freeTextures`: `delete()` on the handle of each slot of `ks` that is set. */
    method ReleaseEach(ks: seq<string>, ghost u0: UserMap, ghost t0: seq<CacheOp>, ghost done: seq<MHTexture>)
      requires Valid()
      requires repo.User() == FreedAll(u0, done) && repo.trace == t0 + FreeOpsAll(done)
      modifies repo, repo.qt
      ensures Valid() && repo.systextures == old(repo.systextures)
      ensures repo.User() == FreedAll(u0, done + Handles(ks)) && repo.trace == t0 + FreeOpsAll(done + Handles(ks))
    {
      var i := 0;
      ghost var sofar := done;
      Ends(ks);
      Ends(done);
      while i < |ks|
        invariant 0 <= i <= |ks|
        invariant sofar == done + Handles(ks[..i])
        invariant repo.Valid() && repo.systextures == old(repo.systextures)
        invariant repo.User() == FreedAll(u0, sofar) && repo.trace == t0 + FreeOpsAll(sofar)
      {
        var k := ks[i];
        TakeSnoc(ks, i);
        HandlesSnoc(ks[..i], k);
        HandlesOne(k);
        Assoc(done, Handles(ks[..i]), Handles([k]));
        ReleaseSlot(k, u0, t0, sofar);
        sofar := sofar + Handles([k]);
        i := i + 1;
      }
    }

    /** One step of that loop. */
    method ReleaseSlot(k: string, ghost u0: UserMap, ghost t0: seq<CacheOp>, ghost done: seq<MHTexture>)
      requires Valid()
      requires repo.User() == FreedAll(u0, done) && repo.trace == t0 + FreeOpsAll(done)
      modifies repo, repo.qt
      ensures Valid() && repo.systextures == old(repo.systextures)
      ensures repo.User() == FreedAll(u0, done + Handles([k])) && repo.trace == t0 + FreeOpsAll(done + Handles([k]))
    {
      HandlesOne(k);
      if k in slots {
        var h := slots[k];
        FreedSnoc(u0, done, h);
        assert t0 + FreeOpsAll(done + [h]) == (t0 + FreeOpsAll(done)) + FreeOps(h);
        h.Delete();
      } else {
        assert done + [] == done;
      }
    }

    // -------------------------------------------------------------------------
    // Binding handles

    /** `tex_x = MH_Texture(glob, obj=obj)` followed by `tex_x.load(attribute, loadType, addRef)`. */
    method BindFile(k: string, loadType: string, addRef: bool, obj: Owner, fs: FileSystem) returns (r: Option<TexId>)
      requires Valid() && k in SlotKeys && k in attrs.maps
      modifies this, repo, repo.qt
      ensures Valid() && attrs == old(attrs) && lastError == old(lastError)
      ensures Rebound(k)
      ensures FileBound(old(repo.User()), old(repo.trace), old(repo.qt.nextId), k, loadType, addRef, obj, fs, r)
      ensures repo.systextures == (if loadType == "system" && attrs.maps[k] in fs
                                   then old(repo.systextures)[attrs.maps[k] := slots[k].texture]
                                   else old(repo.systextures))
    {
      var h := new MHTexture(repo, "user", obj);
      slots := slots[k := h];
      r := h.Load(attrs.maps[k], loadType, addRef, fs);
    }

    /** `tex_x = MH_Texture(glob, textype, obj=obj)` followed by `tex_x.unicolor(rgb)`. */
    method BindColor(k: string, rgb: Rgb, textype: string, obj: Owner) returns (r: Outcome<Option<TexId>>)
      requires Valid() && k in SlotKeys
      modifies this, repo, repo.qt
      ensures Valid() && attrs == old(attrs) && lastError == old(lastError)
      ensures Rebound(k)
      ensures ColorBound(old(repo.User()), old(repo.trace), old(repo.qt.nextId), k, rgb, textype, obj, r)
    {
      var h := new MHTexture(repo, textype, obj);
      slots := slots[k := h];
      var u := h.Unicolor(rgb);
      r := if u.Raised? then Raised(u.exc) else Returned(Some(u.value));
    }

    // -------------------------------------------------------------------------
    // Loading the textures of the material

    /** `loadNOMap`: the normal map, or `nocolor` when the material has none. */
    method LoadNOMap(nocolor: TexId, addRef: bool, obj: Owner, fs: FileSystem) returns (r: Outcome<Option<TexId>>)
      requires Valid()
      modifies this, repo, repo.qt
      ensures Valid() && attrs == old(attrs) && lastError == old(lastError)
      ensures old(MapChanged(NormalKey)) ==>
        r == old(Bound(NormalKey)) && slots == old(slots) && unchanged(repo) && unchanged(repo.qt)
      ensures !old(MapChanged(NormalKey)) ==> slots - {NormalKey} == old(slots) - {NormalKey}
      ensures !old(MapChanged(NormalKey)) && NormalKey in attrs.maps ==>
        Rebound(NormalKey) && r.Returned?
        && FileBound(old(FreedUser(NormalKey)), old(repo.trace) + old(FreedOps(NormalKey)), old(repo.qt.nextId),
                     NormalKey, "user", addRef, obj, fs, r.value)
      ensures !old(MapChanged(NormalKey)) && NormalKey !in attrs.maps ==>
        r == Returned(Some(nocolor)) && NormalKey !in slots
        && repo.User() == old(FreedUser(NormalKey)) && repo.trace == old(repo.trace) + old(FreedOps(NormalKey))
    {
      if MapChanged(NormalKey) {
        return Bound(NormalKey);
      }
      FreeTexture(NormalKey);
      if NormalKey in attrs.maps {
        var t := BindFile(NormalKey, "user", addRef, obj, fs);
        return Returned(t);
      }
      r := Returned(Some(nocolor));
    }

    /** `loadMRMap`: the metallic-roughness map, or `white` when the material has none. */
    method LoadMRMap(white: TexId, addRef: bool, obj: Owner, fs: FileSystem) returns (r: Outcome<Option<TexId>>)
      requires Valid()
      modifies this, repo, repo.qt
      ensures Valid() && attrs == old(attrs) && lastError == old(lastError)
      ensures old(MapChanged(MrKey)) ==>
        r == old(Bound(MrKey)) && slots == old(slots) && unchanged(repo) && unchanged(repo.qt)
      ensures !old(MapChanged(MrKey)) ==> slots - {MrKey} == old(slots) - {MrKey}
      ensures !old(MapChanged(MrKey)) && MrKey in attrs.maps ==>
        Rebound(MrKey) && r.Returned?
        && FileBound(old(FreedUser(MrKey)), old(repo.trace) + old(FreedOps(MrKey)), old(repo.qt.nextId),
                     MrKey, "user", addRef, obj, fs, r.value)
      ensures !old(MapChanged(MrKey)) && MrKey !in attrs.maps ==>
        r == Returned(Some(white)) && MrKey !in slots
        && repo.User() == old(FreedUser(MrKey)) && repo.trace == old(repo.trace) + old(FreedOps(MrKey))
    {
      if MapChanged(MrKey) {
        return Bound(MrKey);
      }
      FreeTexture(MrKey);
      if MrKey in attrs.maps {
        var t := BindFile(MrKey, "user", addRef, obj, fs);
        return Returned(t);
      }
      r := Returned(Some(white));
    }

    /** `loadLitSphere`: the litsphere texture; a material without one raises AttributeError once
        the old handle is released and a new one made. */
    method LoadLitSphere(addRef: bool, obj: Owner, fs: FileSystem) returns (r: Outcome<Option<TexId>>)
      requires Valid()
      modifies this, repo, repo.qt
      ensures Valid() && attrs == old(attrs) && lastError == old(lastError)
      ensures old(MapChanged(LitsphereKey)) ==>
        r == old(Bound(LitsphereKey)) && slots == old(slots) && unchanged(repo) && unchanged(repo.qt)
      ensures !old(MapChanged(LitsphereKey)) ==>
        Rebound(LitsphereKey)
      ensures !old(MapChanged(LitsphereKey)) && LitsphereKey in attrs.maps ==>
        r.Returned?
        && FileBound(old(FreedUser(LitsphereKey)), old(repo.trace) + old(FreedOps(LitsphereKey)), old(repo.qt.nextId),
                     LitsphereKey, "user", addRef, obj, fs, r.value)
      ensures !old(MapChanged(LitsphereKey)) && LitsphereKey !in attrs.maps ==>
        r == Raised(AttributeError) && BoundName(LitsphereKey) == ""
        && repo.User() == old(FreedUser(LitsphereKey)) && repo.trace == old(repo.trace) + old(FreedOps(LitsphereKey))
    {
      if MapChanged(LitsphereKey) {
        return Bound(LitsphereKey);
      }
      FreeTexture(LitsphereKey);
      if LitsphereKey !in attrs.maps {
        var h := new MHTexture(repo, "user", obj);
        slots := slots[LitsphereKey := h];
        return Raised(AttributeError);
      }
      var t := BindFile(LitsphereKey, "user", addRef, obj, fs);
      r := Returned(t);
    }

    /** `loadAOMap`: the ambient occlusion map, else the generated texture of the ambient colour.
        The colour attribute always exists, so the `white` fallback is never returned. */
    method LoadAOMap(white: TexId, addRef: bool, obj: Owner, fs: FileSystem) returns (r: Outcome<Option<TexId>>)
      requires Valid()
      modifies this, repo, repo.qt
      ensures Valid() && attrs == old(attrs) && lastError == old(lastError)
      ensures old(MapChanged(AoKey)) ==>
        r == old(Bound(AoKey)) && slots == old(slots) && unchanged(repo) && unchanged(repo.qt)
      ensures !old(MapChanged(AoKey)) && AoKey in attrs.maps ==>
        Rebound(AoKey) && r.Returned?
        && FileBound(old(FreedUser(AoKey)), old(repo.trace) + old(FreedOps(AoKey)), old(repo.qt.nextId),
                     AoKey, "user", addRef, obj, fs, r.value)
      ensures !old(MapChanged(AoKey)) && AoKey !in attrs.maps ==>
        var cc := old(ColorChanged("ambientColor", AoKey));
        (cc.Raised? ==> r == Raised(cc.exc) && slots == old(slots) && unchanged(repo) && unchanged(repo.qt))
        && (cc == Returned(true) ==>
              r == old(Bound(AoKey)) && slots == old(slots) && unchanged(repo) && unchanged(repo.qt))
        && (cc == Returned(false) ==>
              Rebound(AoKey)
              && ColorChanged("ambientColor", AoKey) == Returned(true)
              && ColorBound(old(FreedUser(AoKey)), old(repo.trace) + old(FreedOps(AoKey)), old(repo.qt.nextId),
                            AoKey, attrs.colors.ambient, "user", obj, r))
    {
      if MapChanged(AoKey) {
        return Bound(AoKey);
      }
      if AoKey in attrs.maps {
        FreeTexture(AoKey);
        var t := BindFile(AoKey, "user", addRef, obj, fs);
        return Returned(t);
      }
      var cc := ColorChanged("ambientColor", AoKey);
      if cc.Raised? {
        return Raised(cc.exc);
      }
      if cc.value {
        return Bound(AoKey);
      }
      FreeTexture(AoKey);
      r := BindColor(AoKey, attrs.colors.ambient, "user", obj);
    }

    /** `loadEMMap`: the emissive map, else the generated texture of a non-black emissive colour,
        else `nocolor`. */
    method LoadEMMap(nocolor: TexId, addRef: bool, obj: Owner, fs: FileSystem) returns (r: Outcome<Option<TexId>>)
      requires Valid()
      modifies this, repo, repo.qt
      ensures Valid() && attrs == old(attrs) && lastError == old(lastError)
      ensures old(MapChanged(EmissiveKey)) ==>
        r == old(Bound(EmissiveKey)) && slots == old(slots) && unchanged(repo) && unchanged(repo.qt)
      ensures !old(MapChanged(EmissiveKey)) && EmissiveKey in attrs.maps ==>
        Rebound(EmissiveKey) && r.Returned?
        && FileBound(old(FreedUser(EmissiveKey)), old(repo.trace) + old(FreedOps(EmissiveKey)), old(repo.qt.nextId),
                     EmissiveKey, "user", addRef, obj, fs, r.value)
      ensures !old(MapChanged(EmissiveKey)) && EmissiveKey !in attrs.maps && attrs.colors.emissive != [0.0, 0.0, 0.0] ==>
        var cc := old(ColorChanged("emissiveColor", EmissiveKey));
        (cc.Raised? ==> r == Raised(cc.exc) && slots == old(slots) && unchanged(repo) && unchanged(repo.qt))
        && (cc == Returned(true) ==>
              r == old(Bound(EmissiveKey)) && slots == old(slots) && unchanged(repo) && unchanged(repo.qt))
        && (cc == Returned(false) ==>
              Rebound(EmissiveKey)
              && ColorChanged("emissiveColor", EmissiveKey) == Returned(true)
              && ColorBound(old(FreedUser(EmissiveKey)), old(repo.trace) + old(FreedOps(EmissiveKey)), old(repo.qt.nextId),
                            EmissiveKey, attrs.colors.emissive, "user", obj, r))
      ensures !old(MapChanged(EmissiveKey)) && EmissiveKey !in attrs.maps && attrs.colors.emissive == [0.0, 0.0, 0.0] ==>
        r == Returned(Some(nocolor)) && slots == old(slots) - {EmissiveKey}
        && repo.User() == old(FreedUser(EmissiveKey)) && repo.trace == old(repo.trace) + old(FreedOps(EmissiveKey))
    {
      if MapChanged(EmissiveKey) {
        return Bound(EmissiveKey);
      }
      if EmissiveKey in attrs.maps {
        FreeTexture(EmissiveKey);
        var t := BindFile(EmissiveKey, "user", addRef, obj, fs);
        return Returned(t);
      }
      if attrs.colors.emissive != [0.0, 0.0, 0.0] {
        var cc := ColorChanged("emissiveColor", EmissiveKey);
        if cc.Raised? {
          return Raised(cc.exc);
        }
        if cc.value {
          return Bound(EmissiveKey);
        }
        FreeTexture(EmissiveKey);
        r := BindColor(EmissiveKey, attrs.colors.emissive, "user", obj);
        return;
      }
      FreeTexture(EmissiveKey);
      r := Returned(Some(nocolor));
    }

    /** `loadDiffuse`: the diffuse map, else the generated texture of the diffuse colour.
        The colour attribute always exists, so the grey `stdcolor` fallback is never reached. */
    method LoadDiffuse(addRef: bool, obj: Owner, fs: FileSystem) returns (r: Outcome<Option<TexId>>)
      requires Valid()
      modifies this, repo, repo.qt
      ensures Valid() && attrs == old(attrs) && lastError == old(lastError)
      ensures old(MapChanged(DiffuseKey)) ==>
        r == old(Bound(DiffuseKey)) && slots == old(slots) && unchanged(repo) && unchanged(repo.qt)
      ensures !old(MapChanged(DiffuseKey)) && DiffuseKey in attrs.maps ==>
        Rebound(DiffuseKey) && r.Returned?
        && FileBound(old(FreedUser(DiffuseKey)), old(repo.trace) + old(FreedOps(DiffuseKey)), old(repo.qt.nextId),
                     DiffuseKey, "user", addRef, obj, fs, r.value)
      ensures !old(MapChanged(DiffuseKey)) && DiffuseKey !in attrs.maps ==>
        var cc := old(ColorChanged("diffuseColor", DiffuseKey));
        (cc.Raised? ==> r == Raised(cc.exc) && slots == old(slots) && unchanged(repo) && unchanged(repo.qt))
        && (cc == Returned(true) ==>
              r == old(Bound(DiffuseKey)) && slots == old(slots) && unchanged(repo) && unchanged(repo.qt))
        && (cc == Returned(false) ==>
              Rebound(DiffuseKey)
              && ColorChanged("diffuseColor", DiffuseKey) == Returned(true)
              && ColorBound(old(FreedUser(DiffuseKey)), old(repo.trace) + old(FreedOps(DiffuseKey)), old(repo.qt.nextId),
                            DiffuseKey, attrs.colors.diffuse, "user", obj, r))
    {
      if MapChanged(DiffuseKey) {
        return Bound(DiffuseKey);
      }
      if DiffuseKey in attrs.maps {
        FreeTexture(DiffuseKey);
        var t := BindFile(DiffuseKey, "user", addRef, obj, fs);
        return Returned(t);
      }
      var cc := ColorChanged("diffuseColor", DiffuseKey);
      if cc.Raised? {
        return Raised(cc.exc);
      }
      if cc.value {
        return Bound(DiffuseKey);
      }
      FreeTexture(DiffuseKey);
      r := BindColor(DiffuseKey, attrs.colors.diffuse, "user", obj);
    }

    /** `setDiffuse(name, alternative)`: use the file `name` as diffuse texture, loaded with the
        material's own type and a new reference; the previous diffuse handle is not released. */
    method SetDiffuse(name: Option<string>, alternative: TexId, obj: Owner, fs: FileSystem) returns (r: TexId)
      requires Valid()
      modifies this, repo, repo.qt
      ensures Valid() && lastError == old(lastError)
      ensures name.None? ==> r == alternative && attrs == old(attrs) && slots == old(slots)
                             && unchanged(repo) && unchanged(repo.qt)
      ensures name.Some? ==>
        attrs == old(attrs).(maps := old(attrs.maps)[DiffuseKey := name.value])
        && Rebound(DiffuseKey)
        && r == slots[DiffuseKey].GetTexture().GetOr(alternative)
        && FileBound(old(repo.User()), old(repo.trace), old(repo.qt.nextId), DiffuseKey, eqtype, true, obj, fs,
                     slots[DiffuseKey].GetTexture())
    {
      if name.None? {
        return alternative;
      }
      attrs := attrs.(maps := attrs.maps[DiffuseKey := name.value]);
      var t := BindFile(DiffuseKey, eqtype, true, obj, fs);
      r := t.GetOr(alternative);
    }

    /** `uniColor(rgb)`: replace the diffuse texture by the generated texture of `rgb`, made with
        the material's own type. */
    method UniColor(rgb: Rgb, obj: Owner) returns (r: Outcome<Option<TexId>>)
      requires Valid()
      modifies this, repo, repo.qt
      ensures Valid() && attrs == old(attrs) && lastError == old(lastError)
      ensures Rebound(DiffuseKey)
      ensures ColorBound(old(FreedUser(DiffuseKey)), old(repo.trace) + old(FreedOps(DiffuseKey)), old(repo.qt.nextId),
                         DiffuseKey, rgb, eqtype, obj, r)
    {
      FreeTexture(DiffuseKey);
      r := BindColor(DiffuseKey, rgb, eqtype, obj);
    }

    // -------------------------------------------------------------------------
    // Coloration

    /** `colorate`: when the coloration colour or method differ from the ones last applied, reload
        the diffuse file and apply the pixel transform of method 1 or 2 with the colour. */
    method Colorate(fs: FileSystem) returns (r: Option<Exc>)
      requires Valid()
      modifies this, repo.qt
      ensures Valid() && slots == old(slots) && lastError == old(lastError) && repo.qt.nextId == old(repo.qt.nextId)
      ensures DiffuseKey !in old(attrs.maps) ==> r == None && attrs == old(attrs) && unchanged(repo.qt)
      ensures DiffuseKey in old(attrs.maps) && DiffuseKey !in slots ==>
        r == Some(AttributeError) && attrs == old(attrs) && unchanged(repo.qt)
      ensures DiffuseKey in old(attrs.maps) && DiffuseKey in slots ==>
        var h := slots[DiffuseKey];
        var c := old(attrs);
        var mode := c.coloration.mode;
        var color := c.colors.coloration;
        var reset := old(repo.qt.storage)[h.texture := SourceImage(h.name.GetOr(""), fs)];
        (h.name.None? || (color == c.coloration.oldColor && mode == c.coloration.oldMethod) ==>
           r == None && attrs == c && unchanged(repo.qt))
        && (h.name.Some? && !(color == c.coloration.oldColor && mode == c.coloration.oldMethod) ==>
             (((mode == 1 || mode == 2) && |color| != 3) ==>
                r == Some(TypeError) && attrs == c && repo.qt.storage == reset)
             && (!((mode == 1 || mode == 2) && |color| != 3) ==>
                r == None
                && attrs == c.(coloration := c.coloration.(oldColor := color, oldMethod := mode))
                && repo.qt.storage == (if mode == 1 || mode == 2
                                       then reset[h.texture := Tinted(SourceImage(h.name.value, fs), mode, color)]
                                       else reset)))
    {
      if DiffuseKey !in attrs.maps {
        return None;
      }
      if DiffuseKey !in slots {
        return Some(AttributeError);
      }
      var h := slots[DiffuseKey];
      if h.GetTexture().None? {
        return None;
      }
      var mode := attrs.coloration.mode;
      var color := attrs.colors.coloration;
      if color == attrs.coloration.oldColor && mode == attrs.coloration.oldMethod {
        return None;
      }
      var _ := h.Refresh(h.name.value, fs);
      if mode == 1 || mode == 2 {
        if |color| != 3 {
          return Some(TypeError);
        }
        repo.qt.Create(h.texture, Tinted(SourceImage(h.name.value, fs), mode, color));
      }
      attrs := attrs.(coloration := attrs.coloration.(oldColor := color, oldMethod := mode));
      r := None;
    }

    // -------------------------------------------------------------------------
    // The material file

    /** `loadMatFile(path)`: record the file and its directory, then apply its lines in order; an
        exception from a line ends the load with what the earlier lines set. The final rules use
        `path` as a litsphere line may have rebound it, and raise TypeError when it became None
        and the file gave no name. */
    method LoadMatFile(path: string, file: TextFile, fs: FileSystem, py: Floats) returns (r: Outcome<bool>)
      requires Valid()
      modifies this
      ensures Valid() && slots == old(slots)
      ensures var start := old(attrs).(ident := old(attrs).ident.(filename := Some(path), mhmatdir := DirName(path)));
        match file
        case OpenFailed(e) => r == Returned(false) && attrs == start && lastError == Some(e)
        case Opened(lines) =>
          var ctx := Ctx(env, fs, eqtype, py);
          var p := ParseLines(start, ctx, lines);
          var f := Finish(p.attrs, PathAfter(start, ctx, lines, Some(path)));
          lastError == old(lastError)
          && (p.error.Some? ==> r == Raised(p.error.value) && attrs == p.attrs)
          && (p.error.None? ==> attrs == f.attrs && r == if f.error.Some? then Raised(f.error.value) else Returned(true))
    {
      attrs := attrs.(ident := attrs.ident.(filename := Some(path), mhmatdir := DirName(path)));
      if file.OpenFailed? {
        lastError := Some(file.error);
        return Returned(false);
      }
      var ctx := Ctx(env, fs, eqtype, py);
      var a, error, cur := ParseFile(attrs, ctx, file.lines, Some(path));
      if error.Some? {
        attrs := a;
        return Raised(error.value);
      }
      var f := Finish(a, cur);
      attrs := f.attrs;
      r := if f.error.Some? then Raised(f.error.value) else Returned(true);
    }

    /** The line loop of `loadMatFile`: each line applied in turn, stopping at an exception;
        `cur` is the parameter `path` as the lines rebind it. */
    static method ParseFile(start: Attrs, ctx: Ctx, lines: seq<string>, path: Option<string>)
      returns (a: Attrs, error: Option<Exc>, cur: Option<string>)
      ensures Parsed(a, error) == ParseLines(start, ctx, lines)
      ensures cur == PathAfter(start, ctx, lines, path)
    {
      a := start;
      cur := path;
      var i := 0;
      while i < |lines|
        invariant 0 <= i <= |lines|
        invariant ParseLines(start, ctx, lines[..i]) == Parsed(a, None)
        invariant PathAfter(start, ctx, lines[..i], path) == cur
      {
        assert lines[..i + 1][..i] == lines[..i];
        var step := ParseLine(a, ctx, lines[i]);
        if step.Raised? {
          assert lines == lines[..i + 1] + lines[i + 1..];
          ParseLinesConcat(start, ctx, lines[..i + 1], lines[i + 1..]);
          PathAfterConcat(start, ctx, lines[..i + 1], lines[i + 1..], path);
          return a, Some(step.exc), cur;
        }
        cur := Rebind(ctx, lines[i], cur);
        a := step.value;
        i := i + 1;
      }
      assert lines[..|lines|] == lines;
      error := None;
    }

    /** `roundColor`: every component rounded to four decimals. */
    method RoundColor(c: Rgb, py: Floats) returns (r: Rgb)
      ensures |r| == |c|
      ensures forall i :: 0 <= i < |c| ==> r[i] == py.round4(c[i])
    {
      r := c;
      var i := 0;
      while i < |r|
        invariant 0 <= i <= |r| == |c|
        invariant forall j :: 0 <= j < i ==> r[j] == py.round4(c[j])
        invariant forall j :: i <= j < |r| ==> r[j] == c[j]
      {
        r := r[i := py.round4(r[i])];
        i := i + 1;
      }
    }

    /** `saveMatFile(path)`: round the colours, then write the material text. A short coloration
        colour raises before the file is opened; a short material colour raises once it is opened,
        which leaves it empty. `written` is what the file holds afterwards, None when untouched. */
    method SaveMatFile(target: Target, py: Floats) returns (r: Outcome<bool>, written: Option<string>)
      requires Valid()
      modifies this
      ensures Valid() && slots == old(slots)
      ensures var c := old(attrs.colors);
        var colored := old(attrs.coloration.mode) != 0;
        attrs == old(attrs).(colors := c.(ambient := Rounded(py, c.ambient), diffuse := Rounded(py, c.diffuse),
                                          specular := Rounded(py, c.specular), emissive := Rounded(py, c.emissive),
                                          coloration := if colored then Rounded(py, c.coloration) else c.coloration))
        && (colored && |c.coloration| < 3 ==> r == Raised(IndexError) && written == None && lastError == old(lastError))
        && (!(colored && |c.coloration| < 3) && target.Unwritable? ==>
              r == Returned(false) && written == None && lastError == Some(target.error))
        && (!(colored && |c.coloration| < 3) && target.Writable? ==>
              lastError == old(lastError)
              && (Printable(attrs) ==> r == Returned(true) && written == Some(MatText(attrs, eqtype, env, py)))
              && (!Printable(attrs) ==> r == Raised(IndexError) && written == Some("")))
    {
      var c := attrs.colors;
      var ambient := RoundColor(c.ambient, py);
      var diffuse := RoundColor(c.diffuse, py);
      var specular := RoundColor(c.specular, py);
      var emissive := RoundColor(c.emissive, py);
      assert ambient == Rounded(py, c.ambient) && diffuse == Rounded(py, c.diffuse);
      assert specular == Rounded(py, c.specular) && emissive == Rounded(py, c.emissive);
      attrs := attrs.(colors := c.(ambient := ambient, diffuse := diffuse, specular := specular, emissive := emissive));
      if attrs.coloration.mode != 0 {
        var coloration := RoundColor(c.coloration, py);
        assert coloration == Rounded(py, c.coloration);
        attrs := attrs.(colors := attrs.colors.(coloration := coloration));
        if |coloration| < 3 {
          return Raised(IndexError), None;
        }
      }
      if target.Unwritable? {
        lastError := Some(target.error);
        return Returned(false), None;
      }
      if !Printable(attrs) {
        return Raised(IndexError), Some("");
      }
      written := Some(MatText(attrs, eqtype, env, py));
      r := Returned(true);
    }
  }
}
