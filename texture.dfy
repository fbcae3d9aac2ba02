/** The reference-counted cache of GPU textures (`TextureRepo`) and the texture handle
    (`MH_Texture`) that loads files and generated colours into it. */
module Texture {
  import opened Wrappers
  import opened Strings
  import opened Environment

  /** A `QOpenGLTexture` object, by identity. */
  type TexId = nat

  /** The mesh part a handle is loaded for (`obj`), or None. */
  datatype Owner = NoObject | Object(id: nat)

  /** What the GPU storage of a texture holds. */
  datatype Image =
    | FileImage(path: string, mtime: int)             // QImage(path) of the file as it was at mtime
    | NullImage(path: string)                         // QImage(path) of a path that is no file
    | ColorImage(key: string)                         // 1x1 image filled with a generated colour
    | Tinted(base: Image, mode: int, color: Rgb)    // base after a coloration pixel transform

  /** The image `QImage(path)` reads now. */
  function SourceImage(path: string, fs: FileSystem): Image {
    if path in fs then FileImage(path, fs[path]) else NullImage(path)
  }

  /** The cache key of a generated colour: "Generated color [" + hex(QColor.fromRgbF(r, g, b).rgb()) + "]",
      with the QColor packing `pack` left uninterpreted. A colour shorter than three raises IndexError. */
  function ColorKey(pack: (real, real, real) -> nat, rgb: Rgb): (r: Outcome<string>)
    ensures r.Returned? <==> |rgb| >= 3
    ensures r.Returned? ==> StartsWith(r.value, "Generated color [0x") && EndsWith(r.value, "]")
  {
    if |rgb| < 3 then Raised(IndexError)
    else
      var s := "Generated color [" + Hex(pack(rgb[0], rgb[1], rgb[2])) + "]";
      assert s[..19] == "Generated color [0x";
      Returned(s)
  }

  /** The calls that take or drop a reference in the cache, in the order made. */
  datatype CacheOp =
    | AddSysOp(key: string)
    | AddUserOp(key: string)
    | IncOp(key: string, obj: Owner)
    | DeleteOp(tex: TexId, obj: Owner)

  /** A user entry `[texture, count, filedate, loader, owners]`; filedate 0 marks a generated texture. */
  datatype Entry = Entry(texture: TexId, count: int, filedate: int, loader: Option<MHTexture>, owners: seq<Owner>)

  /** The user map in dictionary (insertion) order. */
  datatype UserMap = UserMap(keys: seq<string>, textures: map<string, Entry>)

  // ---------------------------------------------------------------------------
  // The user map as a value: its invariant and what each operation makes of it

  /** Every reference is accounted for by an owner; a file-backed entry has a loader to reload it. */
  predicate EntryOk(e: Entry) {
    e.count == |e.owners| && e.count >= 1 && (e.filedate != 0 ==> e.loader.Some?)
  }

  /** `k in t`, as a term of its own so that the key-set invariant is only used where it is named. */
  predicate HasKey(t: map<string, Entry>, k: string) {
    k in t
  }

  predicate Distinct(ks: seq<string>) {
    forall i, j :: 0 <= i < j < |ks| ==> ks[i] != ks[j]
  }

  ghost predicate UserMapOk(u: UserMap) {
    Distinct(u.keys)
    && (forall k :: HasKey(u.textures, k) <==> k in u.keys)
    && (forall k :: k in u.textures ==> EntryOk(u.textures[k]))
  }

  /** Every loader recorded in `t` loads through `repo`. */
  ghost predicate LoadedBy(t: map<string, Entry>, repo: TextureRepo) {
    forall k :: k in t && t[k].loader.Some? ==> t[k].loader.value.repo == repo
  }

  /** `add_user`: insert a fresh entry only when the key is absent. */
  function AddUserResult(u: UserMap, path: string, e: Entry): UserMap {
    if path in u.textures then u else UserMap(u.keys + [path], u.textures[path := e])
  }

  /** `inc`: one more reference and one more owner for a present key. */
  function IncResult(u: UserMap, path: string, obj: Owner): UserMap {
    if path in u.textures then
      var e := u.textures[path];
      UserMap(u.keys, u.textures[path := e.(count := e.count + 1, owners := e.owners + [obj])])
    else u
  }

  /** Python's `list.remove(x)` on a list holding `x`: drop its first occurrence. */
  function RemoveFirst(s: seq<Owner>, x: Owner): (r: seq<Owner>)
    ensures x in s ==> |r| == |s| - 1 && multiset(r) == multiset(s) - multiset{x}
    ensures x !in s ==> r == s
  {
    if s == [] then []
    else if s[0] == x then
      assert s == [s[0]] + s[1..];
      s[1..]
    else
      assert s == [s[0]] + s[1..];
      [s[0]] + RemoveFirst(s[1..], x)
  }

  /** One release of `e` by `obj`: counted only when `obj` is among the owners. */
  function Release(e: Entry, obj: Owner): Entry {
    if obj in e.owners then e.(count := e.count - 1, owners := RemoveFirst(e.owners, obj)) else e
  }

  predicate Holds(t: map<string, Entry>, k: string, tex: TexId) {
    k in t && t[k].texture == tex
  }

  /** Position of the first key whose entry holds `tex`, or |ks| when there is none. */
  function HolderIndex(ks: seq<string>, t: map<string, Entry>, tex: TexId): (i: nat)
    ensures i <= |ks|
    ensures i < |ks| ==> Holds(t, ks[i], tex)
  {
    if ks == [] then 0
    else if Holds(t, ks[0], tex) then 0
    else 1 + HolderIndex(ks[1..], t, tex)
  }

  /** No key before the one `HolderIndex` finds holds `tex`: it is the first holder. */
  lemma {:induction false} HolderIndexFirst(ks: seq<string>, t: map<string, Entry>, tex: TexId)
    ensures forall j :: 0 <= j < HolderIndex(ks, t, tex) ==> !Holds(t, ks[j], tex)
    decreases |ks|
  {
    if ks != [] && !Holds(t, ks[0], tex) {
      HolderIndexFirst(ks[1..], t, tex);
      assert forall j :: 1 <= j < |ks| ==> ks[j] == ks[1..][j - 1];
    }
  }

  function RemoveAt(ks: seq<string>, i: nat): seq<string>
    requires i < |ks|
  {
    ks[..i] + ks[i + 1..]
  }

  /** `delete`: release the first entry holding `tex`; remove it when no reference is left. */
  function DeleteResult(u: UserMap, tex: TexId, obj: Owner): UserMap {
    var i := HolderIndex(u.keys, u.textures, tex);
    if i == |u.keys| then u
    else
      var k := u.keys[i];
      var e := Release(u.textures[k], obj);
      if e.count == 0 then UserMap(RemoveAt(u.keys, i), u.textures - {k})
      else UserMap(u.keys, u.textures[k := e])
  }

  /** The textures `delete` destroys: the holder's, when its entry is removed. */
  function Destroyed(u: UserMap, tex: TexId, obj: Owner): set<TexId> {
    var i := HolderIndex(u.keys, u.textures, tex);
    if i < |u.keys| && Release(u.textures[u.keys[i]], obj).count == 0 then {tex} else {}
  }

  /** `refresh` reloads an entry iff it is file-backed and the file is strictly newer. */
  predicate Stale(e: Entry, name: string, fs: FileSystem) {
    e.filedate != 0 && name in fs && fs[name] > e.filedate
  }

  function Refreshed(e: Entry, name: string, fs: FileSystem, reloaded: TexId): Entry {
    if Stale(e, name, fs) then e.(texture := reloaded, filedate := fs[name]) else e
  }

  /** The texture the loader of entry `k` returns from its own `refresh`. */
  function LoaderTexOr(lt: map<string, TexId>, t: map<string, Entry>, k: string): TexId
    requires k in t
  {
    if k in lt then lt[k] else t[k].texture
  }

  /** The user map after `refresh`, given the textures of the loaders `lt`. */
  function RefreshAll(t: map<string, Entry>, fs: FileSystem, lt: map<string, TexId>): map<string, Entry> {
    map k | k in t :: Refreshed(t[k], k, fs, LoaderTexOr(lt, t, k))
  }

  /** The GPU storage after `refresh` has reloaded the stale entries among `ks`, in order. */
  function ReloadStorage(s: map<TexId, Image>, ks: seq<string>, t: map<string, Entry>, fs: FileSystem,
                         lt: map<string, TexId>): map<TexId, Image>
    decreases |ks|
  {
    if ks == [] then s
    else
      var k := ks[|ks| - 1];
      var prev := ReloadStorage(s, ks[..|ks| - 1], t, fs, lt);
      if k in t && Stale(t[k], k, fs) then prev[LoaderTexOr(lt, t, k) := FileImage(k, fs[k])] else prev
  }

  function UserTextures(t: map<string, Entry>): set<TexId> {
    set k | k in t :: t[k].texture
  }

  // ---------------------------------------------------------------------------
  // Lemmas about the user map

  lemma AddUserKeepsOk(u: UserMap, path: string, e: Entry)
    requires UserMapOk(u) && EntryOk(e)
    ensures UserMapOk(AddUserResult(u, path, e))
  {
    if path !in u.textures {
      assert !HasKey(u.textures, path);
    }
  }

  /** `inc` keeps count == number of owners. */
  lemma IncKeepsOk(u: UserMap, path: string, obj: Owner)
    requires UserMapOk(u)
    ensures UserMapOk(IncResult(u, path, obj))
  {
  }

  lemma {:induction false} DistinctRemoveAt(ks: seq<string>, i: nat)
    requires Distinct(ks) && i < |ks|
    ensures Distinct(RemoveAt(ks, i))
    ensures forall k :: k in RemoveAt(ks, i) <==> k in ks && k != ks[i]
  {
    var r := RemoveAt(ks, i);
    assert forall j :: 0 <= j < |r| ==> r[j] == (if j < i then ks[j] else ks[j + 1]);
    forall k | k in ks && k != ks[i]
      ensures k in r
    {
      var j :| 0 <= j < |ks| && ks[j] == k;
      if j < i { assert r[j] == k; } else { assert r[j - 1] == k; }
    }
  }

  /** `delete` keeps the invariant: a released entry either keeps a reference or is removed. */
  lemma DeleteKeepsOk(u: UserMap, tex: TexId, obj: Owner)
    requires UserMapOk(u)
    ensures UserMapOk(DeleteResult(u, tex, obj))
  {
    var i := HolderIndex(u.keys, u.textures, tex);
    if i < |u.keys| {
      DistinctRemoveAt(u.keys, i);
    }
  }

  /** `delete` given the position `i` of the first holder. */
  lemma DeleteAt(u: UserMap, tex: TexId, obj: Owner, i: nat)
    requires i == HolderIndex(u.keys, u.textures, tex)
    ensures i == |u.keys| ==> DeleteResult(u, tex, obj) == u && Destroyed(u, tex, obj) == {}
    ensures i < |u.keys| ==>
      var k := u.keys[i]; var e := Release(u.textures[k], obj);
      if e.count == 0 then
        DeleteResult(u, tex, obj) == UserMap(RemoveAt(u.keys, i), u.textures - {k}) && Destroyed(u, tex, obj) == {tex}
      else
        DeleteResult(u, tex, obj) == UserMap(u.keys, u.textures[k := e]) && Destroyed(u, tex, obj) == {}
  {
  }

  /** `delete` touches the first holder only: every other entry is kept as it was, no key is
      added, and the other keys keep their order, the first holder's key dropping out exactly
      when its entry is removed. */
  lemma DeleteKeepsOthers(u: UserMap, tex: TexId, obj: Owner)
    requires UserMapOk(u)
    ensures var i := HolderIndex(u.keys, u.textures, tex); var r := DeleteResult(u, tex, obj);
      (forall k :: k in r.textures ==> k in u.textures)
      && (forall k :: k in u.textures && (i == |u.keys| || k != u.keys[i]) ==> k in r.textures && r.textures[k] == u.textures[k])
      && (i < |u.keys| ==> (r.keys == u.keys <==> u.keys[i] in r.textures))
      && (r.keys == u.keys || (i < |u.keys| && r.keys == u.keys[..i] + u.keys[i + 1..]))
  {
    var i := HolderIndex(u.keys, u.textures, tex);
    if i < |u.keys| {
      DeleteAt(u, tex, obj, i);
      var r := DeleteResult(u, tex, obj);
      if u.keys[i] !in r.textures {
        assert |r.keys| == |u.keys| - 1;
      }
    }
  }

  /** `delete` keeps the loaders of the entries it keeps. */
  lemma DeleteKeepsLoaders(u: UserMap, tex: TexId, obj: Owner, repo: TextureRepo)
    requires LoadedBy(u.textures, repo)
    ensures LoadedBy(DeleteResult(u, tex, obj).textures, repo)
  {
  }

  /** Releasing by an owner that holds none of the texture's references changes nothing. */
  lemma DeleteNonOwnerNoop(u: UserMap, tex: TexId, obj: Owner)
    requires UserMapOk(u)
    requires forall k :: Holds(u.textures, k, tex) ==> obj !in u.textures[k].owners
    ensures DeleteResult(u, tex, obj) == u && Destroyed(u, tex, obj) == {}
  {
    var i := HolderIndex(u.keys, u.textures, tex);
    if i < |u.keys| {
      var k := u.keys[i];
      assert Release(u.textures[k], obj) == u.textures[k];
      assert u.textures[k := u.textures[k]] == u.textures;
    }
  }

  /** Releasing a texture no entry holds changes nothing. */
  lemma DeleteUnknownNoop(u: UserMap, tex: TexId, obj: Owner)
    requires UserMapOk(u)
    requires forall k :: k in u.textures ==> u.textures[k].texture != tex
    ensures DeleteResult(u, tex, obj) == u && Destroyed(u, tex, obj) == {}
  {
  }

  /** An owner's release removes the entry exactly when it held the last reference. */
  lemma DeleteOwner(u: UserMap, k: string, obj: Owner)
    requires UserMapOk(u) && k in u.textures
    requires HolderIndex(u.keys, u.textures, u.textures[k].texture) < |u.keys|
    requires u.keys[HolderIndex(u.keys, u.textures, u.textures[k].texture)] == k
    requires obj in u.textures[k].owners
    ensures var e := u.textures[k]; var r := DeleteResult(u, e.texture, obj);
      if e.count == 1 then k !in r.textures && Destroyed(u, e.texture, obj) == {e.texture}
      else (k in r.textures && r.textures[k].count == e.count - 1
            && multiset(r.textures[k].owners) == multiset(e.owners) - multiset{obj}
            && Destroyed(u, e.texture, obj) == {})
  {
  }

  /** Releases by a sequence of owners, in that order. */
  function ReleaseAll(u: UserMap, tex: TexId, objs: seq<Owner>): UserMap
    decreases |objs|
  {
    if objs == [] then u
    else DeleteResult(ReleaseAll(u, tex, objs[..|objs| - 1]), tex, objs[|objs| - 1])
  }

  /** The entry under `k` is the first, in dictionary order, to hold its texture. */
  predicate FirstHolder(u: UserMap, k: string)
    requires k in u.textures
  {
    var i := HolderIndex(u.keys, u.textures, u.textures[k].texture);
    i < |u.keys| && u.keys[i] == k
  }

  /** The first holder only depends on which keys hold the texture. */
  lemma {:induction false} HolderIndexSame(ks: seq<string>, t: map<string, Entry>, t': map<string, Entry>, tex: TexId)
    requires forall x :: Holds(t, x, tex) <==> Holds(t', x, tex)
    ensures HolderIndex(ks, t, tex) == HolderIndex(ks, t', tex)
    decreases |ks|
  {
    if ks != [] {
      HolderIndexSame(ks[1..], t, t', tex);
    }
  }

  /** `delete` on the texture of the first holder `k` releases the entry under `k`. */
  lemma DeleteFirstHolder(u: UserMap, k: string, obj: Owner)
    requires k in u.textures && FirstHolder(u, k)
    ensures var e := Release(u.textures[k], obj);
      DeleteResult(u, u.textures[k].texture, obj)
      == if e.count == 0 then UserMap(RemoveAt(u.keys, HolderIndex(u.keys, u.textures, u.textures[k].texture)), u.textures - {k})
         else UserMap(u.keys, u.textures[k := e])
  {
  }

  /** Replacing the entry of the first holder by one for the same texture keeps it the first holder. */
  lemma UpdateFirstHolder(u: UserMap, k: string, e: Entry)
    requires k in u.textures && FirstHolder(u, k) && e.texture == u.textures[k].texture
    ensures var u' := UserMap(u.keys, u.textures[k := e]);
      FirstHolder(u', k) && HolderIndex(u'.keys, u'.textures, e.texture) == HolderIndex(u.keys, u.textures, e.texture)
  {
    HolderIndexSame(u.keys, u.textures, u.textures[k := e], e.texture);
  }

  /** The n-th release, by the n-th owner, of an entry the earlier owners have released. */
  lemma ReleaseNext(u: UserMap, k: string, n: nat)
    requires k in u.textures && FirstHolder(u, k) && EntryOk(u.textures[k])
    requires 0 < n <= u.textures[k].count
    ensures var e := u.textures[k];
      var prev := UserMap(u.keys, u.textures[k := e.(count := e.count - (n - 1), owners := e.owners[n - 1..])]);
      DeleteResult(prev, e.texture, e.owners[n - 1])
      == if n < e.count then UserMap(u.keys, u.textures[k := e.(count := e.count - n, owners := e.owners[n..])])
         else UserMap(RemoveAt(u.keys, HolderIndex(u.keys, u.textures, e.texture)), u.textures - {k})
  {
    var e := u.textures[k];
    var e' := e.(count := e.count - (n - 1), owners := e.owners[n - 1..]);
    var prev := UserMap(u.keys, u.textures[k := e']);
    UpdateFirstHolder(u, k, e');
    var o := e.owners[n - 1];
    DeleteFirstHolder(prev, k, o);
    assert e'.owners == [o] + e.owners[n..];
    assert Release(e', o) == e.(count := e.count - n, owners := e.owners[n..]);
    if n == e.count {
      assert prev.textures - {k} == u.textures - {k};
    } else {
      assert prev.textures[k := Release(e', o)] == u.textures[k := Release(e', o)];
    }
  }

  /** Releasing the owners of an entry one by one, in the order they acquired it, keeps the entry
      alive, with the later owners, until the last release, which removes it. */
  lemma {:induction false} ReleaseInOrder(u: UserMap, k: string, n: nat)
    requires k in u.textures && FirstHolder(u, k) && EntryOk(u.textures[k])
    requires n <= u.textures[k].count
    ensures var e := u.textures[k]; var r := ReleaseAll(u, e.texture, e.owners[..n]);
      if n < e.count then r == UserMap(u.keys, u.textures[k := e.(count := e.count - n, owners := e.owners[n..])])
      else r == UserMap(RemoveAt(u.keys, HolderIndex(u.keys, u.textures, e.texture)), u.textures - {k})
    decreases n
  {
    var e := u.textures[k];
    if n == 0 {
      assert e.owners[0..] == e.owners;
      assert e.(count := e.count - 0, owners := e.owners[0..]) == e;
      assert u.textures[k := e] == u.textures;
    } else {
      ReleaseInOrder(u, k, n - 1);
      var objs := e.owners[..n];
      assert objs[..|objs| - 1] == e.owners[..n - 1] && objs[|objs| - 1] == e.owners[n - 1];
      assert ReleaseAll(u, e.texture, objs)
          == DeleteResult(ReleaseAll(u, e.texture, e.owners[..n - 1]), e.texture, e.owners[n - 1]);
      ReleaseNext(u, k, n);
    }
  }

  /** At the last of the releases, the texture is destroyed. */
  lemma LastReleaseDestroys(u: UserMap, k: string)
    requires k in u.textures && FirstHolder(u, k) && EntryOk(u.textures[k])
    ensures var e := u.textures[k];
      Destroyed(ReleaseAll(u, e.texture, e.owners[..e.count - 1]), e.texture, e.owners[e.count - 1]) == {e.texture}
  {
    var e := u.textures[k];
    var n := e.count - 1;
    ReleaseInOrder(u, k, n);
    var e' := e.(count := 1, owners := e.owners[n..]);
    assert ReleaseAll(u, e.texture, e.owners[..n]) == UserMap(u.keys, u.textures[k := e']);
    assert e'.owners == [e.owners[n]];
    DestroysSingle(u, k, e');
  }

  /** A release by the single owner of the first holder destroys its texture. */
  lemma DestroysSingle(u: UserMap, k: string, e: Entry)
    requires k in u.textures && FirstHolder(u, k) && e.texture == u.textures[k].texture
    requires e.count == 1 && |e.owners| == 1
    ensures Destroyed(UserMap(u.keys, u.textures[k := e]), e.texture, e.owners[0]) == {e.texture}
  {
    var r := UserMap(u.keys, u.textures[k := e]);
    UpdateFirstHolder(u, k, e);
    var i := HolderIndex(r.keys, r.textures, e.texture);
    assert r.keys[i] == k;
    assert e.owners == [e.owners[0]];
    assert Release(r.textures[r.keys[i]], e.owners[0]).count == 0;
  }

  /** A key loaded once and then reused by a second owner holds two references to one texture. */
  lemma ReuseAddsReference(u: UserMap, path: string, e: Entry, other: Owner)
    requires path !in u.textures
    ensures var r := IncResult(AddUserResult(u, path, e), path, other);
      r.textures[path] == e.(count := e.count + 1, owners := e.owners + [other])
      && r.keys == u.keys + [path]
  {
  }

  /** A generated texture (filedate 0) is never reloaded. */
  lemma RefreshSkipsGenerated(t: map<string, Entry>, fs: FileSystem, lt: map<string, TexId>, k: string)
    requires k in t && t[k].filedate == 0
    ensures k in RefreshAll(t, fs, lt) && RefreshAll(t, fs, lt)[k] == t[k]
  {
  }

  /** An entry whose file is gone or not newer keeps texture and filedate; a reloaded one
      takes the file's mtime, which is strictly newer. */
  lemma RefreshEntry(t: map<string, Entry>, fs: FileSystem, lt: map<string, TexId>, k: string)
    requires k in t
    ensures k in RefreshAll(t, fs, lt)
    ensures (k !in fs || fs[k] <= t[k].filedate) ==> RefreshAll(t, fs, lt)[k] == t[k]
    ensures Stale(t[k], k, fs) ==> RefreshAll(t, fs, lt)[k].filedate == fs[k] > t[k].filedate
  {
  }

  /** After a refresh nothing is stale, so a second refresh with unchanged files reloads nothing. */
  lemma RefreshIdempotent(t: map<string, Entry>, fs: FileSystem, lt: map<string, TexId>, lt2: map<string, TexId>,
                          s: map<TexId, Image>, ks: seq<string>)
    ensures RefreshAll(RefreshAll(t, fs, lt), fs, lt2) == RefreshAll(t, fs, lt)
    ensures ReloadStorage(s, ks, RefreshAll(t, fs, lt), fs, lt2) == s
  {
    var t1 := RefreshAll(t, fs, lt);
    assert forall k :: k in t1 ==> !Stale(t1[k], k, fs);
    NothingStale(s, ks, t1, fs, lt2);
  }

  lemma {:induction false} NothingStale(s: map<TexId, Image>, ks: seq<string>, t: map<string, Entry>, fs: FileSystem,
                                        lt: map<string, TexId>)
    requires forall k :: k in t ==> !Stale(t[k], k, fs)
    ensures ReloadStorage(s, ks, t, fs, lt) == s
    decreases |ks|
  {
    if ks != [] {
      NothingStale(s, ks[..|ks| - 1], t, fs, lt);
    }
  }

  // ---------------------------------------------------------------------------
  // The Qt side: texture objects and their GPU storage

  class QtLib {
    /** The texture objects that have GPU storage, with what it holds. */
    var storage: map<TexId, Image>
    /** The next `QOpenGLTexture` object to be made. */
    var nextId: nat
    /** `QColor.fromRgbF(r, g, b).rgb()`, left uninterpreted. */
    const pack: (real, real, real) -> nat

    constructor (pack: (real, real, real) -> nat)
      ensures storage == map[] && nextId == 0 && this.pack == pack
    {
      storage := map[];
      nextId := 0;
      this.pack := pack;
    }

    /** `QOpenGLTexture(QOpenGLTexture.Target2D)`: a new object, without storage. */
    method NewTexture() returns (id: TexId)
      modifies this
      ensures id == old(nextId) && nextId == id + 1 && storage == old(storage)
    {
      id := nextId;
      nextId := nextId + 1;
    }

    /** `create()` and `setData(image)`. */
    method Create(id: TexId, image: Image)
      modifies this
      ensures storage == old(storage)[id := image] && nextId == old(nextId)
    {
      storage := storage[id := image];
    }

    /** `destroy()`: free the GPU storage. */
    method Destroy(id: TexId)
      modifies this
      ensures storage == old(storage) - {id} && nextId == old(nextId)
    {
      storage := storage - {id};
    }
  }

  // ---------------------------------------------------------------------------
  // TextureRepo

  class TextureRepo {
    const qt: QtLib
    /** The keys of `textures` in insertion order (the order `delete` and `refresh` visit them). */
    var keys: seq<string>
    var textures: map<string, Entry>
    /** The system pool: key to texture, never counted. */
    var systextures: map<string, TexId>
    ghost var trace: seq<CacheOp>

    ghost predicate Valid()
      reads this`keys, this`textures
    {
      UserMapOk(User()) && LoadedBy(textures, this)
    }

    function User(): UserMap
      reads this`keys, this`textures
    {
      UserMap(keys, textures)
    }

    /** The textures each entry's loader refers to now. */
    ghost function LoaderTex(): map<string, TexId>
      reads this, set k | k in textures && textures[k].loader.Some? :: textures[k].loader.value
    {
      LoaderTexOf(textures)
    }

    constructor (qt: QtLib)
      ensures Valid() && this.qt == qt
      ensures keys == [] && textures == map[] && systextures == map[] && trace == []
    {
      this.qt := qt;
      keys := [];
      textures := map[];
      systextures := map[];
      trace := [];
    }

    /** `add_sys`: the system pool maps `path` to `texture`, replacing any earlier one. */
    method AddSys(path: string, texture: TexId)
      requires Valid()
      modifies this
      ensures Valid()
      ensures systextures == old(systextures)[path := texture]
      ensures User() == old(User()) && trace == old(trace) + [AddSysOp(path)]
    {
      systextures := systextures[path := texture];
      trace := trace + [AddSysOp(path)];
    }

    method AddUser(path: string, texture: TexId, timestamp: int, mhtex: Option<MHTexture>, obj: Owner)
      requires Valid()
      requires timestamp != 0 ==> mhtex.Some?
      requires mhtex.Some? ==> mhtex.value.repo == this
      modifies this
      ensures Valid()
      ensures User() == AddUserResult(old(User()), path, Entry(texture, 1, timestamp, mhtex, [obj]))
      ensures systextures == old(systextures) && trace == old(trace) + [AddUserOp(path)]
    {
      AddUserKeepsOk(User(), path, Entry(texture, 1, timestamp, mhtex, [obj]));
      if path !in textures {
        textures := textures[path := Entry(texture, 1, timestamp, mhtex, [obj])];
        keys := keys + [path];
      }
      trace := trace + [AddUserOp(path)];
    }

    /** `exists`: the texture of a user entry; the system pool is not consulted. */
    function Exists(path: string): (r: Option<TexId>)
      reads this
      ensures r.Some? <==> path in textures
      ensures r.Some? ==> r.value == textures[path].texture
    {
      if path in textures then Some(textures[path].texture) else None
    }

    method Inc(path: string, obj: Owner)
      requires Valid()
      modifies this
      ensures Valid()
      ensures User() == IncResult(old(User()), path, obj)
      ensures systextures == old(systextures) && trace == old(trace) + [IncOp(path, obj)]
    {
      IncKeepsOk(User(), path, obj);
      if path in textures {
        var e := textures[path];
        textures := textures[path := e.(count := e.count + 1, owners := e.owners + [obj])];
      }
      trace := trace + [IncOp(path, obj)];
    }

    method Delete(texture: TexId, obj: Owner)
      requires Valid()
      modifies this, qt
      ensures Valid()
      ensures User() == DeleteResult(old(User()), texture, obj)
      ensures qt.storage == old(qt.storage) - Destroyed(old(User()), texture, obj) && qt.nextId == old(qt.nextId)
      ensures systextures == old(systextures) && trace == old(trace) + [DeleteOp(texture, obj)]
    {
      var i := FindHolder(texture);
      if i < |keys| {
        ReleaseAt(i, texture, obj);
      } else {
        DeleteAt(User(), texture, obj, i);
      }
      trace := trace + [DeleteOp(texture, obj)];
    }

    /** The release of `delete` once the first entry holding `texture` is found at position `i`. */
    method ReleaseAt(i: nat, texture: TexId, obj: Owner)
      requires Valid() && i < |keys| && i == HolderIndex(keys, textures, texture)
      modifies this, qt
      ensures Valid()
      ensures User() == DeleteResult(old(User()), texture, obj)
      ensures qt.storage == old(qt.storage) - Destroyed(old(User()), texture, obj) && qt.nextId == old(qt.nextId)
      ensures systextures == old(systextures) && trace == old(trace)
    {
      DeleteKeepsOk(User(), texture, obj);
      DeleteKeepsLoaders(User(), texture, obj, this);
      DeleteAt(User(), texture, obj, i);
      var elem := keys[i];
      var m := textures[elem];
      if obj in m.owners {
        m := m.(count := m.count - 1, owners := RemoveFirst(m.owners, obj));
      }
      assert m == Release(textures[elem], obj);
      if m.count == 0 {
        qt.Destroy(m.texture);
        textures := textures - {elem};
        keys := keys[..i] + keys[i + 1..];
      } else {
        textures := textures[elem := m];
      }
    }

    /** The search of `delete`: the position of the first entry, in dictionary order, holding `texture`. */
    method FindHolder(texture: TexId) returns (i: nat)
      requires forall k :: k in keys ==> k in textures
      ensures i == HolderIndex(keys, textures, texture)
    {
      i := 0;
      while i < |keys|
        invariant 0 <= i <= |keys|
        invariant HolderIndex(keys, textures, texture) == i + HolderIndex(keys[i..], textures, texture)
      {
        if textures[keys[i]].texture == texture {
          return;
        }
        assert keys[i..][1..] == keys[i + 1..];
        i := i + 1;
      }
    }

    /** `refresh`: reload every file-backed entry whose file is strictly newer, through its loader. */
    method Refresh(fs: FileSystem)
      requires Valid()
      modifies this, qt
      ensures Valid()
      ensures textures == RefreshAll(old(textures), fs, old(LoaderTex()))
      ensures qt.storage == ReloadStorage(old(qt.storage), keys, old(textures), fs, old(LoaderTex()))
      ensures keys == old(keys) && systextures == old(systextures) && trace == old(trace) && qt.nextId == old(qt.nextId)
    {
      ghost var t0 := textures;
      ghost var lt := LoaderTex();
      ghost var ks0 := keys;
      assert UserMapOk(UserMap(ks0, t0)) && LoadedBy(t0, this);
      var i := 0;
      while i < |keys|
        invariant 0 <= i <= |keys|
        invariant keys == old(keys) && systextures == old(systextures) && trace == old(trace) && qt.nextId == old(qt.nextId)
        invariant textures == RefreshSeq(t0, fs, lt, keys[..i])
        invariant qt.storage == ReloadStorage(old(qt.storage), keys[..i], t0, fs, lt)
        invariant lt == LoaderTexOf(t0)
      {
        var name := keys[i];
        assert HasKey(t0, name);
        RefreshStep(t0, fs, lt, keys, i);
        assert keys[..i + 1][..i] == keys[..i];
        ReloadEntry(name, fs, t0, lt);
        i := i + 1;
      }
      assert keys[..i] == keys;
      RefreshSeqAll(t0, fs, lt, keys);
      RefreshKeepsValid(this, t0, fs, lt);
      assert lt == old(LoaderTex()) && t0 == old(textures);
    }

    /** The body of the `refresh` loop for the key `name`, whose entry is still as in `t0`;
        `lt` are the textures of the loaders of `t0`, which the reload keeps. */
    method ReloadEntry(name: string, fs: FileSystem, ghost t0: map<string, Entry>, ghost lt: map<string, TexId>)
      requires name in textures && name in t0 && textures[name] == t0[name]
      requires t0[name].filedate != 0 ==> t0[name].loader.Some?
      requires t0[name].loader.Some? ==> t0[name].loader.value.repo == this
      requires lt == LoaderTexOf(t0)
      modifies this, qt
      ensures lt == LoaderTexOf(t0)
      ensures textures == old(textures)[name := Refreshed(t0[name], name, fs, LoaderTexOr(lt, t0, name))]
      ensures qt.storage == if Stale(t0[name], name, fs)
                            then old(qt.storage)[LoaderTexOr(lt, t0, name) := FileImage(name, fs[name])]
                            else old(qt.storage)
      ensures keys == old(keys) && systextures == old(systextures) && trace == old(trace) && qt.nextId == old(qt.nextId)
    {
      var v := textures[name];
      if v.filedate != 0 {
        if name in fs {
          var timestamp := fs[name];
          if timestamp > v.filedate {
            var t := v.loader.value.Refresh(name, fs);
            textures := textures[name := v.(texture := t, filedate := timestamp)];
          }
        }
        // else: a missing file is logged and its entry kept
      }
    }

    /** `cleanup`: destroy and forget every user texture; destroy the system pool only for "system". */
    method Cleanup(textype: string)
      requires Valid()
      modifies this, qt
      ensures Valid() && keys == [] && textures == map[]
      ensures systextures == old(systextures) && trace == old(trace) && qt.nextId == old(qt.nextId)
      ensures qt.storage == old(qt.storage) - UserTextures(old(textures))
                             - (if textype == "system" then old(systextures).Values else {})
    {
      DestroyUserTextures();
      textures := map[];
      keys := [];
      if textype == "system" {
        DestroySystemTextures();
      }
    }

    /** The first loop of `cleanup`: destroy the texture of every user entry. */
    method DestroyUserTextures()
      requires forall k :: k in textures <==> k in keys
      modifies qt
      ensures qt.storage == old(qt.storage) - UserTextures(textures) && qt.nextId == old(qt.nextId)
    {
      var i := 0;
      ghost var gone: set<TexId> := {};
      while i < |keys|
        invariant 0 <= i <= |keys|
        invariant qt.storage == old(qt.storage) - gone && qt.nextId == old(qt.nextId)
        invariant gone <= UserTextures(textures)
        invariant forall j :: 0 <= j < i ==> textures[keys[j]].texture in gone
      {
        qt.Destroy(textures[keys[i]].texture);
        gone := gone + {textures[keys[i]].texture};
        i := i + 1;
      }
      assert gone == UserTextures(textures) by {
        forall k | k in textures ensures textures[k].texture in gone {
          var j :| 0 <= j < |keys| && keys[j] == k;
        }
      }
    }

    /** The second loop of `cleanup`: destroy every texture of the system pool. */
    method DestroySystemTextures()
      modifies qt
      ensures qt.storage == old(qt.storage) - systextures.Values && qt.nextId == old(qt.nextId)
    {
      var rest := systextures.Keys;
      while rest != {}
        invariant rest <= systextures.Keys
        invariant qt.storage == old(qt.storage) - (set k | k in systextures && k !in rest :: systextures[k])
        invariant qt.nextId == old(qt.nextId)
        decreases rest
      {
        var k :| k in rest;
        qt.Destroy(systextures[k]);
        rest := rest - {k};
      }
      assert (set k | k in systextures && k !in rest :: systextures[k]) == systextures.Values;
    }
  }

  /** The textures the loaders of the entries of `t` refer to now. */
  ghost function LoaderTexOf(t: map<string, Entry>): map<string, TexId>
    reads set k | k in t && t[k].loader.Some? :: t[k].loader.value
  {
    map k | k in t && t[k].loader.Some? :: t[k].loader.value.texture
  }

  /** The entries for the keys `done` refreshed one after another, the others as they were. */
  function RefreshSeq(t: map<string, Entry>, fs: FileSystem, lt: map<string, TexId>, done: seq<string>): map<string, Entry>
    decreases |done|
  {
    if done == [] then t
    else
      var k := done[|done| - 1];
      var prev := RefreshSeq(t, fs, lt, done[..|done| - 1]);
      if k in t then prev[k := Refreshed(t[k], k, fs, LoaderTexOr(lt, t, k))] else prev
  }

  /** Refreshing distinct keys one after another refreshes exactly those keys. */
  lemma {:induction false} RefreshSeqIsSome(t: map<string, Entry>, fs: FileSystem, lt: map<string, TexId>, done: seq<string>)
    requires Distinct(done)
    ensures var r := RefreshSeq(t, fs, lt, done);
      r.Keys == t.Keys
      && forall k :: k in t ==> r[k] == if k in done then Refreshed(t[k], k, fs, LoaderTexOr(lt, t, k)) else t[k]
    decreases |done|
  {
    if done != [] {
      var init := done[..|done| - 1];
      assert Distinct(init);
      RefreshSeqIsSome(t, fs, lt, init);
      assert done == init + [done[|done| - 1]];
    }
  }

  /** Refreshing all the keys one after another is `RefreshAll`. */
  lemma RefreshSeqAll(t: map<string, Entry>, fs: FileSystem, lt: map<string, TexId>, ks: seq<string>)
    requires Distinct(ks) && forall k :: k in t ==> k in ks
    ensures RefreshSeq(t, fs, lt, ks) == RefreshAll(t, fs, lt)
  {
    RefreshSeqIsSome(t, fs, lt, ks);
  }

  /** At the i-th iteration of the `refresh` loop, the entry under the i-th key is still as it was. */
  lemma RefreshStep(t: map<string, Entry>, fs: FileSystem, lt: map<string, TexId>, ks: seq<string>, i: nat)
    requires Distinct(ks) && i < |ks| && ks[i] in t
    ensures ks[i] in RefreshSeq(t, fs, lt, ks[..i]) && RefreshSeq(t, fs, lt, ks[..i])[ks[i]] == t[ks[i]]
  {
    assert Distinct(ks[..i]);
    RefreshSeqIsSome(t, fs, lt, ks[..i]);
  }

  /** The refreshed map keeps the cache invariant: same keys, same loaders and owners. */
  lemma RefreshKeepsValid(repo: TextureRepo, t: map<string, Entry>, fs: FileSystem, lt: map<string, TexId>)
    requires UserMapOk(UserMap(repo.keys, t))
    requires forall k :: k in t && t[k].loader.Some? ==> t[k].loader.value.repo == repo
    ensures UserMapOk(UserMap(repo.keys, RefreshAll(t, fs, lt)))
    ensures var r := RefreshAll(t, fs, lt);
      forall k :: k in r && r[k].loader.Some? ==> r[k].loader.value.repo == repo
  {
  }

  // ---------------------------------------------------------------------------
  // MH_Texture, as the material code uses it

  class MHTexture {
    const repo: TextureRepo
    /** "user" handles are released through the cache; other types are not. */
    const textype: string
    const obj: Owner
    /** The texture object the handle refers to: its own, or a shared one from the cache. */
    var texture: TexId
    /** `getName()`: the key it was loaded or generated under; None while nothing is bound. */
    var name: Option<string>

    /** `MH_Texture(glob, textype, obj)`: makes its own (empty) texture object. */
    constructor (repo: TextureRepo, textype: string, obj: Owner)
      modifies repo.qt
      ensures this.repo == repo && this.textype == textype && this.obj == obj && name == None
      ensures texture == old(repo.qt.nextId) && repo.qt.nextId == texture + 1 && repo.qt.storage == old(repo.qt.storage)
    {
      this.repo := repo;
      this.textype := textype;
      this.obj := obj;
      var id := repo.qt.NewTexture();
      texture := id;
      name := None;
    }

    /** `getTexture()`: the bound texture, None while nothing is bound. */
    function GetTexture(): (r: Option<TexId>)
      reads this
      ensures r.Some? <==> name.Some?
      ensures r.Some? ==> r.value == texture
    {
      if name.Some? then Some(texture) else None
    }

    method Destroy()
      modifies repo.qt
      ensures repo.qt.storage == old(repo.qt.storage) - {texture} && repo.qt.nextId == old(repo.qt.nextId)
    {
      repo.qt.Destroy(texture);
    }

    /** `delete`: release the cache reference, for "user" handles only. */
    method Delete()
      requires repo.Valid()
      modifies repo, repo.qt
      ensures repo.Valid() && repo.systextures == old(repo.systextures) && repo.qt.nextId == old(repo.qt.nextId)
      ensures textype == "user" ==>
        repo.User() == DeleteResult(old(repo.User()), texture, obj)
        && repo.qt.storage == old(repo.qt.storage) - Destroyed(old(repo.User()), texture, obj)
        && repo.trace == old(repo.trace) + [DeleteOp(texture, obj)]
      ensures textype != "user" ==>
        repo.User() == old(repo.User()) && repo.qt.storage == old(repo.qt.storage) && repo.trace == old(repo.trace)
    {
      if textype == "user" {
        repo.Delete(texture, obj);
      }
    }

    /** `unicolor(rgb)`: bind the generated texture of a colour, reusing a cached one. */
    method Unicolor(rgb: Rgb) returns (r: Outcome<TexId>)
      requires repo.Valid()
      modifies this, repo, repo.qt
      ensures repo.Valid() && repo.qt.nextId == old(repo.qt.nextId)
      ensures |rgb| < 3 ==> r == Raised(IndexError) && unchanged(this) && unchanged(repo) && unchanged(repo.qt)
      ensures |rgb| >= 3 ==> var key := ColorKey(repo.qt.pack, rgb).value;
        r == Returned(texture) && name == Some(key)
        && (if key in old(repo.textures) then
              texture == old(repo.textures[key].texture)
              && repo.User() == IncResult(old(repo.User()), key, obj)
              && repo.systextures == old(repo.systextures) && repo.qt.storage == old(repo.qt.storage)
              && repo.trace == old(repo.trace) + [IncOp(key, obj)]
            else
              texture == old(texture) && repo.qt.storage == old(repo.qt.storage)[texture := ColorImage(key)]
              && if textype == "system" then
                   repo.systextures == old(repo.systextures)[key := texture] && repo.User() == old(repo.User())
                   && repo.trace == old(repo.trace) + [AddSysOp(key)]
                 else
                   repo.User() == AddUserResult(old(repo.User()), key, Entry(texture, 1, 0, None, [obj]))
                   && repo.systextures == old(repo.systextures) && repo.trace == old(repo.trace) + [AddUserOp(key)])
    {
      var ck := ColorKey(repo.qt.pack, rgb);
      if ck.Raised? {
        return Raised(ck.exc);
      }
      var key := ck.value;
      var found := repo.Exists(key);
      if found.Some? {
        repo.Inc(key, obj);
        texture := found.value;
        name := Some(key);
        return Returned(texture);
      }
      repo.qt.Create(texture, ColorImage(key));
      name := Some(key);
      if textype == "system" {
        repo.AddSys(key, texture);
      } else {
        repo.AddUser(key, texture, 0, None, obj);
      }
      r := Returned(texture);
    }

    /** `load(path, textype, addRef)`: bind the texture of a file, reusing a cached user entry. */
    method Load(path: string, loadType: string, addRef: bool, fs: FileSystem) returns (r: Option<TexId>)
      requires repo.Valid()
      modifies this, repo, repo.qt
      ensures repo.Valid() && repo.qt.nextId == old(repo.qt.nextId)
      ensures loadType == "user" && path in old(repo.textures) ==>
        r == Some(old(repo.textures[path].texture)) && texture == r.value && name == Some(path)
        && repo.User() == (if addRef then IncResult(old(repo.User()), path, obj) else old(repo.User()))
        && repo.trace == old(repo.trace) + (if addRef then [IncOp(path, obj)] else [])
        && repo.systextures == old(repo.systextures) && repo.qt.storage == old(repo.qt.storage)
      ensures !(loadType == "user" && path in old(repo.textures)) && path !in fs ==>
        r == None && unchanged(this) && unchanged(repo) && unchanged(repo.qt)
      ensures !(loadType == "user" && path in old(repo.textures)) && path in fs ==>
        r == Some(texture) && texture == old(texture) && name == Some(path)
        && repo.qt.storage == old(repo.qt.storage)[texture := FileImage(path, fs[path])]
        && if loadType == "system" then
             repo.systextures == old(repo.systextures)[path := texture] && repo.User() == old(repo.User())
             && repo.trace == old(repo.trace) + [AddSysOp(path)]
           else
             repo.User() == AddUserResult(old(repo.User()), path, Entry(texture, 1, fs[path], Some(this), [obj]))
             && repo.systextures == old(repo.systextures) && repo.trace == old(repo.trace) + [AddUserOp(path)]
    {
      if loadType == "user" {
        var found := repo.Exists(path);
        if found.Some? {
          if addRef {
            repo.Inc(path, obj);
          }
          texture := found.value;
          name := Some(path);
          return Some(texture);
        }
      }
      if path !in fs {
        return None;
      }
      var timestamp := fs[path];
      repo.qt.Create(texture, FileImage(path, timestamp));
      name := Some(path);
      if loadType == "system" {
        repo.AddSys(path, texture);
      } else {
        repo.AddUser(path, texture, timestamp, Some(this), obj);
      }
      r := Some(texture);
    }

    /** `refresh(path)`: re-read the file into the handle's own texture object. */
    method Refresh(path: string, fs: FileSystem) returns (t: TexId)
      modifies repo.qt
      ensures t == texture
      ensures repo.qt.storage == old(repo.qt.storage)[texture := SourceImage(path, fs)] && repo.qt.nextId == old(repo.qt.nextId)
    {
      repo.qt.Destroy(texture);
      repo.qt.Create(texture, SourceImage(path, fs));
      t := texture;
    }
  }
}
