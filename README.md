# makehuman2 texture cache, materials, asset metadata, preferences, downloads and installer builders

A Dafny model of the following parts of makehuman2:

- **Reference-counted texture cache.** The OpenGL textures (`TextureRepo`, `MH_Texture`). A user texture is shared by every mesh that loads the same file or the same generated colour. The owners of each reference are recorded. A texture is destroyed when its last reference is released, and reloaded when its file becomes newer.
- **Mesh material** (`Material`):
  - loading the `.mhmat` file line by line, with resolution of texture file names;
  - the six texture slots it binds, and how they are reused, released and rebound;
  - the coloration step on the diffuse texture;
  - the text `saveMatFile` writes. Loading that text back is proved to restore the attributes, provided every float the material holds prints as one token that reads back to the same float.
- **Asset-metadata scanners of the file cache** (`FileHelper`): clothes (`.mhclo`), motions (`.bvh` with `.meta`), JSON assets and models (`.mhm`).
- **Preferences window**:
  - the padded copy of the key bindings it edits, and the compacted dictionary it writes back;
  - the home-path check;
  - the API port check.
- **Download-and-import layout**:
  - the asset-pack list;
  - the guards that start at most one background job;
  - where the parent asset of a material lives.
- **The two installer builders**: `build/build.py` and `build/winbuild.py`. Each reads its JSON configuration and emits the pynsist configuration text, or ends with the exit code of `cleanexit`. The Windows builder also copies the script and the icon, creates directories, and filters the repository copy by the ignore patterns.

Files: `wrappers.dfy` (Option, Python exceptions, `Outcome` = returned or raised), `strings.dfy` and `paths.dfy` (the Python string and `os.path` operations used), `environment.dfy` (the application environment and the file system, as uninterpreted functions), `pyjson.dfy` (JSON values with Python's `in`, `[]`, iteration, `str` and `+`), `texture.dfy`, `matfile.dfy`, `matsave.dfy`, `material.dfy`, `filehelper.dfy`, `prefwindow.dfy`, `downloads.dfy`, `pynsist.dfy` (what both builders share), `build.dfy` and `winbuild.dfy`.

Objects whose fields the source updates become classes:

- `TextureRepo`, `MHTexture` and `QtLib` (the GPU storage);
- `Material`;
- `MHPrefWindow`;
- `DownLoadImport`;
- the two `WinBuilder`s.

Their methods state the whole new state. The scanners, the parser and the text builders become functions. The loops of the texture cache, the material loader, the file scanners, the pack list and the installer builders are methods with loop invariants, proved equal to those functions. The two loops of the preferences window that build and compact the key bindings (`genLocalKeys` with its padding `while`, and `genNewKeyDict`) compute a value only and are modelled as the functions `Pad`, `GenLocalKeys` and `GenNewKeyDict`. A Python exception that escapes the code is `Raised(exc)`. A `cleanexit(code, text)` is `Exit(code, text)`.

Where the modelled code and the behaviour described for it disagree, the model follows the code. The three places where the code evidently differs from what its authors meant (see Findings) are modelled as written, with the corrected reading beside them. Two disagreements between files are resolved as follows:

- **material.py and texture.py disagree.** material.py calls handle methods that texture.py does not define (`getName`, `getTexture`, `getImage`, `refresh_image`, `stdcolor`, `save_png`). It calls `unicolor` with two arguments and `refresh` with none. The handle is modelled as material.py uses it:
  - `getName` is the key it was loaded under;
  - `refresh()` re-reads that key;
  - the extra `unicolor` argument is the colour name material.py computes itself.
- **Generated-colour keys.** The key of a generated colour is computed by the same formula in both files (`colorToName` and `unicolor`).

## Model

| member | source | states |
|---|---|---|
| Texture.ColorKey | opengl/texture.py:210-211 | a colour with three components or more gets the key "Generated color [0x…]"; a shorter one raises IndexError |
| Texture.RemoveFirst | opengl/texture.py:71 | `list.remove` drops one occurrence of an owner that is there (one owner fewer, the rest as a multiset unchanged) and leaves a list without it as it is |
| Texture.HolderIndex | opengl/texture.py:65-68 | the position `delete` stops at holds the texture, or is the end of the keys |
| Texture.HolderIndexFirst | opengl/texture.py:65-68 | no key before that position holds the texture: `delete` acts on the first holder in dictionary order |
| Texture.AddUserResult | opengl/texture.py:47-49 | the user map after `add_user`; its invariant is AddUserKeepsOk |
| Texture.IncResult | opengl/texture.py:55-58 | the user map after `inc`; its invariant is IncKeepsOk |
| Texture.DeleteResult | opengl/texture.py:60-75 | the user map after `delete`; its properties are DeleteKeepsOk, DeleteKeepsOthers, DeleteOwner and the no-op lemmas |
| Texture.AddUserKeepsOk | opengl/texture.py:47-49 | `add_user` keeps the cache invariant: distinct keys in insertion order, count equal to the number of owners and at least 1, a loader for every file-backed entry |
| Texture.IncKeepsOk | opengl/texture.py:55-58 | `inc` keeps the cache invariant |
| Texture.DeleteKeepsOk | opengl/texture.py:60-75 | `delete` keeps the cache invariant: a released entry keeps a reference or is removed with its key |
| Texture.DeleteKeepsOthers | opengl/texture.py:65-75 | `delete` touches the first holder only: every other entry is kept, no key is added, and the other keys keep their order, the holder's key dropping out exactly when its entry is removed |
| Texture.DeleteKeepsLoaders | opengl/texture.py:60-75 | after `delete`, every loader of a kept entry still loads through the same cache |
| Texture.DeleteNonOwnerNoop | opengl/texture.py:68-72 | a release by an object that owns none of the texture's references changes nothing and destroys nothing |
| Texture.DeleteUnknownNoop | opengl/texture.py:65-75 | a release of a texture no entry holds changes nothing and destroys nothing |
| Texture.DeleteOwner | opengl/texture.py:68-74 | an owner's release removes the entry and destroys the texture exactly when it held the last reference; otherwise count and owners drop by that one owner |
| Texture.ReleaseNext | opengl/texture.py:68-74 | the n-th owner's release, after the earlier owners released, leaves the later owners, or removes the entry at the last one |
| Texture.ReleaseInOrder | opengl/texture.py:60-75 | releasing the owners one by one in the order they acquired the texture keeps the entry, with the remaining owners, until the last release removes it |
| Texture.LastReleaseDestroys | opengl/texture.py:72-74 | the last of those releases destroys the texture |
| Texture.DestroysSingle | opengl/texture.py:72-74 | a release by the single owner of a first holder destroys its texture |
| Texture.ReuseAddsReference | opengl/texture.py:47-58 | a key added once and then reused by a second owner holds one texture with two references and both owners |
| Texture.RefreshAll | opengl/texture.py:77-90 | the user map after `refresh`; its properties are RefreshEntry, RefreshIdempotent and RefreshKeepsValid |
| Texture.RefreshSkipsGenerated | opengl/texture.py:82-83 | a generated texture (filedate 0) is never reloaded |
| Texture.RefreshEntry | opengl/texture.py:83-88 | an entry whose file is missing or not newer is kept; a stale one takes the file's newer mtime |
| Texture.RefreshIdempotent | opengl/texture.py:77-90 | a second refresh with unchanged files changes neither the entries nor the GPU storage |
| Texture.NothingStale | opengl/texture.py:83-88 | with no stale entry the refresh loop leaves the GPU storage as it was |
| Texture.RefreshSeqIsSome | opengl/texture.py:81-88 | the loop over distinct keys refreshes exactly the keys visited and keeps the key set |
| Texture.RefreshSeqAll | opengl/texture.py:81-88 | visiting every key is the refresh of the whole map |
| Texture.RefreshStep | opengl/texture.py:81-88 | when the loop reaches a key, its entry is still the original one |
| Texture.RefreshKeepsValid | opengl/texture.py:77-90 | the refreshed map keeps the cache invariant and the loaders |
| Texture.QtLib.constructor | opengl/texture.py:188 | no texture object has storage yet |
| Texture.QtLib.NewTexture | opengl/texture.py:188 | a new texture object, distinct from all earlier ones, without storage |
| Texture.QtLib.Create | opengl/texture.py:195-196 | the object's storage holds the image; nothing else changes |
| Texture.QtLib.Destroy | opengl/texture.py:203 | the object's storage is freed; nothing else changes |
| Texture.TextureRepo.constructor | opengl/texture.py:25-28 | both pools are empty |
| Texture.TextureRepo.AddSys | opengl/texture.py:44-45 | the system pool maps the path to the texture, replacing an earlier one; the user map is untouched |
| Texture.TextureRepo.AddUser | opengl/texture.py:47-49 | a new entry with one reference and its owner is added only for an absent key; an existing key is kept as it is |
| Texture.TextureRepo.Exists | opengl/texture.py:51-53 | the texture of a user entry exactly when the key is present; the system pool is never consulted |
| Texture.TextureRepo.Inc | opengl/texture.py:55-58 | a present key gains one reference and one owner; an absent key changes nothing |
| Texture.TextureRepo.Delete | opengl/texture.py:60-75 | the user map becomes the `delete` result and the GPU storage loses exactly the texture destroyed |
| Texture.TextureRepo.ReleaseAt | opengl/texture.py:68-75 | the release once the first holder is found |
| Texture.TextureRepo.FindHolder | opengl/texture.py:65-68 | the search loop finds the first entry holding the texture |
| Texture.TextureRepo.Refresh | opengl/texture.py:77-90 | every stale file-backed entry is reloaded through its loader and takes the new mtime; the keys, the system pool and the other entries are unchanged |
| Texture.TextureRepo.ReloadEntry | opengl/texture.py:83-88 | one turn of the refresh loop: a stale entry's loader re-reads the file into its texture |
| Texture.TextureRepo.Cleanup | opengl/texture.py:92-106 | every user texture is destroyed and the user map emptied; the system textures are destroyed only for "system" |
| Texture.TextureRepo.DestroyUserTextures | opengl/texture.py:97-99 | the GPU storage loses exactly the user textures |
| Texture.TextureRepo.DestroySystemTextures | opengl/texture.py:103-106 | the GPU storage loses exactly the system textures |
| Texture.MHTexture.constructor | opengl/texture.py:183-188 | a handle with a fresh texture object of its own and nothing bound |
| Texture.MHTexture.GetTexture | opengl/material.py:361 | the bound texture, None while nothing is bound |
| Texture.MHTexture.Destroy | opengl/texture.py:202-203 | the handle's texture object loses its storage |
| Texture.MHTexture.Delete | opengl/texture.py:205-207 | a "user" handle releases its reference in the cache; other handles change nothing |
| Texture.MHTexture.Unicolor | opengl/texture.py:209-225 | a short colour raises IndexError; a cached colour key is reused with one more reference; otherwise the colour image is stored in the handle's own texture and registered in the system pool or as a user entry with filedate 0 |
| Texture.MHTexture.Load | opengl/texture.py:227-252 | a cached user file is reused, with a reference only when `modify` holds; a missing file returns None and changes nothing; otherwise the file is stored and registered with its mtime and the handle as its loader |
| Texture.MHTexture.Refresh | opengl/texture.py:254-259 | the handle's own texture is re-created from the image now at the path |
| MatFile.Initial | opengl/material.py:16-58 | the state after construction: no maps, no tags, name and description unset, the "phong" shader, coloration off, no roughness line seen |
| MatFile.Clamp | opengl/material.py:172 | `max(lo, min(hi, x))` lies in [lo, hi] and leaves values inside unchanged |
| MatFile.FirstFile | opengl/material.py:60-105 | None exactly when no candidate exists; otherwise the earliest candidate that exists |
| MatFile.IsExistent | opengl/material.py:60-105 | `isExistent`; IsExistentIsFirstFile proves it is the first existing candidate in order |
| MatFile.IsExistentIsFirstFile | opengl/material.py:60-105 | `isExistent` returns the first existing file among its candidate places, in order: the material directory, the directory without "/materials", the name without its first segment, the system asset root, the user asset root |
| MatFile.FromRootsIsFirstFile | opengl/material.py:89-101 | the last two tries are the system and then the user asset root |
| MatFile.FirstFileConcat | opengl/material.py:60-105 | the search over two candidate lists is the search over the first, then the second |
| MatFile.ResolvesInMatDir | opengl/material.py:64-66 | a file found under the material's own directory is what `isExistent` returns |
| MatFile.SliceFrom | opengl/material.py:225 | a slice `s[n:]` is a suffix of `s` |
| MatFile.TextureRelName | opengl/material.py:216-242 | `textureRelName`: relative to the material directory, else type, asset folder and base name under a user or system root, else the base name; RelNameResolvesBack proves the round trip for the first case |
| MatFile.RelNameResolvesBack | opengl/material.py:216-242 | a texture under the material directory is saved by its name relative to that directory, and that name resolves back to the same file |
| MatFile.ParseFloats | opengl/material.py:167 | the comprehension `[float(w) …]` gives one number per word or fails |
| MatFile.ColorationValue | opengl/material.py:155-162 | the coloration method read is never above 2 |
| MatFile.KeyOf | opengl/material.py:132-198 | a line's first word selects the branch of its key list |
| MatFile.ParseWords | opengl/material.py:132-198 | one branch of the line parser; stated by the per-key lemmas TextureLine, BoolLine, ColorationLine, UnitLine, AomapLine, IntensityLine and UnknownKey |
| MatFile.ParseLine | opengl/material.py:121-198 | one line of the loop; SkippedLine and LineAddsTags state it |
| MatFile.ParseLines | opengl/material.py:121-198 | the line loop stopping at the first exception; ParseLinesConcat and ParseLinesTags state it |
| MatFile.Rebind | opengl/material.py:183-185 | only a `shaderParam litsphereTexture` line rebinds the parameter `path`, to the looked-up litsphere file or None |
| MatFile.PathAfter | opengl/material.py:121-198 | the parameter `path` after the lines the loop got through |
| MatFile.PathAfterConcat | opengl/material.py:121-198 | once a line raises `path` no longer changes; otherwise it follows the later lines |
| MatFile.PathKeptWithoutLitsphere | opengl/material.py:107-198 | without a litsphere line `path` stays the material file |
| MatFile.LitsphereRebinds | opengl/material.py:183-185 | a litsphere line the loop reaches rebinds `path` to the file it looks up, whatever it was |
| MatFile.Finish | opengl/material.py:200-211 | the roughness rule, then TypeError exactly when no name was read and `path` was rebound to None; otherwise the name (defaulting to the base name of `path` as the lines left it), the description, and a "litsphere" shader only with its litsphere texture; maps, tags and colours are kept |
| MatFile.SkippedLine | opengl/material.py:121-127 | blank lines and lines whose first word is "#" or "//" change nothing |
| MatFile.UnknownKey | opengl/material.py:132-198 | a line with a key the parser does not know changes nothing |
| MatFile.TextureLine | opengl/material.py:132-135 | a texture line stores the resolved path, and only when the name resolves |
| MatFile.LineWords | opengl/material.py:121-125 | a "key value" line is parsed by its key's branch on its two words |
| MatFile.BoolLine | opengl/material.py:152-153 | a boolean key is true exactly for "yes", "enabled" or "true" in any letter case |
| MatFile.ColorationLine | opengl/material.py:155-162 | `colorationMethod` keeps an integer up to 2; a non-integer or anything above 2 becomes 0 |
| MatFile.UnitLine | opengl/material.py:171-174 | an intensity or factor line stores its value clamped into [0, 1] |
| MatFile.UnitWords | opengl/material.py:171-174 | the same on the words of the line |
| MatFile.AomapLine | opengl/material.py:178-179 | `aomapIntensity` is clamped into [0, 2] |
| MatFile.IntensityLine | opengl/material.py:171-179 | each intensity key sets its own field only; `roughnessFactor` also records that it was found |
| MatFile.LineAddsTags | opengl/material.py:139-140 | only a tag line touches the tags, and it appends the lower-cased rest of the line |
| MatFile.ParseLinesTags | opengl/material.py:121-140 | the tags after a load are the earlier tags followed by those of the file's tag lines, in order |
| MatFile.ParseLinesConcat | opengl/material.py:121-198 | the line loop stops at the first exception and keeps what the earlier lines set |
| MatSave.Rounded | opengl/material.py:244-246 | rounding keeps the number of components |
| MatSave.MatLines | opengl/material.py:308-327 | the lines `saveMatFile` writes; BlocksFollowMaps and SaveLoadRoundTrip state them |
| MatSave.MatText | opengl/material.py:308-327 | those lines joined by newlines; TextSplitsIntoLines splits it back |
| MatSave.BlocksFollowMaps | opengl/material.py:258-300 | the saved text names each texture map that is set behind its key, always writes the occlusion intensity, and has the coloration lines exactly when a method is set |
| MatSave.TextSplitsIntoLines | opengl/material.py:308-327 | reading the saved text line by line gives the lines it was built from |
| MatSave.SaveLoadRoundTrip | opengl/material.py:248-331 | for a material whose saved floats each read back, loading the saved text raises nothing and restores its name, description, colours, factors, flags, shader, the intensities of the maps written and the coloration when on |
| MatSave.SkinMaterialSavable | opengl/material.py:16-58 | the default material, named, with 0.0, 0.5 and 1.0 printed as Python prints them, meets the round trip's conditions |
| MatSave.SkinMaterialRoundTrip | opengl/material.py:248-331 | that material, saved and loaded again, reloads without an exception to its own attributes |
| MatSave.HeadRoundTrip | opengl/material.py:308-321 | the first lines reload identity, colours, factors and flags, when those floats read back |
| MatSave.IdentRoundTrip | opengl/material.py:308-310 | the header, name and description lines reload name and description |
| MatSave.ColorsRoundTrip | opengl/material.py:312-315 | the four colour lines reload the four colours, when their components read back |
| MatSave.ColorsChain | opengl/material.py:312-315 | each colour line reloads its colour from the state the previous one left, when its components read back |
| MatSave.ColorPair | opengl/material.py:312-315 | two colour lines in a row reload both colours, when their components read back |
| MatSave.FactorsRoundTrip | opengl/material.py:316-318 | the factor lines reload metallic and roughness factors, when those two floats read back |
| MatSave.FlagsRoundTrip | opengl/material.py:319-321 | the flag lines reload the three flags |
| MatSave.BlocksRoundTrip | opengl/material.py:258-300 | the map and coloration blocks reload the intensities and the coloration, raising nothing, when the floats written read back |
| MatSave.MapLineRoundTrip | opengl/material.py:258-284 | a map line changes nothing but the maps |
| MatSave.NormalRoundTrip | opengl/material.py:263-267 | the normal block reloads its intensity when the map is set and the intensity reads back |
| MatSave.OcclusionRoundTrip | opengl/material.py:269-273 | the occlusion block always reloads its intensity, when it reads back |
| MatSave.EmissiveRoundTrip | opengl/material.py:280-284 | the emissive block reloads its factor when the map is set and the factor reads back |
| MatSave.ColorationRoundTrip | opengl/material.py:295-300 | the coloration block reloads method and colour when a method is set and the colour's components read back |
| MatSave.TailRoundTrip | opengl/material.py:286-293 | the shader and litsphere lines reload the shader |
| MatSave.ParseLinesChain | opengl/material.py:121-198 | lines that each parse from the state the previous one left parse together without an exception |
| MatSave.Chain2 | opengl/material.py:121-198 | the same for two lines |
| MatSave.HeaderLine | opengl/material.py:308 | the "# …" header line is skipped |
| MatSave.NameLine | opengl/material.py:309 | a saved name reads back as the same name |
| MatSave.DescriptionLine | opengl/material.py:310 | a saved description reads back as the same description |
| MatSave.ColorTextWords | opengl/material.py:312 | a colour whose components print as tokens is three words |
| MatSave.ColorFloats | opengl/material.py:167 | the three printed components read back to the colour when each reads back |
| MatSave.ColorWordsLine | opengl/material.py:166-167 | a colour key with three printed components, each reading back, sets that colour |
| MatSave.ColorLine | opengl/material.py:312-315 | a saved colour line reloads that colour when its components read back |
| MatSave.ColorationColorLine | opengl/material.py:298 | the coloration colour line, with its two spaces, reloads the colour when its components read back |
| MatSave.FactorLine | opengl/material.py:171-172 | a saved factor in [0, 1] whose printed token reads back is set unchanged |
| MatSave.AomapLine | opengl/material.py:178-179 | a saved occlusion intensity in [0, 2] whose printed token reads back is set unchanged |
| MatSave.BoolSaved | opengl/material.py:319-321 | `str(b)` of a flag reads back as the same flag |
| MatSave.MapSaved | opengl/material.py:132-135 | a saved map line changes nothing but the maps |
| MatSave.ModeLine | opengl/material.py:297 | a saved coloration method up to 2 reads back unchanged |
| MatSave.ShaderLine | opengl/material.py:144-148 | a one-word shader without "/" reads back unchanged |
| MatSave.LitsphereSaved | opengl/material.py:289 | the saved litsphere line changes nothing but the maps, and rebinds `path` to the litsphere file of that name |
| MatSave.LitsphereWords | opengl/material.py:183-187 | a `shaderParam litsphereTexture` line changes nothing but the maps, and rebinds `path` to the litsphere file it looks up |
| Material.Material.constructor | opengl/material.py:16-24 | the initial attributes and no handles |
| Material.Material.MapChanged | opengl/material.py:399-404 | `mapChanged`: the attribute is set and names what the slot already holds; used by the Load methods' reuse branches |
| Material.Material.ColorChanged | opengl/material.py:406-412 | `colorChanged`: the slot already holds the generated texture of the colour; a short colour raises IndexError |
| Material.Material.FreeTexture | opengl/material.py:525-552 | the slot's handle, if any, releases its reference and the slot is emptied; nothing else changes |
| Material.Material.FreeTextures | opengl/material.py:554-565 | the handles release their references in the order diffuse (except for "system"), litsphere, occlusion, metallic-roughness, normal, emissive |
| Material.Material.ReleaseEach | opengl/material.py:563-565 | the loop releases the handles of the set slots in order |
| Material.Material.ReleaseSlot | opengl/material.py:564-565 | one turn of that loop |
| Material.Material.BindFile | opengl/material.py:447-448 | the slot gets a new handle bound to the file its attribute names, as `load` binds it; the other slots are kept |
| Material.Material.BindColor | opengl/material.py:436-437 | the slot gets a new handle bound to the generated colour, as `unicolor` binds it |
| Material.Material.LoadNOMap | opengl/material.py:441-450 | an unchanged map is reused with no cache traffic; otherwise the old handle is released and the file bound, or `nocolor` returned when there is none |
| Material.Material.LoadMRMap | opengl/material.py:473-482 | the same, with `white` as fallback |
| Material.Material.LoadLitSphere | opengl/material.py:414-420 | an unchanged litsphere is reused; otherwise it is released and rebound, and a material without one raises AttributeError |
| Material.Material.LoadAOMap | opengl/material.py:422-439 | an unchanged map or colour is reused; otherwise a map file is bound, else the ambient colour's generated texture |
| Material.Material.LoadEMMap | opengl/material.py:452-471 | an unchanged map or colour is reused; otherwise a map file, else a non-black emissive colour, else `nocolor` with the slot emptied |
| Material.Material.LoadDiffuse | opengl/material.py:498-516 | an unchanged map or colour is reused; otherwise the diffuse file, else the diffuse colour's generated texture |
| Material.Material.SetDiffuse | opengl/material.py:485-496 | no name returns the alternative and changes nothing; otherwise the file is bound as diffuse texture with the material's type, returning the texture or the alternative |
| Material.Material.UniColor | opengl/material.py:394-397 | the diffuse slot is released and rebound to the generated texture of the colour |
| Material.Material.Colorate | opengl/material.py:357-376 | nothing happens without a diffuse map, or when the handle has no name, or with colour and method as last applied; a diffuse map without a bound handle raises AttributeError and changes nothing; otherwise the file is reloaded, the method 1 or 2 transform applied, and the colour and method recorded |
| Material.Material.LoadMatFile | opengl/material.py:107-214 | an unopenable file sets `last_error` and returns False; otherwise the lines are applied in order, an exception ends the load with what the earlier lines set, and a complete load applies the final rules with `path` as the litsphere lines rebound it: TypeError when it became None and no name was read, else True |
| Material.Material.RoundColor | opengl/material.py:244-246 | every component is rounded to four decimals |
| Material.Material.SaveMatFile | opengl/material.py:248-331 | the colours are rounded; a short coloration colour raises before the file is opened; an unwritable file sets `last_error` and returns False; otherwise the file holds the material text, or stays empty when a colour is too short |
| FileHelper.HasThumb | core/filehelper.py:17-22 | the `.thumb` next to the file, exactly when it exists |
| FileHelper.ThumbOfThumb | core/filehelper.py:17-22 | the thumbnail of a thumbnail file is that file itself |
| FileHelper.AsciiLower | core/filehelper.py:57-58 | the stored text is ASCII without capitals |
| FileHelper.Scan | core/filehelper.py:40-58 | a `for line in fp` loop with `break`; ScanStopsAt, ScanKeeps and ScanLast state it |
| FileHelper.ScanStopsAt | core/filehelper.py:40-58 | nothing after a line that always breaks the loop is read |
| FileHelper.ScanKeeps | core/filehelper.py:40-58 | a variable no later line changes keeps its value |
| FileHelper.ScanLast | core/filehelper.py:40-58 | the last line that sets a variable decides it when no earlier line breaks |
| FileHelper.CloStep | core/filehelper.py:40-58 | one header line: a numeric first word breaks; name, uuid and obj_file take the second word; an "author…" second word sets the author; a tag line appends a folded tag |
| FileHelper.GetCacheDataMHCLO | core/filehelper.py:24-62 | an unopenable file raises OSError; otherwise the entry of the header scan with the defaults, the path, the folder and the thumbnail |
| FileHelper.CloStopsAtNumeric | core/filehelper.py:44-45 | the scan reads nothing from the first numeric line on |
| FileHelper.CloLastWins | core/filehelper.py:47-52 | name, uuid and obj_file take the second word of their last line in the header |
| FileHelper.CloAuthorOrigin | core/filehelper.py:53-55 | the author is "unknown" or the words after some line's "author…" second word |
| FileHelper.CloStepFolded | core/filehelper.py:57-58 | one header line keeps every tag folded |
| FileHelper.CloTagsFolded | core/filehelper.py:40-58 | every tag collected is ASCII without capitals |
| FileHelper.BvhStep | core/filehelper.py:99-110 | one meta line never breaks; a name line sets the folded words joined by "_"; a tag line appends a folded tag |
| FileHelper.GetCacheDataBVH | core/filehelper.py:83-113 | the uuid is "bvh_" and the file's base name; without a `.meta` file the defaults; an unopenable one raises OSError; otherwise the meta scan |
| FileHelper.BvhLastName | core/filehelper.py:105-106 | the last name line of the meta file names the motion |
| FileHelper.ExtTail | core/filehelper.py:131 | `extension[3:]` is the extension after its first three characters |
| FileHelper.GetOrDefault | core/filehelper.py:129-134 | a dict's value under the key, or the default |
| FileHelper.JsonEntry | core/filehelper.py:128-135 | the uuid is the extension tail, "_" and the name; path, folder and thumbnail are kept; the tags are folded; a non-container raises TypeError |
| FileHelper.JsonName | core/filehelper.py:129-130 | a dict without "name" is named by its path without extension, otherwise by its "name" |
| FileHelper.JsonEntryOfDict | core/filehelper.py:128-135 | a dict with a str name and str tags gives an entry with its author (default "unknown") and its tags joined by "\|" and folded |
| FileHelper.CacheDataJSONAsWritten | core/filehelper.py:116-135 | a file that cannot be read or holds `null` (both load as None) raises AttributeError; any other gives its entry, or the exception building it raises |
| FileHelper.CacheDataJSON | core/filehelper.py:116-135 | None exactly when the file loads as None (unreadable or `null`); otherwise the entry, or the exception building it raises |
| FileHelper.JsonFinding | core/filehelper.py:124-127 | the two agree on every file that loads to something other than None and differ exactly on the others |
| FileHelper.JsonNullFile | core/filehelper.py:124-127 | a file holding `null` passes `json is None`: AttributeError as written, None as intended |
| FileHelper.MhmStepAsWritten | core/filehelper.py:152-167 | one model line as written: modifier lines break; a name line sets the name; a line containing "tags" that is no author or uuid line replaces the tags, a name line included; others keep them |
| FileHelper.MhmStep | core/filehelper.py:152-167 | one model line: modifier lines break; a name line sets the name and nothing else; a tags line replaces the tags; others keep them |
| FileHelper.MhmNameLineSetsTags | core/filehelper.py:160-167 | a name line containing "tags" also replaces the tags as written, never with an empty list, but not in the corrected step |
| FileHelper.GetCacheDataMHM | core/filehelper.py:138-175 | an unopenable file raises OSError; otherwise the entry of the header scan with the name test apart from the `elif` chain, as written |
| FileHelper.MhmStopsAtModifier | core/filehelper.py:154-155 | nothing from the first modifier line on is read |
| FileHelper.MhmNameFallback | core/filehelper.py:169-170 | without a name line the model is named by its file's base name without extension |
| FileHelper.MhmLastTags | core/filehelper.py:158-167 | as written, the last line that sets the tags decides them, a name line containing "tags" being one |
| FileHelper.MhmLastTagsIntended | core/filehelper.py:158-167 | with the corrected step the last tags line proper decides the tags, whatever name lines follow |
| FileHelper.MhmScansAgree | core/filehelper.py:158-167 | the code as written and the corrected step scan a file alike unless a name line contains "tags" |
| PrefWindow.Pad | gui/prefwindow.py:81-82 | the list keeps its entries and is padded with "" to three or more |
| PrefWindow.LocalEntry | gui/prefwindow.py:75-83 | a string binding becomes [s, "", ""]; a list keeps its keys, padded to three |
| PrefWindow.GenLocalKeys | gui/prefwindow.py:69-85 | exactly the string and list bindings get an entry, each its padded form |
| PrefWindow.Bound | gui/prefwindow.py:93-96 | the non-empty entries, and only those |
| PrefWindow.NewEntry | gui/prefwindow.py:97-101 | one key becomes a string, several a list |
| PrefWindow.GenNewKeyDict | gui/prefwindow.py:87-103 | exactly the features with a non-empty entry are kept, each compacted |
| PrefWindow.BoundOfBound | gui/prefwindow.py:93-96 | a list without "" compacts to itself |
| PrefWindow.BoundOfPadding | gui/prefwindow.py:81-82 | padding adds nothing the compaction keeps |
| PrefWindow.BoundOfUnbounds | gui/prefwindow.py:93-96 | a list of "" compacts to nothing |
| PrefWindow.BoundOfPad | gui/prefwindow.py:81-96 | padding then compacting a list is compacting it |
| PrefWindow.EntryRoundTrip | gui/prefwindow.py:69-103 | a non-empty string, or a list of two or more non-empty keys, survives padding and compacting unchanged |
| PrefWindow.KeyDictRoundTrip | gui/prefwindow.py:69-103 | opening the window and saving without edits gives back a dictionary of such bindings unchanged |
| PrefWindow.SingletonListBecomesString | gui/prefwindow.py:97-99 | a one-key list comes back as that key alone |
| PrefWindow.NewKeyDictBindings | gui/prefwindow.py:87-103 | a feature with all entries cleared disappears; one with a key keeps a binding holding it |
| PrefWindow.PortAcceptedAsWritten | gui/prefwindow.py:337 | the check as written: a port is refused when below 1024 or above 49152 |
| PrefWindow.PortAccepted | gui/prefwindow.py:205 | the range the tooltip and message state: 1024 to 49151 |
| PrefWindow.PortFinding | gui/prefwindow.py:336-339 | the check as written lets exactly one port outside 1024 to 49151 through: 49152 |
| PrefWindow.HomePath | gui/prefwindow.py:290-298 | the normalised entry when it is not the installation path and has three characters or more, else the previous home |
| PrefWindow.HomePathStaysAcceptable | gui/prefwindow.py:290-298 | an acceptable previous home stays acceptable after the check |
| PrefWindow.MHPrefWindow.constructor | gui/prefwindow.py:33-34 | the window's copy is the padded key dictionary and the old home is remembered |
| PrefWindow.MHPrefWindow.ChangeKey | gui/prefwindow.py:300-308 | no row or no key column changes nothing; an unknown feature raises KeyError, a column past its list IndexError; otherwise exactly that column of that feature is bound |
| PrefWindow.MHPrefWindow.DeleteKey | gui/prefwindow.py:310-317 | the same guards; otherwise exactly that column is cleared to "" |
| PrefWindow.MHPrefWindow.Cancel | gui/prefwindow.py:319-322 | the copy is rebuilt from the application's dictionary |
| PrefWindow.MHPrefWindow.TestHomePath | gui/prefwindow.py:290-298 | the field holds the checked home path |
| PrefWindow.MHPrefWindow.Save | gui/prefwindow.py:333-343 | the compacted keys replace the dictionary; a non-integer port raises ValueError; a port below 1024 or above 49152 leaves the configuration; else keys, port and host are stored, 49152 included |
| Downloads.Append | gui/downloads.py:161-163 | `text +=` grows a str by the suffix and a list by its characters, and raises for any other value |
| Downloads.PackText | gui/downloads.py:156-163 | a pack that is not a container raises TypeError |
| Downloads.PackTextOfDict | gui/downloads.py:156-163 | a dict pack shows its description or key, then its license, then its size in mb, each only when present |
| Downloads.Form | gui/downloads.py:151-165 | without an exception one url per text; an exception leaves at most one text more than urls; never more texts than packs |
| Downloads.FormStep | gui/downloads.py:155-165 | a turn adds at most one text, and its url unless reading it raised |
| Downloads.FormStops | gui/downloads.py:154-165 | once a pack raises, the packs after it are not looked at |
| Downloads.FormUrls | gui/downloads.py:151-165 | for dict packs the urls are those of the packs with a url, in order |
| Downloads.ParentAsset | gui/downloads.py:336-369 | an unassigned belonging gives the user-data path, not found; a found path has no error; an error means no path; eyes share one directory per base mesh |
| Downloads.CoreParent | gui/downloads.py:346-360 | only a str "type/folder" unpacks; found means a path and no error, not found an error message and no path; eyes ignore the folder |
| Downloads.DefaultListed | gui/downloads.py:143-149 | the state `defaultList` leaves: the default texts, then KeyError with the old urls or the two file-server urls |
| Downloads.FormListed | gui/downloads.py:151-165 | the state `formList` leaves: both lists emptied, then AttributeError for a non-dict or what the pack loop forms |
| Downloads.PackListed | gui/downloads.py:167-172 | the state `getAssetPackList` leaves for each outcome of reading the list file: the default list when it loads as None (unreadable or `null`), `in` or `[]` raising on a non-dict, the packs otherwise |
| Downloads.NullListIsDefault | gui/downloads.py:169-172 | a list file holding `null` fails `is not None` and leaves exactly the default list, as an unreadable one does |
| Downloads.PackListAligned | gui/downloads.py:151-172 | a pack list read without an exception has one url per text |
| Downloads.DownLoadImport.constructor | gui/downloads.py:28-37 | no job, no error, no asset lists, no packs |
| Downloads.DownLoadImport.DefaultList | gui/downloads.py:143-149 | the texts are set first; a missing release key raises KeyError with the old urls; otherwise the two standard packs' urls on the file server |
| Downloads.DownLoadImport.FormList | gui/downloads.py:151-165 | both lists are emptied; a non-dict then raises AttributeError; otherwise texts and urls are those the pack loop forms |
| Downloads.DownLoadImport.GetAssetPackList | gui/downloads.py:167-172 | the list file's packs when it loads to something other than None and has "packs", else the default list; an `in` or `[]` that raises leaves both lists; texts, urls and result are stated in every case |
| Downloads.DownLoadImport.ExtractZip | gui/downloads.py:215-228 | an unzip job starts exactly when the name ends in ".zip" and no job runs |
| Downloads.DownLoadImport.DownLoad | gui/downloads.py:267-284 | a download starts exactly for an ftp, http or https url when no job runs, named after the url's last part in the temporary directory |
| Downloads.DownLoadImport.ListDownLoad | gui/downloads.py:297-305 | a list download starts exactly when no job runs, and forgets the asset list |
| Downloads.DownLoadImport.StartFilesDownload | gui/downloads.py:430-436 | a files download starts exactly when no job runs |
| Downloads.DownLoadImport.FinishUnzip | gui/downloads.py:202-213 | the job is forgotten; AttributeError exactly when there was none |
| Downloads.DownLoadImport.FinishLoad | gui/downloads.py:238-246 | the job is forgotten; AttributeError exactly when there was none and no error text |
| Downloads.DownLoadImport.FinishListLoad | gui/downloads.py:248-264 | AttributeError with no job and no error text, leaving lists and list file; otherwise the job is forgotten and the pack list read again as `getAssetPackList` reads it |
| Pynsist.Stop | build/build.py:12-14 | an exit or exception is passed on unchanged |
| Pynsist.Lift | build/build.py:33-99 | an exception of Python code ends the run with that exception |
| Pynsist.ReadJson | build/build.py:16-27 | the parsed file; exit 1 when it cannot be opened, 2 when it is no JSON |
| Pynsist.Check | build/build.py:36-37 | exit with the code and message exactly when the key is missing |
| Pynsist.Require | build/build.py:36-38 | the value under the key; exit exactly when it is missing |
| Pynsist.Then | build/build.py:56 | `outtext +=`: both texts in order, or the first exit or exception |
| Pynsist.EmitStops | build/build.py:52-98 | once an item ends the run, later items are not looked at |
| Pynsist.EmitSnoc | build/build.py:52-98 | one more item appends its text or ends the run |
| Pynsist.EmitOk | build/build.py:52-98 | a text is produced exactly when every item emits |
| Pynsist.EmitFirstFailure | build/build.py:52-98 | the first item that does not emit decides how the run ends |
| Pynsist.Emit3 | build/build.py:83-86 | a loop over three items appends their texts in order |
| Pynsist.StrLine | build/build.py:79 | `item=value` for a str value; anything else raises TypeError |
| Pynsist.MhLine | build/build.py:63-76 | the line from the makehuman configuration's key; exit 4 when it is missing |
| Pynsist.StrAll | build/build.py:71 | `str` of every version number, in order |
| Pynsist.VersionLine | build/build.py:68-71 | the version numbers joined by "."; exit 4 when missing |
| Pynsist.VersionOfInts | build/build.py:71 | a list of integers written as a version splits back into those integers |
| Pynsist.PythonItem | build/build.py:84-86 | `item=str(value)`; exit 4 when missing |
| Pynsist.PythonText | build/build.py:81-86 | the Python section is its version, bitness and format lines in that order |
| Pynsist.EmitPython | build/build.py:83-86 | the loop emits those lines |
| Pynsist.Lines | build/build.py:93-98 | iterating a value: its items' lines, or the exception of iterating it |
| Pynsist.WheelLine | build/build.py:94 | `name==version` for str name and version |
| Pynsist.IncludeItem | build/build.py:90-98 | nothing for packages; the wheels after "pypi_wheels= "; the files after "\nfiles= " |
| Pynsist.IncludeNeverExits | build/build.py:88-98 | the Include section can raise but never exits |
| Pynsist.EmitNeverExits | build/build.py:88-98 | items that never exit make a loop that never exits |
| Pynsist.EmitLines | build/build.py:93-98 | the loop emits the items' lines |
| Pynsist.EmitInclude | build/build.py:90-98 | the loop emits the Include items |
| Pynsist.Section | build/build.py:53-56 | exit 3 when the category is missing; else its header and its body |
| Pynsist.AppItem | build/build.py:59-79 | exit 4 for an unlisted item; name, version and publisher from the makehuman configuration; the others from the listed value |
| Pynsist.ApplicationRequired | build/build.py:57-79 | a complete Application section lists all five items, and the configuration has a str name and copyright and an iterable version |
| Pynsist.ApplicationMissing | build/build.py:60-61 | the first unlisted item exits with 4 |
| Pynsist.EmitApplication | build/build.py:59-79 | the loop emits the Application items |
| Pynsist.SectionOrder | build/build.py:52-98 | a complete configuration is the Application, Python and Include sections, in that order, each behind its header |
| Pynsist.MissingCategory | build/build.py:53-54 | the first missing category exits with 3 |
| Pynsist.EmitBody | build/build.py:57-98 | each category's items are emitted by its own loop |
| Pynsist.EmitSection | build/build.py:53-98 | one section: exit 3, or its header then its items |
| Pynsist.EmitSections | build/build.py:51-99 | the category loop emits the sections |
| Pynsist.EmitCategories | build/build.py:52-98 | the sections of the listed categories, up to the first that does not emit |
| Build.FileLine | build/build.py:97-98 | each file on a line of its own; a non-str raises TypeError |
| Build.Evaluate | build/build.py:33-99 | `evaluatePynsistCfg`; TopLevelExits and EvaluateOk state its exits and its text |
| Build.TopLevelExits | build/build.py:33-47 | exit 3 for a missing "pynsistfile" or "mhconfigfile", then the reading of the makehuman configuration, then exit 4 for a missing "pynsist" |
| Build.EvaluateOk | build/build.py:33-99 | a text is produced exactly when both files are read, the keys are present and the sections emit; it is the sections' text |
| Build.WinBuilder.constructor | build/build.py:9-10 | the configuration path, no pynsist file name yet |
| Build.WinBuilder.EvaluatePynsistCfg | build/build.py:33-99 | the result of the evaluation; the pynsist file name is recorded once it is read |
| WinBuild.CopiedLine | build/winbuild.py:131-139 | the file is copied into the pynsist directory under its base name and the line names the copy; a failed copy exits with 2 |
| WinBuild.RepoFile | build/winbuild.py:160-164 | "_REPODIR_" stands for the repository name; other str files as they are |
| WinBuild.Evaluate | build/winbuild.py:70-165 | `evaluatePynsistCfg`; TopLevelExits and ConfiguredWhenOk state it |
| WinBuild.Configure | build/winbuild.py:75-100 | the fields after the evaluation, each set when its step is reached |
| WinBuild.EmitRest | build/winbuild.py:93-165 | the loop emits the configuration after the paths are known |
| WinBuild.TopLevelExits | build/winbuild.py:70-100 | the exits in the order of the checks: "pynsistfile", "pynsistdir", "reponame", "mhconfigfile", the reading of the makehuman configuration, "pynsist" |
| WinBuild.ConfiguredWhenOk | build/winbuild.py:75-91 | a run that produces a text has set the pynsist directory under tmp, the repository under it, and the ignore lists from the configuration where given |
| WinBuild.Mkdir | build/winbuild.py:43-52 | an existing directory is left alone; a file in its place exits with 2; otherwise the directory is created or the refusal exits with 2 |
| WinBuild.MkdirIdempotent | build/winbuild.py:43-52 | making the same directory again changes nothing |
| WinBuild.Ignored | build/winbuild.py:181-184 | a name is skipped exactly when some pattern matches it; a non-str pattern raises |
| WinBuild.Kept | build/winbuild.py:179-197 | the entries one directory keeps; KeptExactly and KeptStops state it |
| WinBuild.KeptExactly | build/winbuild.py:179-197 | with str patterns exactly the entries no pattern matches are kept |
| WinBuild.DontCreate | build/winbuild.py:181-184 | the pattern loop decides the skip |
| WinBuild.Select | build/winbuild.py:179-197 | the entry loop keeps the entries the skip test lets through |
| WinBuild.KeptStops | build/winbuild.py:179-197 | once an entry raises, later entries are not looked at |
| WinBuild.WinBuilder.constructor | build/winbuild.py:14-22 | temporary directory and configuration path; no paths; empty ignore lists |
| WinBuild.WinBuilder.EvaluatePynsistCfg | build/winbuild.py:70-165 | the result of the evaluation; the fields are set as each step is reached |

## Left out

- `ImageEdit` pixel transforms (`multColor`, `greyToColor`, `modifyToConstantHue`, `noColor`) are taken as an uninterpreted tint of the image: pixel arithmetic on floating point.
- Python floats (`float()`, `str(float)`, `round(x, 4)`) and the QColor packing (`QColor.fromRgbF(...).rgb()`) are uninterpreted functions. The save/load round trip is proved for a material each of whose saved floats (the four colours' components, the two factors, the occlusion intensity, the normal intensity and the emissive factor when their maps are set, and the coloration colour when a method is set) prints as one token that `float()` reads back to that float; `SkinMaterialRoundTrip` gives a material and a float printing that meet this.
- `Material.mixColors`, `listAllMaterials`, `saveDiffuse`, `getCurrentMatFilename` and `__str__` are left out: they need numpy, directory listing or image writing, which the handle does not define.
- `MH_Thumb`, `TextureRepo.show`, `getTextures` and `getCacheDataMHBIN` are left out: image scaling, debugging output and binary decoding.
- Python's `isnumeric()`, `isspace()` and `lower()` are taken on ASCII. Unicode categories are not modelled.
- `int()` of text is decimal with an optional sign. Surrounding whitespace and underscores are not modelled.
- The JSON module's decoding is not modelled; JSON errors are kept only as a message. A dict is taken to have distinct keys, as `json.load` builds it. With a duplicate key, `Lookup` takes the first value and `Downloads.Form` visits every occurrence, where Python keeps one entry holding the last value.
- `logLine` calls, `print` and verbose output are left out.
- The worker threads and all their work are left out: the network, the zip and copy helpers, the message boxes, the progress windows and `cleanUp`. Only the starting and finishing of jobs is modelled.
- Downloads.DownLoadImport.StartFilesDownload: models only the final guard of `singleDownLoad`. The asset lookup and the folder creation before it call helpers outside the core.
- Downloads.DownLoadImport.constructor: does not call `getAssetPackList`. The widget set-up is left out, and `GetAssetPackList` is the call that follows.
- Downloads.ParentAsset: a non-str type is taken to raise TypeError in `existDataDir`, and the parent branch's result is not stated further.
- Pynsist.ReadJson: a non-str path and a decoding error other than `JSONDecodeError` are not modelled.
- `createPynsistCfg` (the file write), `cleanexit`'s process exit and `copyRepo`'s `os.walk` and file copies are left out. Only the filter of `copyRepo` is modelled; `re.match` is an uninterpreted predicate.
- WinBuild.Ignored: a str pattern that `re.compile` rejects (such as "*.pyc") raises `re.error` in the source, while the predicate is total, so the model returns a result for it.
- Material.Material.FreeTextures: states the cache after the releases, not the GPU storage that `destroy()` frees for a "system" material.
- Material.Material.SetDiffuse: follows the code, which does not release the old diffuse handle.
- Material.Material.Colorate: `refresh()` is taken to re-read the handle's own key, and the tint is applied to that image.
- The preference widgets, the theme, base-mesh and unit entries, and the configuration writing after the port check in `save_call` are left out: they are widget state.
- PrefWindow.MHPrefWindow.Save: stops after host and port; the theme, base mesh and units stored afterwards are not modelled.
- Texture.MHTexture.Load: `int(os.stat(path).st_mtime)` is the file system's value for the path, and `QImage(path)` of an existing file is the file's image.

## Findings

| source | as written | input that shows it | evidently intended | confidence | as-written member | corrected member |
|---|---|---|---|---|---|---|
| core/filehelper.py:160-167 | the `name` test is a separate `if`, so a name line also reaches the `elif` chain and its "tags" branch | the line "name tags demo" also sets the tags to ["tags demo"] | a name line sets only the name | medium, not executed | FileHelper.MhmStepAsWritten | FileHelper.MhmStep |
| core/filehelper.py:124-127 | an unreadable JSON file calls `self.logLine`, which `FileHelper` does not define | any path `readJSON` cannot read, or a file holding `null`, raises AttributeError | the file is skipped with None | high, not executed | FileHelper.CacheDataJSONAsWritten | FileHelper.CacheDataJSON |
| gui/prefwindow.py:337-338 | ports above 49152 are refused, while the message and the tooltip say the range ends at 49151 | port 49152 is accepted | ports 1024 to 49151 | medium, not executed | PrefWindow.PortAcceptedAsWritten | PrefWindow.PortAccepted |
