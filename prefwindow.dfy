/** The key bindings and the checks of the preferences window. The window edits a padded
    copy of the application's key dictionary and writes a compacted copy back. */
module PrefWindow {
  import opened Wrappers
  import opened Strings
  import opened Environment
  import opened PyJson

  /** The application's key dictionary: feature name to a key string or a list of them
      (any other JSON value can appear, and is dropped by the window). */
  type KeyDict = map<string, Json>

  /** The window's copy: feature name to a list of at least three entries, "" where unbound. */
  type LocalKeys = map<string, seq<Json>>

  const Unbound := JStr("")

  /** The `while len(nitem) < 3: nitem.append("")` loop. */
  function Pad(items: seq<Json>): (r: seq<Json>)
    ensures |r| == if |items| < 3 then 3 else |items|
    ensures r[..|items|] == items
    ensures forall i :: |items| <= i < |r| ==> r[i] == Unbound
    decreases 3 - |items|
  {
    if |items| < 3 then
      var r := Pad(items + [Unbound]);
      assert r[..|items|] == r[..|items| + 1][..|items|];
      r
    else items
  }

  /** The window's entry for one binding: a string s becomes [s, "", ""], a list is copied
      and padded with "" to three entries. */
  function LocalEntry(v: Json): (r: seq<Json>)
    requires v.JStr? || v.JList?
    ensures |r| >= 3
    ensures v.JStr? ==> r == [v, Unbound, Unbound]
    ensures v.JList? ==> |r| >= |v.elems| && r[..|v.elems|] == v.elems
                         && forall i :: |v.elems| <= i < |r| ==> r[i] == Unbound
  {
    if v.JStr? then [v, Unbound, Unbound] else Pad(v.elems)
  }

  /** `genLocalKeys`: every string or list binding gets its window entry; bindings of any
      other type are dropped. */
  function GenLocalKeys(keys: KeyDict): (lk: LocalKeys)
    ensures forall k :: k in lk <==> k in keys && (keys[k].JStr? || keys[k].JList?)
    ensures forall k :: k in lk ==> lk[k] == LocalEntry(keys[k])
  {
    map k | k in keys && (keys[k].JStr? || keys[k].JList?) :: LocalEntry(keys[k])
  }

  /** The entries of a list other than "", in order. */
  function Bound(items: seq<Json>): (r: seq<Json>)
    ensures forall x :: x in r <==> x in items && x != Unbound
    ensures |r| <= |items|
  {
    if items == [] then []
    else (if items[0] != Unbound then [items[0]] else []) + Bound(items[1..])
  }

  /** The compacted binding of a window entry: its one non-empty entry, or a list of them. */
  function NewEntry(items: seq<Json>): (v: Json)
    requires Bound(items) != []
    ensures |Bound(items)| == 1 ==> v == Bound(items)[0]
    ensures |Bound(items)| > 1 ==> v == JList(Bound(items))
  {
    var n := Bound(items);
    if |n| == 1 then n[0] else JList(n)
  }

  /** `genNewKeyDict`: drops the "" entries, and a feature with none left is left out. */
  function GenNewKeyDict(lk: LocalKeys): (kd: KeyDict)
    ensures forall k :: k in kd <==> k in lk && Bound(lk[k]) != []
    ensures forall k :: k in kd ==> kd[k] == NewEntry(lk[k])
  {
    map k | k in lk && Bound(lk[k]) != [] :: NewEntry(lk[k])
  }

  /** A binding that survives the round trip: a non-empty string, or a list of two or more
      entries none of which is "". */
  predicate Compact(v: Json) {
    (v.JStr? && v != Unbound) || (v.JList? && |v.elems| >= 2 && Unbound !in v.elems)
  }

  lemma {:induction false} BoundOfBound(items: seq<Json>)
    requires Unbound !in items
    ensures Bound(items) == items
  {
    if items != [] {
      BoundOfBound(items[1..]);
      assert items == [items[0]] + items[1..];
    }
  }

  lemma {:induction false} BoundOfPadding(items: seq<Json>, n: nat)
    ensures Bound(items + seq(n, _ => Unbound)) == Bound(items)
    decreases |items|
  {
    if items == [] {
      BoundOfUnbounds(seq(n, _ => Unbound));
      assert items + seq(n, _ => Unbound) == seq(n, _ => Unbound);
    } else {
      assert (items + seq(n, _ => Unbound))[1..] == items[1..] + seq(n, _ => Unbound);
      BoundOfPadding(items[1..], n);
    }
  }

  lemma {:induction false} BoundOfUnbounds(items: seq<Json>)
    requires forall i :: 0 <= i < |items| ==> items[i] == Unbound
    ensures Bound(items) == []
  {
    if items != [] {
      BoundOfUnbounds(items[1..]);
    }
  }

  lemma BoundOfPad(items: seq<Json>)
    ensures Bound(Pad(items)) == Bound(items)
  {
    var p := Pad(items);
    assert p == items + seq(|p| - |items|, _ => Unbound);
    BoundOfPadding(items, |p| - |items|);
  }

  /** One compact binding survives padding and compacting. */
  lemma EntryRoundTrip(v: Json)
    requires Compact(v)
    ensures Bound(LocalEntry(v)) != [] && NewEntry(LocalEntry(v)) == v
  {
    var l := LocalEntry(v);
    if v.JStr? {
      assert l[1..] == [Unbound, Unbound];
      assert l[1..][1..] == [Unbound];
      assert l[1..][1..][1..] == [];
      assert Bound(l[1..][1..]) == [];
      assert Bound(l[1..]) == [];
    } else {
      BoundOfPad(v.elems);
      BoundOfBound(v.elems);
    }
  }

  /** Compacting the padded copy gives every compact binding back unchanged. */
  lemma KeyDictRoundTrip(kd: KeyDict)
    requires forall k :: k in kd ==> Compact(kd[k])
    ensures GenNewKeyDict(GenLocalKeys(kd)) == kd
  {
    var lk := GenLocalKeys(kd);
    var back := GenNewKeyDict(lk);
    forall k | k in kd
      ensures k in back && back[k] == kd[k]
    {
      EntryRoundTrip(kd[k]);
    }
    assert back.Keys == kd.Keys;
  }

  /** A one-entry list comes back as a plain string. */
  lemma SingletonListBecomesString(kd: KeyDict, k: string, s: string)
    requires k in kd && kd[k] == JList([JStr(s)]) && s != ""
    ensures GenNewKeyDict(GenLocalKeys(kd))[k] == JStr(s)
  {
    var lk := GenLocalKeys(kd);
    BoundOfPad([JStr(s)]);
    assert [JStr(s)][1..] == [];
    assert Bound([JStr(s)]) == [JStr(s)];
    assert Bound(lk[k]) == [JStr(s)];
  }

  /** A feature whose entries are all "" disappears from the compacted dictionary, and
      one with a non-empty entry keeps a binding with that entry in it. */
  lemma NewKeyDictBindings(lk: LocalKeys, k: string)
    requires k in lk
    ensures (forall i :: 0 <= i < |lk[k]| ==> lk[k][i] == Unbound) ==> k !in GenNewKeyDict(lk)
    ensures forall i :: 0 <= i < |lk[k]| && lk[k][i] != Unbound ==>
      k in GenNewKeyDict(lk) && (GenNewKeyDict(lk)[k] == lk[k][i] || (GenNewKeyDict(lk)[k].JList? && lk[k][i] in GenNewKeyDict(lk)[k].elems))
  {
    var n := Bound(lk[k]);
    if forall i :: 0 <= i < |lk[k]| ==> lk[k][i] == Unbound {
      BoundOfUnbounds(lk[k]);
    }
    forall i | 0 <= i < |lk[k]| && lk[k][i] != Unbound
      ensures k in GenNewKeyDict(lk) && (GenNewKeyDict(lk)[k] == lk[k][i] || (GenNewKeyDict(lk)[k].JList? && lk[k][i] in GenNewKeyDict(lk)[k].elems))
    {
      assert lk[k][i] in n;
      if |n| == 1 {
        assert n[0] == lk[k][i];
      }
    }
  }

  // ---------------------------------------------------------------------------
  // The port check

  /** The check of `save_call` as written: a port is refused when below 1024 or above 49152. */
  predicate PortAcceptedAsWritten(port: int) {
    !(port < 1024 || port > 49152)
  }

  /** The range the tooltip and the error message state: 1024 to 49151, the registered ports. */
  predicate PortAccepted(port: int) {
    1024 <= port <= 49151
  }

  /** The check as written lets exactly one port outside the stated range through: 49152. */
  lemma PortFinding(port: int)
    ensures PortAcceptedAsWritten(port) && !PortAccepted(port) <==> port == 49152
    ensures port != 49152 ==> (PortAcceptedAsWritten(port) <==> PortAccepted(port))
  {
  }

  // ---------------------------------------------------------------------------
  // The home path

  /** A home path the window accepts: not the installation path, and three characters or more. */
  predicate AcceptableHome(up: string, sp: string) {
    up != sp && |up| >= 3
  }

  /** `test_homepath`: the normalised entry, or the previous home when it is not acceptable. */
  function HomePath(up: string, sp: string, oldHome: string): (r: string)
    ensures AcceptableHome(up, sp) ==> r == up
    ensures !AcceptableHome(up, sp) ==> r == oldHome
  {
    if sp == up || |up| < 3 then oldHome else up
  }

  /** When the previous home was acceptable, so is every home the check leaves in place. */
  lemma HomePathStaysAcceptable(up: string, sp: string, oldHome: string)
    requires AcceptableHome(oldHome, sp)
    ensures AcceptableHome(HomePath(up, sp, oldHome), sp)
  {
  }

  // ---------------------------------------------------------------------------
  // The window

  /** The configuration entries `save_call` writes from the window. */
  datatype Config = Config(keys: KeyDict, apiport: Option<int>, apihost: Option<string>)

  class MHPrefWindow {
    const env: Env
    const pathSys: string       // env.path_sys
    const oldHomePath: string   // env.path_home when the window was made
    var localKeys: LocalKeys
    var keyDict: KeyDict        // glob.keyDict
    var config: Config          // env.config
    var homeText: string        // the text of the home-path field

    /** Every feature of the copy has a list of at least three entries (table columns 1 to 3). */
    predicate Valid()
      reads this
    {
      forall k :: k in localKeys ==> |localKeys[k]| >= 3
    }

    constructor (env: Env, pathSys: string, pathHome: string, keyDict: KeyDict, config: Config)
      ensures Valid()
      ensures this.env == env && this.pathSys == pathSys && oldHomePath == pathHome && homeText == pathHome
      ensures this.keyDict == keyDict && this.config == config && localKeys == GenLocalKeys(keyDict)
    {
      this.env := env;
      this.pathSys := pathSys;
      oldHomePath := pathHome;
      homeText := pathHome;
      this.keyDict := keyDict;
      this.config := config;
      localKeys := GenLocalKeys(keyDict);
    }

    /** `changekey_call`: binds `key` in column `col` of the feature `name`. Nothing happens
        without a selected row or a key column; an unknown feature raises KeyError and a
        column past the list raises IndexError. */
    method ChangeKey(row: int, col: int, name: string, key: string) returns (r: Option<Exc>)
      requires Valid()
      modifies this
      ensures Valid()
      ensures row < 0 || col < 1 ==> r == None && localKeys == old(localKeys)
      ensures row >= 0 && col >= 1 && name !in old(localKeys) ==> r == Some(KeyError) && localKeys == old(localKeys)
      ensures row >= 0 && col >= 1 && name in old(localKeys) && col > |old(localKeys)[name]| ==>
        r == Some(IndexError) && localKeys == old(localKeys)
      ensures row >= 0 && col >= 1 && name in old(localKeys) && col <= |old(localKeys)[name]| ==>
        r == None && localKeys == old(localKeys)[name := old(localKeys)[name][col - 1 := JStr(key)]]
      ensures keyDict == old(keyDict) && config == old(config) && homeText == old(homeText)
    {
      if row < 0 || col < 1 {
        return None;
      }
      if name !in localKeys {
        return Some(KeyError);
      }
      if col - 1 >= |localKeys[name]| {
        return Some(IndexError);
      }
      localKeys := localKeys[name := localKeys[name][col - 1 := JStr(key)]];
      r := None;
    }

    /** `deletekey_call`: clears column `col` of the feature `name`, with the same guards. */
    method DeleteKey(row: int, col: int, name: string) returns (r: Option<Exc>)
      requires Valid()
      modifies this
      ensures Valid()
      ensures row < 0 || col < 1 ==> r == None && localKeys == old(localKeys)
      ensures row >= 0 && col >= 1 && name !in old(localKeys) ==> r == Some(KeyError) && localKeys == old(localKeys)
      ensures row >= 0 && col >= 1 && name in old(localKeys) && col > |old(localKeys)[name]| ==>
        r == Some(IndexError) && localKeys == old(localKeys)
      ensures row >= 0 && col >= 1 && name in old(localKeys) && col <= |old(localKeys)[name]| ==>
        r == None && localKeys == old(localKeys)[name := old(localKeys)[name][col - 1 := Unbound]]
      ensures keyDict == old(keyDict) && config == old(config) && homeText == old(homeText)
    {
      r := ChangeKey(row, col, name, "");
    }

    /** `cancel_call`: the copy is made again from the application's dictionary. */
    method Cancel()
      modifies this
      ensures Valid()
      ensures localKeys == GenLocalKeys(keyDict)
      ensures keyDict == old(keyDict) && config == old(config) && homeText == old(homeText)
    {
      localKeys := GenLocalKeys(keyDict);
    }

    /** `test_homepath`: normalises the home-path field, reverting to the old home when the
        entry is the installation path or shorter than three characters. */
    method TestHomePath()
      modifies this
      ensures homeText == HomePath(env.fullPath(old(homeText)), env.fullPath(pathSys), oldHomePath)
      ensures localKeys == old(localKeys) && keyDict == old(keyDict) && config == old(config)
    {
      var up := env.fullPath(homeText);
      var sp := env.fullPath(pathSys);
      if sp == up || |up| < 3 {
        up := oldHomePath;
      }
      homeText := up;
    }

    /** The first part of `save_call`: the compacted keys replace the application's
        dictionary, then the port is checked as the code has it. A non-integer port raises
        ValueError; a port below 1024 or above 49152 leaves the configuration as it was
        (returning false); otherwise keys, port and host are stored, 49152 included. */
    method Save(portText: string, host: string) returns (r: Outcome<bool>)
      modifies this
      ensures keyDict == GenNewKeyDict(old(localKeys))
      ensures ParseInt(portText).None? ==> r == Raised(ValueError) && config == old(config)
      ensures ParseInt(portText).Some? && !PortAcceptedAsWritten(ParseInt(portText).value) ==>
        r == Returned(false) && config == old(config)
      ensures ParseInt(portText).Some? && PortAcceptedAsWritten(ParseInt(portText).value) ==>
        r == Returned(true) && config == Config(keyDict, Some(ParseInt(portText).value), Some(host))
      ensures localKeys == old(localKeys) && homeText == old(homeText)
    {
      keyDict := GenNewKeyDict(localKeys);
      var port := ParseInt(portText);
      if port.None? {
        return Raised(ValueError);
      }
      if !PortAcceptedAsWritten(port.value) {
        return Returned(false);
      }
      config := Config(keyDict, Some(port.value), Some(host));
      r := Returned(true);
    }
  }
}
