/** The settings maps as they live in memory: nested mutable maps, copied, encrypted in place and
    decrypted into new ones. */
module SettingsHeap {
  import opened KeyValue
  import opened Dotted
  import opened SettingsCrypt

  datatype Cell = Text(s: string) | Nested(node: Node) | Opaque(o: nat)

  class Node {
    var m: map<string, Cell>
    ghost var repr: set<Node>

    /** A tree of maps: nested maps are part of this one and share nothing. */
    ghost predicate Valid()
      reads this, repr
      decreases repr
    {
      && this in repr
      && (forall k :: k in m && m[k].Nested? ==>
            m[k].node in repr && m[k].node.repr < repr && this !in m[k].node.repr && m[k].node.Valid())
      && (forall j, k :: j in m && k in m && j != k && m[j].Nested? && m[k].Nested? ==>
            m[j].node.repr !! m[k].node.repr)
    }

    ghost function View(): (v: map<string, Value>)
      requires Valid()
      reads this, repr
      decreases repr
    {
      map k | k in m :: match m[k]
        case Text(s) => Str(s)
        case Opaque(o) => Other(o)
        case Nested(n) => Tree(n.View())
    }

    constructor ()
      ensures Valid() && repr == {this} && m == map[]
    {
      m := map[];
      repr := {this};
    }

    /** m[k] = s, for a key that holds no nested map. */
    method PutText(k: string, s: string)
      requires Valid() && (k in m ==> !m[k].Nested?)
      modifies this
      ensures Valid() && repr == old(repr)
      ensures View() == old(View())[k := Str(s)]
    {
      m := m[k := Text(s)];
    }

    method PutOpaque(k: string, o: nat)
      requires Valid() && (k in m ==> !m[k].Nested?)
      modifies this
      ensures Valid() && repr == old(repr)
      ensures View() == old(View())[k := Other(o)]
    {
      m := m[k := Opaque(o)];
    }

    /** m[k] = n, for a new key and a map that shares nothing with this one. */
    method PutNested(k: string, n: Node)
      requires Valid() && k !in m && n.Valid() && n.repr !! repr
      modifies this
      ensures Valid() && repr == old(repr) + n.repr
      ensures View() == old(View())[k := Tree(old(n.View()))]
    {
      m := m[k := Nested(n)];
      repr := repr + n.repr;
    }
  }

  /** The part of a map outside the given keys. */
  ghost function Without(v: map<string, Value>, todo: set<string>): (r: map<string, Value>) {
    map k | k in v && k !in todo :: v[k]
  }

  /** deepCopyMap: the copy has the same content and shares no map with the original. */
  method DeepCopy(n: Node) returns (r: Node)
    requires n.Valid()
    ensures r.Valid() && fresh(r.repr) && r.View() == n.View()
    decreases n.repr, 1
  {
    r := new Node();
    ghost var source := n.View();
    var todo := n.m.Keys;
    while todo != {}
      invariant n.Valid() && n.View() == source
      invariant r.Valid() && fresh(r.repr)
      invariant todo <= source.Keys && r.View() == Without(source, todo)
      decreases todo
    {
      var k :| k in todo;
      CopyKey(n, k, r);
      todo := todo - {k};
    }
  }

  method CopyKey(n: Node, k: string, r: Node)
    requires n.Valid() && k in n.View() && r.Valid() && r.repr !! n.repr && k !in r.View()
    modifies r
    ensures r.Valid() && fresh(r.repr - old(r.repr))
    ensures r.View() == old(r.View())[k := old(n.View())[k]]
    decreases n.repr, 0
  {
    match n.m[k]
    case Nested(sub) =>
      var c := DeepCopy(sub);
      r.PutNested(k, c);
    case Text(s) => r.PutText(k, s);
    case Opaque(o) => r.PutOpaque(k, o);
  }

  /** The last step of a path: seal the text under the key, if it is text. */
  method EncryptKey(c: Crypto, nonce: nat, n: Node, k: string) returns (ok: bool)
    requires n.Valid()
    modifies n
    ensures n.Valid() && n.repr == old(n.repr)
    ensures match EncryptAt(c, nonce, old(n.View()), [k])
      case None => !ok && n.View() == old(n.View())
      case Some(v) => ok && n.View() == v
  {
    if k !in n.m || !n.m[k].Text? {
      return true;
    }
    var sealed := SealText(c, nonce, n.m[k].s);
    if sealed.None? {
      return false;
    }
    n.PutText(k, sealed.value);
    ok := true;
  }

  /** encryptAtPath: seal the text at the path in place. On a sealing error nothing changed. */
  method EncryptAtPath(c: Crypto, nonce: nat, n: Node, path: Path) returns (ok: bool)
    requires n.Valid() && path != []
    modifies n.repr
    ensures n.Valid() && n.repr == old(n.repr)
    ensures match EncryptAt(c, nonce, old(n.View()), path)
      case None => !ok && n.View() == old(n.View())
      case Some(v) => ok && n.View() == v
    decreases |path|, 0
  {
    var k := path[0];
    if |path| == 1 {
      assert path == [k];
      ok := EncryptKey(c, nonce, n, k);
    } else if k in n.m && n.m[k].Nested? {
      ok := EncryptBelow(c, nonce, n, k, path[1..]);
      assert path == [k] + path[1..];
    } else {
      ok := true;
    }
  }

  /** One step down: sealing below a nested map changes that map and nothing beside it. */
  method EncryptBelow(c: Crypto, nonce: nat, n: Node, k: string, path: Path) returns (ok: bool)
    requires n.Valid() && k in n.m && n.m[k].Nested? && path != []
    modifies n.repr
    ensures n.Valid() && n.repr == old(n.repr) && k in old(n.View()) && old(n.View())[k].Tree?
    ensures match EncryptAt(c, nonce, old(n.View())[k].m, path)
      case None => !ok && n.View() == old(n.View())
      case Some(v) => ok && n.View() == old(n.View())[k := Tree(v)]
    decreases |path|, 2
  {
    ghost var was := n.View();
    ok := EncryptKid(c, nonce, n, k, path);
    Reassembled(n, k, was);
  }

  /** The nested map under the key is sealed in place; the maps beside it keep their content. */
  method EncryptKid(c: Crypto, nonce: nat, n: Node, k: string, path: Path) returns (ok: bool)
    requires n.Valid() && k in n.m && n.m[k].Nested? && path != []
    modifies n.m[k].node.repr
    ensures n.Valid() && n.repr == old(n.repr) && n.m == old(n.m)
    ensures forall j :: j in n.m && j != k && n.m[j].Nested? ==> n.m[j].node.View() == old(n.m[j].node.View())
    ensures match EncryptAt(c, nonce, old(n.m[k].node.View()), path)
      case None => !ok && n.m[k].node.View() == old(n.m[k].node.View())
      case Some(v) => ok && n.m[k].node.View() == v
    decreases |path|, 1
  {
    var kid := n.m[k].node;
    assert forall j :: j in n.m && j != k && n.m[j].Nested? ==> n.m[j].node.repr !! kid.repr;
    ok := EncryptAtPath(c, nonce, kid, path);
  }

  /** One nested map changed and the others kept their content, so only that key differs. */
  lemma Reassembled(n: Node, k: string, was: map<string, Value>)
    requires n.Valid() && k in n.m && n.m[k].Nested? && was.Keys == n.m.Keys
    requires forall j :: j in n.m && j != k ==> match n.m[j]
      case Text(s) => was[j] == Str(s)
      case Opaque(o) => was[j] == Other(o)
      case Nested(m) => m.Valid() && was[j] == Tree(m.View())
    ensures n.View() == was[k := Tree(n.m[k].node.View())]
  {
  }

  function SplitKeys(keys: seq<string>): (paths: seq<Path>)
    ensures |paths| == |keys| && ArePaths(paths)
    ensures forall i :: 0 <= i < |keys| ==> paths[i] == Split(keys[i])
  {
    if keys == [] then [] else SplitKeys(keys[..|keys| - 1]) + [Split(keys[|keys| - 1])]
  }

  /** All listed keys in order, in place. */
  method EncryptKeys(c: Crypto, n: Node, keys: seq<string>) returns (ok: bool)
    requires n.Valid()
    modifies n.repr
    ensures n.Valid() && n.repr == old(n.repr)
    ensures match EncryptAll(c, old(n.View()), SplitKeys(keys))
      case None => !ok
      case Some(v) => ok && n.View() == v
  {
    ghost var v, paths := n.View(), SplitKeys(keys);
    for i := 0 to |keys|
      invariant n.Valid() && n.repr == old(n.repr)
      invariant EncryptAll(c, v, paths[..i]) == Some(n.View())
    {
      EncryptNext(c, v, paths, i);
      ok := EncryptAtPath(c, i, n, Split(keys[i]));
      if !ok {
        EncryptStops(c, v, paths, i + 1);
        return false;
      }
    }
    assert paths[..|keys|] == paths;
    ok := true;
  }

  lemma EncryptNext(c: Crypto, v: map<string, Value>, paths: seq<Path>, i: nat)
    requires ArePaths(paths) && i < |paths| && EncryptAll(c, v, paths[..i]).Some?
    ensures EncryptAll(c, v, paths[..i + 1]) == EncryptAt(c, i, EncryptAll(c, v, paths[..i]).value, paths[i])
  {
    assert paths[..i + 1][..i] == paths[..i];
  }

  /** EncryptSettingsMap: an encrypted copy. Nothing that existed before is modified, so the
      input map keeps its content. */
  method EncryptSettingsMap(c: Crypto, settings: Node, keys: seq<string>) returns (r: Option<Node>)
    requires settings.Valid()
    ensures r.Some? <==> EncryptAll(c, settings.View(), SplitKeys(keys)).Some?
    ensures r.Some? ==> r.value.Valid() && fresh(r.value.repr)
    ensures r.Some? ==> r.value.View() == EncryptAll(c, settings.View(), SplitKeys(keys)).value
  {
    var out := DeepCopy(settings);
    var ok := EncryptKeys(c, out, keys);
    r := if ok then Some(out) else None;
  }

  /** A sealing error is final. */
  lemma {:induction false} EncryptStops(c: Crypto, v: map<string, Value>, paths: seq<Path>, i: nat)
    requires ArePaths(paths) && i <= |paths| && EncryptAll(c, v, paths[..i]).None?
    ensures EncryptAll(c, v, paths).None?
    decreases |paths|
  {
    if i == |paths| {
      assert paths[..i] == paths;
    } else {
      var n := |paths| - 1;
      assert paths[..n][..i] == paths[..i];
      EncryptStops(c, v, paths[..n], i);
    }
  }

  lemma DecryptionGrows(c: Crypto, v: map<string, Value>, todo: set<string>, k: string, d: map<string, Value>)
    requires k in todo && todo <= v.Keys && IsDecryption(c, Without(v, todo), d) && Decrypt(c, v[k]).Some?
    ensures IsDecryption(c, Without(v, todo - {k}), d[k := Decrypt(c, v[k]).value])
  {
  }

  /** decryptMapRecursive: a decrypted copy, or an error if some tagged text does not open. */
  method DecryptMap(c: Crypto, n: Node) returns (r: Option<Node>)
    requires n.Valid()
    ensures r.None? <==> Decrypt(c, Tree(n.View())).None?
    ensures r.Some? ==> r.value.Valid() && fresh(r.value.repr)
    ensures r.Some? ==> Decrypt(c, Tree(n.View())) == Some(Tree(r.value.View()))
    decreases n.repr, 2
  {
    var out := new Node();
    var ok := DecryptInto(c, n, out);
    if !ok {
      return None;
    }
    DecryptTree(c, n.View(), out.View());
    r := Some(out);
  }

  /** All keys of one map, into an empty one. */
  method DecryptInto(c: Crypto, n: Node, out: Node) returns (ok: bool)
    requires n.Valid() && out.Valid() && out.repr !! n.repr && out.View() == map[]
    modifies out
    ensures !ok ==> exists k :: k in n.View() && Decrypt(c, n.View()[k]).None?
    ensures ok ==> out.Valid() && fresh(out.repr - old(out.repr)) && IsDecryption(c, n.View(), out.View())
    decreases n.repr, 1
  {
    ghost var source := n.View();
    var todo := n.m.Keys;
    while todo != {}
      invariant n.Valid() && n.View() == source
      invariant out.Valid() && fresh(out.repr - old(out.repr))
      invariant todo <= source.Keys && IsDecryption(c, Without(source, todo), out.View())
      decreases todo
    {
      var k :| k in todo;
      ghost var was := out.View();
      ok := DecryptKey(c, n, k, out);
      assert n.View() == source;
      if !ok {
        return;
      }
      DecryptionGrows(c, source, todo, k, was);
      todo := todo - {k};
    }
    assert Without(source, {}) == source;
    ok := true;
  }

  method DecryptKey(c: Crypto, n: Node, k: string, out: Node) returns (ok: bool)
    requires n.Valid() && k in n.View() && out.Valid() && out.repr !! n.repr && k !in out.View()
    modifies out
    ensures ok <==> Decrypt(c, old(n.View())[k]).Some?
    ensures ok ==> out.Valid() && fresh(out.repr - old(out.repr))
    ensures ok ==> out.View() == old(out.View())[k := Decrypt(c, old(n.View())[k]).value]
    decreases n.repr, 0
  {
    match n.m[k]
    case Nested(sub) =>
      var d := DecryptMap(c, sub);
      if d.None? {
        return false;
      }
      out.PutNested(k, d.value);
      ok := true;
    case Text(s) =>
      if IsEncrypted(s) {
        var p := OpenText(c, s);
        if p.None? {
          return false;
        }
        out.PutText(k, p.value);
      } else {
        out.PutText(k, s);
      }
      ok := true;
    case Opaque(o) =>
      out.PutOpaque(k, o);
      ok := true;
  }

  lemma DistinctKeysNeverRepeat(m: map<string, Value>, keys: seq<string>)
    requires forall i, j :: 0 <= i < j < |keys| ==> keys[i] != keys[j]
    ensures !Repeats(m, SplitKeys(keys))
  {
    forall i, j | 0 <= i < j < |keys| ensures Split(keys[i]) != Split(keys[j]) {
      if Split(keys[i]) == Split(keys[j]) {
        SplitInjective(keys[i], keys[j]);
      }
    }
  }

  /** From the master's map to the peel's: sealed under distinct dotted keys and opened again, the
      settings are what they were, and the master's own map still is. */
  method SealAndOpen(c: Crypto, settings: Node, keys: seq<string>) returns (back: Option<Node>)
    requires settings.Valid() && Sound(c) && IsPlain(Tree(settings.View()))
    requires forall i, j :: 0 <= i < j < |keys| ==> keys[i] != keys[j]
    ensures back.Some? <==> EncryptAll(c, settings.View(), SplitKeys(keys)).Some?
    ensures back.Some? ==> back.value.Valid() && back.value.View() == settings.View()
  {
    ghost var v := settings.View();
    var sealed := EncryptSettingsMap(c, settings, keys);
    if sealed.None? {
      return None;
    }
    DistinctKeysNeverRepeat(v, keys);
    RoundTripIff(c, v, SplitKeys(keys));
    back := DecryptMap(c, sealed.value);
  }
}
