/** Encrypting listed values of a nested settings map for one peel, and decrypting the map. */
module SettingsCrypt {
  import opened KeyValue

  /** A settings value: text, a nested map, or anything else, which is never touched. */
  datatype Value = Str(s: string) | Tree(m: map<string, Value>) | Other(o: nat)

  /** Sealing for the recipient with the n-th nonce, opening with its key, and base64. */
  datatype Crypto = Crypto(
    seal: (nat, string) -> Option<string>,
    open: string -> Option<string>,
    encode: string -> string,
    decode: string -> Option<string>)

  ghost predicate Sound(c: Crypto) {
    && (forall n: nat, p: string :: c.seal(n, p).Some? ==> c.open(c.seal(n, p).value) == Some(p))
    && (forall x: string :: c.decode(c.encode(x)) == Some(x))
  }

  const Prefix: string := "ENC[nkey,"
  const Suffix: string := "]"

  predicate IsEncrypted(s: string) {
    |s| >= |Prefix| && s[..|Prefix|] == Prefix && s[|s| - 1] == ']'
  }

  function Payload(s: string): (p: string)
    requires IsEncrypted(s)
  {
    assert s[|Prefix| - 1] == Prefix[|Prefix| - 1] == ',';
    s[|Prefix|..|s| - 1]
  }

  function SealText(c: Crypto, n: nat, p: string): (r: Option<string>) {
    match c.seal(n, p)
    case None => None
    case Some(x) => Some(Prefix + c.encode(x) + Suffix)
  }

  function OpenText(c: Crypto, tagged: string): (r: Option<string>) {
    if !IsEncrypted(tagged) then None
    else
      match c.decode(Payload(tagged))
      case None => None
      case Some(x) => c.open(x)
  }

  lemma OpenUndoesSeal(c: Crypto, n: nat, p: string)
    requires Sound(c) && SealText(c, n, p).Some?
    ensures IsEncrypted(SealText(c, n, p).value)
    ensures OpenText(c, SealText(c, n, p).value) == Some(p)
  {
    var x := c.seal(n, p).value;
    var t := SealText(c, n, p).value;
    assert t[..|Prefix|] == Prefix;
    assert Payload(t) == c.encode(x);
  }

  // ----- encrypting -----

  type Path = seq<string>

  /** Replace the text at `path`, if there is text there. None is a sealing error. */
  function EncryptAt(c: Crypto, n: nat, m: map<string, Value>, path: Path): (r: Option<map<string, Value>>)
    requires path != []
    decreases |path|
  {
    var k := path[0];
    if |path| == 1 then
      if k in m && m[k].Str? then
        match SealText(c, n, m[k].s)
        case None => None
        case Some(t) => Some(m[k := Str(t)])
      else Some(m)
    else if k in m && m[k].Tree? then
      match EncryptAt(c, n, m[k].m, path[1..])
      case None => None
      case Some(sub) => Some(m[k := Tree(sub)])
    else Some(m)
  }

  /** All listed paths in order; the i-th sealing uses the i-th nonce. */
  function EncryptAll(c: Crypto, m: map<string, Value>, paths: seq<Path>): (r: Option<map<string, Value>>)
    requires forall i :: 0 <= i < |paths| ==> paths[i] != []
    decreases |paths|
  {
    if paths == [] then Some(m)
    else
      var i := |paths| - 1;
      match EncryptAll(c, m, paths[..i])
      case None => None
      case Some(e) => EncryptAt(c, i, e, paths[i])
  }

  // ----- decrypting -----

  function Decrypt(c: Crypto, v: Value): (r: Option<Value>)
    decreases v
  {
    match v
    case Str(s) =>
      var p := OpenText(c, s);
      if !IsEncrypted(s) then Some(v) else if p.None? then None else Some(Str(p.value))
    case Other(_) => Some(v)
    case Tree(m) =>
      if exists k :: k in m && Decrypt(c, m[k]).None? then None
      else Some(Tree(map k | k in m :: Decrypt(c, m[k]).value))
  }

  // ----- looking values up -----

  function At(m: map<string, Value>, path: Path): (r: Option<Value>)
    requires path != []
    decreases |path|
  {
    var k := path[0];
    if k !in m then None
    else if |path| == 1 then Some(m[k])
    else if m[k].Tree? then At(m[k].m, path[1..])
    else None
  }

  function TextAt(m: map<string, Value>, path: Path): (r: Option<string>)
    requires path != []
  {
    match At(m, path)
    case Some(Str(s)) => Some(s)
    case _ => None
  }

  /** Both absent, both maps, both text, or the same other value. */
  ghost predicate SameKind(a: Option<Value>, b: Option<Value>) {
    match (a, b)
    case (None, None) => true
    case (Some(Str(_)), Some(Str(_))) => true
    case (Some(Tree(_)), Some(Tree(_))) => true
    case (Some(Other(x)), Some(Other(y))) => x == y
    case _ => false
  }

  /** Encrypting at a path fails exactly if there is text there that cannot be sealed. */
  lemma {:induction false} EncryptAtFailsIff(c: Crypto, n: nat, m: map<string, Value>, p: Path)
    requires p != []
    ensures EncryptAt(c, n, m, p).None? <==> TextAt(m, p).Some? && c.seal(n, TextAt(m, p).value).None?
    decreases |p|
  {
    if |p| > 1 && p[0] in m && m[p[0]].Tree? {
      EncryptAtFailsIff(c, n, m[p[0]].m, p[1..]);
    }
  }

  /** With a sealer that does not fail, encrypting never fails. */
  lemma {:induction false} EncryptionSucceeds(c: Crypto, m: map<string, Value>, paths: seq<Path>)
    requires ArePaths(paths) && forall n: nat, p: string :: c.seal(n, p).Some?
    ensures EncryptAll(c, m, paths).Some?
    decreases |paths|
  {
    if paths != [] {
      var i := |paths| - 1;
      EncryptionSucceeds(c, m, paths[..i]);
      EncryptAtFailsIff(c, i, EncryptAll(c, m, paths[..i]).value, paths[i]);
    }
  }

  /** Encrypting at a path changes the text at that path, if there is any, and nothing else. */
  lemma {:induction false} EncryptAtChanges(c: Crypto, n: nat, m: map<string, Value>, p: Path, q: Path)
    requires p != [] && q != [] && EncryptAt(c, n, m, p).Some?
    ensures var e := EncryptAt(c, n, m, p).value;
      && SameKind(At(m, q), At(e, q))
      && TextAt(e, q) == if q == p && TextAt(m, p).Some? then SealText(c, n, TextAt(m, p).value) else TextAt(m, q)
    decreases |p|
  {
    var k := p[0];
    assert |p| == 1 ==> p == [k];
    assert |q| == 1 ==> q == [q[0]];
    assert |p| > 1 ==> p == [k] + p[1..];
    assert |q| > 1 ==> q == [q[0]] + q[1..];
    if |p| > 1 && k in m && m[k].Tree? && q[0] == k && |q| > 1 {
      EncryptAtChanges(c, n, m[k].m, p[1..], q[1..]);
    }
  }

  // ----- the round trip -----

  /** What a decrypted map is: the same keys with each value decrypted. */
  ghost predicate IsDecryption(c: Crypto, m: map<string, Value>, d: map<string, Value>) {
    d.Keys == m.Keys && forall k :: k in m ==> Decrypt(c, m[k]) == Some(d[k])
  }

  lemma DecryptTree(c: Crypto, m: map<string, Value>, d: map<string, Value>)
    ensures Decrypt(c, Tree(m)).None? || Decrypt(c, Tree(m)).value.Tree?
    ensures Decrypt(c, Tree(m)).None? <==> exists k :: k in m && Decrypt(c, m[k]).None?
    ensures Decrypt(c, Tree(m)) == Some(Tree(d)) <==> IsDecryption(c, m, d)
  {
    var r := Decrypt(c, Tree(m));
    if r.Some? {
      assert IsDecryption(c, m, r.value.m);
      if IsDecryption(c, m, d) {
        assert r.value.m == d;
      }
    }
  }

  lemma SameDecryption(c: Crypto, m: map<string, Value>, k: string, v: Value)
    requires k in m && Decrypt(c, v) == Decrypt(c, m[k])
    ensures Decrypt(c, Tree(m[k := v])) == Decrypt(c, Tree(m))
  {
    var e := m[k := v];
    assert forall j :: j in m ==> Decrypt(c, e[j]) == Decrypt(c, m[j]);
    var r := Decrypt(c, Tree(m));
    if r.Some? {
      DecryptTree(c, m, r.value.m);
      DecryptTree(c, e, r.value.m);
    } else {
      var j :| j in m && Decrypt(c, m[j]).None?;
      assert j in e && Decrypt(c, e[j]).None?;
    }
  }

  /** Sealing plain text somewhere does not change what the map decrypts to. */
  lemma {:induction false} SealingIsInvisible(c: Crypto, n: nat, m: map<string, Value>, p: Path)
    requires Sound(c) && p != [] && EncryptAt(c, n, m, p).Some?
    requires TextAt(m, p).Some? ==> !IsEncrypted(TextAt(m, p).value)
    ensures Decrypt(c, Tree(EncryptAt(c, n, m, p).value)) == Decrypt(c, Tree(m))
    decreases |p|
  {
    var k := p[0];
    if k in m {
      if |p| == 1 && m[k].Str? {
        OpenUndoesSeal(c, n, m[k].s);
        SameDecryption(c, m, k, Str(SealText(c, n, m[k].s).value));
      } else if |p| > 1 && m[k].Tree? {
        SealingIsInvisible(c, n, m[k].m, p[1..]);
        SameDecryption(c, m, k, Tree(EncryptAt(c, n, m[k].m, p[1..]).value));
      }
    }
  }

  /** No text in the map already looks encrypted. */
  ghost predicate IsPlain(v: Value)
    decreases v
  {
    match v
    case Str(s) => !IsEncrypted(s)
    case Other(_) => true
    case Tree(m) => forall k :: k in m ==> IsPlain(m[k])
  }

  lemma {:induction false} PlainDecryptsToItself(c: Crypto, v: Value)
    requires IsPlain(v)
    ensures Decrypt(c, v) == Some(v)
    decreases v
  {
    if v.Tree? {
      forall k | k in v.m ensures Decrypt(c, v.m[k]) == Some(v.m[k]) {
        PlainDecryptsToItself(c, v.m[k]);
      }
      DecryptTree(c, v.m, v.m);
    }
  }

  lemma {:induction false} PlainText(m: map<string, Value>, p: Path)
    requires p != [] && IsPlain(Tree(m)) && TextAt(m, p).Some?
    ensures !IsEncrypted(TextAt(m, p).value)
    decreases |p|
  {
    if |p| > 1 {
      PlainText(m[p[0]].m, p[1..]);
    }
  }

  ghost predicate ArePaths(paths: seq<Path>) {
    forall i :: 0 <= i < |paths| ==> paths[i] != []
  }

  /** Only text at listed paths differs in the encrypted map. */
  lemma {:induction false} OnlyListedTextChanges(c: Crypto, m: map<string, Value>, paths: seq<Path>, q: Path)
    requires ArePaths(paths) && q != [] && EncryptAll(c, m, paths).Some?
    ensures var e := EncryptAll(c, m, paths).value;
      SameKind(At(m, q), At(e, q)) && (q !in paths ==> TextAt(e, q) == TextAt(m, q))
    decreases |paths|
  {
    if paths != [] {
      var i := |paths| - 1;
      OnlyListedTextChanges(c, m, paths[..i], q);
      EncryptAtChanges(c, i, EncryptAll(c, m, paths[..i]).value, paths[i], q);
      assert paths == paths[..i] + [paths[i]];
    }
  }

  /** Some text of the map is listed twice. */
  ghost predicate Repeats(m: map<string, Value>, paths: seq<Path>)
    requires ArePaths(paths)
  {
    exists i, j :: 0 <= i < j < |paths| && paths[i] == paths[j] && TextAt(m, paths[i]).Some?
  }

  lemma {:induction false} DecryptsBack(c: Crypto, m: map<string, Value>, paths: seq<Path>)
    requires Sound(c) && ArePaths(paths) && IsPlain(Tree(m)) && EncryptAll(c, m, paths).Some?
    requires !Repeats(m, paths)
    ensures Decrypt(c, Tree(EncryptAll(c, m, paths).value)) == Some(Tree(m))
    decreases |paths|
  {
    if paths == [] {
      PlainDecryptsToItself(c, Tree(m));
    } else {
      var i := |paths| - 1;
      var p := paths[i];
      var e := EncryptAll(c, m, paths[..i]).value;
      DecryptsBack(c, m, paths[..i]);
      OnlyListedTextChanges(c, m, paths[..i], p);
      if TextAt(m, p).Some? {
        PlainText(m, p);
        assert p !in paths[..i];
      }
      SealingIsInvisible(c, i, e, p);
    }
  }

  lemma {:induction false} SealedOnce(c: Crypto, m: map<string, Value>, paths: seq<Path>, i: nat)
    requires Sound(c) && ArePaths(paths) && EncryptAll(c, m, paths).Some?
    requires i < |paths| && TextAt(m, paths[i]).Some?
    ensures var t := TextAt(EncryptAll(c, m, paths).value, paths[i]); t.Some? && IsEncrypted(t.value)
    decreases |paths|
  {
    var n := |paths| - 1;
    var e := EncryptAll(c, m, paths[..n]).value;
    OnlyListedTextChanges(c, m, paths[..n], paths[i]);
    EncryptAtChanges(c, n, e, paths[n], paths[i]);
    if paths[n] == paths[i] {
      OpenUndoesSeal(c, n, TextAt(e, paths[i]).value);
    } else {
      assert paths[..n][i] == paths[i];
      SealedOnce(c, m, paths[..n], i);
    }
  }

  /** Opens to something that still looks encrypted. */
  ghost predicate IsSealedTwice(c: Crypto, t: Option<string>) {
    && t.Some? && IsEncrypted(t.value)
    && OpenText(c, t.value).Some? && IsEncrypted(OpenText(c, t.value).value)
  }

  lemma {:induction false} SealedTwice(c: Crypto, m: map<string, Value>, paths: seq<Path>, i: nat, j: nat)
    requires Sound(c) && ArePaths(paths) && EncryptAll(c, m, paths).Some?
    requires i < j < |paths| && paths[i] == paths[j] && TextAt(m, paths[i]).Some?
    ensures IsSealedTwice(c, TextAt(EncryptAll(c, m, paths).value, paths[i]))
    decreases |paths|
  {
    var n := |paths| - 1;
    var e := EncryptAll(c, m, paths[..n]).value;
    assert paths[..n][i] == paths[i];
    SealedOnce(c, m, paths[..n], i);
    EncryptAtChanges(c, n, e, paths[n], paths[i]);
    if paths[n] == paths[i] {
      OpenUndoesSeal(c, n, TextAt(e, paths[i]).value);
    } else {
      assert paths[..n][j] == paths[j];
      SealedTwice(c, m, paths[..n], i, j);
    }
  }

  /** At this path there is text that looks encrypted and does not open. */
  ghost predicate IsStuck(c: Crypto, m: map<string, Value>, p: Path) {
    p != [] && TextAt(m, p).Some? && IsEncrypted(TextAt(m, p).value) && OpenText(c, TextAt(m, p).value).None?
  }

  /** Decrypting a map fails exactly if some text in it looks encrypted and does not open. */
  lemma DecryptFailsIff(c: Crypto, m: map<string, Value>)
    ensures Decrypt(c, Tree(m)).None? <==> exists p :: IsStuck(c, m, p)
  {
    if Decrypt(c, Tree(m)).None? {
      var p := FailsAt(c, m);
    }
    forall p | IsStuck(c, m, p) ensures Decrypt(c, Tree(m)).None? {
      StuckFails(c, m, p);
    }
  }

  lemma {:induction false} FailsAt(c: Crypto, m: map<string, Value>) returns (p: Path)
    requires Decrypt(c, Tree(m)).None?
    ensures IsStuck(c, m, p)
    decreases Tree(m)
  {
    var k :| k in m && Decrypt(c, m[k]).None?;
    p := [k];
    if m[k].Tree? {
      assert m[k] == Tree(m[k].m);
      var rest := FailsAt(c, m[k].m);
      p := [k] + rest;
      assert p[1..] == rest;
    }
  }

  lemma {:induction false} StuckFails(c: Crypto, m: map<string, Value>, p: Path)
    requires IsStuck(c, m, p)
    ensures Decrypt(c, Tree(m)).None?
    decreases |p|
  {
    DecryptTree(c, m, m);
    if |p| > 1 {
      StuckFails(c, m[p[0]].m, p[1..]);
    }
    assert Decrypt(c, m[p[0]]).None?;
  }

  /** A map that decrypts keeps its shape, and each text becomes what it opens to if it looks encrypted
      and stays what it is otherwise. */
  lemma {:induction false} DecryptExactly(c: Crypto, e: map<string, Value>, d: map<string, Value>, p: Path)
    requires p != [] && Decrypt(c, Tree(e)) == Some(Tree(d))
    ensures SameKind(At(e, p), At(d, p))
    ensures TextAt(e, p).Some? ==>
      var t := TextAt(e, p).value;
      TextAt(d, p) == if IsEncrypted(t) then OpenText(c, t) else Some(t)
    decreases |p|
  {
    DecryptTree(c, e, d);
    var k := p[0];
    if k in e {
      assert Decrypt(c, e[k]) == Some(d[k]);
      if e[k].Tree? {
        DecryptTree(c, e[k].m, e[k].m);
        if |p| > 1 {
          DecryptExactly(c, e[k].m, d[k].m, p[1..]);
        }
      }
    }
  }

  /** What looks encrypted: a payload in the tag. */
  lemma LooksEncryptedIff(s: string)
    ensures IsEncrypted(s) <==> exists x: string :: s == "ENC[nkey," + x + "]"
  {
    if IsEncrypted(s) {
      assert s == "ENC[nkey," + Payload(s) + "]";
    }
    forall x: string | s == "ENC[nkey," + x + "]" ensures IsEncrypted(s) {
      assert s[..|Prefix|] == Prefix;
    }
  }

  /** Decrypting an encrypted plain map gives the map back exactly when no text was listed
      twice; in particular for every list of distinct paths. */
  lemma RoundTripIff(c: Crypto, m: map<string, Value>, paths: seq<Path>)
    requires Sound(c) && ArePaths(paths) && IsPlain(Tree(m)) && EncryptAll(c, m, paths).Some?
    ensures Decrypt(c, Tree(EncryptAll(c, m, paths).value)) == Some(Tree(m)) <==> !Repeats(m, paths)
  {
    var e := EncryptAll(c, m, paths).value;
    if !Repeats(m, paths) {
      DecryptsBack(c, m, paths);
    } else {
      var i, j :| 0 <= i < j < |paths| && paths[i] == paths[j] && TextAt(m, paths[i]).Some?;
      SealedTwice(c, m, paths, i, j);
      PlainText(m, paths[i]);
      if Decrypt(c, Tree(e)) == Some(Tree(m)) {
        DecryptExactly(c, e, m, paths[i]);
      }
    }
  }
}
