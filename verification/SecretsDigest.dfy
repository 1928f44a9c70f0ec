/** The fingerprint that decides whether extracted secrets changed: the digest of all
    (file, key, value) triples in order, each field length-prefixed. */
module SecretsDigest {
  import opened Decimal
  import opened Ordering

  type Secrets = map<string, map<string, string>>

  // ----- one field -----

  function Field(s: string): (r: string) {
    Show(|s|) + ":" + s
  }

  /** A length-prefixed field can be read back from the front of any text. */
  lemma FieldIsPrefixFree(a: string, x: string, b: string, y: string)
    requires Field(a) + x == Field(b) + y
    ensures a == b && x == y
  {
    var da, db := Show(|a|), Show(|b|);
    var ra, rb := ":" + (a + x), ":" + (b + y);
    assert Field(a) + x == da + ra && Field(b) + y == db + rb;
    SameNumber(da, ra, db, rb);
    ValueOfShow(|a|);
    ValueOfShow(|b|);
    assert a + x == ra[1..] && b + y == rb[1..];
    SameCut(a, x, b, y);
  }

  /** The digits in front of a text end where the text goes on without one. */
  lemma SameNumber(da: string, ra: string, db: string, rb: string)
    requires AllDigits(da) && AllDigits(db) && da + ra == db + rb
    requires ra != "" && !IsDigit(ra[0]) && rb != "" && !IsDigit(rb[0])
    ensures da == db && ra == rb
  {
    DigitsOfRun(da, ra);
    DigitsOfRun(db, rb);
    SameCut(da, ra, db, rb);
  }

  lemma SameCut(a: string, x: string, b: string, y: string)
    requires a + x == b + y && |a| == |b|
    ensures a == b && x == y
  {
    assert a == (a + x)[..|a|] && b == (b + y)[..|b|];
    assert x == (a + x)[|a|..] && y == (b + y)[|b|..];
  }

  datatype Triple = Triple(file: string, key: string, value: string)

  function TripleBytes(t: Triple): (r: string) {
    Field(t.file) + Field(t.key) + Field(t.value)
  }

  function Flat<T>(f: T -> string, xs: seq<T>): (r: string) {
    if xs == [] then "" else f(xs[0]) + Flat(f, xs[1..])
  }

  lemma {:induction false} FlatAppend<T>(f: T -> string, a: seq<T>, b: seq<T>)
    ensures Flat(f, a + b) == Flat(f, a) + Flat(f, b)
  {
    if a == [] {
      assert a + b == b;
    } else {
      FlatAppend(f, a[1..], b);
      assert (a + b)[1..] == a[1..] + b;
    }
  }

  function Bytes(ts: seq<Triple>): (r: string) {
    Flat(TripleBytes, ts)
  }

  lemma TripleIsPrefixFree(s: Triple, x: string, t: Triple, y: string)
    requires TripleBytes(s) + x == TripleBytes(t) + y
    ensures s == t && x == y
  {
    var sk, tk := Field(s.key) + (Field(s.value) + x), Field(t.key) + (Field(t.value) + y);
    assert TripleBytes(s) + x == Field(s.file) + sk;
    assert TripleBytes(t) + y == Field(t.file) + tk;
    FieldIsPrefixFree(s.file, sk, t.file, tk);
    FieldIsPrefixFree(s.key, Field(s.value) + x, t.key, Field(t.value) + y);
    FieldIsPrefixFree(s.value, x, t.value, y);
  }

  /** The bytes determine the triples. */
  lemma {:induction false} BytesInjective(ss: seq<Triple>, ts: seq<Triple>)
    requires Bytes(ss) == Bytes(ts)
    ensures ss == ts
  {
    assert ss != [] ==> |TripleBytes(ss[0])| > 0;
    assert ts != [] ==> |TripleBytes(ts[0])| > 0;
    if ss != [] && ts != [] {
      TripleIsPrefixFree(ss[0], Bytes(ss[1..]), ts[0], Bytes(ts[1..]));
      BytesInjective(ss[1..], ts[1..]);
    }
  }

  // ----- the digest's input -----

  function KeyTriples(file: string, inner: map<string, string>, keys: seq<string>): (ts: seq<Triple>)
    requires forall k :: k in keys ==> k in inner
  {
    if keys == [] then [] else [Triple(file, keys[0], inner[keys[0]])] + KeyTriples(file, inner, keys[1..])
  }

  /** All triples of the files, keys in order within each file. */
  ghost function FileTriples(fs: Secrets, files: seq<string>): (ts: seq<Triple>)
    requires forall f :: f in files ==> f in fs
  {
    if files == [] then []
    else
      InOrderSorted(fs[files[0]].Keys);
      KeyTriples(files[0], fs[files[0]], InOrder(fs[files[0]].Keys)) + FileTriples(fs, files[1..])
  }

  ghost function Triples(fs: Secrets): (ts: seq<Triple>) {
    InOrderSorted(fs.Keys);
    FileTriples(fs, InOrder(fs.Keys))
  }

  ghost function Preimage(fs: Secrets): (r: string) {
    Bytes(Triples(fs))
  }

  ghost predicate Holds(fs: Secrets, t: Triple) {
    t.file in fs && t.key in fs[t.file] && fs[t.file][t.key] == t.value
  }

  lemma {:induction false} KeyTriplesContents(file: string, inner: map<string, string>, keys: seq<string>, t: Triple)
    requires forall k :: k in keys ==> k in inner
    ensures t in KeyTriples(file, inner, keys) <==> t.file == file && t.key in keys && inner[t.key] == t.value
  {
    if keys != [] {
      KeyTriplesContents(file, inner, keys[1..], t);
      assert keys == [keys[0]] + keys[1..];
    }
  }

  lemma {:induction false} FileTriplesContents(fs: Secrets, files: seq<string>, t: Triple)
    requires forall f :: f in files ==> f in fs
    ensures t in FileTriples(fs, files) <==> t.file in files && Holds(fs, t)
  {
    if files != [] {
      var f := files[0];
      InOrderSorted(fs[f].Keys);
      KeyTriplesContents(f, fs[f], InOrder(fs[f].Keys), t);
      FileTriplesContents(fs, files[1..], t);
      assert files == [f] + files[1..];
    }
  }

  lemma TriplesContents(fs: Secrets, t: Triple)
    ensures t in Triples(fs) <==> Holds(fs, t)
  {
    InOrderSorted(fs.Keys);
    FileTriplesContents(fs, InOrder(fs.Keys), t);
  }

  /** The secrets without files that hold none. */
  function Pruned(fs: Secrets): (r: Secrets) {
    map f | f in fs && fs[f] != map[] :: fs[f]
  }

  lemma SameTriplesSamePruned(a: Secrets, b: Secrets)
    requires forall t :: Holds(a, t) <==> Holds(b, t)
    ensures Pruned(a) == Pruned(b)
  {
    forall f ensures f in Pruned(a) <==> f in Pruned(b) {
      HoldsFile(a, b, f);
      HoldsFile(b, a, f);
    }
    forall f | f in Pruned(a) ensures Pruned(a)[f] == Pruned(b)[f] {
      forall k ensures k in a[f] <==> k in b[f] {
        assert k in a[f] ==> Holds(a, Triple(f, k, a[f][k]));
        assert k in b[f] ==> Holds(b, Triple(f, k, b[f][k]));
      }
      forall k | k in a[f] ensures a[f][k] == b[f][k] {
        assert Holds(a, Triple(f, k, a[f][k]));
      }
    }
  }

  lemma HoldsFile(a: Secrets, b: Secrets, f: string)
    requires forall t :: Holds(a, t) <==> Holds(b, t)
    ensures f in Pruned(a) ==> f in Pruned(b)
  {
    if f in Pruned(a) {
      var k :| k in a[f];
      assert Holds(a, Triple(f, k, a[f][k]));
    }
  }

  function NonEmpty(fs: Secrets, files: seq<string>): (r: seq<string>)
    requires forall f :: f in files ==> f in fs
  {
    if files == [] then []
    else if fs[files[0]] == map[] then NonEmpty(fs, files[1..])
    else [files[0]] + NonEmpty(fs, files[1..])
  }

  lemma {:induction false} NonEmptyContents(fs: Secrets, files: seq<string>, f: string)
    requires forall g :: g in files ==> g in fs
    ensures f in NonEmpty(fs, files) <==> f in files && fs[f] != map[]
  {
    if files != [] {
      NonEmptyContents(fs, files[1..], f);
      assert files == [files[0]] + files[1..];
    }
  }

  lemma {:induction false} NonEmptySorted(fs: Secrets, files: seq<string>)
    requires Sorted(files) && forall g :: g in files ==> g in fs
    ensures Sorted(NonEmpty(fs, files))
  {
    if files != [] {
      SortedTail(files);
      NonEmptySorted(fs, files[1..]);
      var rest := NonEmpty(fs, files[1..]);
      forall j | 0 <= j < |rest| ensures Less(files[0], rest[j]) {
        assert rest[j] in rest;
        NonEmptyContents(fs, files[1..], rest[j]);
      }
    }
  }

  lemma {:induction false} EmptyFilesAddNothing(fs: Secrets, files: seq<string>)
    requires forall g :: g in files ==> g in fs
    requires forall g :: g in NonEmpty(fs, files) ==> g in Pruned(fs)
    ensures FileTriples(fs, files) == FileTriples(Pruned(fs), NonEmpty(fs, files))
  {
    if files != [] {
      var f := files[0];
      var rest := NonEmpty(fs, files[1..]);
      if fs[f] == map[] {
        assert InOrder(fs[f].Keys) == [];
        EmptyFilesAddNothing(fs, files[1..]);
      } else {
        assert NonEmpty(fs, files)[1..] == rest;
        EmptyFilesAddNothing(fs, files[1..]);
      }
    }
  }

  lemma PrunedTriples(fs: Secrets)
    ensures Triples(fs) == Triples(Pruned(fs))
  {
    var files := InOrder(fs.Keys);
    InOrderSorted(fs.Keys);
    InOrderSorted(Pruned(fs).Keys);
    forall f ensures f in NonEmpty(fs, files) <==> f in Pruned(fs) {
      NonEmptyContents(fs, files, f);
    }
    NonEmptySorted(fs, files);
    SortedUnique(NonEmpty(fs, files), InOrder(Pruned(fs).Keys));
    EmptyFilesAddNothing(fs, files);
  }

  /** The digest's input determines the secrets up to files that hold none, and nothing else. */
  lemma PreimageInjective(a: Secrets, b: Secrets)
    ensures Preimage(a) == Preimage(b) <==> Pruned(a) == Pruned(b)
  {
    if Preimage(a) == Preimage(b) {
      BytesInjective(Triples(a), Triples(b));
      forall t ensures Holds(a, t) <==> Holds(b, t) {
        TriplesContents(a, t);
        TriplesContents(b, t);
      }
      SameTriplesSamePruned(a, b);
    } else if Pruned(a) == Pruned(b) {
      PrunedTriples(a);
      PrunedTriples(b);
    }
  }

  // ----- the fingerprint -----

  /** `hash` stands for the hex SHA-256 digest. */
  ghost function Fingerprint(hash: string -> string, fs: Secrets): (r: string) {
    if fs == map[] then "" else hash(Preimage(fs))
  }

  ghost predicate CollisionFree(hash: string -> string) {
    && (forall x: string, y: string :: hash(x) == hash(y) ==> x == y)
    && (forall x: string :: hash(x) != "")
  }

  /** Every file holds some secret, as the extraction hands them over. */
  ghost predicate NoEmptyFile(fs: Secrets) {
    forall f :: f in fs ==> fs[f] != map[]
  }

  /** Short of a hash collision the fingerprint tells any two extracted secret sets apart. */
  lemma FingerprintDetectsEveryChange(hash: string -> string, a: Secrets, b: Secrets)
    requires CollisionFree(hash) && NoEmptyFile(a) && NoEmptyFile(b)
    ensures Fingerprint(hash, a) == Fingerprint(hash, b) <==> a == b
  {
    PreimageInjective(a, b);
    NothingToPrune(a);
    NothingToPrune(b);
  }

  lemma NothingToPrune(fs: Secrets)
    requires NoEmptyFile(fs)
    ensures Pruned(fs) == fs
  {
  }

  /** The running digest: what has been written so far, as the triples it consists of. */
  class Digest {
    var written: string
    ghost var lines: seq<Triple>

    ghost predicate Valid()
      reads this
    {
      written == Bytes(lines)
    }

    constructor ()
      ensures Valid() && lines == []
    {
      written := "";
      lines := [];
    }

    method Print(file: string, key: string, value: string)
      requires Valid()
      modifies this
      ensures Valid() && lines == old(lines) + [Triple(file, key, value)]
    {
      ghost var t := Triple(file, key, value);
      BytesNext(lines, t);
      FourParts(written, Field(file), Field(key), Field(value));
      written := written + Field(file) + Field(key) + Field(value);
      lines := lines + [t];
    }
  }

  lemma BytesNext(ts: seq<Triple>, t: Triple)
    ensures Bytes(ts + [t]) == Bytes(ts) + TripleBytes(t)
  {
    FlatAppend(TripleBytes, ts, [t]);
    FlatOne(TripleBytes, t);
  }

  lemma FlatOne<T>(f: T -> string, x: T)
    ensures Flat(f, [x]) == f(x)
  {
    assert Flat(f, [x]) == f(x) + Flat(f, [x][1..]);
  }

  lemma FourParts(a: string, b: string, c: string, d: string)
    ensures a + b + c + d == a + (b + c + d)
  {
  }

  lemma KeyStep(file: string, inner: map<string, string>, keys: seq<string>, i: nat,
                done: seq<Triple>, all: seq<Triple>)
    requires i < |keys| && forall k :: k in keys ==> k in inner
    requires done + KeyTriples(file, inner, keys[i..]) == all
    ensures keys[i] in inner
    ensures done + [Triple(file, keys[i], inner[keys[i]])] + KeyTriples(file, inner, keys[i + 1..]) == all
  {
    assert keys[i] in keys;
    assert keys[i..][0] == keys[i] && keys[i..][1..] == keys[i + 1..];
  }

  method WriteFile(h: Digest, file: string, inner: map<string, string>)
    requires h.Valid()
    modifies h
    ensures h.Valid()
    ensures (InOrderSorted(inner.Keys); h.lines == old(h.lines) + KeyTriples(file, inner, InOrder(inner.Keys)))
  {
    InOrderSorted(inner.Keys);
    var listed := KeysOf(inner);
    var keys := SortKeys(listed, inner.Keys);
    ghost var all := h.lines + KeyTriples(file, inner, keys);
    assert keys[0..] == keys;
    for i := 0 to |keys|
      invariant h.Valid()
      invariant h.lines + KeyTriples(file, inner, keys[i..]) == all
    {
      KeyStep(file, inner, keys, i, h.lines, all);
      h.Print(file, keys[i], inner[keys[i]]);
    }
    assert KeyTriples(file, inner, keys[|keys|..]) == [];
  }

  lemma FileStep(fs: Secrets, files: seq<string>, i: nat, done: seq<Triple>, all: seq<Triple>)
    requires i < |files| && forall f :: f in files ==> f in fs
    requires done + FileTriples(fs, files[i..]) == all
    ensures files[i] in fs
    ensures (InOrderSorted(fs[files[i]].Keys);
      done + KeyTriples(files[i], fs[files[i]], InOrder(fs[files[i]].Keys)) + FileTriples(fs, files[i + 1..]) == all)
  {
    assert files[i] in files;
    assert files[i..][0] == files[i] && files[i..][1..] == files[i + 1..];
    InOrderSorted(fs[files[i]].Keys);
    var more := KeyTriples(files[i], fs[files[i]], InOrder(fs[files[i]].Keys));
    assert done + (more + FileTriples(fs, files[i + 1..])) == done + more + FileTriples(fs, files[i + 1..]);
  }

  method WriteFiles(h: Digest, fs: Secrets, files: seq<string>)
    requires h.Valid() && forall f :: f in files ==> f in fs
    modifies h
    ensures h.Valid() && h.lines == old(h.lines) + FileTriples(fs, files)
  {
    ghost var all := h.lines + FileTriples(fs, files);
    assert files[0..] == files;
    for i := 0 to |files|
      invariant h.Valid()
      invariant h.lines + FileTriples(fs, files[i..]) == all
    {
      FileStep(fs, files, i, h.lines, all);
      WriteFile(h, files[i], fs[files[i]]);
    }
    assert FileTriples(fs, files[|files|..]) == [];
  }

  method SecretsFingerprint(hash: string -> string, fs: Secrets) returns (r: string)
    ensures r == Fingerprint(hash, fs)
  {
    if |fs| == 0 {
      return "";
    }
    InOrderSorted(fs.Keys);
    var listed := KeysOf(fs);
    var files := SortKeys(listed, fs.Keys);
    var h := new Digest();
    WriteFiles(h, fs, files);
    assert h.lines == Triples(fs);
    r := hash(h.written);
  }
}
