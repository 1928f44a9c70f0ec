/** The compare-and-swap key/value bucket that every Zester protocol runs on:
    live keys with one revision each, and a counter that every write raises. */
module KeyValue {

  datatype Option<+T> = None | Some(value: T)

  /** A write gets through and is heard of, gets through unheard, or is lost. */
  datatype Net = Heard | Unheard | Down

  datatype Entry<+V> = Entry(value: V, rev: nat)

  /** What a write reports: the bucket after it and the revision it got, or a refusal
      that left the bucket alone. */
  datatype Outcome<K(==), V> = Wrote(bucket: Bucket<K, V>, rev: nat) | Refused

  datatype Bucket<K(==), V> = Bucket(live: map<K, Entry<V>>, last: nat) {

    ghost predicate Valid() {
      forall k :: k in live ==> 0 < live[k].rev <= last
    }

    function Get(k: K): (r: Option<Entry<V>>) {
      if k in live then Some(live[k]) else None
    }

    /** The bucket after an unconditional write of `k`. */
    function Put(k: K, v: V): (b: Bucket<K, V>)
      ensures Grows(this, b)
      ensures Valid() ==> b.Valid()
    {
      Bucket(live[k := Entry(v, last + 1)], last + 1)
    }

    function Create(k: K, v: V): (r: Outcome<K, V>) {
      if k in live then Refused else Wrote(Put(k, v), last + 1)
    }

    function Update(k: K, v: V, rev: nat): (r: Outcome<K, V>) {
      if k in live && live[k].rev == rev then Wrote(Put(k, v), last + 1) else Refused
    }

    /** The bucket after a delete marker for `k`; the marker takes a revision too. */
    function Remove(k: K): (b: Bucket<K, V>)
      ensures Grows(this, b)
      ensures Valid() ==> b.Valid()
    {
      Bucket(live - {k}, last + 1)
    }

    /** `fences` are the LastRevision options in call order: the last one wins, and
        revision 0 means no fence at all. */
    function Delete(k: K, fences: seq<nat>): (r: Outcome<K, V>) {
      var fence := if fences == [] then 0 else fences[|fences| - 1];
      if fence > 0 && !(k in live && live[k].rev == fence) then Refused
      else Wrote(Remove(k), last + 1)
    }
  }

  /** Every entry of the later bucket is an untouched one or carries a newer revision. */
  ghost predicate Grows<K, V>(b: Bucket<K, V>, b': Bucket<K, V>) {
    && b.last <= b'.last
    && forall k :: k in b'.live ==>
         (k in b.live && b'.live[k] == b.live[k]) || b'.live[k].rev > b.last
  }

  /** A remembered entry that a compare-and-swap can rely on: if its revision is still the
      current one, its value is still the current value. */
  ghost predicate Honest<K, V>(b: Bucket<K, V>, k: K, e: Entry<V>) {
    && 0 < e.rev <= b.last
    && (k in b.live && b.live[k].rev == e.rev ==> b.live[k].value == e.value)
  }

  datatype Op<K, V> =
    | PutOp(k: K, v: V)
    | CreateOp(k: K, v: V)
    | UpdateOp(k: K, v: V, rev: nat)
    | DeleteOp(k: K, fences: seq<nat>)

  function After<K, V>(b: Bucket<K, V>, r: Outcome<K, V>): (b': Bucket<K, V>) {
    if r.Wrote? then r.bucket else b
  }

  function ApplyOp<K, V>(b: Bucket<K, V>, op: Op<K, V>): (b': Bucket<K, V>)
    ensures Grows(b, b')
    ensures b.Valid() ==> b'.Valid()
  {
    match op
    case PutOp(k, v) => b.Put(k, v)
    case CreateOp(k, v) => After(b, b.Create(k, v))
    case UpdateOp(k, v, rev) => After(b, b.Update(k, v, rev))
    case DeleteOp(k, fences) => After(b, b.Delete(k, fences))
  }

  function ApplyAll<K, V>(b: Bucket<K, V>, ops: seq<Op<K, V>>): (b': Bucket<K, V>)
    decreases |ops|
  {
    if ops == [] then b else ApplyOp(ApplyAll(b, ops[..|ops| - 1]), ops[|ops| - 1])
  }

  lemma GrowsTransitive<K, V>(a: Bucket<K, V>, b: Bucket<K, V>, c: Bucket<K, V>)
    requires Grows(a, b) && Grows(b, c)
    ensures Grows(a, c)
  {
  }

  lemma HonestAfter<K, V>(b: Bucket<K, V>, b': Bucket<K, V>, k: K, e: Entry<V>)
    requires Honest(b, k, e) && Grows(b, b')
    ensures Honest(b', k, e)
  {
  }

  /** Whatever other clients do in between, the bucket only grows. */
  lemma {:induction false} RunGrows<K, V>(b: Bucket<K, V>, ops: seq<Op<K, V>>)
    ensures Grows(b, ApplyAll(b, ops))
    ensures b.Valid() ==> ApplyAll(b, ops).Valid()
    decreases |ops|
  {
    if ops != [] {
      RunGrows(b, ops[..|ops| - 1]);
      GrowsTransitive(b, ApplyAll(b, ops[..|ops| - 1]), ApplyAll(b, ops));
    }
  }

  /** A run that changes the entry of `k` anywhere leaves it, if live, at a newer revision. */
  lemma {:induction false} TouchedIsNewer<K, V>(b: Bucket<K, V>, k: K, ops: seq<Op<K, V>>, i: nat)
    requires i <= |ops|
    requires ApplyAll(b, ops[..i]).Get(k) != b.Get(k)
    requires b.Valid()
    ensures k in ApplyAll(b, ops).live ==> ApplyAll(b, ops).live[k].rev > b.last
    decreases |ops|
  {
    RunGrows(b, ops);
    if i == |ops| {
      assert ops[..i] == ops;
    } else {
      assert ops[..|ops| - 1][..i] == ops[..i];
      TouchedIsNewer(b, k, ops[..|ops| - 1], i);
      RunGrows(b, ops[..|ops| - 1]);
    }
  }

  /** The guarantee every get-check-update in the repository rests on: if an update at the
      revision read at the start succeeds after any interference, then nothing in that
      interference ever changed the key, so the update acts on exactly what was read. */
  lemma {:induction false} NoLostUpdate<K, V>(b: Bucket<K, V>, k: K, v: V, ops: seq<Op<K, V>>)
    requires b.Valid() && k in b.live
    requires ApplyAll(b, ops).Update(k, v, b.live[k].rev).Wrote?
    ensures forall i :: 0 <= i <= |ops| ==> ApplyAll(b, ops[..i]).Get(k) == b.Get(k)
  {
    forall i | 0 <= i <= |ops| ensures ApplyAll(b, ops[..i]).Get(k) == b.Get(k) {
      if ApplyAll(b, ops[..i]).Get(k) != b.Get(k) {
        TouchedIsNewer(b, k, ops, i);
      }
    }
  }

  /** A delete fenced on a revision the caller was given by a write removes that very entry
      or nothing; only revision 0 would remove whatever is there. */
  lemma FencedDeleteRemovesOwnEntry<K, V>(b: Bucket<K, V>, k: K, v: V, ops: seq<Op<K, V>>)
    requires b.Valid()
    ensures var mine := b.Put(k, v);
      var now := ApplyAll(mine, ops);
      now.Delete(k, [mine.last]).Wrote? <==> k in now.live && now.live[k] == Entry(v, mine.last)
  {
    var mine := b.Put(k, v);
    RunGrows(mine, ops);
  }
}
