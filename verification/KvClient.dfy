/** A bucket as a client holds it: a mutable object that other clients write to as well. */
module KvClient {
  import opened KeyValue

  class Kv<K(==), V(==)> {
    var b: Bucket<K, V>

    constructor (initial: Bucket<K, V>)
      ensures b == initial
    {
      b := initial;
    }

    method Get(k: K) returns (r: Option<Entry<V>>)
      ensures r == b.Get(k)
    {
      r := b.Get(k);
    }

    method Create(k: K, v: V) returns (r: Option<nat>)
      modifies this
      ensures b == After(old(b), old(b).Create(k, v))
      ensures r == if k in old(b).live then None else Some(b.last)
    {
      if k in b.live {
        return None;
      }
      b := b.Put(k, v);
      r := Some(b.last);
    }

    method Update(k: K, v: V, rev: nat) returns (r: Option<nat>)
      modifies this
      ensures b == After(old(b), old(b).Update(k, v, rev))
      ensures r == if k in old(b).live && old(b).live[k].rev == rev then Some(b.last) else None
    {
      if k !in b.live || b.live[k].rev != rev {
        return None;
      }
      b := b.Put(k, v);
      r := Some(b.last);
    }

    /** The options are folded in order into one revision, as the JetStream adapter does. */
    method Delete(k: K, fences: seq<nat>) returns (ok: bool)
      modifies this
      ensures b == After(old(b), old(b).Delete(k, fences))
      ensures ok == old(b).Delete(k, fences).Wrote?
    {
      var fence := 0;
      for i := 0 to |fences|
        invariant fence == if i == 0 then 0 else fences[i - 1]
      {
        fence := fences[i];
      }
      if fence > 0 && (k !in b.live || b.live[k].rev != fence) {
        return false;
      }
      b := b.Remove(k);
      ok := true;
    }

    // The same writes over a network: they may be lost, or get through without the reply.

    method SendCreate(k: K, v: V, net: Net) returns (r: Option<nat>)
      modifies this
      ensures b == if net.Down? then old(b) else After(old(b), old(b).Create(k, v))
      ensures r == if net.Heard? && k !in old(b).live then Some(b.last) else None
    {
      if net.Down? {
        return None;
      }
      r := Create(k, v);
      if net.Unheard? {
        r := None;
      }
    }

    method SendUpdate(k: K, v: V, rev: nat, net: Net) returns (r: Option<nat>)
      modifies this
      ensures b == if net.Down? then old(b) else After(old(b), old(b).Update(k, v, rev))
      ensures r == if net.Heard? && k in old(b).live && old(b).live[k].rev == rev then Some(b.last) else None
    {
      if net.Down? {
        return None;
      }
      r := Update(k, v, rev);
      if net.Unheard? {
        r := None;
      }
    }

    /** An unfenced delete whose outcome the caller does not act on. */
    method SendDelete(k: K, net: Net)
      modifies this
      ensures b == if net.Down? then old(b) else old(b).Remove(k)
    {
      if !net.Down? {
        var _ := Delete(k, []);
      }
    }

    /** What other clients do before this client's next operation. */
    method Others(ops: seq<Op<K, V>>)
      modifies this
      ensures b == ApplyAll(old(b), ops)
    {
      for i := 0 to |ops|
        invariant b == ApplyAll(old(b), ops[..i])
      {
        assert ops[..i + 1][..i] == ops[..i];
        b := ApplyOp(b, ops[i]);
      }
      assert ops[..|ops|] == ops;
    }
  }
}
