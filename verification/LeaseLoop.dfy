/** The lease loop of one candidate as code: renewing until the lease is lost or the context ends,
    and releasing it, while others write to the same bucket. */
module LeaseLoop {
  import opened KeyValue
  import opened KvClient

  type Role = string

  /** What happens up to one renewal: other clients' writes (expiry included, as an unfenced delete),
      and whether the reply to the renewal arrives. */
  datatype Tick = Tick(others: seq<Op<Role, string>>, heard: bool)

  datatype Renewed = Renewed(b: Bucket<Role, string>, rev: nat, lost: bool)

  /** The renewals over a sequence of ticks: the bucket, the last revision heard of, and whether the
      loop ended because it could no longer prove ownership. */
  function Renewals(b: Bucket<Role, string>, role: Role, holder: string, rev: nat, ticks: seq<Tick>): (r: Renewed)
    decreases |ticks|
  {
    if ticks == [] then Renewed(b, rev, false)
    else
      var now := ApplyAll(b, ticks[0].others);
      var out := now.Update(role, holder, rev);
      if out.Refused? then Renewed(now, rev, true)
      else if !ticks[0].heard then Renewed(out.bucket, rev, true)
      else Renewals(out.bucket, role, holder, out.rev, ticks[1..])
  }

  class LeaderLease {
    const role: Role
    const holder: string
    var leader: bool

    constructor (role: Role, holder: string)
      ensures this.role == role && this.holder == holder && !leader
    {
      this.role := role;
      this.holder := holder;
      leader := false;
    }

    method RenewLoop(kv: Kv<Role, string>, rev: nat, ticks: seq<Tick>) returns (last: nat)
      modifies kv
      ensures var r := Renewals(old(kv.b), role, holder, rev, ticks); kv.b == r.b && last == r.rev
    {
      last := rev;
      var i := 0;
      assert ticks[0..] == ticks;
      while i < |ticks|
        invariant 0 <= i <= |ticks|
        invariant Renewals(kv.b, role, holder, last, ticks[i..]) == Renewals(old(kv.b), role, holder, rev, ticks)
      {
        assert ticks[i..][0] == ticks[i] && ticks[i..][1..] == ticks[i + 1..];
        kv.Others(ticks[i].others);
        var next := kv.Update(role, holder, last);
        if next.None? || !ticks[i].heard {
          return last;
        }
        last := next.value;
        i := i + 1;
      }
      assert ticks[|ticks|..] == [];
    }

    /** One acquisition: create, lead while renewing, step down, and release if shutting down.
        `create` is what becomes of the create, `between` what others do, expiry included, before a
        release. The flag is never left up, a create that was refused or lost changes nothing, one
        that was not heard of leaves an entry this candidate does not lead under, and a release takes
        this holder's own entry or nothing. */
    method Acquire(kv: Kv<Role, string>, create: Net, cancelledAtWin: bool, ticks: seq<Tick>, cancelled: bool,
                   between: seq<Op<Role, string>>)
      returns (won: bool)
      requires kv.b.Valid() && !leader
      modifies kv, this`leader
      ensures !leader && won == (create.Heard? && role !in old(kv.b).live)
      ensures !won ==>
        kv.b == if create.Unheard? && role !in old(kv.b).live then old(kv.b).Put(role, holder) else old(kv.b)
      ensures won ==>
        var mine := old(kv.b).Put(role, holder);
        var r := if cancelledAtWin then Renewed(mine, mine.last, false)
                 else Renewals(mine, role, holder, mine.last, ticks);
        kv.b == if cancelledAtWin || cancelled then Released(r.b, role, r.rev, between) else r.b
    {
      var rev := kv.SendCreate(role, holder, create);
      if rev.None? {
        return false;
      }
      if cancelledAtWin {
        kv.Others(between);
        var _ := kv.Delete(role, [rev.value]);
        return true;
      }
      leader := true;
      var last := RenewLoop(kv, rev.value, ticks);
      leader := false;
      if cancelled {
        kv.Others(between);
        var _ := kv.Delete(role, [last]);
      }
      won := true;
    }
  }

  /** The bucket after others wrote and then the entry was released at `rev`. */
  function Released(b: Bucket<Role, string>, role: Role, rev: nat, between: seq<Op<Role, string>>):
    (r: Bucket<Role, string>)
  {
    var now := ApplyAll(b, between);
    After(now, now.Delete(role, [rev]))
  }

  /** Releasing a lease at the last revision heard of, after any interference: the entry at that
      revision is gone, and an entry that was not this holder's stays as it is. */
  lemma ReleaseTakesOwnOnly(b: Bucket<Role, string>, role: Role, holder: string, rev: nat, ticks: seq<Tick>,
                            between: seq<Op<Role, string>>)
    requires b.Valid() && Honest(b, role, Entry(holder, rev))
    ensures var r := Renewals(b, role, holder, rev, ticks);
      var now, out := ApplyAll(r.b, between), Released(r.b, role, r.rev, between);
      && (role in out.live ==> out.live[role].rev != r.rev)
      && (role in now.live && now.live[role].value != holder ==> out == now)
      && (forall q :: q != role && q in now.live ==> q in out.live && out.live[q] == now.live[q])
  {
    HeardRevisionIsOwn(b, role, holder, rev, ticks);
    RunGrows(Renewals(b, role, holder, rev, ticks).b, between);
  }

  /** Once someone else holds the entry the loop writes nothing: the first renewal fails, whatever
      the others do, and the bucket is as they left it. */
  lemma LoserWritesNothing(b: Bucket<Role, string>, role: Role, holder: string, rev: nat, ticks: seq<Tick>)
    requires b.Valid() && 0 < rev <= b.last && ticks != []
    requires role in b.live ==> b.live[role].rev != rev
    ensures Renewals(b, role, holder, rev, ticks) == Renewed(ApplyAll(b, ticks[0].others), rev, true)
  {
    RunGrows(b, ticks[0].others);
  }

  /** The revision the loop hands back is a positive one this holder wrote: if the entry still has it,
      the entry is this holder's, so the fenced release removes only that. */
  lemma {:induction false} HeardRevisionIsOwn(b: Bucket<Role, string>, role: Role, holder: string, rev: nat,
                                              ticks: seq<Tick>)
    requires b.Valid() && Honest(b, role, Entry(holder, rev))
    ensures var r := Renewals(b, role, holder, rev, ticks);
      r.b.Valid() && rev <= r.rev && Honest(r.b, role, Entry(holder, r.rev))
    decreases |ticks|
  {
    if ticks != [] {
      var now := ApplyAll(b, ticks[0].others);
      RunGrows(b, ticks[0].others);
      var out := now.Update(role, holder, rev);
      if out.Wrote? && ticks[0].heard {
        HeardRevisionIsOwn(out.bucket, role, holder, out.rev, ticks[1..]);
      }
    }
  }

  /** If nobody else touches the entry and every reply arrives, the lease is never lost. */
  lemma {:induction false} UndisturbedLeaseIsKept(b: Bucket<Role, string>, role: Role, holder: string, rev: nat,
                                                  ticks: seq<Tick>)
    requires role in b.live && b.live[role] == Entry(holder, rev)
    requires forall i :: 0 <= i < |ticks| ==> ticks[i].others == [] && ticks[i].heard
    ensures var r := Renewals(b, role, holder, rev, ticks);
      !r.lost && role in r.b.live && r.b.live[role] == Entry(holder, r.rev) && r.b.last == b.last + |ticks|
    decreases |ticks|
  {
    if ticks != [] {
      UndisturbedLeaseIsKept(b.Put(role, holder), role, holder, b.last + 1, ticks[1..]);
    }
  }
}
