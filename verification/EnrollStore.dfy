/** The enrollment store and the challenge store as one master runs them, call by call, while any
    other client may write to the same buckets between its reads and its writes. */
module EnrollStore {
  import opened KeyValue
  import opened KvClient
  import opened Enrollment
  import EnrollProtocol

  type RecordOps = seq<Op<RecId, Record>>
  type IndexOps = seq<Op<PeelId, RecId>>

  /** A decision took effect as one atomic step: on the bucket as others left it, whose record was
      still the one read, and nothing else changed; or it was refused and changed nothing. */
  ghost predicate ActsAtOnce(was: Bucket<RecId, Record>, others: RecordOps, id: RecId, op: Decision, now: Time,
                             ends: Bucket<RecId, Record>, r: Option<Record>)
  {
    var mid := ApplyAll(was, others);
    match r
    case Some(rec) =>
      && id in mid.live && mid.Get(id) == was.Get(id)
      && Decide(mid.live[id].value, op, now) == Some(rec)
      && ends == mid.Put(id, rec)
    case None =>
      && ends == mid
      && (id in was.live && mid.Get(id) == was.Get(id) ==> Decide(mid.live[id].value, op, now).None?)
  }

  /** The bucket still holds an entry at the revision it was read at. */
  ghost predicate StillThere(b: Bucket<RecId, Record>, seen: Entry<Record>) {
    seen.value.id in b.live && b.live[seen.value.id].rev == seen.rev
  }

  class Store {
    const index: Kv<PeelId, RecId>
    const records: Kv<RecId, Record>

    constructor (index: Kv<PeelId, RecId>, records: Kv<RecId, Record>)
      ensures this.index == index && this.records == records
    {
      this.index := index;
      this.records := records;
    }

    /** The record's revision must still be current, or the update fails. */
    method Update(rec: Record, rev: nat) returns (ok: bool)
      modifies records
      ensures records.b == After(old(records.b), old(records.b).Update(rec.id, rec, rev))
      ensures ok == old(records.b).Update(rec.id, rec, rev).Wrote?
    {
      var out := records.Update(rec.id, rec, rev);
      ok := out.Some?;
    }

    method ApproveForce(id: RecId, force: bool, now: Time, others: RecordOps) returns (r: Option<Record>)
      requires records.b.Valid() && OwnIds(records.b)
      modifies records
      ensures ActsAtOnce(old(records.b), others, id, Approve(force), now, records.b, r)
    {
      var got := records.Get(id);
      CasIsAtomic(records.b, others, id);
      records.Others(others);
      if got.None? {
        return None;
      }
      var rec := got.value.value;
      if rec.mismatch && !force {
        return None;
      }
      if !CanTransition(rec.state, Approved) {
        return None;
      }
      rec := rec.(state := Approved, decidedAt := Some(now), updatedAt := now);
      var ok := Update(rec, got.value.rev);
      r := if ok then Some(rec) else None;
    }

    method Reject(id: RecId, now: Time, others: RecordOps) returns (r: Option<Record>)
      requires records.b.Valid() && OwnIds(records.b)
      modifies records
      ensures ActsAtOnce(old(records.b), others, id, Decision.Reject, now, records.b, r)
    {
      var got := records.Get(id);
      CasIsAtomic(records.b, others, id);
      records.Others(others);
      if got.None? || !CanTransition(got.value.value.state, Rejected) {
        return None;
      }
      var rec := got.value.value.(state := Rejected, decidedAt := Some(now), updatedAt := now);
      var ok := Update(rec, got.value.rev);
      r := if ok then Some(rec) else None;
    }

    method MarkIssued(id: RecId, now: Time, others: RecordOps) returns (r: Option<Record>)
      requires records.b.Valid() && OwnIds(records.b)
      modifies records
      ensures ActsAtOnce(old(records.b), others, id, Decision.MarkIssued, now, records.b, r)
    {
      var got := records.Get(id);
      CasIsAtomic(records.b, others, id);
      records.Others(others);
      if got.None? || !CanTransition(got.value.value.state, Issued) {
        return None;
      }
      var rec := got.value.value.(state := Issued, updatedAt := now);
      var ok := Update(rec, got.value.rev);
      r := if ok then Some(rec) else None;
    }

    method MarkActive(id: RecId, now: Time, others: RecordOps) returns (r: Option<Record>)
      requires records.b.Valid() && OwnIds(records.b)
      modifies records
      ensures ActsAtOnce(old(records.b), others, id, Decision.MarkActive, now, records.b, r)
    {
      var got := records.Get(id);
      CasIsAtomic(records.b, others, id);
      records.Others(others);
      if got.None? || !CanTransition(got.value.value.state, Active) {
        return None;
      }
      var rec := got.value.value.(state := Active, updatedAt := now);
      var ok := Update(rec, got.value.rev);
      r := if ok then Some(rec) else None;
    }

    method Revoke(id: RecId, now: Time, others: RecordOps) returns (r: Option<Record>)
      requires records.b.Valid() && OwnIds(records.b)
      modifies records
      ensures ActsAtOnce(old(records.b), others, id, Decision.Revoke, now, records.b, r)
    {
      var got := records.Get(id);
      CasIsAtomic(records.b, others, id);
      records.Others(others);
      if got.None? || !CanTransition(got.value.value.state, Revoked) {
        return None;
      }
      var rec := got.value.value.(state := Revoked, decidedAt := Some(now), updatedAt := now);
      var ok := Update(rec, got.value.rev);
      r := if ok then Some(rec) else None;
    }

    /** Claim the index, then write the record; roll the claim back if that seems to have failed.
        `onIndex` and `onRecords` are what others do between claim and write, `later` what they do
        before the rollback; `claim`, `write` and `rollback` are what becomes of the three writes. A
        claim that is not heard of stays, and a record write that is not heard of stays too, while its
        claim is rolled back. */
    method Create(rec: Record, onIndex: IndexOps, onRecords: RecordOps, later: IndexOps,
                  claim: Net, write: Net, rollback: Net)
      returns (ok: bool)
      modifies index, records
      ensures rec.peel in old(index.b).live || claim.Down? ==>
        !ok && index.b == old(index.b) && records.b == old(records.b)
      ensures rec.peel !in old(index.b).live && claim.Unheard? ==>
        !ok && index.b == old(index.b).Put(rec.peel, rec.id) && records.b == old(records.b)
      ensures rec.peel !in old(index.b).live && claim.Heard? ==>
        var claimed := ApplyAll(old(index.b).Put(rec.peel, rec.id), onIndex);
        var mid := ApplyAll(old(records.b), onRecords);
        var wrote := !write.Down? && rec.id !in mid.live;
        && ok == (wrote && write.Heard?)
        && records.b == (if wrote then mid.Put(rec.id, rec) else mid)
        && index.b == (if ok then claimed
                       else if rollback.Down? then ApplyAll(claimed, later)
                       else ApplyAll(claimed, later).Remove(rec.peel))
    {
      var claimed := index.SendCreate(rec.peel, rec.id, claim);
      if claimed.None? {
        return false;
      }
      index.Others(onIndex);
      records.Others(onRecords);
      var out := records.SendCreate(rec.id, rec, write);
      if out.Some? {
        return true;
      }
      index.Others(later);
      index.SendDelete(rec.peel, rollback);
      ok := false;
    }

    /** The records after the new one was written and heard of, and others wrote: the old one is
        retired if its revision is still the one read, or the new one is removed again, unless that
        last write is lost. */
    ghost function Superseded(was: Bucket<RecId, Record>, rec: Record, prior: Entry<Record>, now: Time,
                              others: RecordOps, ok: bool, cleanup: Net): (b: Bucket<RecId, Record>)
    {
      var mid := ApplyAll(was.Put(rec.id, rec), others);
      if cleanup.Down? then mid
      else if !ok then mid.Remove(rec.id)
      else
        match Retire(prior.value, now)
        case None => mid
        case Some(retired) => After(mid, mid.Update(retired.id, retired, prior.rev))
    }

    /** Write the new record, repoint the index with a compare-and-swap, then retire the old record.
        `write`, `swap` and `cleanup` are what becomes of the record write, the swap, and the
        retirement or rollback. The index is repointed exactly if the swap gets through and the
        entry is still the one read, so it is never absent in between; a swap that is refused, lost
        or not heard of removes the new record again. An old record that was approved, issued or active
        and is still the one read ends up revoked, unless the write that does it is lost. */
    method Supersede(rec: Record, prior: Entry<Record>, now: Time, onIndex: IndexOps, onRecords: RecordOps,
                     write: Net, swap: Net, cleanup: Net)
      returns (ok: bool)
      requires index.b.Valid()
      modifies index, records
      ensures rec.peel !in old(index.b).live || rec.id in old(records.b).live || write.Down? ==>
        !ok && index.b == old(index.b) && records.b == old(records.b)
      ensures rec.peel in old(index.b).live && rec.id !in old(records.b).live && write.Unheard? ==>
        !ok && index.b == old(index.b) && records.b == old(records.b).Put(rec.id, rec)
      ensures rec.peel in old(index.b).live && rec.id !in old(records.b).live && write.Heard? ==>
        var mid := ApplyAll(old(index.b), onIndex);
        var swapped := !swap.Down? && mid.Get(rec.peel) == old(index.b).Get(rec.peel);
        && ok == (swapped && swap.Heard?)
        && index.b == (if swapped then mid.Put(rec.peel, rec.id) else mid)
        && records.b == Superseded(old(records.b), rec, prior, now, onRecords, ok, cleanup)
      ensures ok && !cleanup.Down? && StillThere(ApplyAll(old(records.b).Put(rec.id, rec), onRecords), prior) ==>
        var was := prior.value;
        && was.id in records.b.live
        && records.b.live[was.id].value ==
           (if was.state in {Approved, Issued, Active}
            then Record(was.id, was.peel, was.key, Revoked, was.mismatch, Some(now), now)
            else ApplyAll(old(records.b).Put(rec.id, rec), onRecords).live[was.id].value)
    {
      RetireRevokes(prior.value, now);
      var entry := index.Get(rec.peel);
      if entry.None? {
        return false;
      }
      var written := records.SendCreate(rec.id, rec, write);
      if written.None? {
        return false;
      }
      RunGrows(index.b, onIndex);
      index.Others(onIndex);
      records.Others(onRecords);
      var pointed := index.SendUpdate(rec.peel, rec.id, entry.value.rev, swap);
      if pointed.None? {
        records.SendDelete(rec.id, cleanup);
        return false;
      }
      var retired := Retire(prior.value, now);
      if retired.Some? {
        var _ := records.SendUpdate(retired.value.id, retired.value, prior.rev, cleanup);
      }
      ok := true;
    }

    /** The lookup through the index; a missing record counts as not enrolled. */
    method FindByPeelId(peel: PeelId, others: RecordOps) returns (r: Option<Entry<Record>>)
      modifies records
      ensures records.b == ApplyAll(old(records.b), others)
      ensures r == if peel in index.b.live then records.b.Get(index.b.live[peel].value) else None
    {
      var entry := index.Get(peel);
      records.Others(others);
      if entry.None? {
        return None;
      }
      r := records.Get(entry.value.value);
    }

    /** Unfenced: whatever the index holds for the peel is gone. */
    method ReleaseIndex(peel: PeelId)
      modifies index
      ensures index.b == old(index.b).Remove(peel)
    {
      var _ := index.Delete(peel, []);
    }
  }

  /** Whatever others do between the read and the swap, an unchanged revision means an unchanged
      record. */
  lemma CasIsAtomic(was: Bucket<RecId, Record>, others: RecordOps, id: RecId)
    requires was.Valid()
    ensures var mid := ApplyAll(was, others);
      id in was.live && id in mid.live && mid.live[id].rev == was.live[id].rev ==> mid.Get(id) == was.Get(id)
  {
    RunGrows(was, others);
  }

  /** A store call under interference is what the protocol's deciding thread does: its swap on the
      store the others left has the same outcome and the same records. */
  lemma CallIsProtocolThread(was: Bucket<RecId, Record>, others: RecordOps, id: RecId, op: Decision, now: Time,
                             ends: Bucket<RecId, Record>, r: Option<Record>,
                             s: EnrollProtocol.Store, env: EnrollProtocol.Env)
    requires was.Valid() && OwnIds(was) && id in was.live
    requires ActsAtOnce(was, others, id, op, now, ends, r)
    requires s.kv == ApplyAll(was, others) && !env.net.Down? && env.now == now
    ensures var made := Decide(was.live[id].value, op, now);
      var out := EnrollProtocol.TryCas(s, was.live[id], made, op == Approve(true), env);
      (out.Some? <==> r.Some?) && ends == (if out.Some? then out.value.kv else s.kv)
  {
    CasIsAtomic(was, others, id);
  }

  // ----- challenges -----

  const ChallengeTTL: Time := 300_000_000_000

  class ChallengeStore {
    const kv: Kv<ChId, Challenge>

    constructor (kv: Kv<ChId, Challenge>)
      ensures this.kv == kv
    {
      this.kv := kv;
    }

    method Issue(id: ChId, peel: PeelId, key: Key, now: Time) returns (r: Option<Challenge>)
      modifies kv
      ensures r.Some? <==> id !in old(kv.b).live
      ensures r.Some? ==> r.value == Challenge(peel, key, now + ChallengeTTL, false)
      ensures kv.b == if r.Some? then old(kv.b).Put(id, r.value) else old(kv.b)
    {
      var rec := Challenge(peel, key, now + ChallengeTTL, false);
      var out := kv.Create(id, rec);
      r := if out.Some? then Some(rec) else None;
    }

    /** A challenge is handed out exactly if it is unused, unexpired and untouched since it was read;
        it is then marked used, and removed if the cleanup gets through. */
    method Consume(id: ChId, now: Time, others: seq<Op<ChId, Challenge>>, cleanup: bool)
      returns (r: Option<Challenge>)
      requires kv.b.Valid()
      modifies kv
      ensures var mid := ApplyAll(old(kv.b), others);
        && (r.Some? <==>
              && id in mid.live && mid.Get(id) == old(kv.b).Get(id)
              && !mid.live[id].value.used && now <= mid.live[id].value.expiresAt)
        && (r.Some? ==> r.value == mid.live[id].value.(used := true))
        && kv.b == (if r.None? then mid else if cleanup then mid.Put(id, r.value).Remove(id) else mid.Put(id, r.value))
      ensures r.Some? ==> id !in kv.b.live || kv.b.live[id].value.used
    {
      var entry := kv.Get(id);
      RunGrows(kv.b, others);
      kv.Others(others);
      if entry.None? || entry.value.value.used || now > entry.value.value.expiresAt {
        return None;
      }
      var rec := entry.value.value.(used := true);
      var out := kv.Update(id, rec, entry.value.rev);
      if out.None? {
        return None;
      }
      if cleanup {
        var _ := kv.Delete(id, []);
      }
      r := Some(rec);
    }
  }
}
