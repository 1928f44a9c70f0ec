/** The enrollment request and the credential download as code, for one call at a time; what
    concurrent calls can do to each other is the subject of the protocol modules. */
module EnrollHandler {
  import opened KeyValue
  import opened Enrollment
  import opened EnrollStore

  datatype Response =
    | BadChallenge
    | Denied
    | AlreadyPending(id: RecId)
      // the record to reject is named only while it is pending
    | Conflict(rejectable: Option<RecId>)
    | Created(id: RecId)
    | Failed

  datatype Credential = Credential(peel: PeelId, key: Key)

  /** The peel's identity is taken: the index leads to a record that is not rejected or revoked and
      carries another key. */
  ghost predicate TakenByOther(index: Bucket<PeelId, RecId>, records: Bucket<RecId, Record>, req: Request) {
    && req.peel in index.live && index.live[req.peel].value in records.live
    && var rec := records.live[index.live[req.peel].value].value;
       rec.key != req.key && rec.state !in {Rejected, Revoked}
  }

  /** The peel can be enrolled under the request's key: it is unknown, its record is rejected or
      revoked, or the same key recovers an enrollment that is past pending. */
  ghost predicate Available(index: Bucket<PeelId, RecId>, records: Bucket<RecId, Record>, req: Request) {
    req.peel in index.live ==>
      && index.live[req.peel].value in records.live
      && var rec := records.live[index.live[req.peel].value].value;
         rec.state in {Rejected, Revoked} || (rec.key == req.key && !rec.state.Pending?)
  }

  /** The same key recovers an enrollment that was approved, issued or active: this is the record it
      replaces. */
  ghost predicate Replaces(index: Bucket<PeelId, RecId>, records: Bucket<RecId, Record>, req: Request, id: RecId) {
    && req.peel in index.live && index.live[req.peel].value == id && id in records.live
    && records.live[id].value.key == req.key && records.live[id].value.state in {Approved, Issued, Active}
  }

  /** The same key already waits for a decision. */
  ghost predicate Waiting(index: Bucket<PeelId, RecId>, records: Bucket<RecId, Record>, req: Request) {
    && req.peel in index.live && index.live[req.peel].value in records.live
    && var rec := records.live[index.live[req.peel].value].value;
       rec.key == req.key && rec.state == Pending
  }

  /** The records after a request was entered as `newId`: the request's own record is there, pending;
      the record it replaces, if any, is revoked; every other one is as it was. */
  ghost predicate Entered(index: Bucket<PeelId, RecId>, was: Bucket<RecId, Record>, ends: Bucket<RecId, Record>,
                          req: Request, mismatch: bool, now: Time, newId: RecId)
  {
    && newId in ends.live
    && ends.live[newId].value == Record(newId, req.peel, req.key, Pending, mismatch, None, now)
    && forall id :: id in was.live ==>
         id in ends.live &&
         var rec := was.live[id].value;
         ends.live[id].value ==
           if Replaces(index, was, req, id)
           then Record(id, rec.peel, rec.key, Revoked, rec.mismatch, Some(now), now)
           else rec
  }

  lemma AddedIsEntered(index: Bucket<PeelId, RecId>, was: Bucket<RecId, Record>, req: Request, mismatch: bool,
                       now: Time, newId: RecId)
    requires newId !in was.live && forall id :: id in was.live ==> !Replaces(index, was, req, id)
    ensures Entered(index, was, was.Put(newId, NewRecord(newId, req, mismatch, now)), req, mismatch, now, newId)
  {
  }

  lemma ReplacedIsEntered(index: Bucket<PeelId, RecId>, was: Bucket<RecId, Record>, req: Request, mismatch: bool,
                          now: Time, newId: RecId, id: RecId)
    requires newId !in was.live && OwnIds(was) && Replaces(index, was, req, id)
    ensures var rec := was.live[id].value;
      var mid := was.Put(newId, NewRecord(newId, req, mismatch, now));
      Retire(rec, now).Some? && Retire(rec, now).value.id == id &&
      var out := mid.Update(id, Retire(rec, now).value, was.live[id].rev);
      out.Wrote? && Entered(index, was, out.bucket, req, mismatch, now, newId)
  {
    RetireRevokes(was.live[id].value, now);
  }

  /** A challenge that can be spent. */
  ghost predicate Spendable(b: Bucket<ChId, Challenge>, id: ChId, now: Time) {
    id in b.live && !b.live[id].value.used && now <= b.live[id].value.expiresAt
  }

  /** A challenge that was issued for this very request, is unused and not expired. */
  ghost predicate ChallengeFor(b: Bucket<ChId, Challenge>, req: Request, now: Time) {
    && Spendable(b, req.challenge, now)
    && b.live[req.challenge].value.peel == req.peel && b.live[req.challenge].value.key == req.key
  }

  class Handler {
    const store: Store
    const challenges: ChallengeStore

    constructor (store: Store, challenges: ChallengeStore)
      ensures this.store == store && this.challenges == challenges
    {
      this.store := store;
      this.challenges := challenges;
    }

    /** Consume the challenge and check binding, signature and trust. */
    method Authenticate(req: Request, pin: string, now: Time) returns (r: Option<bool>, spent: bool)
      requires challenges.kv.b.Valid()
      modifies challenges.kv
      ensures r == if ChallengeFor(old(challenges.kv.b), req, now) && req.proved then TrustGate(pin, req) else None
      ensures spent <==> Spendable(old(challenges.kv.b), req.challenge, now)
      ensures spent ==> req.challenge !in challenges.kv.b.live
      ensures !spent ==> challenges.kv.b == old(challenges.kv.b)
    {
      var ch := challenges.Consume(req.challenge, now, [], true);
      if ch.None? {
        return None, false;
      }
      spent := true;
      if ch.value.peel != req.peel || ch.value.key != req.key {
        return None, true;
      }
      if !req.proved {
        return None, true;
      }
      r := TrustGate(pin, req);
    }

    /** The branch on the record the index leads to, and the write. */
    method Enter(req: Request, mismatch: bool, now: Time, newId: RecId) returns (r: Response)
      requires store.index.b.Valid() && store.records.b.Valid() && OwnIds(store.records.b)
      requires newId !in store.records.b.live
      modifies store.index, store.records
      ensures r.Created? <==> Available(old(store.index.b), old(store.records.b), req)
      ensures r.Conflict? <==> TakenByOther(old(store.index.b), old(store.records.b), req)
      ensures r.AlreadyPending? <==> Waiting(old(store.index.b), old(store.records.b), req)
      ensures !r.BadChallenge? && !r.Denied?
      ensures !r.Created? ==> store.index.b == old(store.index.b) && store.records.b == old(store.records.b)
      ensures r.Created? ==>
        && r.id == newId
        && Entered(old(store.index.b), old(store.records.b), store.records.b, req, mismatch, now, newId)
        && req.peel in store.index.b.live && store.index.b.live[req.peel].value == newId
      ensures r.AlreadyPending? ==> r.id == old(store.index.b).live[req.peel].value
      ensures r.Conflict? ==>
        var id := old(store.index.b).live[req.peel].value;
        r.rejectable == if old(store.records.b).live[id].value.state == Pending then Some(id) else None
    {
      var existing := store.FindByPeelId(req.peel, []);
      var rec := NewRecord(newId, req, mismatch, now);
      if existing.Some? {
        var known := existing.value.value;
        match PlanFor(known, req) {
          case Answer =>
            if known.key != req.key {
              return Conflict(if known.state.Pending? then Some(known.id) else None);
            }
            return AlreadyPending(known.id);
          case Replace =>
            ReplacedIsEntered(store.index.b, store.records.b, req, mismatch, now, newId, known.id);
            var ok := store.Supersede(rec, existing.value, now, [], [], Heard, Heard, Heard);
            return if ok then Created(newId) else Failed;
          case Free =>
            store.ReleaseIndex(req.peel);
        }
      }
      AddedIsEntered(old(store.index.b), store.records.b, req, mismatch, now, newId);
      var ok := store.Create(rec, [], [], [], Heard, Heard, Heard);
      r := if ok then Created(newId) else Failed;
    }

    /** handleEnroll. A record is created exactly for a request that spends its own challenge, proves
        its key, passes the trust gate and asks for an available peel; the record is then the request's,
        the index names it, and a record it replaces is revoked. Any other request leaves index and
        records as they were. */
    method HandleEnroll(req: Request, pin: string, now: Time, newId: RecId) returns (r: Response)
      requires challenges.kv.b.Valid()
      requires store.index.b.Valid() && store.records.b.Valid() && OwnIds(store.records.b)
      requires newId !in store.records.b.live
      modifies challenges.kv, store.index, store.records
      ensures r.Created? <==>
        && ChallengeFor(old(challenges.kv.b), req, now) && req.proved && TrustGate(pin, req).Some?
        && Available(old(store.index.b), old(store.records.b), req)
      ensures r.BadChallenge? <==> !Spendable(old(challenges.kv.b), req.challenge, now)
      ensures r.Denied? <==>
        && Spendable(old(challenges.kv.b), req.challenge, now)
        && !(ChallengeFor(old(challenges.kv.b), req, now) && req.proved && TrustGate(pin, req).Some?)
      ensures r.Conflict? ==> TakenByOther(old(store.index.b), old(store.records.b), req)
      ensures r.AlreadyPending? ==> Waiting(old(store.index.b), old(store.records.b), req)
      ensures !r.BadChallenge? ==> req.challenge !in challenges.kv.b.live
      ensures r.Created? ==>
        && Entered(old(store.index.b), old(store.records.b), store.records.b, req, TrustGate(pin, req).value, now,
                   newId)
        && req.peel in store.index.b.live && store.index.b.live[req.peel].value == newId
      ensures !r.Created? ==> store.records.b == old(store.records.b) && store.index.b == old(store.index.b)
    {
      var flag, spent := Authenticate(req, pin, now);
      if flag.None? {
        return if spent then Denied else BadChallenge;
      }
      r := Enter(req, flag.value, now, newId);
    }

    /** handleCreds: exactly an approved record whose owner proves its key yields a credential, for that
        record's peel and key, and the record is issued before the credential is returned. */
    method HandleCreds(id: RecId, proved: bool, now: Time) returns (r: Option<Credential>)
      requires store.records.b.Valid() && OwnIds(store.records.b)
      modifies store.records
      ensures r.Some? <==>
        id in old(store.records.b).live && old(store.records.b).live[id].value.state.Approved? && proved
      ensures r.Some? ==>
        var rec := old(store.records.b).live[id].value;
        && r.value == Credential(rec.peel, rec.key)
        && id in store.records.b.live && store.records.b.live[id].value == rec.(state := Issued, updatedAt := now)
      ensures r.None? ==> store.records.b == old(store.records.b)
    {
      var got := store.records.Get(id);
      if got.None? || got.value.value.state != Approved || !proved {
        return None;
      }
      var creds := Credential(got.value.value.peel, got.value.value.key);
      var issued := store.MarkIssued(id, now, []);
      r := if issued.Some? then Some(creds) else None;
    }
  }
}
