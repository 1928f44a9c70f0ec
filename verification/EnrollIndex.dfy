/** The peel index as a uniqueness guard. An entry is removed by releasing it for re-enrollment and
    by rolling a failed Create back, and neither is fenced. In every run in which that happens only
    at idle peels, all records of a peel that are neither rejected nor revoked carry one key. In
    every run in which it only ever happens to a claim without a record, all records of a peel that
    ever exist carry the key of the first claimant. */
module EnrollIndex {
  import opened KeyValue
  import opened Enrollment
  import opened EnrollProtocol
  import EnrollLifecycle

  // ----- removing an entry -----

  /** About to remove the entry of its peel. */
  predicate IsRemoving(th: Thread) {
    th.Releasing? || th.RollingBack?
  }

  function PeelOf(th: Thread): (p: PeelId)
    requires IsRemoving(th)
  {
    if th.Releasing? then th.req.peel else th.rec.peel
  }

  /** A step that removes an entry. */
  predicate Removes(w: World, s: Step) {
    && s.Act? && s.t in w.threads && IsRemoving(w.threads[s.t])
    && !s.env.net.Down? && PeelOf(w.threads[s.t]) in w.index.kv.live
  }

  /** Committed to a record of the peel that is yet to be written. */
  predicate IsCommitted(th: Thread, p: PeelId) {
    (th.Writing? || th.SupIndex? || th.SupWrite?) && th.rec.peel == p
  }

  /** The record exists and is neither rejected nor revoked. */
  ghost predicate IsOpen(s: Store, id: RecId) {
    id in s.kv.live && !EnrollLifecycle.IsDecided(s, id)
  }

  /** No record of the peel is open and no call is committed to one. */
  ghost predicate IsIdle(w: World, p: PeelId) {
    && (forall id :: IsOpen(w.store, id) ==> w.store.kv.live[id].value.peel != p)
    && (forall u :: u in w.threads ==> !IsCommitted(w.threads[u], p))
  }

  /** If the step removes an entry, that entry's peel is idle. */
  ghost predicate IsCareful(w: World, s: Step) {
    Removes(w, s) ==> IsIdle(w, PeelOf(w.threads[s.t]))
  }

  // ----- the invariant -----

  /** Holds, or held to its end, an index claim for its record. */
  predicate IsClaimant(th: Thread) {
    th.Writing? || th.RollingBack? || th.Stranded?
  }

  predicate IsPlanning(th: Thread) {
    th.Claiming? || th.SupIndex? || th.SupWrite?
  }

  ghost predicate ClaimHeld(w: World, id: RecId, p: PeelId) {
    && id in w.minted && w.minted[id] in w.threads
    && var th := w.threads[w.minted[id]];
       IsClaimant(th) && th.rec.id == id && th.rec.peel == p
  }

  /** The peel's entry leads to a record that was written, and the peel belongs to the key. */
  ghost predicate IsAnchored(w: World, p: PeelId, key: Key) {
    && p in w.index.kv.live && w.index.kv.live[p].value in w.store.born
    && p in w.index.owner && w.index.owner[p] == key
  }

  ghost predicate EntryOk(w: World, p: PeelId)
    requires p in w.index.kv.live
  {
    var id := w.index.kv.live[p].value;
    && id in w.index.named && w.index.named[id] == p
    && p in w.index.owner
    && (id in w.store.born || ClaimHeld(w, id, p))
  }

  ghost predicate RecordOk(w: World, id: RecId)
    requires id in w.store.born
  {
    IsAnchored(w, w.store.born[id].peel, w.store.born[id].key)
  }

  /** A record the index named is there, unless its call deleted it after an unheard swap. */
  ghost predicate NamedOk(w: World, id: RecId)
    requires id in w.index.named
  {
    && id in w.minted
    && (id in w.store.born ==>
          && w.store.born[id].peel == w.index.named[id]
          && (id in w.store.kv.live || id in w.index.missed))
  }

  ghost predicate IsMinted(w: World, t: Tid, rec: Record) {
    rec.id in w.minted && w.minted[rec.id] == t
  }

  ghost predicate ClaimantOk(w: World, th: Thread)
    requires IsClaimant(th)
  {
    && th.rec.id in w.index.named && w.index.named[th.rec.id] == th.rec.peel
    && (th.rec.id in w.store.born ==> !th.Writing? && w.store.born[th.rec.id] == th.rec)
    && (th.Writing? ==> StandsFor(w, th.rec))
  }

  /** The entry of the record's peel is the claim for this very record. */
  ghost predicate StandsFor(w: World, rec: Record) {
    && rec.peel in w.index.kv.live && w.index.kv.live[rec.peel].value == rec.id
    && rec.peel in w.index.owner && w.index.owner[rec.peel] == rec.key
  }

  /** The swap can only still succeed while the peel belongs to the record's key. */
  ghost predicate SwapOk(w: World, rec: Record, rev: nat) {
    && rev <= w.index.kv.last
    && (rec.peel in w.index.kv.live && w.index.kv.live[rec.peel].rev == rev ==>
          IsAnchored(w, rec.peel, rec.key) && rec.id !in w.index.retired)
  }

  ghost predicate IsWritten(w: World, rec: Record) {
    rec.id in w.store.born && w.store.born[rec.id] == rec
  }

  ghost predicate ThreadOk(w: World, t: Tid, th: Thread) {
    && (IsClaimant(th) ==> IsMinted(w, t, th.rec) && ClaimantOk(w, th))
    && (IsPlanning(th) ==> IsMinted(w, t, th.rec) && th.rec.id !in w.store.born && th.rec.id !in w.index.named)
    && (th.SupIndex? || th.SupWrite? ==> IsAnchored(w, th.rec.peel, th.rec.key))
    && (th.SupWrite? ==> th.idxRev <= w.index.kv.last)
    && (th.SupRepoint? ==>
          && IsMinted(w, t, th.rec) && IsWritten(w, th.rec) && th.rec.id !in w.index.named
          && th.rec.id in w.store.kv.live && SwapOk(w, th.rec, th.idxRev))
    && (th.SupRollback? ==>
          && IsMinted(w, t, th.rec) && IsWritten(w, th.rec)
          && (th.rec.id in w.index.named ==> th.rec.id in w.index.missed))
    && (th.Reading? ==> th.id in w.index.named && w.index.named[th.id] == th.req.peel)
  }

  ghost predicate Guarded(w: World) {
    && w.index.kv.Valid()
    && (forall p {:trigger EntryOk(w, p)} :: p in w.index.kv.live ==> EntryOk(w, p))
    && (forall id {:trigger RecordOk(w, id)} :: id in w.store.born && id !in w.index.retired ==> RecordOk(w, id))
    && (forall id {:trigger NamedOk(w, id)} :: id in w.index.named ==> NamedOk(w, id))
    && (forall id :: id in w.store.born ==> id in w.minted)
    && (forall t {:trigger ThreadOk(w, t, w.threads[t])} :: t in w.threads ==> ThreadOk(w, t, w.threads[t]))
  }

  /** Records from before the last removal are not open. */
  ghost predicate RetiredOk(w: World) {
    forall id :: id in w.index.retired ==> id in w.store.born && !IsOpen(w.store, id)
  }

  // ----- what a step of thread `t` may do, seen from the others -----

  ghost predicate Frame(w: World, w': World, t: Tid) {
    && (forall id :: id in w.minted ==> id in w'.minted && w'.minted[id] == w.minted[id])
    && (forall id :: id in w.store.born ==> id in w'.store.born && w'.store.born[id] == w.store.born[id])
    && (forall id :: id in w'.store.born && id !in w.store.born ==> id in w.minted && w.minted[id] == t)
    && (forall id :: id in w.index.named ==> id in w'.index.named && w'.index.named[id] == w.index.named[id])
    && (forall id :: id in w'.index.named && id !in w.index.named ==> id in w.minted && w.minted[id] == t)
    && w.index.missed <= w'.index.missed
    && (forall id :: id in w.store.kv.live && id in w.minted && w.minted[id] != t ==> id in w'.store.kv.live)
    && (forall u :: u in w'.threads && u != t ==> u in w.threads && w'.threads[u] == w.threads[u])
    && (forall u :: u in w.threads ==> u in w'.threads)
  }

  /** The entry of `p` stays, with its owner: a claim as it is, an anchor as an anchor. */
  ghost predicate PeelKept(w: World, w': World, p: PeelId) {
    p in w.index.kv.live ==>
      && p in w'.index.kv.live
      && (w'.index.kv.live[p].value == w.index.kv.live[p].value
          || (w.index.kv.live[p].value in w.store.born && w'.index.kv.live[p].value in w'.store.born))
      && (p in w.index.owner ==> p in w'.index.owner && w'.index.owner[p] == w.index.owner[p])
  }

  /** Removals apart, which retire the records of their peel. */
  ghost predicate IndexStep(w: World, w': World) {
    && Grows(w.index.kv, w'.index.kv)
    && w.index.retired <= w'.index.retired
    && (forall id :: id in w'.index.retired && id !in w.index.retired ==>
          id in w.store.born && w.store.born[id].peel !in w'.index.kv.live)
  }

  lemma SwapStaysOk(w: World, w': World, rec: Record, rev: nat)
    requires SwapOk(w, rec, rev) && IndexStep(w, w') && w.index.kv.Valid() && IsWritten(w, rec)
    requires rec.peel in w'.index.kv.live ==> PeelKept(w, w', rec.peel)
    requires forall id :: id in w.store.born ==> id in w'.store.born
    ensures SwapOk(w', rec, rev)
  {
  }

  lemma OtherOk(w: World, w': World, t: Tid, u: Tid)
    requires Guarded(w) && Frame(w, w', t) && IndexStep(w, w') && u in w'.threads && u != t
    requires forall p :: IsCommitted(w'.threads[u], p) || p in w'.index.kv.live ==> PeelKept(w, w', p)
    ensures ThreadOk(w', u, w'.threads[u])
  {
    var th := w.threads[u];
    assert ThreadOk(w, u, th);
    if th.SupRepoint? {
      SwapStaysOk(w, w', th.rec, th.idxRev);
    } else if IsClaimant(th) || th.SupIndex? || th.SupWrite? {
      assert IsCommitted(th, th.rec.peel) || th.RollingBack? || th.Stranded?;
    }
  }

  /** Entries whose index value did not change stay justified. */
  lemma EntryKept(w: World, w': World, t: Tid, p: PeelId)
    requires Guarded(w) && Frame(w, w', t)
    requires p in w.index.kv.live && p in w'.index.kv.live
    requires w'.index.kv.live[p].value == w.index.kv.live[p].value
    requires p in w.index.owner ==> p in w'.index.owner
    requires t in w.threads && IsClaimant(w.threads[t]) && w.threads[t].rec.peel == p ==>
      (t in w'.threads && IsClaimant(w'.threads[t]) && w'.threads[t].rec == w.threads[t].rec)
      || w.threads[t].rec.id in w'.store.born
    ensures EntryOk(w', p)
  {
    assert EntryOk(w, p);
    assert t in w.threads ==> ThreadOk(w, t, w.threads[t]);
  }

  lemma EntriesOk(w: World, w': World, t: Tid)
    requires Guarded(w) && Frame(w, w', t)
    requires forall p :: p in w'.index.kv.live ==>
      EntryOk(w', p) || (p in w.index.kv.live && w'.index.kv.live[p].value == w.index.kv.live[p].value)
    requires forall p :: p in w.index.owner ==> p in w'.index.owner
    requires t in w.threads && IsClaimant(w.threads[t]) && w.threads[t].rec.peel in w'.index.kv.live ==>
      (t in w'.threads && IsClaimant(w'.threads[t]) && w'.threads[t].rec == w.threads[t].rec)
      || w.threads[t].rec.id in w'.store.born
    ensures forall p :: p in w'.index.kv.live ==> EntryOk(w', p)
  {
    forall p | p in w'.index.kv.live ensures EntryOk(w', p) {
      if !EntryOk(w', p) {
        EntryKept(w, w', t, p);
      }
    }
  }

  lemma RecordsOk(w: World, w': World, t: Tid)
    requires Guarded(w) && Frame(w, w', t) && w.index.retired <= w'.index.retired
    requires forall id :: id in w.store.born && id !in w'.index.retired ==> PeelKept(w, w', w.store.born[id].peel)
    requires forall id :: id in w'.store.born && id !in w.store.born ==> RecordOk(w', id)
    ensures forall id :: id in w'.store.born && id !in w'.index.retired ==> RecordOk(w', id)
  {
    forall id | id in w'.store.born && id !in w'.index.retired ensures RecordOk(w', id) {
      if id in w.store.born {
        assert RecordOk(w, id);
        assert PeelKept(w, w', w.store.born[id].peel);
      }
    }
  }

  lemma NamesOk(w: World, w': World, t: Tid)
    requires Guarded(w) && Frame(w, w', t)
    requires forall id :: id in w'.index.named ==> id in w.index.named || NamedOk(w', id)
    requires forall id :: id in w.index.named && id in w.store.kv.live ==>
      id in w'.store.kv.live || id in w'.index.missed
    requires forall id :: id in w.index.named && id in w'.store.born && id !in w.store.born ==>
      id in w'.store.kv.live && w'.store.born[id].peel == w.index.named[id]
    ensures forall id :: id in w'.index.named ==> NamedOk(w', id)
  {
    forall id | id in w'.index.named ensures NamedOk(w', id) {
      assert id in w.index.named ==> NamedOk(w, id);
    }
  }

  // ----- quiet steps: index, record identifiers and births unchanged -----

  ghost predicate Quiet(w: World, w': World, t: Tid) {
    && w'.index == w.index
    && w'.store.born == w.store.born
    && (forall id :: id in w'.store.kv.live <==> id in w.store.kv.live)
    && (w'.minted == w.minted || exists id :: id !in w.minted && w'.minted == w.minted[id := t])
    && t in w'.threads && w'.threads == w.threads[t := w'.threads[t]]
    && (t in w.threads && IsClaimant(w.threads[t]) ==>
          IsClaimant(w'.threads[t]) && w'.threads[t].rec == w.threads[t].rec)
  }

  lemma QuietGuarded(w: World, w': World, t: Tid)
    requires Guarded(w) && Quiet(w, w', t)
    requires ThreadOk(w', t, w'.threads[t])
    ensures Guarded(w')
  {
    forall u | u in w'.threads && u != t ensures ThreadOk(w', u, w'.threads[u]) {
      OtherOk(w, w', t, u);
    }
    forall p | p in w'.index.kv.live ensures EntryOk(w', p) {
      EntryKept(w, w', t, p);
    }
    forall id | id in w'.store.born && id !in w'.index.retired ensures RecordOk(w', id) {
      assert RecordOk(w, id);
    }
    forall id | id in w'.index.named ensures NamedOk(w', id) {
      assert NamedOk(w, id);
    }
  }

  // ----- the steps that change index entries or the set of records -----

  /** Thread `t` wrote the record `rec`, and nothing else. */
  ghost predicate Stored(w: World, w': World, t: Tid, rec: Record) {
    && w'.index == w.index && w'.minted == w.minted
    && w'.store.born == w.store.born[rec.id := rec]
    && (forall id :: id in w'.store.kv.live <==> id in w.store.kv.live || id == rec.id)
    && t in w.threads && t in w'.threads && w'.threads == w.threads[t := w'.threads[t]]
    && IsMinted(w, t, rec) && rec.id !in w.store.born
  }

  lemma StoredFrame(w: World, w': World, t: Tid, rec: Record)
    requires Stored(w, w', t, rec)
    ensures Frame(w, w', t) && IndexStep(w, w')
    ensures forall p :: PeelKept(w, w', p)
  {
  }

  /** The new record belongs to the peel's owner, and the index leads to a written record. */
  lemma StoredGuarded(w: World, w': World, t: Tid, rec: Record)
    requires Guarded(w) && Stored(w, w', t, rec) && IsAnchored(w', rec.peel, rec.key)
    requires rec.id in w.index.named ==> w.index.named[rec.id] == rec.peel
    requires IsClaimant(w.threads[t]) ==> w.threads[t].rec == rec
    requires ThreadOk(w', t, w'.threads[t])
    ensures Guarded(w')
  {
    StoredFrame(w, w', t, rec);
    forall u | u in w'.threads && u != t ensures ThreadOk(w', u, w'.threads[u]) {
      OtherOk(w, w', t, u);
    }
    EntriesOk(w, w', t);
    RecordsOk(w, w', t);
    NamesOk(w, w', t);
  }

  lemma WriteKeeps(w: World, t: Tid, th: Thread, env: Env)
    requires Guarded(w) && t in w.threads && w.threads[t] == th && th.Writing?
    requires !env.net.Down? && th.rec.id !in w.store.kv.live
    requires th.rec.id !in w.index.retired
    ensures Guarded(WriteRecord(w, t, th, env))
  {
    assert ThreadOk(w, t, th);
    StoredGuarded(w, WriteRecord(w, t, th, env), t, th.rec);
  }

  lemma SupWriteKeeps(w: World, t: Tid, th: Thread, env: Env)
    requires Guarded(w) && t in w.threads && w.threads[t] == th && th.SupWrite?
    requires !env.net.Down? && th.rec.id !in w.store.kv.live
    requires th.rec.id !in w.index.retired
    ensures Guarded(SupersedeWrite(w, t, th, env))
  {
    assert ThreadOk(w, t, th);
    StoredGuarded(w, SupersedeWrite(w, t, th, env), t, th.rec);
  }

  /** Thread `t` made the index name its record `rec`, and nothing else. */
  ghost predicate Pointed(w: World, w': World, t: Tid, rec: Record) {
    && w'.store == w.store && w'.minted == w.minted
    && w'.index.named == w.index.named[rec.id := rec.peel]
    && w'.index.kv == w.index.kv.Put(rec.peel, rec.id)
    && w'.index.owner == w.index.owner[rec.peel := rec.key]
    && w.index.missed <= w'.index.missed && w'.index.retired == w.index.retired
    && t in w.threads && t in w'.threads && w'.threads == w.threads[t := w'.threads[t]]
    && IsMinted(w, t, rec) && rec.id !in w.index.named
    && !IsClaimant(w.threads[t])
  }

  /** The entry is new, or it moves from a written record of the same owner to another. */
  ghost predicate MayPoint(w: World, rec: Record) {
    if rec.id in w.store.born then
      rec.id in w.store.kv.live && w.store.born[rec.id] == rec && IsAnchored(w, rec.peel, rec.key)
    else
      rec.peel !in w.index.kv.live
  }

  lemma PointedFrame(w: World, w': World, t: Tid, rec: Record)
    requires Pointed(w, w', t, rec) && MayPoint(w, rec)
    ensures Frame(w, w', t) && IndexStep(w, w')
    ensures forall p :: PeelKept(w, w', p)
  {
  }

  lemma PointedGuarded(w: World, w': World, t: Tid, rec: Record)
    requires Guarded(w) && Pointed(w, w', t, rec) && MayPoint(w, rec)
    requires rec.id !in w.store.born ==> IsClaimant(w'.threads[t]) && w'.threads[t].rec == rec
    requires ThreadOk(w', t, w'.threads[t])
    ensures Guarded(w')
  {
    PointedFrame(w, w', t, rec);
    forall u | u in w'.threads && u != t ensures ThreadOk(w', u, w'.threads[u]) {
      OtherOk(w, w', t, u);
    }
    assert EntryOk(w', rec.peel);
    EntriesOk(w, w', t);
    RecordsOk(w, w', t);
    assert NamedOk(w', rec.id);
    NamesOk(w, w', t);
  }

  /** A claim is possible only while the peel has no record but retired ones. */
  lemma ClaimKeeps(w: World, t: Tid, th: Thread, env: Env)
    requires Guarded(w) && t in w.threads && w.threads[t] == th && th.Claiming?
    requires !env.net.Down? && th.rec.peel !in w.index.kv.live
    ensures Guarded(ClaimIndex(w, t, th, env))
  {
    assert ThreadOk(w, t, th);
    PointedGuarded(w, ClaimIndex(w, t, th, env), t, th.rec);
  }

  lemma RepointKeeps(w: World, t: Tid, th: Thread, env: Env)
    requires Guarded(w) && t in w.threads && w.threads[t] == th && th.SupRepoint?
    requires !env.net.Down? && th.rec.peel in w.index.kv.live && w.index.kv.live[th.rec.peel].rev == th.idxRev
    ensures Guarded(SupersedeRepoint(w, t, th, env))
  {
    assert ThreadOk(w, t, th);
    PointedGuarded(w, SupersedeRepoint(w, t, th, env), t, th.rec);
  }

  /** Thread `t` removed its record `id`, and nothing else. */
  ghost predicate Erased(w: World, w': World, t: Tid, id: RecId) {
    && w'.index == w.index && w'.minted == w.minted && w'.store.born == w.store.born
    && (forall i :: i in w'.store.kv.live <==> i in w.store.kv.live && i != id)
    && t in w.threads && t in w'.threads && w'.threads == w.threads[t := w'.threads[t]]
    && id in w.minted && w.minted[id] == t && (id in w.index.named ==> id in w.index.missed)
    && !IsClaimant(w.threads[t])
  }

  lemma ErasedGuarded(w: World, w': World, t: Tid, id: RecId)
    requires Guarded(w) && Erased(w, w', t, id) && ThreadOk(w', t, w'.threads[t])
    ensures Guarded(w')
  {
    forall u | u in w'.threads && u != t ensures ThreadOk(w', u, w'.threads[u]) {
      OtherOk(w, w', t, u);
    }
    EntriesOk(w, w', t);
    RecordsOk(w, w', t);
    NamesOk(w, w', t);
  }

  lemma SupRollBackKeeps(w: World, t: Tid, th: Thread, env: Env)
    requires Guarded(w) && t in w.threads && w.threads[t] == th && th.SupRollback?
    requires !env.net.Down?
    ensures Guarded(SupersedeRollBack(w, t, th, env))
  {
    assert ThreadOk(w, t, th);
    ErasedGuarded(w, SupersedeRollBack(w, t, th, env), t, th.rec.id);
  }

  /** Thread `t` removed the entry of `p`, which retires the peel's records. */
  ghost predicate Removed(w: World, w': World, t: Tid, p: PeelId) {
    && w'.store == w.store && w'.index == RemoveEntry(w, p).index
    && (w'.minted == w.minted || exists id :: id !in w.minted && w'.minted == w.minted[id := t])
    && t in w.threads && t in w'.threads && w'.threads == w.threads[t := w'.threads[t]]
    && (IsClaimant(w.threads[t]) ==> w.threads[t].rec.peel == p)
  }

  /** Nobody else counts on the entry of `p`, or there is none. */
  ghost predicate MayRemove(w: World, t: Tid, p: PeelId) {
    p in w.index.kv.live ==> forall u :: u in w.threads && u != t ==> !IsCommitted(w.threads[u], p)
  }

  lemma RemovedFrame(w: World, w': World, t: Tid, p: PeelId)
    requires Guarded(w) && Removed(w, w', t, p) && MayRemove(w, t, p)
    ensures Frame(w, w', t) && IndexStep(w, w')
    ensures forall q :: q != p || p !in w.index.kv.live ==> PeelKept(w, w', q)
  {
  }

  lemma RemovedGuarded(w: World, w': World, t: Tid, p: PeelId)
    requires Guarded(w) && Removed(w, w', t, p) && MayRemove(w, t, p)
    requires ThreadOk(w', t, w'.threads[t])
    ensures Guarded(w')
  {
    RemovedFrame(w, w', t, p);
    forall u | u in w'.threads && u != t ensures ThreadOk(w', u, w'.threads[u]) {
      assert ThreadOk(w, u, w.threads[u]);
      OtherOk(w, w', t, u);
    }
    EntriesOk(w, w', t);
    RecordsOk(w, w', t);
    NamesOk(w, w', t);
  }

  /** A new identifier is nobody's yet. */
  lemma NewIdIsFree(w: World, id: RecId)
    requires Guarded(w) && id !in w.minted
    ensures id !in w.index.named && id !in w.store.born
  {
    assert id in w.index.named ==> NamedOk(w, id);
  }

  lemma ReleaseKeeps(w: World, t: Tid, th: Thread, env: Env)
    requires Guarded(w) && t in w.threads && w.threads[t] == th && th.Releasing?
    requires env.newId !in w.minted && MayRemove(w, t, th.req.peel)
    ensures Guarded(ReleaseIndex(w, t, th, env))
  {
    NewIdIsFree(w, env.newId);
    if env.net.Down? {
      QuietGuarded(w, ReleaseIndex(w, t, th, env), t);
    } else {
      RemovedGuarded(w, ReleaseIndex(w, t, th, env), t, th.req.peel);
    }
  }

  lemma RollBackKeeps(w: World, t: Tid, th: Thread, env: Env)
    requires Guarded(w) && t in w.threads && w.threads[t] == th && th.RollingBack?
    requires !env.net.Down? && MayRemove(w, t, th.rec.peel)
    ensures Guarded(RollBackClaim(w, t, th, env))
  {
    RemovedGuarded(w, RollBackClaim(w, t, th, env), t, th.rec.peel);
  }

  // ----- the other steps -----

  lemma SameGuarded(w: World, w': World)
    requires Guarded(w)
    requires w'.index == w.index && w'.store == w.store && w'.minted == w.minted && w'.threads == w.threads
    ensures Guarded(w')
  {
    forall p | p in w'.index.kv.live ensures EntryOk(w', p) {
      assert EntryOk(w, p);
    }
    forall id | id in w'.store.born && id !in w'.index.retired ensures RecordOk(w', id) {
      assert RecordOk(w, id);
    }
    forall id | id in w'.index.named ensures NamedOk(w', id) {
      assert NamedOk(w, id);
    }
    forall u | u in w'.threads ensures ThreadOk(w', u, w'.threads[u]) {
      assert ThreadOk(w, u, w.threads[u]);
    }
  }

  /** A thread state that owes the index nothing. */
  predicate IsFree(th: Thread) {
    !IsClaimant(th) && !IsPlanning(th) && !th.SupRepoint? && !th.SupRollback? && !th.Reading?
  }

  lemma FreeKeeps(w: World, w': World, t: Tid)
    requires Guarded(w) && Quiet(w, w', t) && IsFree(w'.threads[t])
    ensures Guarded(w')
  {
    QuietGuarded(w, w', t);
  }

  lemma BeginEnrollQuiet(w: World, s: Step)
    requires Enabled(w, s) && s.BeginEnroll?
    ensures Quiet(w, Apply(w, s), s.t) && IsFree(Apply(w, s).threads[s.t])
  {
  }

  lemma BeginDecisionQuiet(w: World, s: Step)
    requires Enabled(w, s) && s.BeginDecision?
    ensures Quiet(w, Apply(w, s), s.t) && IsFree(Apply(w, s).threads[s.t])
  {
  }

  lemma BeginReactionQuiet(w: World, s: Step)
    requires Enabled(w, s) && s.BeginReaction?
    ensures Quiet(w, Apply(w, s), s.t) && IsFree(Apply(w, s).threads[s.t])
  {
  }

  lemma BeginCredsQuiet(w: World, s: Step)
    requires Enabled(w, s) && s.BeginCreds?
    ensures Quiet(w, Apply(w, s), s.t) && IsFree(Apply(w, s).threads[s.t])
  {
  }

  lemma ConsumeQuiet(w: World, t: Tid, th: Thread, env: Env)
    requires t in w.threads && w.threads[t] == th && (th.Consuming? || th.Cleaning?)
    ensures Quiet(w, AdvanceIntake(w, t, th, env), t) && IsFree(AdvanceIntake(w, t, th, env).threads[t])
  {
  }

  /** A swap on a record leaves births and identifiers alone. */
  lemma TryCasQuiet(s: Store, seen: Entry<Record>, made: Option<Record>, forced: bool, env: Env)
    ensures var r := TryCas(s, seen, made, forced, env);
      r.Some? ==> r.value.born == s.born && forall id :: id in r.value.kv.live <==> id in s.kv.live
  {
  }

  lemma DecisionQuiet(w: World, t: Tid, th: Thread, env: Env)
    requires t in w.threads && w.threads[t] == th
    requires th.Deciding? || th.Reacting?
    ensures Quiet(w, AdvanceDecision(w, t, th, env), t) && IsFree(AdvanceDecision(w, t, th, env).threads[t])
  {
  }

  lemma CreditQuiet(w: World, t: Tid, th: Thread, env: Env)
    requires t in w.threads && w.threads[t] == th && th.Crediting?
    ensures Quiet(w, AdvanceDecision(w, t, th, env), t) && IsFree(AdvanceDecision(w, t, th, env).threads[t])
  {
  }

  lemma MarkQuiet(w: World, t: Tid, th: Thread, env: Env)
    requires t in w.threads && w.threads[t] == th && th.Marking?
    ensures Quiet(w, AdvanceDecision(w, t, th, env), t) && IsFree(AdvanceDecision(w, t, th, env).threads[t])
  {
    TryCasQuiet(w.store, th.seen, Decide(th.seen.value, MarkIssued, env.now), false, env);
  }

  lemma RetireQuiet(w: World, t: Tid, th: Thread, env: Env)
    requires t in w.threads && w.threads[t] == th && th.SupRetire?
    ensures Quiet(w, SupersedeRetire(w, t, th, env), t) && IsFree(SupersedeRetire(w, t, th, env).threads[t])
  {
  }

  lemma LookKeeps(w: World, t: Tid, th: Thread, env: Env)
    requires Guarded(w) && t in w.threads && w.threads[t] == th && th.Looking?
    requires env.newId !in w.minted
    ensures Guarded(LookUpIndex(w, t, th, env))
  {
    NewIdIsFree(w, env.newId);
    assert th.req.peel in w.index.kv.live ==> EntryOk(w, th.req.peel);
    QuietGuarded(w, LookUpIndex(w, t, th, env), t);
  }

  /** Superseding is only planned on an open record of the caller's own peel and key, so the peel
      belongs to that key. */
  lemma ReplacesOwn(w: World, t: Tid, th: Thread)
    requires Guarded(w) && RetiredOk(w) && t in w.threads && w.threads[t] == th && th.Reading?
    requires th.id in w.store.kv.live && EnrollLifecycle.RecordOk(w.store, th.id)
    requires PlanFor(w.store.kv.live[th.id].value, th.req).Replace?
    ensures IsAnchored(w, th.req.peel, th.req.key)
  {
    assert ThreadOk(w, t, th);
    assert NamedOk(w, th.id);
    assert IsOpen(w.store, th.id);
    assert RecordOk(w, th.id);
  }

  lemma PlannedKeeps(w: World, w': World, t: Tid, th: Thread, env: Env)
    requires Guarded(w) && env.newId !in w.minted && Quiet(w, w', t)
    requires w'.minted == w.minted[env.newId := t] && w'.threads[t] == th
    requires th.Claiming? || (th.SupIndex? && IsAnchored(w, th.rec.peel, th.rec.key))
    requires th.rec.id == env.newId
    ensures Guarded(w')
  {
    NewIdIsFree(w, env.newId);
    QuietGuarded(w, w', t);
  }

  lemma ExistingKeeps(w: World, t: Tid, th: Thread, env: Env)
    requires Guarded(w) && RetiredOk(w) && t in w.threads && w.threads[t] == th && th.Reading?
    requires env.newId !in w.minted
    requires th.id in w.store.kv.live ==> EnrollLifecycle.RecordOk(w.store, th.id)
    ensures Guarded(ReadExisting(w, t, th, env))
  {
    var w' := ReadExisting(w, t, th, env);
    if w'.threads[t].SupIndex? {
      ReplacesOwn(w, t, th);
      PlannedKeeps(w, w', t, w'.threads[t], env);
    } else if w'.threads[t].Claiming? {
      PlannedKeeps(w, w', t, w'.threads[t], env);
    } else {
      FreeKeeps(w, w', t);
    }
  }

  /** The failing branches of Create and Supersede. */
  lemma CreateFailKeeps(w: World, t: Tid, th: Thread, env: Env)
    requires Guarded(w) && RetiredOk(w) && t in w.threads && w.threads[t] == th
    requires env.net.Down? || (th.Claiming? && th.rec.peel in w.index.kv.live)
                           || (th.Writing? && th.rec.id in w.store.kv.live)
    requires th.Claiming? || th.Writing? || th.RollingBack?
    ensures Guarded(AdvanceCreate(w, t, th, env))
  {
    assert ThreadOk(w, t, th);
    QuietGuarded(w, AdvanceCreate(w, t, th, env), t);
  }

  lemma SupersedeFailKeeps(w: World, t: Tid, th: Thread, env: Env)
    requires Guarded(w) && t in w.threads && w.threads[t] == th
    requires th.SupIndex? || (th.SupRollback? && env.net.Down?)
             || (th.SupWrite? && (env.net.Down? || th.rec.id in w.store.kv.live))
             || (th.SupRepoint? && (env.net.Down? || th.rec.peel !in w.index.kv.live
                                    || w.index.kv.live[th.rec.peel].rev != th.idxRev))
    ensures Guarded(AdvanceSupersede(w, t, th, env))
  {
    assert ThreadOk(w, t, th);
    QuietGuarded(w, AdvanceSupersede(w, t, th, env), t);
  }

  // ----- all steps -----

  lemma IntakeGuarded(w: World, t: Tid, th: Thread, env: Env)
    requires Guarded(w) && RetiredOk(w) && EnrollLifecycle.Lifecycle(w) && t in w.threads && w.threads[t] == th
    requires env.newId !in w.minted && IsCareful(w, Act(t, env)) && InIntake(th)
    ensures Guarded(AdvanceIntake(w, t, th, env))
  {
    if th.Looking? {
      LookKeeps(w, t, th, env);
    } else if th.Reading? {
      assert th.id in w.store.kv.live ==> EnrollLifecycle.RecordOk(w.store, th.id);
      ExistingKeeps(w, t, th, env);
    } else if th.Releasing? {
      if env.net.Down? {
        NewIdIsFree(w, env.newId);
        QuietGuarded(w, ReleaseIndex(w, t, th, env), t);
      } else {
        ReleaseKeeps(w, t, th, env);
      }
    } else {
      ConsumeQuiet(w, t, th, env);
      FreeKeeps(w, AdvanceIntake(w, t, th, env), t);
    }
  }

  lemma CreateGuarded(w: World, t: Tid, th: Thread, env: Env)
    requires Guarded(w) && RetiredOk(w) && t in w.threads && w.threads[t] == th && InCreate(th)
    requires IsCareful(w, Act(t, env))
    ensures Guarded(AdvanceCreate(w, t, th, env))
  {
    if !env.net.Down? && th.Claiming? && th.rec.peel !in w.index.kv.live {
      ClaimKeeps(w, t, th, env);
    } else if !env.net.Down? && th.Writing? && th.rec.id !in w.store.kv.live {
      assert ThreadOk(w, t, th);
      WriteKeeps(w, t, th, env);
    } else if !env.net.Down? && th.RollingBack? {
      RollBackKeeps(w, t, th, env);
    } else {
      CreateFailKeeps(w, t, th, env);
    }
  }

  lemma SupersedeGuarded(w: World, t: Tid, th: Thread, env: Env)
    requires Guarded(w) && RetiredOk(w) && t in w.threads && w.threads[t] == th && InSupersede(th)
    ensures Guarded(AdvanceSupersede(w, t, th, env))
  {
    if !env.net.Down? && th.SupWrite? && th.rec.id !in w.store.kv.live {
      assert ThreadOk(w, t, th);
      SupWriteKeeps(w, t, th, env);
    } else if !env.net.Down? && th.SupRepoint? && th.rec.peel in w.index.kv.live
              && w.index.kv.live[th.rec.peel].rev == th.idxRev {
      RepointKeeps(w, t, th, env);
    } else if !env.net.Down? && th.SupRollback? {
      SupRollBackKeeps(w, t, th, env);
    } else if th.SupRetire? {
      RetireQuiet(w, t, th, env);
      FreeKeeps(w, SupersedeRetire(w, t, th, env), t);
    } else {
      SupersedeFailKeeps(w, t, th, env);
    }
  }

  lemma DecisionGuarded(w: World, t: Tid, th: Thread, env: Env)
    requires Guarded(w) && t in w.threads && w.threads[t] == th
    requires th.Deciding? || th.Reacting? || th.Crediting? || th.Marking?
    ensures Guarded(AdvanceDecision(w, t, th, env))
  {
    if th.Crediting? {
      CreditQuiet(w, t, th, env);
    } else if th.Marking? {
      MarkQuiet(w, t, th, env);
    } else {
      DecisionQuiet(w, t, th, env);
    }
    FreeKeeps(w, AdvanceDecision(w, t, th, env), t);
  }

  lemma AdvanceGuarded(w: World, t: Tid, th: Thread, env: Env)
    requires Guarded(w) && RetiredOk(w) && EnrollLifecycle.Lifecycle(w) && t in w.threads && w.threads[t] == th
    requires env.newId !in w.minted && IsCareful(w, Act(t, env))
    ensures Guarded(Advance(w, t, th, env))
  {
    if InIntake(th) {
      IntakeGuarded(w, t, th, env);
    } else if InCreate(th) {
      CreateGuarded(w, t, th, env);
    } else if InSupersede(th) {
      SupersedeGuarded(w, t, th, env);
    } else if !th.Finished? && !th.Stranded? {
      DecisionGuarded(w, t, th, env);
    }
  }

  lemma StepGuarded(w: World, s: Step)
    requires Guarded(w) && RetiredOk(w) && EnrollLifecycle.Lifecycle(w) && Enabled(w, s) && IsCareful(w, s)
    ensures Guarded(Apply(w, s))
  {
    match s
    case Issue(_, _, _, _) => SameGuarded(w, Apply(w, s));
    case Expire(_) => SameGuarded(w, Apply(w, s));
    case Act(t, env) => AdvanceGuarded(w, t, w.threads[t], env);
    case BeginEnroll(t, _, _) => BeginEnrollQuiet(w, s); FreeKeeps(w, Apply(w, s), t);
    case BeginDecision(t, _, _) => BeginDecisionQuiet(w, s); FreeKeeps(w, Apply(w, s), t);
    case BeginReaction(t, _, _, _) => BeginReactionQuiet(w, s); FreeKeeps(w, Apply(w, s), t);
    case BeginCreds(t, _, _) => BeginCredsQuiet(w, s); FreeKeeps(w, Apply(w, s), t);
  }

  // ----- retired records -----

  /** Only a removal that gets through retires records, those of its peel, and it touches no
      record. */
  ghost predicate Retires(w: World, s: Step, id: RecId) {
    && s.Act? && s.t in w.threads && IsRemoving(w.threads[s.t]) && !s.env.net.Down?
    && id in w.store.born && w.store.born[id].peel == PeelOf(w.threads[s.t])
    && Apply(w, s).store == w.store
  }

  lemma OnlyRemovalsRetire(w: World, s: Step, id: RecId)
    requires Enabled(w, s) && id in Apply(w, s).index.retired && id !in w.index.retired
    ensures Retires(w, s, id)
  {
  }

  /** A record that is not retired when its peel's entry is removed had an entry to remove. */
  lemma NewlyRetired(w: World, s: Step, id: RecId)
    requires Guarded(w) && Enabled(w, s) && id in Apply(w, s).index.retired && id !in w.index.retired
    ensures Retires(w, s, id) && Removes(w, s) && RecordOk(w, id)
  {
    OnlyRemovalsRetire(w, s, id);
    assert RecordOk(w, id);
  }

  lemma StaysClosed(w: World, s: Step, id: RecId)
    requires EnrollLifecycle.Lifecycle(w) && Enabled(w, s) && id in w.store.born && !IsOpen(w.store, id)
    ensures id in Apply(w, s).store.born && !IsOpen(Apply(w, s).store, id)
  {
    EnrollLifecycle.StepLifecycle(w, s);
    if id in w.store.kv.live {
      EnrollLifecycle.StepFreezes(w, s, id);
    } else {
      EnrollLifecycle.StaysGone(w, s, id);
    }
  }

  lemma StepRetired(w: World, s: Step)
    requires Guarded(w) && RetiredOk(w) && EnrollLifecycle.Lifecycle(w) && Enabled(w, s) && IsCareful(w, s)
    ensures RetiredOk(Apply(w, s))
  {
    forall id | id in Apply(w, s).index.retired
      ensures id in Apply(w, s).store.born && !IsOpen(Apply(w, s).store, id)
    {
      if id !in w.index.retired {
        NewlyRetired(w, s, id);
        assert id in w.store.kv.live ==> EnrollLifecycle.RecordOk(w.store, id);
      }
      StaysClosed(w, s, id);
    }
  }

  // ----- runs -----

  /** Every step of a run that removes an entry does so at an idle peel. */
  ghost predicate AllCareful(ws: seq<World>, steps: seq<Step>)
    requires |ws| == |steps| + 1
  {
    forall i {:trigger steps[i]} :: 0 <= i < |steps| ==> IsCareful(ws[i], steps[i])
  }

  ghost predicate IsCarefulRun(ws: seq<World>, steps: seq<Step>) {
    IsRun(ws, steps) && AllCareful(ws, steps)
  }

  /** All that careful steps keep. */
  ghost predicate IsGood(w: World) {
    Guarded(w) && RetiredOk(w) && EnrollLifecycle.Lifecycle(w)
  }

  lemma StepGood(w: World, s: Step)
    requires IsGood(w) && Enabled(w, s) && IsCareful(w, s)
    ensures IsGood(Apply(w, s))
  {
    StepGuarded(w, s);
    StepRetired(w, s);
    EnrollLifecycle.StepLifecycle(w, s);
  }

  lemma GoodFrom(w: World, ws: seq<World>, steps: seq<Step>, i: nat)
    requires IsGood(w) && IsRunFrom(w, ws, steps) && AllCareful(ws, steps) && i < |ws|
    ensures IsGood(ws[i])
  {
    forall v, s | IsGood(v) && IsCareful(v, s) && Enabled(v, s) ensures IsGood(Apply(v, s)) {
      StepGood(v, s);
    }
    HoldsThroughout(v => IsGood(v), (v, s) => IsCareful(v, s), w, ws, steps, i);
  }

  lemma InitIsGood()
    ensures IsGood(Init())
  {
  }

  lemma RunGuarded(ws: seq<World>, steps: seq<Step>, i: nat)
    requires IsCarefulRun(ws, steps) && i < |ws|
    ensures IsGood(ws[i])
  {
    InitIsGood();
    GoodFrom(Init(), ws, steps, i);
  }

  /** An open record belongs to the current owner of its peel. */
  lemma OpenIsAnchored(w: World, id: RecId)
    requires IsGood(w) && IsOpen(w.store, id)
    ensures IsAnchored(w, w.store.kv.live[id].value.peel, w.store.kv.live[id].value.key)
  {
    assert EnrollLifecycle.RecordOk(w.store, id);
    assert RecordOk(w, id);
  }

  /** One key per peel at a time: in a run in which entries are removed at idle peels only, any two
      open records of a peel carry the same key. */
  lemma OneOpenKeyPerPeel(ws: seq<World>, steps: seq<Step>, i: nat, a: RecId, b: RecId)
    requires IsCarefulRun(ws, steps) && i < |ws|
    requires IsOpen(ws[i].store, a) && IsOpen(ws[i].store, b)
    ensures ws[i].store.kv.live[a].value.peel == ws[i].store.kv.live[b].value.peel ==>
      ws[i].store.kv.live[a].value.key == ws[i].store.kv.live[b].value.key
  {
    RunGuarded(ws, steps, i);
    OpenIsAnchored(ws[i], a);
    OpenIsAnchored(ws[i], b);
  }

  /** In such a run an index entry names an existing record of its peel, or one whose creator claimed
      the entry and has not written it, or one whose own call deleted it after an index swap it did
      not hear of. */
  lemma IndexNamesARecord(ws: seq<World>, steps: seq<Step>, i: nat, p: PeelId)
    requires IsCarefulRun(ws, steps) && i < |ws|
    requires p in ws[i].index.kv.live
    ensures var w := ws[i]; var id := w.index.kv.live[p].value;
      || (id in w.store.kv.live && w.store.kv.live[id].value.id == id && w.store.kv.live[id].value.peel == p)
      || (id !in w.store.kv.live && id !in w.store.born && ClaimHeld(w, id, p))
      || (id !in w.store.kv.live && id in w.store.born && w.store.born[id].peel == p && id in w.index.missed)
  {
    RunGuarded(ws, steps, i);
    var w := ws[i];
    var id := w.index.kv.live[p].value;
    assert EntryOk(w, p);
    assert NamedOk(w, id);
    assert id in w.store.kv.live ==> EnrollLifecycle.RecordOk(w.store, id);
  }

  // ----- what one step does to an entry and to the threads -----

  /** Only the acting thread moves. */
  ghost predicate LeavesOthers(w: World, w': World, u: Tid) {
    forall t :: t in w.threads && t != u ==> t in w'.threads && w'.threads[t] == w.threads[t]
  }

  lemma IntakeLeavesOthers(w: World, u: Tid, th: Thread, env: Env)
    requires InIntake(th)
    ensures LeavesOthers(w, AdvanceIntake(w, u, th, env), u)
  {
  }

  lemma SupersedeLeavesOthers(w: World, u: Tid, th: Thread, env: Env)
    requires InSupersede(th)
    ensures LeavesOthers(w, AdvanceSupersede(w, u, th, env), u)
  {
  }

  lemma DecisionLeavesOthers(w: World, u: Tid, th: Thread, env: Env)
    requires !InIntake(th) && !InCreate(th) && !InSupersede(th)
    ensures LeavesOthers(w, AdvanceDecision(w, u, th, env), u)
  {
  }

  lemma AdvanceLeavesOthers(w: World, u: Tid, th: Thread, env: Env)
    ensures LeavesOthers(w, Advance(w, u, th, env), u)
  {
    if InIntake(th) {
      IntakeLeavesOthers(w, u, th, env);
    } else if InSupersede(th) {
      SupersedeLeavesOthers(w, u, th, env);
    } else if !InCreate(th) {
      DecisionLeavesOthers(w, u, th, env);
    }
  }

  /** What a step may do to the entry of `p`: nothing, remove it, or swap it. */
  ghost predicate Touches(w: World, w': World, th: Thread, env: Env, p: PeelId)
    requires p in w.index.kv.live
  {
    || (p in w'.index.kv.live && w'.index.kv.live[p] == w.index.kv.live[p]
        && (p in w.index.owner ==> p in w'.index.owner && w'.index.owner[p] == w.index.owner[p]))
    || (IsRemoving(th) && !env.net.Down? && PeelOf(th) == p)
    || (th.SupRepoint? && th.rec.peel == p && w.index.kv.live[p].rev == th.idxRev)
  }

  lemma IntakeTouches(w: World, t: Tid, th: Thread, env: Env, p: PeelId)
    requires p in w.index.kv.live && InIntake(th)
    ensures Touches(w, AdvanceIntake(w, t, th, env), th, env, p)
  {
  }

  lemma DecisionTouches(w: World, t: Tid, th: Thread, env: Env)
    requires !InIntake(th) && !InCreate(th) && !InSupersede(th)
    ensures AdvanceDecision(w, t, th, env).index == w.index
  {
  }

  lemma AdvanceTouches(w: World, t: Tid, th: Thread, env: Env, p: PeelId)
    requires p in w.index.kv.live
    ensures Touches(w, Advance(w, t, th, env), th, env, p)
  {
    if InIntake(th) {
      IntakeTouches(w, t, th, env, p);
    } else if !InCreate(th) && !InSupersede(th) {
      DecisionTouches(w, t, th, env);
    }
  }

  /** A swap never moves an entry away from a claim. */
  lemma SwapsSpareClaims(w: World, u: Tid, th: Thread)
    requires Guarded(w) && u in w.threads && w.threads[u] == th && th.SupRepoint?
    requires th.rec.peel in w.index.kv.live && w.index.kv.live[th.rec.peel].value !in w.store.born
    ensures w.index.kv.live[th.rec.peel].rev != th.idxRev
  {
    assert ThreadOk(w, u, th);
  }

  /** So only a removal ends a claim whose record is not written. */
  lemma ClaimStands(w: World, u: Tid, th: Thread, env: Env, rec: Record)
    requires Guarded(w) && u in w.threads && w.threads[u] == th
    requires StandsFor(w, rec) && rec.id !in w.store.born
    ensures StandsFor(Advance(w, u, th, env), rec)
      || (IsRemoving(th) && !env.net.Down? && PeelOf(th) == rec.peel)
  {
    AdvanceTouches(w, u, th, env, rec.peel);
    if th.SupRepoint? && th.rec.peel == rec.peel {
      SwapsSpareClaims(w, u, th);
    }
  }

  // ----- runs in which only claims without a record are removed -----

  /** Takes back a claim whose record was never written. */
  predicate Unclaims(w: World, s: Step) {
    s.Act? && s.t in w.threads && w.threads[s.t].RollingBack? && w.threads[s.t].rec.id !in w.store.born
  }

  /** A run in which no release takes effect and no record written unheard loses its entry. */
  ghost predicate IsGuardedRun(ws: seq<World>, steps: seq<Step>) {
    && IsRun(ws, steps)
    && forall i {:trigger steps[i]} :: 0 <= i < |steps| && Removes(ws[i], steps[i]) ==> Unclaims(ws[i], steps[i])
  }

  /** The claim a call is rolling back without having written its record is still its own. */
  ghost predicate RollerOk(w: World, th: Thread) {
    th.RollingBack? && th.rec.id !in w.store.born ==> StandsFor(w, th.rec)
  }

  /** What such runs keep on top: nothing was retired, and claims being rolled back stand. */
  ghost predicate IsClosed(w: World) {
    && IsGood(w) && w.index.retired == {}
    && (forall t {:trigger RollerOk(w, w.threads[t])} :: t in w.threads ==> RollerOk(w, w.threads[t]))
  }

  /** While a claim stands unwritten its peel has no record but retired ones. */
  lemma ClaimedPeelIsEmpty(w: World, rec: Record, id: RecId)
    requires Guarded(w) && StandsFor(w, rec) && rec.id !in w.store.born
    requires id in w.store.born && id !in w.index.retired
    ensures w.store.born[id].peel != rec.peel
  {
    assert RecordOk(w, id);
  }

  lemma ClaimantIsAlone(w: World, t: Tid, rec: Record, u: Tid)
    requires Guarded(w) && StandsFor(w, rec) && rec.id !in w.store.born && IsMinted(w, t, rec)
    requires u in w.threads && u != t
    ensures !IsCommitted(w.threads[u], rec.peel)
  {
    assert ThreadOk(w, u, w.threads[u]);
  }

  /** Taking back a claim that stands without a record always happens at an idle peel. */
  lemma UnclaimIsCareful(w: World, s: Step)
    requires IsGood(w) && Unclaims(w, s) && StandsFor(w, w.threads[s.t].rec)
    ensures IsCareful(w, s)
  {
    var t := s.t;
    var rec := w.threads[t].rec;
    assert ThreadOk(w, t, w.threads[t]);
    forall id | IsOpen(w.store, id) ensures w.store.kv.live[id].value.peel != rec.peel {
      assert EnrollLifecycle.RecordOk(w.store, id);
      ClaimedPeelIsEmpty(w, rec, id);
    }
    forall u | u in w.threads && u != t ensures !IsCommitted(w.threads[u], rec.peel) {
      ClaimantIsAlone(w, t, rec, u);
    }
  }

  lemma StepRetiresNone(w: World, s: Step)
    requires IsClosed(w) && Enabled(w, s) && (Removes(w, s) ==> Unclaims(w, s))
    ensures Apply(w, s).index.retired == {}
  {
    forall id | id in Apply(w, s).index.retired ensures false {
      NewlyRetired(w, s, id);
      assert RollerOk(w, w.threads[s.t]);
      ClaimedPeelIsEmpty(w, w.threads[s.t].rec, id);
    }
  }

  /** Two calls never roll back the same claim. */
  lemma OtherRollerOk(w: World, t: Tid, th: Thread, env: Env, u: Tid)
    requires IsClosed(w) && t in w.threads && w.threads[t] == th && u in w.threads && u != t
    requires Removes(w, Act(t, env)) ==> Unclaims(w, Act(t, env))
    requires forall id :: id in w.store.born ==> id in Advance(w, t, th, env).store.born
    ensures RollerOk(Advance(w, t, th, env), w.threads[u])
  {
    assert RollerOk(w, w.threads[u]) && RollerOk(w, th);
    assert ThreadOk(w, u, w.threads[u]) && ThreadOk(w, t, th);
    if w.threads[u].RollingBack? && w.threads[u].rec.id !in w.store.born {
      ClaimStands(w, t, th, env, w.threads[u].rec);
    }
  }

  /** A call starts to roll back when its record write failed, its claim standing. */
  lemma OwnRollerOk(w: World, t: Tid, th: Thread, env: Env)
    requires Guarded(w) && t in w.threads && w.threads[t] == th
    ensures var w' := Advance(w, t, th, env); t in w'.threads && RollerOk(w', w'.threads[t])
  {
    assert ThreadOk(w, t, th);
    if InIntake(th) {
      IntakeNeverRolls(w, t, th, env);
    } else if !InCreate(th) && !InSupersede(th) {
      DecisionNeverRolls(w, t, th, env);
    }
  }

  lemma IntakeNeverRolls(w: World, t: Tid, th: Thread, env: Env)
    requires InIntake(th)
    ensures var w' := AdvanceIntake(w, t, th, env); t in w'.threads && !w'.threads[t].RollingBack?
  {
  }

  lemma DecisionNeverRolls(w: World, t: Tid, th: Thread, env: Env)
    requires !InIntake(th) && !InCreate(th) && !InSupersede(th) && t in w.threads && w.threads[t] == th
    ensures var w' := AdvanceDecision(w, t, th, env); t in w'.threads && !w'.threads[t].RollingBack?
  {
  }

  lemma BeginsNeverRoll(w: World, s: Step, t: Tid)
    requires Enabled(w, s) && !s.Act? && t in Apply(w, s).threads
    ensures Apply(w, s).index == w.index && Apply(w, s).store == w.store
    ensures !Apply(w, s).threads[t].RollingBack? || (t in w.threads && Apply(w, s).threads[t] == w.threads[t])
  {
  }

  lemma StepRollers(w: World, s: Step, t: Tid)
    requires IsClosed(w) && Enabled(w, s) && (Removes(w, s) ==> Unclaims(w, s)) && t in Apply(w, s).threads
    ensures RollerOk(Apply(w, s), Apply(w, s).threads[t])
  {
    if !s.Act? {
      BeginsNeverRoll(w, s, t);
      assert t in w.threads ==> RollerOk(w, w.threads[t]);
    } else if s.t == t {
      OwnRollerOk(w, t, w.threads[t], s.env);
    } else {
      EnrollLifecycle.StepLifecycle(w, s);
      AdvanceLeavesOthers(w, s.t, w.threads[s.t], s.env);
      AdvanceAddsNone(w, s.t, w.threads[s.t], s.env, t);
      OtherRollerOk(w, s.t, w.threads[s.t], s.env, t);
    }
  }

  lemma AdvanceAddsNone(w: World, u: Tid, th: Thread, env: Env, t: Tid)
    requires u in w.threads && t in Advance(w, u, th, env).threads
    ensures t in w.threads
  {
  }

  lemma StepClosed(w: World, s: Step)
    requires IsClosed(w) && Enabled(w, s) && (Removes(w, s) ==> Unclaims(w, s))
    ensures IsClosed(Apply(w, s))
  {
    if Removes(w, s) {
      assert RollerOk(w, w.threads[s.t]);
      UnclaimIsCareful(w, s);
    }
    StepGood(w, s);
    StepRetiresNone(w, s);
    forall t | t in Apply(w, s).threads ensures RollerOk(Apply(w, s), Apply(w, s).threads[t]) {
      StepRollers(w, s, t);
    }
  }

  lemma GuardedRunOk(ws: seq<World>, steps: seq<Step>, i: nat)
    requires IsGuardedRun(ws, steps) && i < |ws|
    ensures IsClosed(ws[i])
  {
    InitIsGood();
    forall v, s | IsClosed(v) && (Removes(v, s) ==> Unclaims(v, s)) && Enabled(v, s) ensures IsClosed(Apply(v, s)) {
      StepClosed(v, s);
    }
    HoldsThroughout(v => IsClosed(v), (v, s) => Removes(v, s) ==> Unclaims(v, s), Init(), ws, steps, i);
  }

  /** A peel with a record has an owner, and from then on its index entry and owner stay. */
  lemma OwnerStays(ws: seq<World>, steps: seq<Step>, i: nat, j: nat, a: RecId)
    requires IsGuardedRun(ws, steps) && i <= j < |ws|
    requires a in ws[i].store.kv.live
    ensures var x := ws[i].store.kv.live[a].value;
      && x.peel in ws[j].index.kv.live
      && x.peel in ws[j].index.owner && ws[j].index.owner[x.peel] == x.key
  {
    EnrollLifecycle.RecordsFollowTheTable(ws, steps, i, a);
    EnrollLifecycle.RunStoreStep(ws, steps, i, j);
    GuardedRunOk(ws, steps, j);
    assert RecordOk(ws[j], a);
  }

  /** One key per peel, for ever: any two records of a peel, at whatever moments of the run
      they exist, carry the same key, that of the claimant whose record came first. */
  lemma OneKeyPerPeel(ws: seq<World>, steps: seq<Step>, i: nat, j: nat, a: RecId, b: RecId)
    requires IsGuardedRun(ws, steps) && i <= j < |ws|
    requires a in ws[i].store.kv.live && b in ws[j].store.kv.live
    ensures ws[i].store.kv.live[a].value.peel == ws[j].store.kv.live[b].value.peel ==>
      ws[i].store.kv.live[a].value.key == ws[j].store.kv.live[b].value.key
  {
    OwnerStays(ws, steps, i, j, a);
    OwnerStays(ws, steps, j, j, b);
  }

  /** The guard is never dropped: an entry disappears only when a Create whose record write
      failed rolls back its own claim, and then the peel has no record. */
  lemma ClaimsAreNeverDropped(ws: seq<World>, steps: seq<Step>, i: nat, p: PeelId, id: RecId)
    requires IsGuardedRun(ws, steps) && i < |steps|
    requires p in ws[i].index.kv.live && p !in ws[i + 1].index.kv.live
    ensures steps[i].Act? && steps[i].t in ws[i].threads
    ensures var th := ws[i].threads[steps[i].t];
      th.RollingBack? && th.rec.peel == p && ws[i].index.kv.live[p].value == th.rec.id
    ensures id in ws[i].store.kv.live ==> ws[i].store.kv.live[id].value.peel != p
  {
    GuardedRunOk(ws, steps, i);
    OnlyRemovalsDrop(ws[i], steps[i], p);
    var th := ws[i].threads[steps[i].t];
    assert RollerOk(ws[i], th);
    if id in ws[i].store.kv.live {
      EnrollLifecycle.RecordsFollowTheTable(ws, steps, i, id);
      ClaimedPeelIsEmpty(ws[i], th.rec, id);
    }
  }

  lemma OnlyRemovalsDrop(w: World, s: Step, p: PeelId)
    requires Enabled(w, s) && p in w.index.kv.live && p !in Apply(w, s).index.kv.live
    ensures Removes(w, s) && PeelOf(w.threads[s.t]) == p
  {
    if s.Act? {
      AdvanceTouches(w, s.t, w.threads[s.t], s.env, p);
      SwapsKeepEntry(w, s.t, w.threads[s.t], s.env, p);
    }
  }

  lemma SwapsKeepEntry(w: World, t: Tid, th: Thread, env: Env, p: PeelId)
    requires p in w.index.kv.live
    ensures th.SupRepoint? ==> p in Advance(w, t, th, env).index.kv.live
  {
  }
}
