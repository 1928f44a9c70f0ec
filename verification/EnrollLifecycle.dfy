/** What every run of the enrollment protocol keeps about single records: each record's
    history is a path of the transition table, its identity never changes, a trust-mismatched
    record is only ever approved by force, and it yields at most one credential. */
module EnrollLifecycle {
  import opened KeyValue
  import opened Enrollment
  import opened EnrollProtocol

  /** The record entry a thread has read and may compare-and-swap on. */
  function Seen(th: Thread): (r: Option<Entry<Record>>) {
    match th
    case SupIndex(_, _, p) => Some(p)
    case SupWrite(_, _, p, _) => Some(p)
    case SupRepoint(_, _, p, _) => Some(p)
    case SupRetire(_, _, p) => Some(p)
    case Deciding(_, s) => Some(s)
    case Marking(_, s) => Some(s)
    case _ => None
  }

  /** The record a thread is about to store for the first time. */
  function Unwritten(th: Thread): (r: Option<Record>) {
    match th
    case Claiming(_, rec) => Some(rec)
    case Writing(_, rec) => Some(rec)
    case SupIndex(_, rec, _) => Some(rec)
    case SupWrite(_, rec, _, _) => Some(rec)
    case _ => None
  }

  /** The record a credential request was authenticated against. */
  function First(th: Thread): (r: Option<Record>) {
    match th
    case Crediting(f) => Some(f)
    case Marking(f, _) => Some(f)
    case _ => None
  }

  ghost predicate SameIdentity(a: Record, b: Record) {
    a.id == b.id && a.peel == b.peel && a.key == b.key && a.mismatch == b.mismatch
  }

  ghost predicate RecordOk(s: Store, id: RecId)
    requires id in s.kv.live
  {
    var rec := s.kv.live[id].value;
    && id in s.born
    && id in s.hist
    && rec.id == id
    && SameIdentity(rec, s.born[id])
    && |s.hist[id]| > 0
    && rec.state == s.hist[id][|s.hist[id]| - 1]
  }

  ghost predicate HistoryOk(s: Store, id: RecId) {
    && id in s.born
    && id in s.hist
    && IsPath(s.hist[id])
    && (s.born[id].mismatch && Approved in s.hist[id] ==> id in s.forced)
    && s.delivered[id] <= 1
    && (s.delivered[id] == 1 ==> Issued in s.hist[id])
  }

  ghost predicate DeliveryOk(s: Store, d: Delivery) {
    d.id in s.born && d.peel == s.born[d.id].peel && d.key == s.born[d.id].key
  }

  ghost predicate StoreOk(s: Store) {
    && s.kv.Valid()
    && (forall id {:trigger RecordOk(s, id)} :: id in s.kv.live ==> RecordOk(s, id))
    && (forall id {:trigger HistoryOk(s, id)} :: id in s.born || id in s.hist ==> HistoryOk(s, id))
    && (forall id :: id in s.delivered ==> id in s.born)
    && (forall d :: d in s.deliveries ==> DeliveryOk(s, d))
  }

  /** What a step of one thread may do to the store, seen from the others: revisions grow,
      histories are only prolonged and identities stay. */
  ghost predicate StoreStep(s: Store, s': Store) {
    && Grows(s.kv, s'.kv)
    && (forall id :: id in s.born ==> id in s'.born && s'.born[id] == s.born[id])
    && (forall id :: id in s.hist ==> id in s'.hist && s.hist[id] <= s'.hist[id])
  }

  // ----- the operations on the store -----

  lemma AddRecordOk(s: Store, rec: Record, ch: ChId)
    requires StoreOk(s)
    requires rec.id !in s.born && rec.state == Pending
    ensures StoreOk(AddRecord(s, rec, ch))
    ensures StoreStep(s, AddRecord(s, rec, ch))
  {
    var s' := AddRecord(s, rec, ch);
    assert rec.id in s.hist ==> HistoryOk(s, rec.id);
    forall id | id in s'.kv.live ensures RecordOk(s', id) {
      assert id != rec.id ==> RecordOk(s, id);
    }
    forall id | id in s'.born || id in s'.hist ensures HistoryOk(s', id) {
      assert id != rec.id ==> HistoryOk(s, id);
      assert rec.id !in s.delivered;
    }
  }

  lemma RemoveRecordOk(s: Store, id: RecId)
    requires StoreOk(s)
    ensures StoreOk(s.(kv := s.kv.Remove(id)))
    ensures StoreStep(s, s.(kv := s.kv.Remove(id)))
  {
    var s' := s.(kv := s.kv.Remove(id));
    forall i | i in s'.kv.live ensures RecordOk(s', i) {
      assert RecordOk(s, i);
    }
    forall i | i in s'.born || i in s'.hist ensures HistoryOk(s', i) {
      assert HistoryOk(s, i);
    }
  }

  /** A path can be prolonged by an allowed transition, and only to a state not on it yet. */
  lemma PathStep(h: seq<State>, s: State)
    requires IsPath(h) && CanTransition(h[|h| - 1], s)
    ensures IsPath(h + [s])
    ensures s !in h
  {
    var g := h + [s];
    forall i | 0 < i < |g| ensures CanTransition(g[i - 1], g[i]) {
    }
    if s in h {
      var i :| 0 <= i < |h| && h[i] == s;
      PathClimbs(g, i, |h|);
    }
  }

  /** A successful compare-and-swap replaced exactly the record it had read. */
  lemma CasActsOnSeen(s: Store, seen: Entry<Record>, rec: Record, forced: bool)
    requires StoreOk(s) && Honest(s.kv, seen.value.id, seen)
    requires CasRecord(s, seen, rec, forced).Some?
    ensures seen.value.id in s.kv.live && s.kv.live[seen.value.id] == seen
    ensures RecordOk(s, seen.value.id) && HistoryOk(s, seen.value.id)
  {
    assert RecordOk(s, seen.value.id);
    assert HistoryOk(s, seen.value.id);
  }

  lemma CasHistory(s: Store, seen: Entry<Record>, rec: Record, forced: bool)
    requires StoreOk(s) && Honest(s.kv, seen.value.id, seen)
    requires CasRecord(s, seen, rec, forced).Some?
    requires CanTransition(seen.value.state, rec.state)
    requires rec.state == Approved && seen.value.mismatch ==> forced
    ensures HistoryOk(CasRecord(s, seen, rec, forced).value, seen.value.id)
    ensures seen.value.id in s.hist && rec.state !in s.hist[seen.value.id]
  {
    CasActsOnSeen(s, seen, rec, forced);
    PathStep(s.hist[seen.value.id], rec.state);
  }

  lemma CasRecordOk(s: Store, seen: Entry<Record>, rec: Record, forced: bool)
    requires StoreOk(s) && Honest(s.kv, seen.value.id, seen)
    requires CasRecord(s, seen, rec, forced).Some?
    requires CanTransition(seen.value.state, rec.state) && SameIdentity(seen.value, rec)
    requires rec.state == Approved && seen.value.mismatch ==> forced
    ensures StoreOk(CasRecord(s, seen, rec, forced).value)
    ensures StoreStep(s, CasRecord(s, seen, rec, forced).value)
  {
    var s' := CasRecord(s, seen, rec, forced).value;
    CasActsOnSeen(s, seen, rec, forced);
    CasHistory(s, seen, rec, forced);
    var id0 := seen.value.id;
    assert RecordOk(s', id0);
    forall id | id in s'.kv.live && id != id0 ensures RecordOk(s', id) {
      assert RecordOk(s, id);
    }
    forall id | (id in s'.born || id in s'.hist) && id != id0 ensures HistoryOk(s', id) {
      assert HistoryOk(s, id);
    }
  }

  lemma DeliverOk(before: Store, s: Store, first: Record)
    requires StoreOk(before) && StoreOk(s) && StoreStep(before, s)
    requires first.id in before.born && SameIdentity(first, before.born[first.id])
    requires first.id in before.hist && Issued !in before.hist[first.id]
    requires first.id in s.hist && Issued in s.hist[first.id]
    requires s.delivered == before.delivered
    ensures StoreOk(Deliver(s, first))
    ensures StoreStep(before, Deliver(s, first))
  {
    var s' := Deliver(s, first);
    assert HistoryOk(before, first.id);
    forall id | id in s'.born || id in s'.hist ensures HistoryOk(s', id) {
      assert HistoryOk(s, id);
    }
    forall id | id in s'.kv.live ensures RecordOk(s', id) {
      assert RecordOk(s, id);
    }
    forall d | d in s'.deliveries ensures DeliveryOk(s', d) {
    }
  }

  /** The guarded swap every decision goes through. */
  lemma TryCasOk(s: Store, seen: Entry<Record>, made: Option<Record>, forced: bool, env: Env)
    requires StoreOk(s) && Honest(s.kv, seen.value.id, seen)
    requires made.Some? ==> CanTransition(seen.value.state, made.value.state) && SameIdentity(seen.value, made.value)
    requires made.Some? && made.value.state == Approved && seen.value.mismatch ==> forced
    ensures var r := TryCas(s, seen, made, forced, env);
      r.Some? ==> StoreOk(r.value) && StoreStep(s, r.value)
  {
    if TryCas(s, seen, made, forced, env).Some? {
      CasRecordOk(s, seen, made.value, forced);
    }
  }

  // ----- threads -----

  ghost predicate FreshOk(w: World, t: Tid, rec: Record) {
    rec.id in w.minted && w.minted[rec.id] == t && rec.id !in w.store.born && rec.state == Pending
  }

  ghost predicate ThreadOk(w: World, t: Tid, th: Thread) {
    && (Seen(th).Some? ==> Honest(w.store.kv, Seen(th).value.value.id, Seen(th).value))
    && (Unwritten(th).Some? ==> FreshOk(w, t, Unwritten(th).value))
    && (First(th).Some? ==>
          First(th).value.id in w.store.born && SameIdentity(First(th).value, w.store.born[First(th).value.id]))
    && (th.Marking? ==> th.seen.value.id == th.first.id)
  }

  ghost predicate Lifecycle(w: World) {
    && StoreOk(w.store)
    && (forall id :: id in w.store.born ==> id in w.minted)
    && (forall t {:trigger ThreadOk(w, t, w.threads[t])} :: t in w.threads ==> ThreadOk(w, t, w.threads[t]))
  }

  /** What one step owes the rest of the run. */
  ghost predicate Kept(w: World, w': World) {
    Lifecycle(w') && StoreStep(w.store, w'.store)
  }

  /** Thread `t` took a step from `w` to `w'`. */
  ghost predicate Moved(w: World, w': World, t: Tid) {
    && StoreStep(w.store, w'.store)
    && (forall id :: id in w.minted ==> id in w'.minted && w'.minted[id] == w.minted[id])
    && (forall id :: id in w'.store.born && id !in w.store.born ==> id in w'.minted && w'.minted[id] == t)
    && (forall u :: u in w'.threads && u != t ==> u in w.threads && w'.threads[u] == w.threads[u])
  }

  /** The other threads' snapshots and plans survive any such step. */
  lemma MovedLifecycle(w: World, w': World, t: Tid)
    requires Lifecycle(w) && StoreOk(w'.store) && Moved(w, w', t)
    requires t in w'.threads ==> ThreadOk(w', t, w'.threads[t])
    ensures Kept(w, w')
  {
    forall u | u in w'.threads ensures ThreadOk(w', u, w'.threads[u]) {
      if u != t {
        assert ThreadOk(w, u, w.threads[u]);
      }
    }
  }

  /** A step that leaves the records alone. */
  lemma QuietLifecycle(w: World, w': World, t: Tid)
    requires Lifecycle(w) && w'.store == w.store
    requires w'.minted == w.minted || exists id :: id !in w.minted && w'.minted == w.minted[id := t]
    requires t in w'.threads && w'.threads == w.threads[t := w'.threads[t]]
    requires ThreadOk(w', t, w'.threads[t])
    ensures Kept(w, w')
  {
    MovedLifecycle(w, w', t);
  }

  /** The first write of a record. */
  lemma StoredLifecycle(w: World, w': World, t: Tid, rec: Record, ch: ChId)
    requires Lifecycle(w) && FreshOk(w, t, rec)
    requires w'.store == AddRecord(w.store, rec, ch) && w'.minted == w.minted
    requires t in w.threads && t in w'.threads && w'.threads == w.threads[t := w'.threads[t]]
    requires Unwritten(w'.threads[t]).None? && First(w'.threads[t]).None?
    requires Seen(w'.threads[t]).None? || Seen(w'.threads[t]) == Seen(w.threads[t])
    ensures Kept(w, w')
  {
    assert ThreadOk(w, t, w.threads[t]);
    AddRecordOk(w.store, rec, ch);
    MovedLifecycle(w, w', t);
  }

  /** A call that ends by changing the store. */
  lemma EndLifecycle(w: World, t: Tid, s': Store)
    requires Lifecycle(w) && StoreOk(s') && StoreStep(w.store, s') && s'.born == w.store.born
    ensures Kept(w, Goto(w.(store := s'), t, Finished))
  {
    MovedLifecycle(w, Goto(w.(store := s'), t, Finished), t);
  }

  // ----- every step keeps the invariant -----

  lemma IssueKeeps(w: World, s: Step)
    requires Lifecycle(w) && s.Issue?
    ensures Kept(w, Apply(w, s))
  {
    assert 0 in w.threads ==> ThreadOk(w, 0, w.threads[0]);
    MovedLifecycle(w, Apply(w, s), 0);
  }

  lemma ExpireKeeps(w: World, ch: ChId)
    requires Lifecycle(w)
    ensures Kept(w, ExpireChallenge(w, ch))
  {
    assert 0 in w.threads ==> ThreadOk(w, 0, w.threads[0]);
    MovedLifecycle(w, ExpireChallenge(w, ch), 0);
  }

  lemma BeginEnrollKeeps(w: World, t: Tid, req: Request, env: Env)
    requires Lifecycle(w)
    ensures Kept(w, StartConsume(w, t, req, env))
  {
    QuietLifecycle(w, StartConsume(w, t, req, env), t);
  }

  lemma BeginDecisionKeeps(w: World, t: Tid, op: Decision, id: RecId)
    requires Lifecycle(w)
    ensures Kept(w, StartDecision(w, t, op, id))
  {
    assert id in w.store.kv.live ==> RecordOk(w.store, id);
    QuietLifecycle(w, StartDecision(w, t, op, id), t);
  }

  lemma BeginReactionKeeps(w: World, t: Tid, op: Option<Decision>, id: RecId, inScope: bool)
    requires Lifecycle(w)
    ensures Kept(w, StartReaction(w, t, op, id, inScope))
  {
    QuietLifecycle(w, StartReaction(w, t, op, id, inScope), t);
  }

  lemma BeginCredsKeeps(w: World, t: Tid, id: RecId, proved: bool)
    requires Lifecycle(w)
    ensures Kept(w, StartCreds(w, t, id, proved))
  {
    assert id in w.store.kv.live ==> RecordOk(w.store, id);
    QuietLifecycle(w, StartCreds(w, t, id, proved), t);
  }

  lemma ConsumeKeeps(w: World, t: Tid, th: Thread, env: Env)
    requires Lifecycle(w) && t in w.threads && w.threads[t] == th && th.Consuming?
    ensures Kept(w, ConsumeCas(w, t, th, env))
  {
    QuietLifecycle(w, ConsumeCas(w, t, th, env), t);
  }

  lemma CleanKeeps(w: World, t: Tid, th: Thread, env: Env)
    requires Lifecycle(w) && t in w.threads && w.threads[t] == th && th.Cleaning?
    ensures Kept(w, CleanChallenge(w, t, th, env))
  {
    QuietLifecycle(w, CleanChallenge(w, t, th, env), t);
  }

  lemma LookKeeps(w: World, t: Tid, th: Thread, env: Env)
    requires Lifecycle(w) && t in w.threads && w.threads[t] == th && th.Looking?
    requires env.newId !in w.minted
    ensures Kept(w, LookUpIndex(w, t, th, env))
  {
    QuietLifecycle(w, LookUpIndex(w, t, th, env), t);
  }

  lemma ReleaseKeeps(w: World, t: Tid, th: Thread, env: Env)
    requires Lifecycle(w) && t in w.threads && w.threads[t] == th && th.Releasing?
    requires env.newId !in w.minted
    ensures Kept(w, ReleaseIndex(w, t, th, env))
  {
    QuietLifecycle(w, ReleaseIndex(w, t, th, env), t);
  }

  lemma ExistingKeeps(w: World, t: Tid, th: Thread, env: Env)
    requires Lifecycle(w) && t in w.threads && w.threads[t] == th && th.Reading?
    requires env.newId !in w.minted
    ensures Kept(w, ReadExisting(w, t, th, env))
  {
    assert th.id in w.store.kv.live ==> RecordOk(w.store, th.id);
    QuietLifecycle(w, ReadExisting(w, t, th, env), t);
  }

  lemma ClaimKeeps(w: World, t: Tid, th: Thread, env: Env)
    requires Lifecycle(w) && t in w.threads && w.threads[t] == th && th.Claiming?
    ensures Kept(w, ClaimIndex(w, t, th, env))
  {
    assert ThreadOk(w, t, th);
    QuietLifecycle(w, ClaimIndex(w, t, th, env), t);
  }

  lemma RollBackClaimKeeps(w: World, t: Tid, th: Thread, env: Env)
    requires Lifecycle(w) && t in w.threads && w.threads[t] == th && th.RollingBack?
    ensures Kept(w, RollBackClaim(w, t, th, env))
  {
    assert ThreadOk(w, t, th);
    QuietLifecycle(w, RollBackClaim(w, t, th, env), t);
  }

  lemma SupIndexKeeps(w: World, t: Tid, th: Thread, env: Env)
    requires Lifecycle(w) && t in w.threads && w.threads[t] == th && th.SupIndex?
    ensures Kept(w, SupersedeReadIndex(w, t, th, env))
  {
    assert ThreadOk(w, t, th);
    QuietLifecycle(w, SupersedeReadIndex(w, t, th, env), t);
  }

  lemma RepointKeeps(w: World, t: Tid, th: Thread, env: Env)
    requires Lifecycle(w) && t in w.threads && w.threads[t] == th && th.SupRepoint?
    ensures Kept(w, SupersedeRepoint(w, t, th, env))
  {
    assert ThreadOk(w, t, th);
    QuietLifecycle(w, SupersedeRepoint(w, t, th, env), t);
  }

  lemma WriteKeeps(w: World, t: Tid, th: Thread, env: Env)
    requires Lifecycle(w) && t in w.threads && w.threads[t] == th && th.Writing?
    ensures Kept(w, WriteRecord(w, t, th, env))
  {
    assert ThreadOk(w, t, th);
    var w' := WriteRecord(w, t, th, env);
    if env.net.Down? || th.rec.id in w.store.kv.live {
      QuietLifecycle(w, w', t);
    } else {
      StoredLifecycle(w, w', t, th.rec, th.challenge);
    }
  }

  lemma SupWriteKeeps(w: World, t: Tid, th: Thread, env: Env)
    requires Lifecycle(w) && t in w.threads && w.threads[t] == th && th.SupWrite?
    ensures Kept(w, SupersedeWrite(w, t, th, env))
  {
    assert ThreadOk(w, t, th);
    var w' := SupersedeWrite(w, t, th, env);
    if env.net.Down? || th.rec.id in w.store.kv.live {
      QuietLifecycle(w, w', t);
    } else {
      StoredLifecycle(w, w', t, th.rec, th.challenge);
    }
  }

  lemma SupRollBackKeeps(w: World, t: Tid, th: Thread, env: Env)
    requires Lifecycle(w) && t in w.threads && w.threads[t] == th && th.SupRollback?
    ensures Kept(w, SupersedeRollBack(w, t, th, env))
  {
    RemoveRecordOk(w.store, th.rec.id);
    MovedLifecycle(w, SupersedeRollBack(w, t, th, env), t);
  }

  lemma RetireKeeps(w: World, t: Tid, th: Thread, env: Env)
    requires Lifecycle(w) && t in w.threads && w.threads[t] == th && th.SupRetire?
    ensures Kept(w, SupersedeRetire(w, t, th, env))
  {
    assert ThreadOk(w, t, th);
    var made := Retire(th.prior.value, env.now);
    var r := TryCas(w.store, th.prior, made, false, env);
    TryCasOk(w.store, th.prior, made, false, env);
    if r.Some? {
      EndLifecycle(w, t, r.value);
    } else {
      QuietLifecycle(w, SupersedeRetire(w, t, th, env), t);
    }
  }

  lemma DecideKeeps(w: World, t: Tid, th: Thread, env: Env)
    requires Lifecycle(w) && t in w.threads && w.threads[t] == th && th.Deciding?
    ensures Kept(w, DecisionCas(w, t, th, env))
  {
    assert ThreadOk(w, t, th);
    var made := Decide(th.seen.value, th.op, env.now);
    var r := TryCas(w.store, th.seen, made, th.op == Approve(true), env);
    TryCasOk(w.store, th.seen, made, th.op == Approve(true), env);
    if r.Some? {
      EndLifecycle(w, t, r.value);
    } else {
      QuietLifecycle(w, DecisionCas(w, t, th, env), t);
    }
  }

  lemma ReactionGetKeeps(w: World, t: Tid, th: Thread)
    requires Lifecycle(w) && th.Reacting?
    ensures Kept(w, ReactionGet(w, t, th))
  {
    BeginDecisionKeeps(w, t, th.op, th.id);
  }

  lemma MarkGetKeeps(w: World, t: Tid, th: Thread)
    requires Lifecycle(w) && t in w.threads && w.threads[t] == th && th.Crediting?
    ensures Kept(w, MarkIssuedGet(w, t, th))
  {
    assert ThreadOk(w, t, th);
    assert th.first.id in w.store.kv.live ==> RecordOk(w.store, th.first.id);
    QuietLifecycle(w, MarkIssuedGet(w, t, th), t);
  }

  lemma DeliversOnce(w: World, t: Tid, th: Thread, env: Env)
    requires Lifecycle(w) && t in w.threads && w.threads[t] == th && th.Marking?
    requires TryCas(w.store, th.seen, Decide(th.seen.value, MarkIssued, env.now), false, env).Some?
    ensures var s := Deliver(TryCas(w.store, th.seen, Decide(th.seen.value, MarkIssued, env.now), false, env).value,
                             th.first);
      StoreOk(s) && StoreStep(w.store, s) && s.born == w.store.born
  {
    assert ThreadOk(w, t, th);
    var made := Decide(th.seen.value, MarkIssued, env.now);
    TryCasOk(w.store, th.seen, made, false, env);
    CasHistory(w.store, th.seen, made.value, false);
    DeliverOk(w.store, TryCas(w.store, th.seen, made, false, env).value, th.first);
  }

  /** The credential step: the swap to issued happens at most once per record. */
  lemma MarkKeeps(w: World, t: Tid, th: Thread, env: Env)
    requires Lifecycle(w) && t in w.threads && w.threads[t] == th && th.Marking?
    ensures Kept(w, MarkIssuedCas(w, t, th, env))
  {
    assert ThreadOk(w, t, th);
    var made := Decide(th.seen.value, MarkIssued, env.now);
    var r := TryCas(w.store, th.seen, made, false, env);
    if r.None? {
      QuietLifecycle(w, MarkIssuedCas(w, t, th, env), t);
    } else if env.net.Heard? {
      DeliversOnce(w, t, th, env);
      EndLifecycle(w, t, Deliver(r.value, th.first));
    } else {
      TryCasOk(w.store, th.seen, made, false, env);
      EndLifecycle(w, t, r.value);
    }
  }

  lemma IntakeLifecycle(w: World, t: Tid, th: Thread, env: Env)
    requires Lifecycle(w) && t in w.threads && w.threads[t] == th
    requires env.newId !in w.minted
    ensures Kept(w, AdvanceIntake(w, t, th, env))
  {
    match th
    case Consuming(_, _) => ConsumeKeeps(w, t, th, env);
    case Cleaning(_, _) => CleanKeeps(w, t, th, env);
    case Looking(_, _) => LookKeeps(w, t, th, env);
    case Reading(_, _, _) => ExistingKeeps(w, t, th, env);
    case Releasing(_, _, _) => ReleaseKeeps(w, t, th, env);
    case _ =>
  }

  lemma CreateLifecycle(w: World, t: Tid, th: Thread, env: Env)
    requires Lifecycle(w) && t in w.threads && w.threads[t] == th
    requires env.newId !in w.minted
    ensures Kept(w, AdvanceCreate(w, t, th, env))
  {
    match th
    case Claiming(_, _) => ClaimKeeps(w, t, th, env);
    case Writing(_, _) => WriteKeeps(w, t, th, env);
    case RollingBack(_, _) => RollBackClaimKeeps(w, t, th, env);
    case _ =>
  }

  lemma SupersedeLifecycle(w: World, t: Tid, th: Thread, env: Env)
    requires Lifecycle(w) && t in w.threads && w.threads[t] == th
    requires env.newId !in w.minted
    ensures Kept(w, AdvanceSupersede(w, t, th, env))
  {
    match th
    case SupIndex(_, _, _) => SupIndexKeeps(w, t, th, env);
    case SupWrite(_, _, _, _) => SupWriteKeeps(w, t, th, env);
    case SupRepoint(_, _, _, _) => RepointKeeps(w, t, th, env);
    case SupRollback(_, _) => SupRollBackKeeps(w, t, th, env);
    case SupRetire(_, _, _) => RetireKeeps(w, t, th, env);
    case _ =>
  }

  lemma DecisionLifecycle(w: World, t: Tid, th: Thread, env: Env)
    requires Lifecycle(w) && t in w.threads && w.threads[t] == th
    requires env.newId !in w.minted
    ensures Kept(w, AdvanceDecision(w, t, th, env))
  {
    match th
    case Deciding(_, _) => DecideKeeps(w, t, th, env);
    case Reacting(_, _) => ReactionGetKeeps(w, t, th);
    case Crediting(_) => MarkGetKeeps(w, t, th);
    case Marking(_, _) => MarkKeeps(w, t, th, env);
    case _ =>
  }

  lemma AdvanceLifecycle(w: World, t: Tid, th: Thread, env: Env)
    requires Lifecycle(w) && t in w.threads && w.threads[t] == th
    requires env.newId !in w.minted
    ensures Kept(w, Advance(w, t, th, env))
  {
    IntakeLifecycle(w, t, th, env);
    CreateLifecycle(w, t, th, env);
    SupersedeLifecycle(w, t, th, env);
    DecisionLifecycle(w, t, th, env);
  }

  lemma StepLifecycle(w: World, s: Step)
    requires Lifecycle(w) && Enabled(w, s)
    ensures Kept(w, Apply(w, s))
  {
    match s
    case Issue(_, _, _, _) => IssueKeeps(w, s);
    case Expire(ch) => ExpireKeeps(w, ch);
    case BeginEnroll(t, req, env) => BeginEnrollKeeps(w, t, req, env);
    case BeginDecision(t, op, id) => BeginDecisionKeeps(w, t, op, id);
    case BeginReaction(t, op, id, inScope) => BeginReactionKeeps(w, t, op, id, inScope);
    case BeginCreds(t, id, proved) => BeginCredsKeeps(w, t, id, proved);
    case Act(t, env) => AdvanceLifecycle(w, t, w.threads[t], env);
  }

  lemma {:induction false} RunLifecycle(ws: seq<World>, steps: seq<Step>, i: nat)
    requires IsRun(ws, steps)
    requires i < |ws|
    ensures Lifecycle(ws[i])
    decreases i
  {
    if i > 0 {
      RunLifecycle(ws, steps, i - 1);
      StepLifecycle(ws[i - 1], steps[i - 1]);
    }
  }

  lemma StoreStepTransitive(a: Store, b: Store, c: Store)
    requires StoreStep(a, b) && StoreStep(b, c)
    ensures StoreStep(a, c)
  {
    GrowsTransitive(a.kv, b.kv, c.kv);
  }

  lemma RunKept(ws: seq<World>, steps: seq<Step>, i: nat)
    requires IsRun(ws, steps) && i < |steps|
    ensures StoreStep(ws[i].store, ws[i + 1].store)
  {
    RunLifecycle(ws, steps, i);
    StepLifecycle(ws[i], steps[i]);
  }

  lemma {:induction false} RunStoreStep(ws: seq<World>, steps: seq<Step>, i: nat, j: nat)
    requires IsRun(ws, steps)
    requires i <= j < |ws|
    ensures StoreStep(ws[i].store, ws[j].store)
    decreases j
  {
    if i < j {
      RunStoreStep(ws, steps, i, j - 1);
      RunKept(ws, steps, j - 1);
      StoreStepTransitive(ws[i].store, ws[j - 1].store, ws[j].store);
    }
  }

  // ----- the theorems -----

  /** In every run, a stored record is the one first written under its identifier with only
      its state moved on: peel, key and trust flag never change, and its states so far form a
      path of the transition table that ends in the stored state. */
  lemma RecordsFollowTheTable(ws: seq<World>, steps: seq<Step>, i: nat, id: RecId)
    requires IsRun(ws, steps) && i < |ws|
    requires id in ws[i].store.kv.live
    ensures id in ws[i].store.born && SameIdentity(ws[i].store.kv.live[id].value, ws[i].store.born[id])
    ensures ws[i].store.kv.live[id].value.id == id
    ensures id in ws[i].store.hist && IsPath(ws[i].store.hist[id])
    ensures ws[i].store.kv.live[id].value.state == ws[i].store.hist[id][|ws[i].store.hist[id]| - 1]
  {
    RunLifecycle(ws, steps, i);
    assert RecordOk(ws[i].store, id);
    assert HistoryOk(ws[i].store, id);
  }

  /** Between any two moments of a run a record keeps its identity and moves forward only. */
  lemma RecordsNeverGoBack(ws: seq<World>, steps: seq<Step>, i: nat, j: nat, id: RecId)
    requires IsRun(ws, steps) && i <= j < |ws|
    requires id in ws[i].store.kv.live && id in ws[j].store.kv.live
    ensures var a, b := ws[i].store.kv.live[id].value, ws[j].store.kv.live[id].value;
      && SameIdentity(a, b)
      && (a.state == b.state || Rank(a.state) < Rank(b.state))
  {
    RecordsFollowTheTable(ws, steps, i, id);
    RecordsFollowTheTable(ws, steps, j, id);
    RunStoreStep(ws, steps, i, j);
    var h, g := ws[i].store.hist[id], ws[j].store.hist[id];
    assert h[|h| - 1] == g[|h| - 1];
    if |h| < |g| {
      PathClimbs(g, |h| - 1, |g| - 1);
    }
  }

  /** A trust-mismatched record reaches approved only through a forced approval. */
  lemma MismatchNeedsForce(ws: seq<World>, steps: seq<Step>, i: nat, id: RecId)
    requires IsRun(ws, steps) && i < |ws|
    requires id in ws[i].store.kv.live && ws[i].store.kv.live[id].value.mismatch
    requires ws[i].store.kv.live[id].value.state !in {Pending, Rejected}
    ensures id in ws[i].store.forced
  {
    RunLifecycle(ws, steps, i);
    assert RecordOk(ws[i].store, id);
    assert HistoryOk(ws[i].store, id);
    var h := ws[i].store.hist[id];
    assert |h| > 1;
    assert CanTransition(h[0], h[1]);
    assert |h| > 2 ==> CanTransition(h[1], h[2]);
    assert h[1] == Approved;
  }

  /** Each enrollment yields at most one credential, and it is for the record's own peel and
      key, whatever the interleaving of downloads and decisions. */
  lemma OneCredentialPerEnrollment(ws: seq<World>, steps: seq<Step>, i: nat, id: RecId, d: Delivery)
    requires IsRun(ws, steps) && i < |ws|
    ensures ws[i].store.delivered[id] <= 1
    ensures d in ws[i].store.deliveries ==>
      d.id in ws[i].store.born && d.peel == ws[i].store.born[d.id].peel && d.key == ws[i].store.born[d.id].key
  {
    RunLifecycle(ws, steps, i);
    var s := ws[i].store;
    assert id in s.born ==> HistoryOk(s, id);
    assert d in s.deliveries ==> DeliveryOk(s, d);
  }

  // ----- decided records are frozen -----

  predicate WritesStore(th: Thread) {
    th.Writing? || th.SupWrite? || th.SupRollback? || th.SupRetire? || th.Deciding? || th.Marking?
  }

  lemma AdvanceKeepsStore(w: World, t: Tid, th: Thread, env: Env)
    requires !WritesStore(th)
    ensures Advance(w, t, th, env).store == w.store
  {
  }

  lemma BeginKeepsStore(w: World, s: Step)
    requires !s.Act?
    ensures Apply(w, s).store == w.store
  {
  }

  /** The record is in a state no decision leaves. */
  ghost predicate IsDecided(s: Store, id: RecId) {
    id in s.kv.live && s.kv.live[id].value.state in {Rejected, Revoked}
  }

  ghost predicate Frozen(s: Store, s': Store, id: RecId) {
    id in s'.kv.live ==> id in s.kv.live && s'.kv.live[id] == s.kv.live[id]
  }

  lemma CasFreezes(s: Store, seen: Entry<Record>, made: Option<Record>, forced: bool, env: Env, id: RecId)
    requires StoreOk(s) && Honest(s.kv, seen.value.id, seen) && IsDecided(s, id)
    requires made.Some? ==> CanTransition(seen.value.state, made.value.state)
    ensures TryCas(s, seen, made, forced, env).Some? ==> Frozen(s, TryCas(s, seen, made, forced, env).value, id)
  {
    if TryCas(s, seen, made, forced, env).Some? {
      CasActsOnSeen(s, seen, made.value, forced);
    }
  }

  lemma WriteFreezes(w: World, t: Tid, th: Thread, env: Env, id: RecId)
    requires Lifecycle(w) && t in w.threads && w.threads[t] == th && IsDecided(w.store, id)
    requires th.Writing? || th.SupWrite? || th.SupRollback?
    ensures Frozen(w.store, Advance(w, t, th, env).store, id)
  {
    assert ThreadOk(w, t, th);
    assert RecordOk(w.store, id);
  }

  lemma DecideFreezes(w: World, t: Tid, th: Thread, env: Env, id: RecId)
    requires Lifecycle(w) && t in w.threads && w.threads[t] == th && IsDecided(w.store, id)
    requires th.SupRetire? || th.Deciding? || th.Marking?
    ensures Frozen(w.store, Advance(w, t, th, env).store, id)
  {
    assert ThreadOk(w, t, th);
    match th
    case SupRetire(_, _, prior) => CasFreezes(w.store, prior, Retire(prior.value, env.now), false, env, id);
    case Deciding(op, seen) => CasFreezes(w.store, seen, Decide(seen.value, op, env.now), op == Approve(true), env, id);
    case Marking(_, seen) => CasFreezes(w.store, seen, Decide(seen.value, MarkIssued, env.now), false, env, id);
  }

  lemma StepFreezes(w: World, s: Step, id: RecId)
    requires Lifecycle(w) && Enabled(w, s) && IsDecided(w.store, id)
    ensures Frozen(w.store, Apply(w, s).store, id)
  {
    if !s.Act? {
      BeginKeepsStore(w, s);
    } else {
      var th := w.threads[s.t];
      if !WritesStore(th) {
        AdvanceKeepsStore(w, s.t, th, s.env);
      } else if th.Writing? || th.SupWrite? || th.SupRollback? {
        WriteFreezes(w, s.t, th, s.env, id);
      } else {
        DecideFreezes(w, s.t, th, s.env, id);
      }
    }
  }

  lemma WriteStaysGone(w: World, t: Tid, th: Thread, env: Env, id: RecId)
    requires Lifecycle(w) && t in w.threads && w.threads[t] == th
    requires th.Writing? || th.SupWrite? || th.SupRollback?
    requires id in w.store.born && id !in w.store.kv.live
    ensures id in Advance(w, t, th, env).store.born && id !in Advance(w, t, th, env).store.kv.live
  {
    assert ThreadOk(w, t, th);
  }

  lemma CasStaysGone(w: World, t: Tid, th: Thread, env: Env, id: RecId)
    requires th.SupRetire? || th.Deciding? || th.Marking?
    requires id in w.store.born && id !in w.store.kv.live
    ensures id in Advance(w, t, th, env).store.born && id !in Advance(w, t, th, env).store.kv.live
  {
  }

  /** A record that was deleted does not come back. */
  lemma StaysGone(w: World, s: Step, id: RecId)
    requires Lifecycle(w) && Enabled(w, s) && id in w.store.born && id !in w.store.kv.live
    ensures id in Apply(w, s).store.born && id !in Apply(w, s).store.kv.live
  {
    if !s.Act? {
      BeginKeepsStore(w, s);
    } else if !WritesStore(w.threads[s.t]) {
      AdvanceKeepsStore(w, s.t, w.threads[s.t], s.env);
    } else if w.threads[s.t].SupRetire? || w.threads[s.t].Deciding? || w.threads[s.t].Marking? {
      CasStaysGone(w, s.t, w.threads[s.t], s.env, id);
    } else {
      WriteStaysGone(w, s.t, w.threads[s.t], s.env, id);
    }
  }

  lemma RunFreezes(ws: seq<World>, steps: seq<Step>, i: nat, id: RecId)
    requires IsRun(ws, steps) && i < |steps| && IsDecided(ws[i].store, id)
    ensures Frozen(ws[i].store, ws[i + 1].store, id)
  {
    RunLifecycle(ws, steps, i);
    assert ws[i + 1] == Apply(ws[i], steps[i]);
    StepFreezes(ws[i], steps[i], id);
  }

  /** A rejected or revoked record never changes again, in any field, as long as it exists. */
  lemma {:induction false} DecidedRecordsAreFrozen(ws: seq<World>, steps: seq<Step>, i: nat, j: nat, id: RecId)
    requires IsRun(ws, steps) && i <= j < |ws| && IsDecided(ws[i].store, id)
    requires forall k :: i <= k <= j ==> id in ws[k].store.kv.live
    ensures ws[j].store.kv.live[id] == ws[i].store.kv.live[id]
    decreases j
  {
    if i < j {
      DecidedRecordsAreFrozen(ws, steps, i, j - 1, id);
      RunFreezes(ws, steps, j - 1, id);
      assert id in ws[j - 1].store.kv.live && id in ws[j].store.kv.live;
    }
  }
}
