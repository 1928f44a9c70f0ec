/** Where enrollment records come from: in every run each challenge is consumed at most once,
    and each record ever written traces to its own consumed challenge, one that was issued for
    that record's peel and key. */
module EnrollProvenance {
  import opened KeyValue
  import opened Enrollment
  import opened EnrollProtocol
  import EnrollLifecycle

  datatype Held = Held(ch: ChId, owner: Owner)

  /** The consumed challenge a call may still turn into a record, with whom it speaks for. */
  function Holds(th: Thread): (r: Option<Held>) {
    match th
    case Cleaning(req, ch) => Some(Held(req.challenge, Owner(ch.value.peel, ch.value.key)))
    case Looking(req, _) => Some(Held(req.challenge, Owner(req.peel, req.key)))
    case Reading(req, _, _) => Some(Held(req.challenge, Owner(req.peel, req.key)))
    case Releasing(req, _, _) => Some(Held(req.challenge, Owner(req.peel, req.key)))
    case Claiming(c, rec) => Some(Held(c, Owner(rec.peel, rec.key)))
    case Writing(c, rec) => Some(Held(c, Owner(rec.peel, rec.key)))
    case SupIndex(c, rec, _) => Some(Held(c, Owner(rec.peel, rec.key)))
    case SupWrite(c, rec, _, _) => Some(Held(c, Owner(rec.peel, rec.key)))
    case _ => None
  }

  ghost predicate LiveOk(d: Desk, c: ChId)
    requires c in d.kv.live
  {
    var ch := d.kv.live[c].value;
    c in d.issued && Owner(ch.peel, ch.key) == d.issued[c] && (c in d.consumed ==> ch.used)
  }

  ghost predicate ConsumedOk(d: Desk, c: ChId) {
    d.consumed[c] <= 1 && c in d.issued && c in d.winner
  }

  ghost predicate DeskOk(d: Desk) {
    && d.kv.Valid()
    && (forall c {:trigger LiveOk(d, c)} :: c in d.kv.live ==> LiveOk(d, c))
    && (forall c {:trigger ConsumedOk(d, c)} :: c in d.consumed ==> ConsumedOk(d, c))
  }

  ghost predicate OriginOk(d: Desk, s: Store, id: RecId)
    requires id in s.origin
  {
    var c := s.origin[id];
    && c in d.consumed && c in d.issued
    && id in s.born && Owner(s.born[id].peel, s.born[id].key) == d.issued[c]
  }

  ghost predicate Injective(m: map<RecId, ChId>) {
    forall i, j :: i in m && j in m && m[i] == m[j] ==> i == j
  }

  ghost predicate OriginsOk(d: Desk, s: Store) {
    && Injective(s.origin)
    && (forall id :: id in s.born ==> id in s.origin)
    && (forall id {:trigger OriginOk(d, s, id)} :: id in s.origin ==> OriginOk(d, s, id))
  }

  ghost predicate Unspent(s: Store, c: ChId) {
    forall id :: id in s.origin ==> s.origin[id] != c
  }

  ghost predicate HeldOk(d: Desk, s: Store, t: Tid, h: Held) {
    && h.ch in d.consumed
    && h.ch in d.winner && d.winner[h.ch] == t
    && h.ch in d.issued && d.issued[h.ch] == h.owner
    && Unspent(s, h.ch)
  }

  ghost predicate ThreadOk(d: Desk, s: Store, t: Tid, th: Thread) {
    && (th.Consuming? ==>
          && Honest(d.kv, th.req.challenge, th.ch)
          && !th.ch.value.used
          && th.req.challenge in d.issued
          && d.issued[th.req.challenge] == Owner(th.ch.value.peel, th.ch.value.key))
    && (Holds(th).Some? ==> HeldOk(d, s, t, Holds(th).value))
  }

  ghost predicate Provenance(w: World) {
    && DeskOk(w.desk)
    && OriginsOk(w.desk, w.store)
    && (forall t {:trigger ThreadOk(w.desk, w.store, t, w.threads[t])} ::
          t in w.threads ==> ThreadOk(w.desk, w.store, t, w.threads[t]))
  }

  /** What a step of thread `t` may do to the challenges, seen from the others. */
  ghost predicate DeskStep(d: Desk, d': Desk) {
    && Grows(d.kv, d'.kv)
    && (forall c :: c in d.issued ==> c in d'.issued && d'.issued[c] == d.issued[c])
    && (forall c :: c in d.consumed ==>
          c in d'.consumed && (c in d.winner ==> c in d'.winner && d'.winner[c] == d.winner[c]))
  }

  /** Only challenges won by `t` may have become origins. */
  ghost predicate OriginStep(d: Desk, s: Store, s': Store, t: Tid) {
    forall id :: id in s'.origin ==>
      (id in s.origin && s.origin[id] == s'.origin[id]) || (s'.origin[id] in d.winner && d.winner[s'.origin[id]] == t)
  }

  lemma MovedThreads(w: World, w': World, t: Tid)
    requires Provenance(w)
    requires DeskStep(w.desk, w'.desk) && OriginStep(w.desk, w.store, w'.store, t)
    requires forall u :: u in w'.threads && u != t ==> u in w.threads && w'.threads[u] == w.threads[u]
    requires t in w'.threads ==> ThreadOk(w'.desk, w'.store, t, w'.threads[t])
    ensures forall u :: u in w'.threads ==> ThreadOk(w'.desk, w'.store, u, w'.threads[u])
  {
    forall u | u in w'.threads && u != t ensures ThreadOk(w'.desk, w'.store, u, w'.threads[u]) {
      assert ThreadOk(w.desk, w.store, u, w.threads[u]);
    }
  }

  /** A step that leaves challenges alone and writes no record for the first time. */
  lemma QuietProvenance(w: World, w': World, t: Tid)
    requires Provenance(w) && w'.desk == w.desk
    requires w'.store.origin == w.store.origin && w'.store.born == w.store.born
    requires t in w'.threads && w'.threads == w.threads[t := w'.threads[t]]
    requires ThreadOk(w'.desk, w'.store, t, w'.threads[t])
    ensures Provenance(w')
  {
    MovedThreads(w, w', t);
    forall id | id in w'.store.origin ensures OriginOk(w'.desk, w'.store, id) {
      assert OriginOk(w.desk, w.store, id);
    }
  }

  /** A step that only touches challenges. */
  lemma DeskProvenance(w: World, w': World, t: Tid)
    requires Provenance(w) && w'.store == w.store
    requires DeskOk(w'.desk) && DeskStep(w.desk, w'.desk)
    requires forall u :: u in w'.threads && u != t ==> u in w.threads && w'.threads[u] == w.threads[u]
    requires t in w'.threads ==> ThreadOk(w'.desk, w'.store, t, w'.threads[t])
    ensures Provenance(w')
  {
    MovedThreads(w, w', t);
    forall id | id in w'.store.origin ensures OriginOk(w'.desk, w'.store, id) {
      assert OriginOk(w.desk, w.store, id);
    }
  }

  // ----- challenges -----

  lemma IssueDesk(w: World, s: Step)
    requires Provenance(w) && Enabled(w, s) && s.Issue?
    ensures DeskOk(Apply(w, s).desk) && DeskStep(w.desk, Apply(w, s).desk)
  {
    var d, d' := w.desk, IssueChallenge(w, s.ch, s.peel, s.key, s.expiresAt).desk;
    forall c | c in d'.kv.live ensures LiveOk(d', c) {
      assert c in d.kv.live ==> LiveOk(d, c);
      assert c in d.consumed ==> ConsumedOk(d, c);
    }
    forall c | c in d'.consumed ensures ConsumedOk(d', c) {
      assert ConsumedOk(d, c);
    }
  }

  lemma IssueKeeps(w: World, s: Step)
    requires Provenance(w) && Enabled(w, s) && s.Issue?
    ensures Provenance(Apply(w, s))
  {
    IssueDesk(w, s);
    assert 0 in w.threads ==> ThreadOk(w.desk, w.store, 0, w.threads[0]);
    DeskProvenance(w, Apply(w, s), 0);
  }

  lemma ExpireKeeps(w: World, c: ChId)
    requires Provenance(w)
    ensures Provenance(ExpireChallenge(w, c))
  {
    var w' := ExpireChallenge(w, c);
    forall k | k in w'.desk.kv.live ensures LiveOk(w'.desk, k) {
      assert LiveOk(w.desk, k);
    }
    forall k | k in w'.desk.consumed ensures ConsumedOk(w'.desk, k) {
      assert ConsumedOk(w.desk, k);
    }
    assert 0 in w.threads ==> ThreadOk(w.desk, w.store, 0, w.threads[0]);
    DeskProvenance(w, w', 0);
  }

  lemma BeginEnrollKeeps(w: World, t: Tid, req: Request, env: Env)
    requires Provenance(w)
    ensures Provenance(StartConsume(w, t, req, env))
  {
    assert req.challenge in w.desk.kv.live ==> LiveOk(w.desk, req.challenge);
    QuietProvenance(w, StartConsume(w, t, req, env), t);
  }

  /** The winning swap: nobody has consumed this challenge before. */
  lemma ConsumedFirst(w: World, t: Tid, th: Thread)
    requires Provenance(w) && t in w.threads && w.threads[t] == th && th.Consuming?
    requires w.desk.kv.Update(th.req.challenge, th.ch.value.(used := true), th.ch.rev).Wrote?
    ensures th.req.challenge !in w.desk.consumed
    ensures Unspent(w.store, th.req.challenge)
  {
    var c := th.req.challenge;
    assert ThreadOk(w.desk, w.store, t, th);
    assert LiveOk(w.desk, c);
    forall id | id in w.store.origin ensures w.store.origin[id] != c {
      assert OriginOk(w.desk, w.store, id);
    }
  }

  lemma ConsumeDesk(w: World, t: Tid, th: Thread, env: Env)
    requires Provenance(w) && t in w.threads && w.threads[t] == th && th.Consuming?
    ensures DeskOk(ConsumeCas(w, t, th, env).desk)
    ensures DeskStep(w.desk, ConsumeCas(w, t, th, env).desk)
  {
    var c := th.req.challenge;
    var d, d' := w.desk, ConsumeCas(w, t, th, env).desk;
    assert ThreadOk(d, w.store, t, th);
    if w.desk.kv.Update(c, th.ch.value.(used := true), th.ch.rev).Wrote? {
      ConsumedFirst(w, t, th);
    }
    forall k | k in d'.kv.live ensures LiveOk(d', k) {
      assert LiveOk(d, k);
    }
    forall k | k in d'.consumed ensures ConsumedOk(d', k) {
      assert k in d.consumed ==> ConsumedOk(d, k);
    }
  }

  lemma ConsumeKeeps(w: World, t: Tid, th: Thread, env: Env)
    requires Provenance(w) && t in w.threads && w.threads[t] == th && th.Consuming?
    ensures Provenance(ConsumeCas(w, t, th, env))
  {
    ConsumeDesk(w, t, th, env);
    assert ThreadOk(w.desk, w.store, t, th);
    if w.desk.kv.Update(th.req.challenge, th.ch.value.(used := true), th.ch.rev).Wrote? {
      ConsumedFirst(w, t, th);
    }
    DeskProvenance(w, ConsumeCas(w, t, th, env), t);
  }

  lemma CleanDesk(d: Desk, c: ChId)
    requires DeskOk(d)
    ensures DeskOk(d.(kv := d.kv.Remove(c))) && DeskStep(d, d.(kv := d.kv.Remove(c)))
  {
    var d' := d.(kv := d.kv.Remove(c));
    forall k | k in d'.kv.live ensures LiveOk(d', k) {
      assert LiveOk(d, k);
    }
    forall k | k in d'.consumed ensures ConsumedOk(d', k) {
      assert ConsumedOk(d, k);
    }
  }

  lemma CleanKeeps(w: World, t: Tid, th: Thread, env: Env)
    requires Provenance(w) && t in w.threads && w.threads[t] == th && th.Cleaning?
    ensures Provenance(CleanChallenge(w, t, th, env))
  {
    CleanDesk(w.desk, th.req.challenge);
    assert ThreadOk(w.desk, w.store, t, th);
    DeskProvenance(w, CleanChallenge(w, t, th, env), t);
  }

  // ----- records -----

  /** The first write of a record spends the challenge its call holds. */
  lemma StoredProvenance(w: World, w': World, t: Tid, rec: Record, ch: ChId)
    requires Provenance(w) && w'.desk == w.desk
    requires rec.id !in w.store.origin
    requires HeldOk(w.desk, w.store, t, Held(ch, Owner(rec.peel, rec.key)))
    requires w'.store == AddRecord(w.store, rec, ch)
    requires t in w'.threads && w'.threads == w.threads[t := w'.threads[t]]
    requires Holds(w'.threads[t]).None? && !w'.threads[t].Consuming?
    ensures Provenance(w')
  {
    MovedThreads(w, w', t);
    forall id | id in w'.store.origin ensures OriginOk(w'.desk, w'.store, id) {
      assert id != rec.id ==> OriginOk(w.desk, w.store, id);
    }
  }

  lemma WriteKeeps(w: World, t: Tid, th: Thread, env: Env)
    requires Provenance(w) && t in w.threads && w.threads[t] == th && th.Writing?
    requires th.rec.id !in w.store.origin
    ensures Provenance(WriteRecord(w, t, th, env))
  {
    assert ThreadOk(w.desk, w.store, t, th);
    var w' := WriteRecord(w, t, th, env);
    if env.net.Down? || th.rec.id in w.store.kv.live {
      CarriesKeeps(w, w', t);
    } else {
      StoredProvenance(w, w', t, th.rec, th.challenge);
    }
  }

  lemma SupWriteKeeps(w: World, t: Tid, th: Thread, env: Env)
    requires Provenance(w) && t in w.threads && w.threads[t] == th && th.SupWrite?
    requires th.rec.id !in w.store.origin
    ensures Provenance(SupersedeWrite(w, t, th, env))
  {
    assert ThreadOk(w.desk, w.store, t, th);
    var w' := SupersedeWrite(w, t, th, env);
    if env.net.Down? || th.rec.id in w.store.kv.live {
      CarriesKeeps(w, w', t);
    } else {
      StoredProvenance(w, w', t, th.rec, th.challenge);
    }
  }

  // ----- all other steps -----

  /** A step that neither consumes nor stores, and holds on to at most what it held. */
  ghost predicate Carries(w: World, w': World, t: Tid) {
    && w'.desk == w.desk
    && w'.store.origin == w.store.origin && w'.store.born == w.store.born
    && t in w'.threads && w'.threads == w.threads[t := w'.threads[t]]
    && !w'.threads[t].Consuming?
    && (Holds(w'.threads[t]).None? || (t in w.threads && Holds(w'.threads[t]) == Holds(w.threads[t])))
  }

  lemma CarriesKeeps(w: World, w': World, t: Tid)
    requires Provenance(w) && Carries(w, w', t)
    ensures Provenance(w')
  {
    assert t in w.threads ==> ThreadOk(w.desk, w.store, t, w.threads[t]);
    QuietProvenance(w, w', t);
  }

  lemma BeginDecisionCarries(w: World, s: Step)
    requires s.BeginDecision?
    ensures Carries(w, Apply(w, s), s.t)
  {
  }

  lemma BeginReactionCarries(w: World, s: Step)
    requires s.BeginReaction?
    ensures Carries(w, Apply(w, s), s.t)
  {
  }

  lemma BeginCredsCarries(w: World, s: Step)
    requires s.BeginCreds?
    ensures Carries(w, Apply(w, s), s.t)
  {
  }

  lemma LookCarries(w: World, t: Tid, th: Thread, env: Env)
    requires t in w.threads && w.threads[t] == th && (th.Looking? || th.Releasing?)
    ensures Carries(w, AdvanceIntake(w, t, th, env), t)
  {
  }

  lemma ReadCarries(w: World, t: Tid, th: Thread, env: Env)
    requires t in w.threads && w.threads[t] == th && (th.Reading?)
    ensures Carries(w, AdvanceIntake(w, t, th, env), t)
  {
  }

  lemma CreateCarries(w: World, t: Tid, th: Thread, env: Env)
    requires t in w.threads && w.threads[t] == th && (th.Claiming? || th.RollingBack?)
    ensures Carries(w, AdvanceCreate(w, t, th, env), t)
  {
  }

  lemma SwapCarries(w: World, t: Tid, th: Thread, env: Env)
    requires t in w.threads && w.threads[t] == th && (th.SupIndex? || th.SupRepoint?)
    ensures Carries(w, AdvanceSupersede(w, t, th, env), t)
  {
  }

  lemma RetireCarries(w: World, t: Tid, th: Thread, env: Env)
    requires t in w.threads && w.threads[t] == th && (th.SupRollback? || th.SupRetire?)
    ensures Carries(w, AdvanceSupersede(w, t, th, env), t)
  {
  }

  lemma DecideCarries(w: World, t: Tid, th: Thread, env: Env)
    requires t in w.threads && w.threads[t] == th && (th.Deciding?)
    ensures Carries(w, AdvanceDecision(w, t, th, env), t)
  {
  }

  lemma ReactCarries(w: World, t: Tid, th: Thread, env: Env)
    requires t in w.threads && w.threads[t] == th && (th.Reacting?)
    ensures Carries(w, AdvanceDecision(w, t, th, env), t)
  {
  }

  lemma CreditCarries(w: World, t: Tid, th: Thread, env: Env)
    requires t in w.threads && w.threads[t] == th && (th.Crediting?)
    ensures Carries(w, AdvanceDecision(w, t, th, env), t)
  {
  }

  lemma MarkCarries(w: World, t: Tid, th: Thread, env: Env)
    requires t in w.threads && w.threads[t] == th && (th.Marking?)
    ensures Carries(w, AdvanceDecision(w, t, th, env), t)
  {
  }

  lemma AdvanceCarries(w: World, t: Tid, th: Thread, env: Env)
    requires t in w.threads && w.threads[t] == th
    requires !th.Consuming? && !th.Cleaning? && !th.Writing? && !th.SupWrite? && !th.Finished? && !th.Stranded?
    ensures Carries(w, Advance(w, t, th, env), t)
  {
    if th.Reading? {
      ReadCarries(w, t, th, env);
    } else if InIntake(th) {
      LookCarries(w, t, th, env);
    } else if InCreate(th) {
      CreateCarries(w, t, th, env);
    } else if th.SupIndex? || th.SupRepoint? {
      SwapCarries(w, t, th, env);
    } else if InSupersede(th) {
      RetireCarries(w, t, th, env);
    } else if th.Deciding? {
      DecideCarries(w, t, th, env);
    } else if th.Reacting? {
      ReactCarries(w, t, th, env);
    } else if th.Crediting? {
      CreditCarries(w, t, th, env);
    } else {
      MarkCarries(w, t, th, env);
    }
  }

  // ----- runs -----

  lemma AdvanceProvenance(w: World, t: Tid, th: Thread, env: Env)
    requires EnrollLifecycle.Lifecycle(w) && Provenance(w) && t in w.threads && w.threads[t] == th
    ensures Provenance(Advance(w, t, th, env))
  {
    if th.Consuming? {
      ConsumeKeeps(w, t, th, env);
    } else if th.Cleaning? {
      CleanKeeps(w, t, th, env);
    } else if th.Writing? || th.SupWrite? {
      assert EnrollLifecycle.ThreadOk(w, t, w.threads[t]);
      assert th.rec.id in w.store.origin ==> OriginOk(w.desk, w.store, th.rec.id);
      if th.Writing? {
        WriteKeeps(w, t, th, env);
      } else {
        SupWriteKeeps(w, t, th, env);
      }
    } else if !th.Finished? && !th.Stranded? {
      AdvanceCarries(w, t, th, env);
      CarriesKeeps(w, Advance(w, t, th, env), t);
    }
  }

  lemma StepProvenance(w: World, s: Step)
    requires EnrollLifecycle.Lifecycle(w) && Provenance(w) && Enabled(w, s)
    ensures Provenance(Apply(w, s))
  {
    match s
    case Issue(_, _, _, _) => IssueKeeps(w, s);
    case Expire(ch) => ExpireKeeps(w, ch);
    case BeginEnroll(t, req, env) => BeginEnrollKeeps(w, t, req, env);
    case Act(t, env) => AdvanceProvenance(w, t, w.threads[t], env);
    case BeginDecision(t, _, _) => BeginDecisionCarries(w, s); CarriesKeeps(w, Apply(w, s), t);
    case BeginReaction(t, _, _, _) => BeginReactionCarries(w, s); CarriesKeeps(w, Apply(w, s), t);
    case BeginCreds(t, _, _) => BeginCredsCarries(w, s); CarriesKeeps(w, Apply(w, s), t);
  }

  lemma {:induction false} RunProvenance(ws: seq<World>, steps: seq<Step>, i: nat)
    requires IsRun(ws, steps) && i < |ws|
    ensures Provenance(ws[i])
    decreases i
  {
    if i > 0 {
      RunProvenance(ws, steps, i - 1);
      EnrollLifecycle.RunLifecycle(ws, steps, i - 1);
      StepProvenance(ws[i - 1], steps[i - 1]);
    }
  }

  /** No challenge is ever consumed twice, however many calls race for it. */
  lemma ChallengesAreSingleUse(ws: seq<World>, steps: seq<Step>, i: nat, c: ChId)
    requires IsRun(ws, steps) && i < |ws|
    ensures ws[i].desk.consumed[c] <= 1
  {
    RunProvenance(ws, steps, i);
    assert c in ws[i].desk.consumed ==> ConsumedOk(ws[i].desk, c);
  }

  /** Every record ever written comes from a consumed challenge that was issued for that
      record's peel and key, and no two records share one. */
  lemma RecordsTraceToTheirChallenge(ws: seq<World>, steps: seq<Step>, i: nat, id: RecId, other: RecId)
    requires IsRun(ws, steps) && i < |ws|
    requires id in ws[i].store.kv.live
    ensures var w := ws[i];
      var rec := w.store.kv.live[id].value;
      && id in w.store.origin
      && w.desk.consumed[w.store.origin[id]] == 1
      && w.store.origin[id] in w.desk.issued
      && w.desk.issued[w.store.origin[id]] == Owner(rec.peel, rec.key)
      && (other in w.store.origin && other != id ==> w.store.origin[other] != w.store.origin[id])
  {
    RunProvenance(ws, steps, i);
    EnrollLifecycle.RecordsFollowTheTable(ws, steps, i, id);
    var w := ws[i];
    assert OriginOk(w.desk, w.store, id);
    assert ConsumedOk(w.desk, w.store.origin[id]);
  }
}
