/** What it takes, in any run of the enrollment protocol, to bring about each of its effects: a
    record comes from an enrollment request in time for a challenge that was issued to its peel and
    key, that proved the key and passed the trust gate, a forced
    approval from an operator's call and never from a reaction, a credential from a download whose
    caller proved the key. And what a call achieves when nobody interferes with it. */
module EnrollCauses {
  import opened KeyValue
  import opened Enrollment
  import opened EnrollProtocol
  import opened EnrollLifecycle

  // ----- what was asked for so far -----

  /** The challenge was issued as this one. */
  ghost predicate IssuedAs(id: ChId, ch: Challenge, done: set<Step>) {
    Issue(id, ch.peel, ch.key, ch.expiresAt) in done
  }

  /** Call `t` was begun as this enrollment request, no later than `deadline`. */
  ghost predicate Comes(t: Tid, req: Request, deadline: Time, done: set<Step>) {
    exists env :: BeginEnroll(t, req, env) in done && env.now <= deadline
  }

  /** Call `t` was begun as this enrollment request, in time for a challenge that was issued to the
      request's peel and key. */
  ghost predicate Enrolls(t: Tid, req: Request, done: set<Step>) {
    exists deadline :: Issue(req.challenge, req.peel, req.key, deadline) in done && Comes(t, req, deadline, done)
  }

  /** A request that proved its key and passes, with this flag, the gate of a master that uses one of
      these pins. */
  ghost predicate Passes(req: Request, mismatch: bool, pins: set<string>) {
    req.proved && exists pin :: pin in pins && TrustGate(pin, req) == Some(mismatch)
  }

  /** The record carries the peel, the key and the flag of a request that was made and passed, under
      this challenge. */
  ghost predicate FromRequest(rec: Record, ch: ChId, pins: set<string>, done: set<Step>) {
    exists t, req :: Enrolls(t, req, done) && Passes(req, rec.mismatch, pins) &&
      req.peel == rec.peel && req.key == rec.key && req.challenge == ch
  }

  /** Some operator call asked to approve this record by force. */
  ghost predicate AskedByForce(id: RecId, done: set<Step>) {
    exists t :: BeginDecision(t, Approve(true), id) in done
  }

  /** Some download call for this record proved the record's key. */
  ghost predicate AskedWithProof(id: RecId, done: set<Step>) {
    exists t :: BeginCreds(t, id, true) in done
  }

  /** The record a thread of `Store.Create` or `Store.Supersede` works for. */
  function Made(th: Thread): (r: Option<(ChId, Record)>) {
    match th
    case Claiming(ch, rec) => Some((ch, rec))
    case Writing(ch, rec) => Some((ch, rec))
    case RollingBack(ch, rec) => Some((ch, rec))
    case Stranded(ch, rec) => Some((ch, rec))
    case SupIndex(ch, rec, _) => Some((ch, rec))
    case SupWrite(ch, rec, _, _) => Some((ch, rec))
    case SupRepoint(ch, rec, _, _) => Some((ch, rec))
    case SupRollback(ch, rec) => Some((ch, rec))
    case SupRetire(ch, rec, _) => Some((ch, rec))
    case _ => None
  }

  /** What the point a thread has reached says about how it was begun. */
  ghost predicate Asked(t: Tid, th: Thread, pins: set<string>, done: set<Step>) {
    && (th.Consuming? || th.Cleaning? ==>
          IssuedAs(th.req.challenge, th.ch.value, done) && Comes(t, th.req, th.ch.value.expiresAt, done))
    && (th.Looking? || th.Reading? || th.Releasing? ==>
          Enrolls(t, th.req, done) && Passes(th.req, th.mismatch, pins))
    && (Made(th).Some? ==> FromRequest(Made(th).value.1, Made(th).value.0, pins, done))
    && (th.Deciding? && th.op == Approve(true) ==> BeginDecision(t, Approve(true), th.seen.value.id) in done)
    && (th.Reacting? ==> th.op != Approve(true))
    && (First(th).Some? ==> BeginCreds(t, First(th).value.id, true) in done)
  }

  ghost predicate SameBirth(s: Store, s': Store, id: RecId)
    requires id in s'.born
  {
    && id in s.born && s'.born[id] == s.born[id]
    && (id in s.origin ==> id in s'.origin && s'.origin[id] == s.origin[id])
  }

  /** What a step of thread `t` added to the store was asked for by that thread. */
  ghost predicate Justified(s: Store, s': Store, t: Tid, pins: set<string>, done: set<Step>) {
    && (forall id :: id in s'.forced && id !in s.forced ==> BeginDecision(t, Approve(true), id) in done)
    && (forall id :: s'.delivered[id] > s.delivered[id] ==> BeginCreds(t, id, true) in done)
    && (forall d :: d in s'.deliveries && d !in s.deliveries ==> BeginCreds(t, d.id, true) in done)
    && (forall id :: id in s'.born && !SameBirth(s, s', id) ==>
          id in s'.origin && FromRequest(s'.born[id], s'.origin[id], pins, done))
  }

  /** Every challenge that can still be used was issued as it stands. */
  ghost predicate DeskAsked(desk: Desk, done: set<Step>) {
    forall id :: id in desk.kv.live ==> IssuedAs(id, desk.kv.live[id].value, done)
  }

  /** Everything in the store, and every thread, was asked for. */
  ghost predicate Caused(w: World, pins: set<string>, done: set<Step>) {
    && (forall t {:trigger Asked(t, w.threads[t], pins, done)} :: t in w.threads ==>
          Asked(t, w.threads[t], pins, done))
    && DeskAsked(w.desk, done)
    && (forall id :: id in w.store.forced ==> AskedByForce(id, done))
    && (forall id :: id in w.store.delivered ==> AskedWithProof(id, done))
    && (forall d :: d in w.store.deliveries ==> AskedWithProof(d.id, done))
    && (forall id :: id in w.store.born ==>
          id in w.store.origin && FromRequest(w.store.born[id], w.store.origin[id], pins, done))
  }

  // ----- one step of a thread -----

  /** What a step of thread `t` at `th` owes. */
  ghost predicate Answers(w: World, w': World, t: Tid, pins: set<string>, done: set<Step>) {
    && t in w'.threads && w'.threads == w.threads[t := w'.threads[t]]
    && Asked(t, w'.threads[t], pins, done)
    && Justified(w.store, w'.store, t, pins, done)
  }

  /** The parts of a store that have to be answered for. */
  ghost predicate SameGains(s: Store, s': Store) {
    && s'.forced == s.forced && s'.delivered == s.delivered && s'.deliveries == s.deliveries
    && s'.born == s.born && s'.origin == s.origin
  }

  /** A step that adds nothing of the kind only has to account for where the thread got to. */
  lemma QuietAnswers(w: World, w': World, t: Tid, pins: set<string>, done: set<Step>)
    requires SameGains(w.store, w'.store)
    requires t in w'.threads && w'.threads == w.threads[t := w'.threads[t]] && Asked(t, w'.threads[t], pins, done)
    ensures Answers(w, w', t, pins, done)
  {
  }

  lemma StoredAnswers(w: World, w': World, t: Tid, rec: Record, ch: ChId, pins: set<string>, done: set<Step>)
    requires w'.store == AddRecord(w.store, rec, ch) && FromRequest(rec, ch, pins, done)
    requires t in w'.threads && w'.threads == w.threads[t := w'.threads[t]] && Asked(t, w'.threads[t], pins, done)
    ensures Answers(w, w', t, pins, done)
  {
  }

  lemma NewIsFromRequest(t: Tid, req: Request, mismatch: bool, id: RecId, now: Time, pins: set<string>, done: set<Step>)
    requires Enrolls(t, req, done) && Passes(req, mismatch, pins)
    ensures FromRequest(NewRecord(id, req, mismatch, now), req.challenge, pins, done)
  {
  }

  /** A call that ends here only has to account for what it added. */
  lemma FinishAnswers(w: World, w1: World, t: Tid, pins: set<string>, done: set<Step>)
    requires Justified(w.store, w1.store, t, pins, done) && w1.threads == w.threads
    ensures Answers(w, Goto(w1, t, Finished), t, pins, done)
  {
  }

  lemma ConsumeAnswers(w: World, t: Tid, th: Thread, env: Env, pins: set<string>, done: set<Step>)
    requires th.Consuming? && Asked(t, th, pins, done)
    ensures Answers(w, ConsumeCas(w, t, th, env), t, pins, done)
  {
    QuietAnswers(w, ConsumeCas(w, t, th, env), t, pins, done);
  }

  lemma CleanAnswers(w: World, t: Tid, th: Thread, env: Env, pins: set<string>, done: set<Step>)
    requires th.Cleaning? && Asked(t, th, pins, done) && env.pin in pins
    ensures Answers(w, CleanChallenge(w, t, th, env), t, pins, done)
  {
    QuietAnswers(w, CleanChallenge(w, t, th, env), t, pins, done);
  }

  lemma ToCreateAnswers(w: World, w1: World, t: Tid, req: Request, mismatch: bool, env: Env,
                        pins: set<string>, done: set<Step>)
    requires SameGains(w.store, w1.store) && w1.threads == w.threads
    requires Enrolls(t, req, done) && Passes(req, mismatch, pins)
    ensures Answers(w, ToCreate(w1, t, req, mismatch, env), t, pins, done)
  {
    NewIsFromRequest(t, req, mismatch, env.newId, env.now, pins, done);
    QuietAnswers(w, ToCreate(w1, t, req, mismatch, env), t, pins, done);
  }

  lemma LookAnswers(w: World, t: Tid, th: Thread, env: Env, pins: set<string>, done: set<Step>)
    requires th.Looking? && Asked(t, th, pins, done)
    ensures Answers(w, LookUpIndex(w, t, th, env), t, pins, done)
  {
    if !env.net.Heard? || th.req.peel !in w.index.kv.live {
      ToCreateAnswers(w, w, t, th.req, th.mismatch, env, pins, done);
    } else {
      QuietAnswers(w, LookUpIndex(w, t, th, env), t, pins, done);
    }
  }

  lemma ReplaceAnswers(w: World, t: Tid, th: Thread, env: Env, prior: Entry<Record>, pins: set<string>, done: set<Step>)
    requires th.Reading? && Asked(t, th, pins, done)
    ensures Answers(w, Goto(Mint(w, t, env.newId), t, SupIndex(th.req.challenge,
                            NewRecord(env.newId, th.req, th.mismatch, env.now), prior)), t, pins, done)
  {
    NewIsFromRequest(t, th.req, th.mismatch, env.newId, env.now, pins, done);
    QuietAnswers(w, Goto(Mint(w, t, env.newId), t, SupIndex(th.req.challenge,
                         NewRecord(env.newId, th.req, th.mismatch, env.now), prior)), t, pins, done);
  }

  lemma ExistingAnswers(w: World, t: Tid, th: Thread, env: Env, pins: set<string>, done: set<Step>)
    requires th.Reading? && Asked(t, th, pins, done)
    ensures Answers(w, ReadExisting(w, t, th, env), t, pins, done)
  {
    if !env.net.Heard? || th.id !in w.store.kv.live {
      ToCreateAnswers(w, w, t, th.req, th.mismatch, env, pins, done);
    } else {
      match PlanFor(w.store.kv.live[th.id].value, th.req)
      case Answer => FinishAnswers(w, w, t, pins, done);
      case Free => QuietAnswers(w, ReadExisting(w, t, th, env), t, pins, done);
      case Replace => ReplaceAnswers(w, t, th, env, w.store.kv.live[th.id], pins, done);
    }
  }

  lemma ReleaseAnswers(w: World, t: Tid, th: Thread, env: Env, pins: set<string>, done: set<Step>)
    requires th.Releasing? && Asked(t, th, pins, done)
    ensures Answers(w, ReleaseIndex(w, t, th, env), t, pins, done)
  {
    ToCreateAnswers(w, if env.net.Down? then w else RemoveEntry(w, th.req.peel), t, th.req, th.mismatch, env,
                    pins, done);
  }

  lemma IntakeAnswers(w: World, t: Tid, th: Thread, env: Env, pins: set<string>, done: set<Step>)
    requires InIntake(th) && Asked(t, th, pins, done) && env.pin in pins
    ensures Answers(w, AdvanceIntake(w, t, th, env), t, pins, done)
  {
    match th
    case Consuming(_, _) => ConsumeAnswers(w, t, th, env, pins, done);
    case Cleaning(_, _) => CleanAnswers(w, t, th, env, pins, done);
    case Looking(_, _) => LookAnswers(w, t, th, env, pins, done);
    case Reading(_, _, _) => ExistingAnswers(w, t, th, env, pins, done);
    case Releasing(_, _, _) => ReleaseAnswers(w, t, th, env, pins, done);
  }

  lemma WriteAnswers(w: World, t: Tid, th: Thread, env: Env, pins: set<string>, done: set<Step>)
    requires th.Writing? && Asked(t, th, pins, done)
    ensures Answers(w, WriteRecord(w, t, th, env), t, pins, done)
  {
    var w' := WriteRecord(w, t, th, env);
    if env.net.Down? || w.store.kv.Create(th.rec.id, th.rec).Refused? {
      QuietAnswers(w, w', t, pins, done);
    } else {
      StoredAnswers(w, w', t, th.rec, th.challenge, pins, done);
    }
  }

  lemma ClaimAnswers(w: World, t: Tid, th: Thread, env: Env, pins: set<string>, done: set<Step>)
    requires th.Claiming? && Asked(t, th, pins, done)
    ensures Answers(w, ClaimIndex(w, t, th, env), t, pins, done)
  {
    QuietAnswers(w, ClaimIndex(w, t, th, env), t, pins, done);
  }

  lemma RollBackAnswers(w: World, t: Tid, th: Thread, env: Env, pins: set<string>, done: set<Step>)
    requires th.RollingBack? && Asked(t, th, pins, done)
    ensures Answers(w, RollBackClaim(w, t, th, env), t, pins, done)
  {
    if env.net.Down? {
      QuietAnswers(w, RollBackClaim(w, t, th, env), t, pins, done);
    } else {
      FinishAnswers(w, RemoveEntry(w, th.rec.peel), t, pins, done);
    }
  }

  lemma CreateAnswers(w: World, t: Tid, th: Thread, env: Env, pins: set<string>, done: set<Step>)
    requires InCreate(th) && Asked(t, th, pins, done)
    ensures Answers(w, AdvanceCreate(w, t, th, env), t, pins, done)
  {
    match th
    case Claiming(_, _) => ClaimAnswers(w, t, th, env, pins, done);
    case Writing(_, _) => WriteAnswers(w, t, th, env, pins, done);
    case RollingBack(_, _) => RollBackAnswers(w, t, th, env, pins, done);
  }

  lemma SupWriteAnswers(w: World, t: Tid, th: Thread, env: Env, pins: set<string>, done: set<Step>)
    requires th.SupWrite? && Asked(t, th, pins, done)
    ensures Answers(w, SupersedeWrite(w, t, th, env), t, pins, done)
  {
    var w' := SupersedeWrite(w, t, th, env);
    if env.net.Down? || w.store.kv.Create(th.rec.id, th.rec).Refused? {
      QuietAnswers(w, w', t, pins, done);
    } else {
      StoredAnswers(w, w', t, th.rec, th.challenge, pins, done);
    }
  }

  lemma RepointAnswers(w: World, t: Tid, th: Thread, env: Env, pins: set<string>, done: set<Step>)
    requires th.SupRepoint? && Asked(t, th, pins, done)
    ensures Answers(w, SupersedeRepoint(w, t, th, env), t, pins, done)
  {
    QuietAnswers(w, SupersedeRepoint(w, t, th, env), t, pins, done);
  }

  lemma RetireAnswers(w: World, t: Tid, th: Thread, env: Env, pins: set<string>, done: set<Step>)
    requires th.SupRetire?
    ensures Answers(w, SupersedeRetire(w, t, th, env), t, pins, done)
  {
    var r := TryCas(w.store, th.prior, Retire(th.prior.value, env.now), false, env);
    FinishAnswers(w, if r.None? then w else w.(store := r.value), t, pins, done);
  }

  lemma SupIndexAnswers(w: World, t: Tid, th: Thread, env: Env, pins: set<string>, done: set<Step>)
    requires th.SupIndex? && Asked(t, th, pins, done)
    ensures Answers(w, SupersedeReadIndex(w, t, th, env), t, pins, done)
  {
    QuietAnswers(w, SupersedeReadIndex(w, t, th, env), t, pins, done);
  }

  lemma SupRollBackAnswers(w: World, t: Tid, th: Thread, env: Env, pins: set<string>, done: set<Step>)
    requires th.SupRollback?
    ensures Answers(w, SupersedeRollBack(w, t, th, env), t, pins, done)
  {
    FinishAnswers(w, if env.net.Down? then w else w.(store := w.store.(kv := w.store.kv.Remove(th.rec.id))),
                  t, pins, done);
  }

  lemma SupersedeAnswers(w: World, t: Tid, th: Thread, env: Env, pins: set<string>, done: set<Step>)
    requires InSupersede(th) && Asked(t, th, pins, done)
    ensures Answers(w, AdvanceSupersede(w, t, th, env), t, pins, done)
  {
    match th
    case SupIndex(_, _, _) => SupIndexAnswers(w, t, th, env, pins, done);
    case SupWrite(_, _, _, _) => SupWriteAnswers(w, t, th, env, pins, done);
    case SupRepoint(_, _, _, _) => RepointAnswers(w, t, th, env, pins, done);
    case SupRollback(_, _) => SupRollBackAnswers(w, t, th, env, pins, done);
    case SupRetire(_, _, _) => RetireAnswers(w, t, th, env, pins, done);
  }

  /** A swap adds nothing but, if it was a forced approval, the record to those approved by force. */
  lemma CasJustified(s: Store, seen: Entry<Record>, made: Option<Record>, forced: bool, env: Env,
                     t: Tid, pins: set<string>, done: set<Step>)
    requires TryCas(s, seen, made, forced, env).Some?
    requires forced ==> BeginDecision(t, Approve(true), seen.value.id) in done
    ensures Justified(s, TryCas(s, seen, made, forced, env).value, t, pins, done)
  {
  }

  lemma DecideAnswers(w: World, t: Tid, th: Thread, env: Env, pins: set<string>, done: set<Step>)
    requires th.Deciding? && Asked(t, th, pins, done)
    ensures Answers(w, DecisionCas(w, t, th, env), t, pins, done)
  {
    var made := Decide(th.seen.value, th.op, env.now);
    var r := TryCas(w.store, th.seen, made, th.op == Approve(true), env);
    if r.Some? {
      CasJustified(w.store, th.seen, made, th.op == Approve(true), env, t, pins, done);
    }
    FinishAnswers(w, if r.None? then w else w.(store := r.value), t, pins, done);
  }

  lemma DeliverJustified(s: Store, s': Store, first: Record, t: Tid, pins: set<string>, done: set<Step>)
    requires Justified(s, s', t, pins, done) && s'.delivered == s.delivered && s'.deliveries == s.deliveries
    requires BeginCreds(t, first.id, true) in done
    ensures Justified(s, Deliver(s', first), t, pins, done)
  {
  }

  lemma MarkAnswers(w: World, t: Tid, th: Thread, env: Env, pins: set<string>, done: set<Step>)
    requires th.Marking? && Asked(t, th, pins, done)
    ensures Answers(w, MarkIssuedCas(w, t, th, env), t, pins, done)
  {
    var made := Decide(th.seen.value, MarkIssued, env.now);
    var r := TryCas(w.store, th.seen, made, false, env);
    if r.None? {
      FinishAnswers(w, w, t, pins, done);
    } else {
      CasJustified(w.store, th.seen, made, false, env, t, pins, done);
      DeliverJustified(w.store, r.value, th.first, t, pins, done);
      FinishAnswers(w, w.(store := if env.net.Heard? then Deliver(r.value, th.first) else r.value), t, pins, done);
    }
  }

  lemma DecisionAnswers(w: World, t: Tid, th: Thread, env: Env, pins: set<string>, done: set<Step>)
    requires t in w.threads && w.threads[t] == th && Asked(t, th, pins, done)
    requires !InIntake(th) && !InCreate(th) && !InSupersede(th)
    ensures Answers(w, AdvanceDecision(w, t, th, env), t, pins, done)
  {
    if th.Deciding? {
      DecideAnswers(w, t, th, env, pins, done);
    } else if th.Marking? {
      MarkAnswers(w, t, th, env, pins, done);
    } else {
      QuietAnswers(w, AdvanceDecision(w, t, th, env), t, pins, done);
    }
  }

  lemma ActAnswers(w: World, t: Tid, env: Env, pins: set<string>, done: set<Step>)
    requires t in w.threads && Asked(t, w.threads[t], pins, done) && env.pin in pins
    ensures Answers(w, Apply(w, Act(t, env)), t, pins, done)
  {
    var th := w.threads[t];
    if InIntake(th) {
      IntakeAnswers(w, t, th, env, pins, done);
    } else if InCreate(th) {
      CreateAnswers(w, t, th, env, pins, done);
    } else if InSupersede(th) {
      SupersedeAnswers(w, t, th, env, pins, done);
    } else {
      DecisionAnswers(w, t, th, env, pins, done);
    }
  }

  // ----- the first step of a call -----

  lemma LifecycleOwnIds(w: World)
    requires Lifecycle(w)
    ensures OwnIds(w.store.kv)
  {
    forall id | id in w.store.kv.live ensures w.store.kv.live[id].value.id == id {
      assert RecordOk(w.store, id);
    }
  }

  lemma BeginDecisionAnswers(w: World, t: Tid, op: Decision, id: RecId, pins: set<string>, done: set<Step>)
    requires OwnIds(w.store.kv) && (op == Approve(true) ==> BeginDecision(t, op, id) in done)
    ensures Answers(w, StartDecision(w, t, op, id), t, pins, done)
  {
    if id in w.store.kv.live {
      var th := Deciding(op, w.store.kv.live[id]);
      assert Asked(t, th, pins, done);
      QuietAnswers(w, Goto(w, t, th), t, pins, done);
    } else {
      FinishAnswers(w, w, t, pins, done);
    }
  }

  lemma BeginReactionAnswers(w: World, t: Tid, op: Option<Decision>, id: RecId, inScope: bool,
                             pins: set<string>, done: set<Step>)
    ensures Answers(w, StartReaction(w, t, op, id, inScope), t, pins, done)
  {
    if id in w.store.kv.live {
      ReactsExactly(w.store.kv.live[id].value, op, inScope);
    }
    QuietAnswers(w, StartReaction(w, t, op, id, inScope), t, pins, done);
  }

  lemma BeginCredsAnswers(w: World, t: Tid, id: RecId, proved: bool, pins: set<string>, done: set<Step>)
    requires OwnIds(w.store.kv) && BeginCreds(t, id, proved) in done
    ensures Answers(w, StartCreds(w, t, id, proved), t, pins, done)
  {
    QuietAnswers(w, StartCreds(w, t, id, proved), t, pins, done);
  }

  lemma BeginEnrollAnswers(w: World, t: Tid, req: Request, env: Env, pins: set<string>, done: set<Step>)
    requires BeginEnroll(t, req, env) in done && DeskAsked(w.desk, done)
    ensures Answers(w, StartConsume(w, t, req, env), t, pins, done)
  {
    QuietAnswers(w, StartConsume(w, t, req, env), t, pins, done);
  }

  lemma BeginAnswers(w: World, s: Step, pins: set<string>, done: set<Step>)
    requires OwnIds(w.store.kv) && s in done && DeskAsked(w.desk, done)
    requires s.BeginEnroll? || s.BeginDecision? || s.BeginReaction? || s.BeginCreds?
    ensures Answers(w, Apply(w, s), s.t, pins, done)
  {
    match s
    case BeginEnroll(t, req, env) => BeginEnrollAnswers(w, t, req, env, pins, done);
    case BeginDecision(t, op, id) => BeginDecisionAnswers(w, t, op, id, pins, done);
    case BeginReaction(t, op, id, inScope) => BeginReactionAnswers(w, t, op, id, inScope, pins, done);
    case BeginCreds(t, id, proved) => BeginCredsAnswers(w, t, id, proved, pins, done);
  }

  // ----- runs -----

  /** The CA pins of the masters whose threads act in a run. */
  ghost function Pins(steps: seq<Step>): (pins: set<string>) {
    set k | 0 <= k < |steps| && steps[k].Act? :: steps[k].env.pin
  }

  ghost function Before(steps: seq<Step>, i: nat): (done: set<Step>)
    requires i <= |steps|
  {
    set s | s in steps[..i]
  }

  lemma EnrollsStays(t: Tid, req: Request, done: set<Step>, more: set<Step>)
    requires Enrolls(t, req, done) && done <= more
    ensures Enrolls(t, req, more)
  {
    var deadline :| Issue(req.challenge, req.peel, req.key, deadline) in done && Comes(t, req, deadline, done);
    assert Comes(t, req, deadline, more);
  }

  lemma AskedStays(t: Tid, th: Thread, pins: set<string>, done: set<Step>, more: set<Step>)
    requires Asked(t, th, pins, done) && done <= more
    ensures Asked(t, th, pins, more)
  {
    if th.Looking? || th.Reading? || th.Releasing? {
      EnrollsStays(t, th.req, done, more);
    }
    if Made(th).Some? {
      FromRequestStays(Made(th).value.1, Made(th).value.0, pins, done, more);
    }
  }

  lemma FromRequestStays(rec: Record, ch: ChId, pins: set<string>, done: set<Step>, more: set<Step>)
    requires FromRequest(rec, ch, pins, done) && done <= more
    ensures FromRequest(rec, ch, pins, more)
  {
    var t, req :| Enrolls(t, req, done) && Passes(req, rec.mismatch, pins) &&
      req.peel == rec.peel && req.key == rec.key && req.challenge == ch;
    EnrollsStays(t, req, done, more);
  }

  lemma CausedStays(w: World, pins: set<string>, done: set<Step>, more: set<Step>)
    requires Caused(w, pins, done) && done <= more
    ensures Caused(w, pins, more)
  {
    forall t | t in w.threads ensures Asked(t, w.threads[t], pins, more) {
      AskedStays(t, w.threads[t], pins, done, more);
    }
    forall id | id in w.store.born ensures FromRequest(w.store.born[id], w.store.origin[id], pins, more) {
      FromRequestStays(w.store.born[id], w.store.origin[id], pins, done, more);
    }
    forall id | id in w.store.forced ensures AskedByForce(id, more) {
      assert AskedByForce(id, done);
    }
    forall id | id in w.store.delivered ensures AskedWithProof(id, more) {
      assert AskedWithProof(id, done);
    }
    forall d | d in w.store.deliveries ensures AskedWithProof(d.id, more) {
      assert AskedWithProof(d.id, done);
    }
  }

  lemma AnswersCaused(w: World, w': World, t: Tid, pins: set<string>, done: set<Step>)
    requires Caused(w, pins, done) && Answers(w, w', t, pins, done) && DeskAsked(w'.desk, done)
    ensures Caused(w', pins, done)
  {
    forall u | u in w'.threads ensures Asked(u, w'.threads[u], pins, done) {
      assert u != t ==> u in w.threads && w'.threads[u] == w.threads[u];
    }
    forall id | id in w'.store.delivered ensures AskedWithProof(id, done) {
      assert id in w.store.delivered || w'.store.delivered[id] > w.store.delivered[id];
    }
  }

  /** Only issuing, expiry and consuming touch the challenges. */
  ghost predicate TouchesDesk(w: World, s: Step) {
    || s.Issue? || s.Expire?
    || (s.Act? && s.t in w.threads && (w.threads[s.t].Consuming? || w.threads[s.t].Cleaning?))
  }

  lemma OthersLeaveDesk(w: World, s: Step)
    requires !TouchesDesk(w, s)
    ensures Apply(w, s).desk == w.desk
  {
    if s.Act? && s.t in w.threads {
      ActLeavesDesk(w, s.t, w.threads[s.t], s.env);
    }
  }

  lemma ActLeavesDesk(w: World, t: Tid, th: Thread, env: Env)
    requires !th.Consuming? && !th.Cleaning?
    ensures Advance(w, t, th, env).desk == w.desk
  {
  }

  lemma ConsumeDesk(w: World, t: Tid, th: Thread, env: Env, done: set<Step>)
    requires DeskAsked(w.desk, done)
    requires th.Consuming? && IssuedAs(th.req.challenge, th.ch.value, done)
    ensures DeskAsked(ConsumeCas(w, t, th, env).desk, done)
  {
  }

  lemma CleanDesk(w: World, t: Tid, th: Thread, env: Env, done: set<Step>)
    requires DeskAsked(w.desk, done) && th.Cleaning?
    ensures DeskAsked(CleanChallenge(w, t, th, env).desk, done)
  {
  }

  lemma StepDesk(w: World, s: Step, pins: set<string>, done: set<Step>)
    requires Caused(w, pins, done) && s in done
    ensures DeskAsked(Apply(w, s).desk, done)
  {
    if !TouchesDesk(w, s) {
      OthersLeaveDesk(w, s);
    } else if s.Act? {
      var th := w.threads[s.t];
      assert Asked(s.t, th, pins, done);
      if th.Consuming? {
        ConsumeDesk(w, s.t, th, s.env, done);
      } else {
        CleanDesk(w, s.t, th, s.env, done);
      }
    }
  }

  /** A step is answered for by what was begun before it, or by itself. */
  lemma StepAnswers(w: World, s: Step, pins: set<string>, done: set<Step>)
    requires Lifecycle(w) && Enabled(w, s) && Caused(w, pins, done) && s in done
    requires s.Act? ==> s.env.pin in pins
    requires !s.Issue? && !s.Expire?
    ensures Answers(w, Apply(w, s), s.t, pins, done)
  {
    if s.Act? {
      ActAnswers(w, s.t, s.env, pins, done);
    } else {
      LifecycleOwnIds(w);
      BeginAnswers(w, s, pins, done);
    }
  }

  lemma StepCaused(w: World, s: Step, pins: set<string>, done: set<Step>)
    requires Lifecycle(w) && Enabled(w, s) && Caused(w, pins, done)
    requires s.Act? ==> s.env.pin in pins
    ensures Caused(Apply(w, s), pins, done + {s})
  {
    CausedStays(w, pins, done, done + {s});
    StepDesk(w, s, pins, done + {s});
    if !s.Issue? && !s.Expire? {
      StepAnswers(w, s, pins, done + {s});
      AnswersCaused(w, Apply(w, s), s.t, pins, done + {s});
    }
  }

  lemma {:induction false} RunCaused(ws: seq<World>, steps: seq<Step>, i: nat)
    requires IsRun(ws, steps) && i < |ws|
    ensures Caused(ws[i], Pins(steps), Before(steps, i))
    decreases i
  {
    if i > 0 {
      RunCaused(ws, steps, i - 1);
      CausedNext(ws, steps, i - 1);
    }
  }

  lemma CausedNext(ws: seq<World>, steps: seq<Step>, i: nat)
    requires IsRun(ws, steps) && i < |steps|
    requires Caused(ws[i], Pins(steps), Before(steps, i))
    ensures Caused(ws[i + 1], Pins(steps), Before(steps, i + 1))
  {
    RunLifecycle(ws, steps, i);
    var s := steps[i];
    assert Enabled(ws[i], s) && ws[i + 1] == Apply(ws[i], s);
    BeforeNext(steps, i);
    StepCaused(ws[i], s, Pins(steps), Before(steps, i));
  }

  lemma BeforeNext(steps: seq<Step>, i: nat)
    requires i < |steps|
    ensures Before(steps, i + 1) == Before(steps, i) + {steps[i]}
    ensures steps[i].Act? ==> steps[i].env.pin in Pins(steps)
  {
    assert steps[..i + 1] == steps[..i] + [steps[i]];
  }

  /** What an acting thread adds was asked for by that very thread. */
  lemma RunJustified(ws: seq<World>, steps: seq<Step>, i: nat)
    requires IsRun(ws, steps) && i < |steps| && steps[i].Act?
    ensures Justified(ws[i].store, ws[i + 1].store, steps[i].t, Pins(steps), Before(steps, i))
  {
    RunCaused(ws, steps, i);
    var s := steps[i];
    assert Enabled(ws[i], s) && ws[i + 1] == Apply(ws[i], s);
    ActAnswers(ws[i], s.t, s.env, Pins(steps), Before(steps, i));
  }

  /** Only acting threads add anything. */
  lemma OnlyActsAdd(w: World, s: Step)
    requires !s.Act?
    ensures SameGains(w.store, Apply(w, s).store)
  {
  }

  // ----- the theorems -----

  /** A record is approved by force only in a step of a call that an operator began as a forced
      approval of that very record: no reaction, no unforced approval and no other call gets there. */
  lemma ForceNeedsAnOperator(ws: seq<World>, steps: seq<Step>, i: nat, id: RecId)
    requires IsRun(ws, steps) && i < |steps|
    requires id in ws[i + 1].store.forced && id !in ws[i].store.forced
    ensures steps[i].Act? && BeginDecision(steps[i].t, Approve(true), id) in steps[..i]
  {
    assert Enabled(ws[i], steps[i]) && ws[i + 1] == Apply(ws[i], steps[i]);
    if !steps[i].Act? {
      OnlyActsAdd(ws[i], steps[i]);
    } else {
      RunJustified(ws, steps, i);
    }
  }

  /** So a flagged record is approved, and its credential handed out, only after an operator asked for
      exactly that, whatever reactions run beside it. */
  lemma FlaggedNeedsAnOperator(ws: seq<World>, steps: seq<Step>, i: nat, id: RecId)
    requires IsRun(ws, steps) && i < |ws|
    requires id in ws[i].store.hist && Approved in ws[i].store.hist[id]
    requires id in ws[i].store.born && ws[i].store.born[id].mismatch
    ensures exists t :: BeginDecision(t, Approve(true), id) in steps[..i]
  {
    RunCaused(ws, steps, i);
    RunLifecycle(ws, steps, i);
    assert HistoryOk(ws[i].store, id);
    assert AskedByForce(id, Before(steps, i));
  }

  /** A credential is handed out only in a step of a download call whose caller proved the key of that
      record. */
  lemma CredentialNeedsProof(ws: seq<World>, steps: seq<Step>, i: nat, id: RecId)
    requires IsRun(ws, steps) && i < |steps|
    requires ws[i + 1].store.delivered[id] > ws[i].store.delivered[id]
    ensures steps[i].Act? && BeginCreds(steps[i].t, id, true) in steps[..i]
  {
    assert Enabled(ws[i], steps[i]) && ws[i + 1] == Apply(ws[i], steps[i]);
    if !steps[i].Act? {
      OnlyActsAdd(ws[i], steps[i]);
    } else {
      RunJustified(ws, steps, i);
    }
  }

  /** Every record ever stored carries the peel and key of an enrollment request that named the record's
      challenge, which had been issued to that very peel and key and had not expired, and that proved the
      key; and its flag says exactly whether that request proved trust in
      something other than the root of a master that acts in the run. */
  lemma RecordNeedsProof(ws: seq<World>, steps: seq<Step>, i: nat, id: RecId)
    returns (t: Tid, req: Request, env: Env, expiresAt: Time, root: string)
    requires IsRun(ws, steps) && i < |ws|
    requires id in ws[i].store.born
    ensures BeginEnroll(t, req, env) in steps[..i]
    ensures Issue(req.challenge, req.peel, req.key, expiresAt) in steps[..i] && env.now <= expiresAt
    ensures root in Pins(steps)
    ensures var rec := ws[i].store.born[id];
      && req.peel == rec.peel && req.key == rec.key
      && id in ws[i].store.origin && req.challenge == ws[i].store.origin[id]
      && req.proved && (req.spki != "" ==> req.bound) && (root != "" ==> req.spki != "")
      && (rec.mismatch <==> root != "" && !SameButCase(root, req.spki))
  {
    RunCaused(ws, steps, i);
    var rec := ws[i].store.born[id];
    var done := Before(steps, i);
    assert FromRequest(rec, ws[i].store.origin[id], Pins(steps), done);
    t, req :| Enrolls(t, req, done) && Passes(req, rec.mismatch, Pins(steps)) &&
      req.peel == rec.peel && req.key == rec.key && req.challenge == ws[i].store.origin[id];
    root :| root in Pins(steps) && TrustGate(root, req) == Some(rec.mismatch);
    GateMeans(root, req);
    expiresAt :| Issue(req.challenge, req.peel, req.key, expiresAt) in done && Comes(t, req, expiresAt, done);
    env :| BeginEnroll(t, req, env) in done && env.now <= expiresAt;
  }

  // ----- calls nobody interferes with -----

  /** A thread's next step. */
  function Next(w: World, t: Tid, env: Env): (w': World) {
    Apply(w, Act(t, env))
  }

  lemma NextSwap(w: World, t: Tid, th: Thread, env: Env)
    ensures th.Deciding? ==> Next(Goto(w, t, th), t, env) == DecisionCas(Goto(w, t, th), t, th, env)
    ensures th.Marking? ==> Next(Goto(w, t, th), t, env) == MarkIssuedCas(Goto(w, t, th), t, th, env)
    ensures th.Finished? ==> Next(Goto(w, t, th), t, env) == Goto(w, t, th)
  {
  }

  lemma DecisionRead(w: World, t: Tid, op: Decision, id: RecId, env: Env)
    requires id in w.store.kv.live
    ensures var th := Deciding(op, w.store.kv.live[id]);
      Next(Apply(w, BeginDecision(t, op, id)), t, env) == DecisionCas(Goto(w, t, th), t, th, env)
  {
    NextSwap(w, t, Deciding(op, w.store.kv.live[id]), env);
  }

  lemma DecisionWritten(w: World, t: Tid, op: Decision, id: RecId, env: Env)
    requires OwnIds(w.store.kv) && env.net.Heard? && id in w.store.kv.live
    ensures var th := Deciding(op, w.store.kv.live[id]);
      var made := Decide(w.store.kv.live[id].value, op, env.now);
      DecisionCas(Goto(w, t, th), t, th, env).store.kv ==
      if made.None? then w.store.kv else w.store.kv.Put(id, made.value)
  {
  }

  /** An operator's decision that gets through undisturbed changes the record exactly if the record is
      one it applies to, to the state it asks for, and changes no other record. */
  lemma UndisturbedDecision(w: World, t: Tid, op: Decision, id: RecId, env: Env)
    requires OwnIds(w.store.kv) && env.net.Heard? && id in w.store.kv.live && !op.MarkIssued?
    ensures var rec := w.store.kv.live[id].value;
      var ends := Next(Apply(w, BeginDecision(t, op, id)), t, env).store.kv;
      var applies := match op
        case Approve(force) => rec.state == Pending && (force || !rec.mismatch)
        case Reject => rec.state == Pending
        case MarkActive => rec.state == Issued
        case Revoke => rec.state == Approved || rec.state == Issued || rec.state == Active
        case MarkIssued => false;
      if !applies then ends == w.store.kv
      else
        && ends.live.Keys == w.store.kv.live.Keys
        && (forall k :: k in ends.live && k != id ==> ends.live[k] == w.store.kv.live[k])
        && var made := ends.live[id].value;
        && SameIdentity(made, rec) && made.updatedAt == env.now
        && match op
           case Approve(_) => made.state == Approved && made.decidedAt == Some(env.now)
           case Reject => made.state == Rejected && made.decidedAt == Some(env.now)
           case MarkActive => made.state == Active && made.decidedAt == rec.decidedAt
           case Revoke => made.state == Revoked && made.decidedAt == Some(env.now)
           case MarkIssued => false
  {
    DecisionsExactly(w.store.kv.live[id].value, op, env.now);
    DecisionRead(w, t, op, id, env);
    DecisionWritten(w, t, op, id, env);
  }

  lemma ReactionRead(w: World, t: Tid, op: Option<Decision>, id: RecId, inScope: bool, env: Env)
    requires id in w.store.kv.live
    ensures var r := React(w.store.kv.live[id].value, op, inScope);
      Next(Apply(w, BeginReaction(t, op, id, inScope)), t, env) ==
      if r.Call? then Goto(w, t, Deciding(r.op, w.store.kv.live[id])) else Goto(w, t, Finished)
  {
    var r := React(w.store.kv.live[id].value, op, inScope);
    var begun := Apply(w, BeginReaction(t, op, id, inScope));
    assert begun == Goto(w, t, if r.Call? then Reacting(r.op, id) else Finished);
  }

  /** A reaction that gets through undisturbed does what the operator's decision would do without force,
      exactly if it is in scope and does not approve a flagged record; otherwise it does nothing. */
  lemma UndisturbedReaction(w: World, t: Tid, op: Decision, id: RecId, inScope: bool, env: Env, env': Env)
    requires OwnIds(w.store.kv) && env'.net.Heard? && id in w.store.kv.live && !op.MarkIssued? && !op.MarkActive?
    ensures var rec := w.store.kv.live[id].value;
      var ends := Next(Next(Apply(w, BeginReaction(t, Some(op), id, inScope)), t, env), t, env').store.kv;
      var unforced := if op.Approve? then Approve(false) else op;
      ends == if inScope && !(op.Approve? && rec.mismatch)
              then Next(Apply(w, BeginDecision(t, unforced, id)), t, env').store.kv
              else w.store.kv
  {
    var seen := w.store.kv.live[id];
    ReactsExactly(seen.value, Some(op), inScope);
    ReactionRead(w, t, Some(op), id, inScope, env);
    var unforced := if op.Approve? then Approve(false) else op;
    DecisionsExactly(seen.value, unforced, env'.now);
    NextSwap(w, t, Deciding(unforced, seen), env');
    NextSwap(w, t, Finished, env');
    DecisionRead(w, t, unforced, id, env');
    DecisionWritten(w, t, unforced, id, env');
  }

  lemma DownloadRead(w: World, t: Tid, id: RecId, proved: bool, env: Env)
    requires OwnIds(w.store.kv) && id in w.store.kv.live
    ensures var seen := w.store.kv.live[id];
      Next(Apply(w, BeginCreds(t, id, proved)), t, env) ==
      Goto(w, t, if seen.value.state == Approved && proved then Marking(seen.value, seen) else Finished)
  {
    var seen := w.store.kv.live[id];
    assert Apply(w, BeginCreds(t, id, proved)) ==
      Goto(w, t, if seen.value.state == Approved && proved then Crediting(seen.value) else Finished);
  }

  lemma DownloadWritten(w: World, t: Tid, id: RecId, env: Env)
    requires OwnIds(w.store.kv) && env.net.Heard? && id in w.store.kv.live && w.store.kv.live[id].value.state.Approved?
    ensures var seen := w.store.kv.live[id];
      var ends := MarkIssuedCas(Goto(w, t, Marking(seen.value, seen)), t, Marking(seen.value, seen), env).store;
      && ends.delivered == w.store.delivered + multiset{id}
      && ends.deliveries == w.store.deliveries + {Delivery(id, seen.value.peel, seen.value.key)}
      && ends.kv == w.store.kv.Put(id, seen.value.(state := Issued, updatedAt := env.now))
  {
    DecisionsExactly(w.store.kv.live[id].value, MarkIssued, env.now);
  }

  /** A download that gets through undisturbed hands out the credential of the record's peel and key and
      leaves the record issued, exactly if the record is approved and the caller proved its key. */
  lemma UndisturbedDownload(w: World, t: Tid, id: RecId, proved: bool, env: Env, env': Env)
    requires OwnIds(w.store.kv) && env'.net.Heard? && id in w.store.kv.live
    ensures var rec := w.store.kv.live[id].value;
      var ends := Next(Next(Apply(w, BeginCreds(t, id, proved)), t, env), t, env').store;
      if rec.state == Approved && proved then
        && ends.delivered == w.store.delivered + multiset{id}
        && ends.deliveries == w.store.deliveries + {Delivery(id, rec.peel, rec.key)}
        && id in ends.kv.live && ends.kv.live[id].value == rec.(state := Issued, updatedAt := env'.now)
      else ends == w.store
  {
    DownloadRead(w, t, id, proved, env);
    NextSwap(w, t, Marking(w.store.kv.live[id].value, w.store.kv.live[id]), env');
    NextSwap(w, t, Finished, env');
    if w.store.kv.live[id].value.state == Approved && proved {
      DownloadWritten(w, t, id, env');
    }
  }

  /** The retirement step of a supersede that still finds the old record as it read it: what was
      approved, issued or active is revoked, with its identity kept; anything else is left alone. */
  lemma RetirementRevokes(w: World, t: Tid, env: Env)
    requires t in w.threads && w.threads[t].SupRetire? && !env.net.Down?
    requires w.store.kv.Get(w.threads[t].prior.value.id) == Some(w.threads[t].prior)
    ensures var rec := w.threads[t].prior.value;
      var ends := Apply(w, Act(t, env)).store.kv;
      if rec.state == Approved || rec.state == Issued || rec.state == Active then
        rec.id in ends.live &&
        ends.live[rec.id].value == Record(rec.id, rec.peel, rec.key, Revoked, rec.mismatch, Some(env.now), env.now)
      else ends == w.store.kv
  {
    RetireRevokes(w.threads[t].prior.value, env.now);
  }
}
