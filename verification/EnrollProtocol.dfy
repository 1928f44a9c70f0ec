/** Any number of masters serving enrollment, decision and credential requests over the same
    key/value buckets. Every call is a thread; every step of a thread performs one bucket
    operation and the local code up to the next one, so all interleavings are runs. Any write may
    be lost, and any may get through without its caller hearing of it. */
module EnrollProtocol {
  import opened KeyValue
  import opened Enrollment

  type Tid = nat

  datatype Thread =
      // ChallengeStore.Consume
    | Consuming(req: Request, ch: Entry<Challenge>)
    | Cleaning(req: Request, ch: Entry<Challenge>)
      // handleEnroll: FindByPeelID and the branch on its result
    | Looking(req: Request, mismatch: bool)
    | Reading(req: Request, mismatch: bool, id: RecId)
    | Releasing(req: Request, mismatch: bool, saw: RecId)
      // Store.Create
    | Claiming(challenge: ChId, rec: Record)
    | Writing(challenge: ChId, rec: Record)
    | RollingBack(challenge: ChId, rec: Record)
      // over, with the claim not rolled back
    | Stranded(challenge: ChId, rec: Record)
      // Store.Supersede
    | SupIndex(challenge: ChId, rec: Record, prior: Entry<Record>)
    | SupWrite(challenge: ChId, rec: Record, prior: Entry<Record>, idxRev: nat)
    | SupRepoint(challenge: ChId, rec: Record, prior: Entry<Record>, idxRev: nat)
    | SupRollback(challenge: ChId, rec: Record)
    | SupRetire(challenge: ChId, rec: Record, prior: Entry<Record>)
      // ApproveForce, Reject, MarkActive, Revoke between their Get and their Update
    | Deciding(op: Decision, seen: Entry<Record>)
      // reactorEnroll between its own Get and the store call
    | Reacting(op: Decision, id: RecId)
      // handleCreds: credentials made for `first`, then MarkIssued
    | Crediting(first: Record)
    | Marking(first: Record, seen: Entry<Record>)
    | Finished

  /** One credential handed to a peel. */
  datatype Delivery = Delivery(id: RecId, peel: PeelId, key: Key)

  datatype Owner = Owner(peel: PeelId, key: Key)

  // Each bucket is kept together with what happened to it so far; nothing in the protocol
  // reads that history.

  /** The challenge bucket: who each challenge was issued to, how often it was consumed, and
      by which call. */
  datatype Desk = Desk(
    kv: Bucket<ChId, Challenge>,
    issued: map<ChId, Owner>,
    consumed: multiset<ChId>,
    winner: map<ChId, Tid>)

  /** The index entries of the enrollments bucket: the key of the last claimant per peel, the
      peel under which the index first named each identifier, the identifiers the index was
      swapped to without the caller hearing of it, and the records written before their peel's
      entry was last removed. */
  datatype Index = Index(
    kv: Bucket<PeelId, RecId>,
    owner: map<PeelId, Key>,
    named: map<RecId, PeelId>,
    missed: set<RecId>,
    retired: set<RecId>)

  /** The records of the enrollments bucket: each record as first written, the challenge it
      came from, its states so far, the records approved by force, and the credentials. */
  datatype Store = Store(
    kv: Bucket<RecId, Record>,
    born: map<RecId, Record>,
    origin: map<RecId, ChId>,
    hist: map<RecId, seq<State>>,
    forced: set<RecId>,
    delivered: multiset<RecId>,
    deliveries: set<Delivery>)

  datatype World = World(
    desk: Desk,
    index: Index,
    store: Store,
    minted: map<RecId, Tid>,
    threads: map<Tid, Thread>)

  function Empty<K, V>(): (b: Bucket<K, V>) {
    Bucket(map[], 0)
  }

  function Init(): (w: World) {
    World(Desk(Empty(), map[], multiset{}, map[]),
          Index(Empty(), map[], map[], {}, {}),
          Store(Empty(), map[], map[], map[], {}, multiset{}, {}),
          map[], map[])
  }

  /** What the surroundings contribute to a step: what becomes of the bucket operation, the clock,
      the identifier a new record would get, and this master's CA pin. A read that is not heard
      has failed. */
  datatype Env = Env(net: Net, now: Time, newId: RecId, pin: string)

  datatype Step =
    | Issue(ch: ChId, peel: PeelId, key: Key, expiresAt: Time)
      // the bucket's own expiry, at any time
    | Expire(ch: ChId)
    | BeginEnroll(t: Tid, req: Request, env: Env)
    | BeginDecision(t: Tid, op: Decision, id: RecId)
    | BeginReaction(t: Tid, reaction: Option<Decision>, id: RecId, inScope: bool)
    | BeginCreds(t: Tid, id: RecId, proved: bool)
    | Act(t: Tid, env: Env)

  /** Call and record identifiers are new; challenge identifiers are too. */
  ghost predicate Enabled(w: World, s: Step) {
    match s
    case Issue(ch, _, _, _) => ch !in w.desk.issued
    case Expire(_) => true
    case BeginEnroll(t, _, _) => t !in w.threads
    case BeginDecision(t, op, _) => t !in w.threads && !op.MarkIssued?
    case BeginReaction(t, _, _, _) => t !in w.threads
    case BeginCreds(t, _, _) => t !in w.threads
    case Act(t, env) => t in w.threads && env.newId !in w.minted
  }

  function Goto(w: World, t: Tid, th: Thread): (w': World) {
    w.(threads := w.threads[t := th])
  }

  function Apply(w: World, s: Step): (w': World) {
    match s
    case Issue(ch, peel, key, expiresAt) => IssueChallenge(w, ch, peel, key, expiresAt)
    case Expire(ch) => ExpireChallenge(w, ch)
    case BeginEnroll(t, req, env) => StartConsume(w, t, req, env)
    case BeginDecision(t, op, id) => StartDecision(w, t, op, id)
    case BeginReaction(t, op, id, inScope) => StartReaction(w, t, op, id, inScope)
    case BeginCreds(t, id, proved) => StartCreds(w, t, id, proved)
    case Act(t, env) => if t in w.threads then Advance(w, t, w.threads[t], env) else w
  }

  function Advance(w: World, t: Tid, th: Thread, env: Env): (w': World) {
    if InIntake(th) then AdvanceIntake(w, t, th, env)
    else if InCreate(th) then AdvanceCreate(w, t, th, env)
    else if InSupersede(th) then AdvanceSupersede(w, t, th, env)
    else AdvanceDecision(w, t, th, env)
  }

  predicate InIntake(th: Thread) {
    th.Consuming? || th.Cleaning? || th.Looking? || th.Reading? || th.Releasing?
  }

  /** HandleEnroll up to the choice of a store call. */
  function AdvanceIntake(w: World, t: Tid, th: Thread, env: Env): (w': World) {
    match th
    case Consuming(_, _) => ConsumeCas(w, t, th, env)
    case Cleaning(_, _) => CleanChallenge(w, t, th, env)
    case Looking(_, _) => LookUpIndex(w, t, th, env)
    case Reading(_, _, _) => ReadExisting(w, t, th, env)
    case Releasing(_, _, _) => ReleaseIndex(w, t, th, env)
    case _ => w
  }

  predicate InCreate(th: Thread) {
    th.Claiming? || th.Writing? || th.RollingBack?
  }

  /** Store.Create. */
  function AdvanceCreate(w: World, t: Tid, th: Thread, env: Env): (w': World) {
    match th
    case Claiming(_, _) => ClaimIndex(w, t, th, env)
    case Writing(_, _) => WriteRecord(w, t, th, env)
    case RollingBack(_, _) => RollBackClaim(w, t, th, env)
    case _ => w
  }

  predicate InSupersede(th: Thread) {
    th.SupIndex? || th.SupWrite? || th.SupRepoint? || th.SupRollback? || th.SupRetire?
  }

  /** Store.Supersede. */
  function AdvanceSupersede(w: World, t: Tid, th: Thread, env: Env): (w': World) {
    match th
    case SupIndex(_, _, _) => SupersedeReadIndex(w, t, th, env)
    case SupWrite(_, _, _, _) => SupersedeWrite(w, t, th, env)
    case SupRepoint(_, _, _, _) => SupersedeRepoint(w, t, th, env)
    case SupRollback(_, _) => SupersedeRollBack(w, t, th, env)
    case SupRetire(_, _, _) => SupersedeRetire(w, t, th, env)
    case _ => w
  }

  /** Decisions, reactions and credential downloads. */
  function AdvanceDecision(w: World, t: Tid, th: Thread, env: Env): (w': World) {
    match th
    case Deciding(_, _) => DecisionCas(w, t, th, env)
    case Reacting(_, _) => ReactionGet(w, t, th)
    case Crediting(_) => MarkIssuedGet(w, t, th)
    case Marking(_, _) => MarkIssuedCas(w, t, th, env)
    case _ => w
  }

  // ----- challenges -----

  function IssueChallenge(w: World, ch: ChId, peel: PeelId, key: Key, expiresAt: Time): (w': World) {
    var r := w.desk.kv.Create(ch, Challenge(peel, key, expiresAt, false));
    if r.Refused? then w
    else w.(desk := w.desk.(kv := r.bucket, issued := w.desk.issued[ch := Owner(peel, key)]))
  }

  function ExpireChallenge(w: World, ch: ChId): (w': World) {
    w.(desk := w.desk.(kv := w.desk.kv.(live := w.desk.kv.live - {ch})))
  }

  function StartConsume(w: World, t: Tid, req: Request, env: Env): (w': World) {
    var got := w.desk.kv.Get(req.challenge);
    if !env.net.Heard? || got.None? || got.value.value.used || env.now > got.value.value.expiresAt
    then Goto(w, t, Finished)
    else Goto(w, t, Consuming(req, got.value))
  }

  function ConsumeCas(w: World, t: Tid, th: Thread, env: Env): (w': World)
    requires th.Consuming?
  {
    var c := th.req.challenge;
    var r := w.desk.kv.Update(c, th.ch.value.(used := true), th.ch.rev);
    if env.net.Down? || r.Refused? then Goto(w, t, Finished)
    else
      Goto(w.(desk := w.desk.(kv := r.bucket,
                              consumed := w.desk.consumed + multiset{c},
                              winner := w.desk.winner[c := t])),
           t, if env.net.Heard? then Cleaning(th.req, th.ch) else Finished)
  }

  /** The best-effort cleanup, then the binding, signature and trust checks. */
  function CleanChallenge(w: World, t: Tid, th: Thread, env: Env): (w': World)
    requires th.Cleaning?
  {
    var w1 := if env.net.Down? then w else w.(desk := w.desk.(kv := w.desk.kv.Remove(th.req.challenge)));
    match Admit(th.req, th.ch.value, env.pin)
    case None => Goto(w1, t, Finished)
    case Some(mismatch) => Goto(w1, t, Looking(th.req, mismatch))
  }

  // ----- looking the peel up -----

  function Mint(w: World, t: Tid, id: RecId): (w': World) {
    w.(minted := w.minted[id := t])
  }

  function ToCreate(w: World, t: Tid, req: Request, mismatch: bool, env: Env): (w': World) {
    Goto(Mint(w, t, env.newId), t, Claiming(req.challenge, NewRecord(env.newId, req, mismatch, env.now)))
  }

  function LookUpIndex(w: World, t: Tid, th: Thread, env: Env): (w': World)
    requires th.Looking?
  {
    var got := w.index.kv.Get(th.req.peel);
    if !env.net.Heard? || got.None? then ToCreate(w, t, th.req, th.mismatch, env)
    else Goto(w, t, Reading(th.req, th.mismatch, got.value.value))
  }

  function ReadExisting(w: World, t: Tid, th: Thread, env: Env): (w': World)
    requires th.Reading?
  {
    var got := w.store.kv.Get(th.id);
    if !env.net.Heard? || got.None? then ToCreate(w, t, th.req, th.mismatch, env)
    else
      match PlanFor(got.value.value, th.req)
      case Answer => Goto(w, t, Finished)
      case Free => Goto(w, t, Releasing(th.req, th.mismatch, th.id))
      case Replace =>
        Goto(Mint(w, t, env.newId), t,
             SupIndex(th.req.challenge, NewRecord(env.newId, th.req, th.mismatch, env.now), got.value))
  }

  /** Deleting a peel's entry is unfenced: it drops whatever the index holds by now. */
  function RemoveEntry(w: World, p: PeelId): (w': World) {
    w.(index := w.index.(kv := w.index.kv.Remove(p),
                         retired := w.index.retired + (set id | id in w.store.born && w.store.born[id].peel == p)))
  }

  function ReleaseIndex(w: World, t: Tid, th: Thread, env: Env): (w': World)
    requires th.Releasing?
  {
    ToCreate(if env.net.Down? then w else RemoveEntry(w, th.req.peel), t, th.req, th.mismatch, env)
  }

  // ----- Store.Create -----

  function ClaimIndex(w: World, t: Tid, th: Thread, env: Env): (w': World)
    requires th.Claiming?
  {
    var r := w.index.kv.Create(th.rec.peel, th.rec.id);
    if env.net.Down? || r.Refused? then Goto(w, t, Finished)
    else
      Goto(w.(index := w.index.(kv := r.bucket,
                                owner := w.index.owner[th.rec.peel := th.rec.key],
                                named := w.index.named[th.rec.id := th.rec.peel])),
           t, if env.net.Heard? then Writing(th.challenge, th.rec) else Stranded(th.challenge, th.rec))
  }

  function AddRecord(s: Store, rec: Record, ch: ChId): (s': Store) {
    s.(kv := s.kv.Put(rec.id, rec),
       born := s.born[rec.id := rec],
       origin := s.origin[rec.id := ch],
       hist := s.hist[rec.id := [rec.state]])
  }

  function WriteRecord(w: World, t: Tid, th: Thread, env: Env): (w': World)
    requires th.Writing?
  {
    if env.net.Down? || w.store.kv.Create(th.rec.id, th.rec).Refused?
    then Goto(w, t, RollingBack(th.challenge, th.rec))
    else
      Goto(w.(store := AddRecord(w.store, th.rec, th.challenge)),
           t, if env.net.Heard? then Finished else RollingBack(th.challenge, th.rec))
  }

  function RollBackClaim(w: World, t: Tid, th: Thread, env: Env): (w': World)
    requires th.RollingBack?
  {
    if env.net.Down? then Goto(w, t, Stranded(th.challenge, th.rec))
    else Goto(RemoveEntry(w, th.rec.peel), t, Finished)
  }

  // ----- Store.Supersede -----

  function SupersedeReadIndex(w: World, t: Tid, th: Thread, env: Env): (w': World)
    requires th.SupIndex?
  {
    var got := w.index.kv.Get(th.rec.peel);
    if !env.net.Heard? || got.None? then Goto(w, t, Finished)
    else Goto(w, t, SupWrite(th.challenge, th.rec, th.prior, got.value.rev))
  }

  function SupersedeWrite(w: World, t: Tid, th: Thread, env: Env): (w': World)
    requires th.SupWrite?
  {
    if env.net.Down? || w.store.kv.Create(th.rec.id, th.rec).Refused? then Goto(w, t, Finished)
    else
      Goto(w.(store := AddRecord(w.store, th.rec, th.challenge)),
           t, if env.net.Heard? then SupRepoint(th.challenge, th.rec, th.prior, th.idxRev) else Finished)
  }

  function SupersedeRepoint(w: World, t: Tid, th: Thread, env: Env): (w': World)
    requires th.SupRepoint?
  {
    var r := w.index.kv.Update(th.rec.peel, th.rec.id, th.idxRev);
    if env.net.Down? || r.Refused? then Goto(w, t, SupRollback(th.challenge, th.rec))
    else
      Goto(w.(index := w.index.(kv := r.bucket, named := w.index.named[th.rec.id := th.rec.peel],
                                missed := w.index.missed + (if env.net.Heard? then {} else {th.rec.id}))),
           t, if env.net.Heard? then SupRetire(th.challenge, th.rec, th.prior) else SupRollback(th.challenge, th.rec))
  }

  function SupersedeRollBack(w: World, t: Tid, th: Thread, env: Env): (w': World)
    requires th.SupRollback?
  {
    var w1 := if env.net.Down? then w else w.(store := w.store.(kv := w.store.kv.Remove(th.rec.id)));
    Goto(w1, t, Finished)
  }

  // ----- compare-and-swap on a record -----

  /** Store.Update of the record read as `seen`, to `rec`. */
  function CasRecord(s: Store, seen: Entry<Record>, rec: Record, forced: bool): (r: Option<Store>) {
    var id := seen.value.id;
    var out := s.kv.Update(id, rec, seen.rev);
    if out.Refused? then None
    else
      var h := if id in s.hist then s.hist[id] else [];
      Some(s.(kv := out.bucket,
              hist := s.hist[id := h + [rec.state]],
              forced := if forced then s.forced + {id} else s.forced))
  }

  /** Write `made` over the record read as `seen`, if there is something to write. */
  function TryCas(s: Store, seen: Entry<Record>, made: Option<Record>, forced: bool, env: Env): (r: Option<Store>) {
    if made.None? || env.net.Down? then None else CasRecord(s, seen, made.value, forced)
  }

  function SupersedeRetire(w: World, t: Tid, th: Thread, env: Env): (w': World)
    requires th.SupRetire?
  {
    var r := TryCas(w.store, th.prior, Retire(th.prior.value, env.now), false, env);
    Goto(if r.None? then w else w.(store := r.value), t, Finished)
  }

  function StartDecision(w: World, t: Tid, op: Decision, id: RecId): (w': World) {
    var got := w.store.kv.Get(id);
    if got.None? then Goto(w, t, Finished) else Goto(w, t, Deciding(op, got.value))
  }

  function DecisionCas(w: World, t: Tid, th: Thread, env: Env): (w': World)
    requires th.Deciding?
  {
    var r := TryCas(w.store, th.seen, Decide(th.seen.value, th.op, env.now), th.op == Approve(true), env);
    Goto(if r.None? then w else w.(store := r.value), t, Finished)
  }

  // ----- reactor -----

  function StartReaction(w: World, t: Tid, op: Option<Decision>, id: RecId, inScope: bool): (w': World) {
    var got := w.store.kv.Get(id);
    if got.None? then Goto(w, t, Finished)
    else
      var reaction := React(got.value.value, op, inScope);
      Goto(w, t, if reaction.Call? then Reacting(reaction.op, id) else Finished)
  }

  function ReactionGet(w: World, t: Tid, th: Thread): (w': World)
    requires th.Reacting?
  {
    StartDecision(w, t, th.op, th.id)
  }

  // ----- handleCreds -----

  function StartCreds(w: World, t: Tid, id: RecId, proved: bool): (w': World) {
    var got := w.store.kv.Get(id);
    if got.None? || got.value.value.state != Approved || !proved then Goto(w, t, Finished)
    else Goto(w, t, Crediting(got.value.value))
  }

  function MarkIssuedGet(w: World, t: Tid, th: Thread): (w': World)
    requires th.Crediting?
  {
    var got := w.store.kv.Get(th.first.id);
    if got.None? then Goto(w, t, Finished) else Goto(w, t, Marking(th.first, got.value))
  }

  function Deliver(s: Store, first: Record): (s': Store) {
    s.(delivered := s.delivered + multiset{first.id},
       deliveries := s.deliveries + {Delivery(first.id, first.peel, first.key)})
  }

  function MarkIssuedCas(w: World, t: Tid, th: Thread, env: Env): (w': World)
    requires th.Marking?
  {
    var r := TryCas(w.store, th.seen, Decide(th.seen.value, MarkIssued, env.now), false, env);
    Goto(if r.None? then w else w.(store := if env.net.Heard? then Deliver(r.value, th.first) else r.value),
         t, Finished)
  }

  // ----- runs -----

  /** A run from an empty store. */
  ghost predicate IsRun(ws: seq<World>, steps: seq<Step>) {
    IsRunFrom(Init(), ws, steps)
  }

  /** Worlds linked by enabled steps. */
  ghost predicate IsRunFrom(w: World, ws: seq<World>, steps: seq<Step>) {
    && |ws| == |steps| + 1
    && ws[0] == w
    && forall i {:trigger steps[i]} :: 0 <= i < |steps| ==>
         Enabled(ws[i], steps[i]) && ws[i + 1] == Apply(ws[i], steps[i])
  }

  /** What holds at the start and is kept by every step of the run's kind holds throughout. */
  lemma {:induction false} HoldsThroughout(inv: World -> bool, kind: (World, Step) -> bool,
                                           w: World, ws: seq<World>, steps: seq<Step>, i: nat)
    requires IsRunFrom(w, ws, steps) && i < |ws| && inv(w)
    requires forall k {:trigger steps[k]} :: 0 <= k < |steps| ==> kind(ws[k], steps[k])
    requires forall v: World, s: Step :: inv(v) && kind(v, s) && Enabled(v, s) ==> inv(Apply(v, s))
    ensures inv(ws[i])
    decreases i
  {
    if i > 0 {
      HoldsThroughout(inv, kind, w, ws, steps, i - 1);
      var s := steps[i - 1];
      assert Enabled(ws[i - 1], s) && kind(ws[i - 1], s) && ws[i] == Apply(ws[i - 1], s);
    }
  }
}
