/** Removing an index entry is safe at idle peels and nowhere else: after a run that removed entries
    at idle peels only, the next removal is at an idle peel exactly if no continuation that removes
    entries at idle peels only ends with two open records of a peel under different keys. A run that
    does end so is given, and one with a claim that stays although nobody will write its record. */
module EnrollRelease {
  import opened KeyValue
  import opened Enrollment
  import opened EnrollProtocol
  import opened EnrollIndex
  import EnrollLifecycle
  import EnrollProvenance

  // ----- what can happen from a world on -----

  /** Where a continuation starts, and whether it must remove entries at idle peels only. */
  datatype Start = Start(w: World, careful: bool)

  ghost predicate IsContinuation(from: Start, ws: seq<World>, steps: seq<Step>) {
    IsRunFrom(from.w, ws, steps) && (from.careful ==> AllCareful(ws, steps))
  }

  ghost predicate LeadsTo(from: Start, w': World) {
    exists ws, steps :: IsContinuation(from, ws, steps) && ws[|steps|] == w'
  }

  ghost predicate IsReachable(w: World) {
    LeadsTo(Start(Init(), false), w)
  }

  /** Reached by removing entries at idle peels only. */
  ghost predicate IsCarefullyReachable(w: World) {
    LeadsTo(Start(Init(), true), w)
  }

  lemma ExtendRun(from: Start, ws: seq<World>, steps: seq<Step>, s: Step, next: World)
    requires IsContinuation(from, ws, steps) && Enabled(ws[|steps|], s) && next == Apply(ws[|steps|], s)
    requires from.careful ==> IsCareful(ws[|steps|], s)
    ensures IsContinuation(from, ws + [next], steps + [s])
  {
    var ws', steps' := ws + [next], steps + [s];
    forall i | 0 <= i < |steps'|
      ensures Enabled(ws'[i], steps'[i]) && ws'[i + 1] == Apply(ws'[i], steps'[i])
      ensures from.careful ==> IsCareful(ws'[i], steps'[i])
    {
      assert ws'[i] == ws[i];
      if i < |steps| {
        assert steps'[i] == steps[i] && ws'[i + 1] == ws[i + 1];
      }
    }
  }

  lemma StayHere(from: Start)
    ensures LeadsTo(from, from.w)
  {
    assert IsContinuation(from, [from.w], []);
  }

  lemma StepOn(from: Start, w: World, s: Step)
    requires LeadsTo(from, w) && Enabled(w, s) && (from.careful ==> IsCareful(w, s))
    ensures LeadsTo(from, Apply(w, s))
  {
    var ws, steps :| IsContinuation(from, ws, steps) && ws[|steps|] == w;
    var next := Apply(w, s);
    ExtendRun(from, ws, steps, s, next);
    assert (ws + [next])[|steps + [s]|] == next;
  }

  /** What every reachable world satisfies. */
  ghost predicate IsSound(w: World) {
    EnrollLifecycle.Lifecycle(w) && EnrollProvenance.Provenance(w)
  }

  lemma ReachableIsSound(careful: bool, w: World)
    requires LeadsTo(Start(Init(), careful), w)
    ensures IsSound(w)
  {
    var ws, steps :| IsContinuation(Start(Init(), careful), ws, steps) && ws[|steps|] == w;
    assert IsRun(ws, steps);
    EnrollLifecycle.RunLifecycle(ws, steps, |steps|);
    EnrollProvenance.RunProvenance(ws, steps, |steps|);
  }

  /** A sound world on the way. */
  ghost predicate Got(from: Start, w: World) {
    LeadsTo(from, w) && IsSound(w)
  }

  lemma StepSound(w: World, s: Step)
    requires IsSound(w) && Enabled(w, s)
    ensures IsSound(Apply(w, s))
  {
    EnrollLifecycle.StepLifecycle(w, s);
    EnrollProvenance.StepProvenance(w, s);
  }

  lemma Go(from: Start, w: World, s: Step)
    requires Got(from, w) && Enabled(w, s) && (from.careful ==> IsCareful(w, s))
    ensures Got(from, Apply(w, s))
  {
    StepOn(from, w, s);
    StepSound(w, s);
  }

  // ----- names that are not taken -----

  lemma NewString(taken: set<string>) returns (s: string)
    ensures s !in taken
  {
    var n := Longest(taken);
    s := seq(n + 1, _ => 'n');
  }

  lemma Longest(taken: set<string>) returns (n: nat)
    ensures forall s :: s in taken ==> |s| <= n
  {
    n := 0;
    var todo := taken;
    while todo != {}
      invariant todo <= taken
      invariant forall s :: s in taken && s !in todo ==> |s| <= n
      decreases todo
    {
      var s :| s in todo;
      n := if |s| > n then |s| else n;
      todo := todo - {s};
    }
  }

  lemma NewThread(taken: set<Tid>) returns (t: Tid)
    ensures t !in taken
  {
    t := 0;
    var todo := taken;
    while todo != {}
      invariant todo <= taken
      invariant forall u :: u in taken && u !in todo ==> u < t
      decreases todo
    {
      var u :| u in todo;
      t := if u >= t then u + 1 else t;
      todo := todo - {u};
    }
  }

  // ----- one enrollment, start to end -----

  function Ask(p: PeelId, challenge: ChId, key: Key): (r: Request) {
    Request(p, key, challenge, true, "", false)
  }

  function Fine(newId: RecId): (e: Env) {
    Env(Heard, 0, newId, "")
  }

  /** Everything but the challenges and thread `t` is as it was. */
  ghost predicate Beside(w: World, w': World, t: Tid) {
    && w'.store == w.store && w'.index == w.index && w'.minted == w.minted
    && t in w'.threads && w'.threads == w.threads[t := w'.threads[t]]
  }

  /** A call gets a challenge and starts to consume it. */
  lemma Knock(from: Start, w: World, t: Tid, p: PeelId, key: Key) returns (w': World, c: ChId)
    requires Got(from, w) && t !in w.threads
    ensures Got(from, w') && Beside(w, w', t)
    ensures IsWinning(w', t, p, key, c)
  {
    c := NewString(w.desk.issued.Keys);
    assert c in w.desk.kv.live ==> EnrollProvenance.LiveOk(w.desk, c);
    var w1 := Apply(w, Issue(c, p, key, 0));
    Go(from, w, Issue(c, p, key, 0));
    w' := Apply(w1, BeginEnroll(t, Ask(p, c, key), Fine("")));
    Go(from, w1, BeginEnroll(t, Ask(p, c, key), Fine("")));
  }

  /** The call is about to win this challenge, issued for it. */
  ghost predicate IsWinning(w: World, t: Tid, p: PeelId, key: Key, c: ChId) {
    && t in w.threads && c in w.desk.kv.live
    && w.threads[t] == Consuming(Ask(p, c, key), w.desk.kv.live[c])
    && w.desk.kv.live[c].value == Challenge(p, key, 0, false)
  }

  lemma WinThenPass(w: World, t: Tid, p: PeelId, key: Key, c: ChId, n: RecId)
    requires IsWinning(w, t, p, key, c)
    ensures var w' := Apply(Apply(w, Act(t, Fine(n))), Act(t, Fine(n)));
      Beside(w, w', t) && w'.threads[t] == Looking(Ask(p, c, key), false)
    ensures Beside(w, Apply(w, Act(t, Fine(n))), t) && !IsRemoving(Apply(w, Act(t, Fine(n))).threads[t])
  {
    assert Apply(w, Act(t, Fine(n))).threads[t] == Cleaning(Ask(p, c, key), w.desk.kv.live[c]);
  }

  /** It wins the challenge and passes all checks. */
  lemma PassChecks(from: Start, w: World, t: Tid, p: PeelId, key: Key, c: ChId) returns (w': World)
    requires Got(from, w) && IsWinning(w, t, p, key, c)
    ensures Got(from, w') && Beside(w, w', t) && w'.threads[t] == Looking(Ask(p, c, key), false)
  {
    var n := NewString(w.minted.Keys);
    WinThenPass(w, t, p, key, c, n);
    w' := Twice(from, w, t, n);
  }

  lemma Twice(from: Start, w: World, t: Tid, n: RecId) returns (w': World)
    requires Got(from, w) && t in w.threads && n !in w.minted
    requires !IsRemoving(w.threads[t])
    requires Beside(w, Apply(w, Act(t, Fine(n))), t) && !IsRemoving(Apply(w, Act(t, Fine(n))).threads[t])
    ensures Got(from, w') && w' == Apply(Apply(w, Act(t, Fine(n))), Act(t, Fine(n)))
  {
    var s := Act(t, Fine(n));
    Go(from, w, s);
    Go(from, Apply(w, s), s);
    w' := Apply(Apply(w, s), s);
  }

  lemma Arrive(from: Start, w: World, p: PeelId, key: Key) returns (w': World, t: Tid, c: ChId)
    requires Got(from, w)
    ensures t !in w.threads && Got(from, w') && Beside(w, w', t) && w'.threads[t] == Looking(Ask(p, c, key), false)
  {
    t := NewThread(w.threads.Keys);
    w', c := Knock(from, w, t, p, key);
    w' := PassChecks(from, w', t, p, key, c);
  }

  /** A thread's next step with everything getting through. */
  lemma ActOn(from: Start, w: World, t: Tid) returns (w': World, n: RecId)
    requires Got(from, w) && t in w.threads && (from.careful ==> !IsRemoving(w.threads[t]))
    ensures n !in w.minted && w' == Apply(w, Act(t, Fine(n))) && Got(from, w')
  {
    n := NewString(w.minted.Keys);
    w' := Apply(w, Act(t, Fine(n)));
    Go(from, w, Act(t, Fine(n)));
  }

  /** A pending record `id` of the peel was added under the key, and nothing else happened to the
      records. */
  ghost predicate Added(w: World, w': World, id: RecId, p: PeelId, key: Key) {
    && id !in w.store.kv.live && id in w'.store.kv.live
    && w'.store.kv.live[id].value.state.Pending?
    && w'.store.kv.live[id].value.peel == p && w'.store.kv.live[id].value.key == key
    && forall i :: i in w.store.kv.live ==> i in w'.store.kv.live && w'.store.kv.live[i] == w.store.kv.live[i]
  }

  lemma WriteOut(from: Start, w: World, t: Tid) returns (w': World)
    requires Got(from, w) && t in w.threads && (w.threads[t].Writing? || w.threads[t].SupWrite?)
    ensures Got(from, w') && Added(w, w', w.threads[t].rec.id, w.threads[t].rec.peel, w.threads[t].rec.key)
    ensures w'.index == w.index && t in w'.threads && w'.threads == w.threads[t := w'.threads[t]]
  {
    var th := w.threads[t];
    assert EnrollLifecycle.ThreadOk(w, t, th);
    assert th.rec.id in w.store.kv.live ==> EnrollLifecycle.RecordOk(w.store, th.rec.id);
    var n;
    w', n := ActOn(from, w, t);
    Writes(w, t, th, n);
  }

  lemma Writes(w: World, t: Tid, th: Thread, n: RecId)
    requires t in w.threads && w.threads[t] == th && (th.Writing? || th.SupWrite?)
    requires th.rec.id !in w.store.kv.live && th.rec.state.Pending?
    ensures var w' := Apply(w, Act(t, Fine(n)));
      && Added(w, w', th.rec.id, th.rec.peel, th.rec.key)
      && w'.index == w.index && t in w'.threads && w'.threads == w.threads[t := w'.threads[t]]
  {
  }

  lemma ClaimOut(from: Start, w: World, t: Tid) returns (w': World)
    requires Got(from, w) && t in w.threads && w.threads[t].Claiming?
    requires w.threads[t].rec.peel !in w.index.kv.live
    ensures Got(from, w') && w'.store == w.store && t in w'.threads && w'.threads == w.threads[t := w'.threads[t]]
    ensures w'.threads[t] == Writing(w.threads[t].challenge, w.threads[t].rec) && StandsFor(w', w.threads[t].rec)
  {
    var n;
    w', n := ActOn(from, w, t);
    Claims(w, t, n);
  }

  lemma Claims(w: World, t: Tid, n: RecId)
    requires t in w.threads && w.threads[t].Claiming? && w.threads[t].rec.peel !in w.index.kv.live
    ensures var w' := Apply(w, Act(t, Fine(n)));
      && w'.store == w.store && t in w'.threads && w'.threads == w.threads[t := w'.threads[t]]
      && w'.threads[t] == Writing(w.threads[t].challenge, w.threads[t].rec) && StandsFor(w', w.threads[t].rec)
  {
  }

  lemma LookNowhere(from: Start, w: World, t: Tid, p: PeelId, key: Key, c: ChId) returns (w': World)
    requires Got(from, w) && t in w.threads && w.threads[t] == Looking(Ask(p, c, key), false)
    requires p !in w.index.kv.live
    ensures Got(from, w') && w'.store == w.store && w'.index == w.index
    ensures t in w'.threads && w'.threads == w.threads[t := w'.threads[t]]
    ensures w'.threads[t].Claiming? && w'.threads[t].rec.peel == p && w'.threads[t].rec.key == key
  {
    var n;
    w', n := ActOn(from, w, t);
    FindsNothing(w, t, p, key, c, n);
  }

  lemma FindsNothing(w: World, t: Tid, p: PeelId, key: Key, c: ChId, n: RecId)
    requires t in w.threads && w.threads[t] == Looking(Ask(p, c, key), false) && p !in w.index.kv.live
    ensures var w' := Apply(w, Act(t, Fine(n)));
      && w'.store == w.store && w'.index == w.index && t in w'.threads && w'.threads == w.threads[t := w'.threads[t]]
      && w'.threads[t].Claiming? && w'.threads[t].rec.peel == p && w'.threads[t].rec.key == key
  {
  }

  /** A new call enrolls a peel that has no index entry, under any key. */
  lemma Enroll(from: Start, w: World, p: PeelId, key: Key) returns (w': World, id: RecId)
    requires Got(from, w) && p !in w.index.kv.live
    ensures Got(from, w') && Added(w, w', id, p, key) && p in w'.index.kv.live
    ensures forall u :: u in w.threads ==> u in w'.threads && w'.threads[u] == w.threads[u]
  {
    var t, c;
    w', t, c := Arrive(from, w, p, key);
    w' := LookNowhere(from, w', t, p, key, c);
    w' := ClaimOut(from, w', t);
    id := w'.threads[t].rec.id;
    w' := WriteOut(from, w', t);
  }

  // ----- removing at a busy peel -----

  /** Two open records of the peel carry different keys. */
  ghost predicate IsSplit(w: World, p: PeelId) {
    exists a, b :: AreSplit(w, p, a, b)
  }

  ghost predicate AreSplit(w: World, p: PeelId, a: RecId, b: RecId) {
    && IsOpen(w.store, a) && IsOpen(w.store, b)
    && w.store.kv.live[a].value.peel == p && w.store.kv.live[b].value.peel == p
    && w.store.kv.live[a].value.key != w.store.kv.live[b].value.key
  }

  function OtherThan(key: Key): (r: Key)
    ensures r != key
  {
    key + "'"
  }

  /** An open record without an index entry: the next call enrolls beside it. */
  lemma SplitFromOpen(from: Start, w: World, p: PeelId, a: RecId) returns (w': World)
    requires Got(from, w) && p !in w.index.kv.live && IsOpen(w.store, a) && w.store.kv.live[a].value.peel == p
    ensures LeadsTo(from, w') && IsSplit(w', p)
  {
    var b;
    w', b := Enroll(from, w, p, OtherThan(w.store.kv.live[a].value.key));
    assert AreSplit(w', p, a, b);
  }

  /** A call past the point of no return writes its record beside an open one of another key. */
  lemma SplitByWriting(from: Start, w: World, p: PeelId, u: Tid, b: RecId) returns (w': World)
    requires Got(from, w) && u in w.threads && (w.threads[u].Writing? || w.threads[u].SupWrite?)
    requires w.threads[u].rec.peel == p && IsOpen(w.store, b)
    requires w.store.kv.live[b].value.peel == p && w.store.kv.live[b].value.key != w.threads[u].rec.key
    ensures LeadsTo(from, w') && IsSplit(w', p)
  {
    w' := WriteOut(from, w, u);
    assert AreSplit(w', p, w.threads[u].rec.id, b);
  }

  lemma SplitFromWriter(from: Start, w: World, p: PeelId, u: Tid) returns (w': World)
    requires Got(from, w) && p !in w.index.kv.live && u in w.threads
    requires w.threads[u].Writing? || w.threads[u].SupWrite?
    requires w.threads[u].rec.peel == p
    ensures LeadsTo(from, w') && IsSplit(w', p)
  {
    var b;
    w', b := Enroll(from, w, p, OtherThan(w.threads[u].rec.key));
    w' := SplitByWriting(from, w', p, u, b);
  }

  lemma ReadIndexOut(from: Start, w: World, u: Tid) returns (w': World)
    requires Got(from, w) && u in w.threads && w.threads[u].SupIndex? && w.threads[u].rec.peel in w.index.kv.live
    ensures Got(from, w') && w'.store == w.store
    ensures u in w'.threads && w'.threads[u].SupWrite? && w'.threads[u].rec == w.threads[u].rec
  {
    var n;
    w', n := ActOn(from, w, u);
    ReadsIndex(w, u, n);
  }

  lemma ReadsIndex(w: World, u: Tid, n: RecId)
    requires u in w.threads && w.threads[u].SupIndex? && w.threads[u].rec.peel in w.index.kv.live
    ensures var w' := Apply(w, Act(u, Fine(n)));
      && w'.store == w.store && u in w'.threads && w'.threads[u].SupWrite?
      && w'.threads[u].rec == w.threads[u].rec
  {
  }

  lemma SplitFromSuperseding(from: Start, w: World, p: PeelId, u: Tid) returns (w': World)
    requires Got(from, w) && p !in w.index.kv.live && u in w.threads
    requires w.threads[u].SupIndex? && w.threads[u].rec.peel == p
    ensures LeadsTo(from, w') && IsSplit(w', p)
  {
    var b;
    w', b := Enroll(from, w, p, OtherThan(w.threads[u].rec.key));
    w' := ReadIndexOut(from, w', u);
    w' := SplitByWriting(from, w', p, u, b);
  }

  /** A removal that gets through: the entry is gone, and nothing else of the peel changed. */
  lemma AfterRemoval(w: World, s: Step)
    requires Enabled(w, s) && Removes(w, s)
    ensures var w' := Apply(w, s);
      && w'.store == w.store && PeelOf(w.threads[s.t]) !in w'.index.kv.live
      && forall u :: u in w.threads && u != s.t ==> u in w'.threads && w'.threads[u] == w.threads[u]
  {
  }

  /** At a busy peel, two open records under different keys are then within reach, without any
      further removal. */
  lemma BusyRemovalSplits(w: World, s: Step) returns (w': World)
    requires IsSound(w) && Enabled(w, s) && Removes(w, s) && !IsIdle(w, PeelOf(w.threads[s.t]))
    ensures LeadsTo(Start(Apply(w, s), true), w') && IsSplit(w', PeelOf(w.threads[s.t]))
  {
    var p, w1 := PeelOf(w.threads[s.t]), Apply(w, s);
    var from := Start(w1, true);
    AfterRemoval(w, s);
    StepSound(w, s);
    StayHere(from);
    if a :| IsOpen(w.store, a) && w.store.kv.live[a].value.peel == p {
      w' := SplitFromOpen(from, w1, p, a);
    } else {
      var u :| u in w.threads && IsCommitted(w.threads[u], p);
      if w.threads[u].SupIndex? {
        w' := SplitFromSuperseding(from, w1, p, u);
      } else {
        w' := SplitFromWriter(from, w1, p, u);
      }
    }
  }

  lemma GoodIsNeverSplit(w: World, p: PeelId)
    requires IsGood(w)
    ensures !IsSplit(w, p)
  {
    forall a, b | IsOpen(w.store, a) && IsOpen(w.store, b) ensures !AreSplit(w, p, a, b) {
      OpenIsAnchored(w, a);
      OpenIsAnchored(w, b);
    }
  }

  /** From a good world on, removing entries at idle peels only splits no peel. */
  lemma CarefulNeverSplits(w: World, w': World, p: PeelId)
    requires IsGood(w) && LeadsTo(Start(w, true), w')
    ensures !IsSplit(w', p)
  {
    var ws, steps :| IsContinuation(Start(w, true), ws, steps) && ws[|steps|] == w';
    GoodFrom(w, ws, steps, |steps|);
    GoodIsNeverSplit(w', p);
  }

  /** The boundary of removing an entry. After a run that removed entries at idle peels only, the
      next removal is at an idle peel exactly if no peel is ever split by what follows it, as long as
      that removes entries at idle peels only. */
  lemma RemovalIsSafeIffIdle(w: World, s: Step)
    requires IsCarefullyReachable(w) && Enabled(w, s) && Removes(w, s)
    ensures IsIdle(w, PeelOf(w.threads[s.t])) <==>
      forall w', p :: LeadsTo(Start(Apply(w, s), true), w') ==> !IsSplit(w', p)
  {
    if IsIdle(w, PeelOf(w.threads[s.t])) {
      CarefullyReachableIsGood(w);
      StepGood(w, s);
      forall w', p | LeadsTo(Start(Apply(w, s), true), w') ensures !IsSplit(w', p) {
        CarefulNeverSplits(Apply(w, s), w', p);
      }
    } else {
      ReachableIsSound(true, w);
      var w' := BusyRemovalSplits(w, s);
    }
  }

  lemma CarefullyReachableIsGood(w: World)
    requires IsCarefullyReachable(w)
    ensures IsGood(w)
  {
    var ws, steps :| IsContinuation(Start(Init(), true), ws, steps) && ws[|steps|] == w;
    RunGuarded(ws, steps, |steps|);
  }

  // ----- a run that splits a peel -----

  /** Everything since the empty store, without restriction. */
  const Ever: Start := Start(Init(), false)

  const Peel: PeelId := "web"

  /** The index names the peel's record `id`, in the given state. */
  ghost predicate Names(w: World, id: RecId, state: State) {
    && Peel in w.index.kv.live && w.index.kv.live[Peel].value == id
    && id in w.store.kv.live && w.store.kv.live[id].value.state == state
  }

  lemma FirstEnrollment(from: Start, w: World, key: Key) returns (w': World, id: RecId)
    requires Got(from, w) && Peel !in w.index.kv.live
    ensures Got(from, w') && Names(w', id, Pending)
  {
    var t, c;
    w', t, c := Arrive(from, w, Peel, key);
    w' := LookNowhere(from, w', t, Peel, key, c);
    id := w'.threads[t].rec.id;
    w' := ClaimOut(from, w', t);
    w' := WriteOut(from, w', t);
  }

  lemma RejectsNamed(w: World, t: Tid, id: RecId, n: RecId)
    requires Names(w, id, Pending) && w.store.kv.live[id].value.id == id
    ensures var w1 := Apply(w, BeginDecision(t, Reject, id));
      t in w1.threads && w1.minted == w.minted && Names(Apply(w1, Act(t, Fine(n))), id, Rejected)
  {
    var w1 := Apply(w, BeginDecision(t, Reject, id));
    assert w1.threads[t] == Deciding(Reject, w.store.kv.live[id]);
  }

  lemma RejectNamed(from: Start, w: World, id: RecId) returns (w': World)
    requires Got(from, w) && Names(w, id, Pending)
    ensures Got(from, w') && Names(w', id, Rejected)
  {
    var t := NewThread(w.threads.Keys);
    var n := NewString(w.minted.Keys);
    assert EnrollLifecycle.RecordOk(w.store, id);
    RejectsNamed(w, t, id, n);
    Go(from, w, BeginDecision(t, Reject, id));
    var w1 := Apply(w, BeginDecision(t, Reject, id));
    Go(from, w1, Act(t, Fine(n)));
    w' := Apply(w1, Act(t, Fine(n)));
  }

  lemma ReadOut(from: Start, w: World, t: Tid, key: Key, c: ChId, id: RecId) returns (w': World)
    requires Got(from, w) && t in w.threads && w.threads[t] == Reading(Ask(Peel, c, key), false, id)
    requires Names(w, id, Rejected)
    ensures Got(from, w') && Beside(w, w', t) && w'.threads[t] == Releasing(Ask(Peel, c, key), false, id)
  {
    var n;
    w', n := ActOn(from, w, t);
    ReadsRejected(w, t, key, c, id, n);
  }

  lemma ReadsRejected(w: World, t: Tid, key: Key, c: ChId, id: RecId, n: RecId)
    requires t in w.threads && w.threads[t] == Reading(Ask(Peel, c, key), false, id)
    requires Names(w, id, Rejected)
    ensures var w' := Apply(w, Act(t, Fine(n)));
      Beside(w, w', t) && w'.threads[t] == Releasing(Ask(Peel, c, key), false, id)
  {
  }

  lemma LookOut(from: Start, w: World, t: Tid, key: Key, c: ChId, id: RecId) returns (w': World)
    requires Got(from, w) && t in w.threads && w.threads[t] == Looking(Ask(Peel, c, key), false)
    requires Peel in w.index.kv.live && w.index.kv.live[Peel].value == id
    ensures Got(from, w') && Beside(w, w', t) && w'.threads[t] == Reading(Ask(Peel, c, key), false, id)
  {
    var n;
    w', n := ActOn(from, w, t);
    LooksUp(w, t, key, c, id, n);
  }

  lemma LooksUp(w: World, t: Tid, key: Key, c: ChId, id: RecId, n: RecId)
    requires t in w.threads && w.threads[t] == Looking(Ask(Peel, c, key), false)
    requires Peel in w.index.kv.live && w.index.kv.live[Peel].value == id
    ensures var w' := Apply(w, Act(t, Fine(n)));
      Beside(w, w', t) && w'.threads[t] == Reading(Ask(Peel, c, key), false, id)
  {
  }

  /** A new call finds the rejected record and is about to release the index. */
  lemma SeeRejected(from: Start, w: World, key: Key, id: RecId) returns (w': World, t: Tid)
    requires Got(from, w) && Names(w, id, Rejected)
    ensures t !in w.threads && Got(from, w') && Beside(w, w', t)
    ensures w'.threads[t].Releasing? && w'.threads[t].req.peel == Peel && w'.threads[t].req.key == key
  {
    var c;
    w', t, c := Arrive(from, w, Peel, key);
    w' := LookOut(from, w', t, key, c, id);
    w' := ReadOut(from, w', t, key, c, id);
  }

  lemma ReleaseOut(from: Start, w: World, t: Tid) returns (w': World)
    requires Got(from, w) && !from.careful && t in w.threads && w.threads[t].Releasing?
    ensures Got(from, w') && w'.store == w.store && w.threads[t].req.peel !in w'.index.kv.live
    ensures t in w'.threads && w'.threads == w.threads[t := w'.threads[t]] && w'.threads[t].Claiming?
    ensures w'.threads[t].rec.peel == w.threads[t].req.peel && w'.threads[t].rec.key == w.threads[t].req.key
  {
    var n;
    w', n := ActOn(from, w, t);
    Releases(w, t, n);
  }

  lemma Releases(w: World, t: Tid, n: RecId)
    requires t in w.threads && w.threads[t].Releasing?
    ensures var w' := Apply(w, Act(t, Fine(n)));
      && w'.store == w.store && w.threads[t].req.peel !in w'.index.kv.live
      && t in w'.threads && w'.threads == w.threads[t := w'.threads[t]] && w'.threads[t].Claiming?
      && w'.threads[t].rec.peel == w.threads[t].req.peel && w'.threads[t].rec.key == w.threads[t].req.key
  {
  }

  /** A releasing call goes through to the end. */
  lemma ReleaseAndCreate(from: Start, w: World, t: Tid) returns (w': World, id: RecId)
    requires Got(from, w) && !from.careful && t in w.threads && w.threads[t].Releasing?
    ensures Got(from, w') && Added(w, w', id, w.threads[t].req.peel, w.threads[t].req.key)
    ensures t in w'.threads && w'.threads == w.threads[t := w'.threads[t]]
  {
    w' := ReleaseOut(from, w, t);
    w' := ClaimOut(from, w', t);
    id := w'.threads[t].rec.id;
    w' := WriteOut(from, w', t);
  }

  /** Two calls see the same rejected record; one re-enrolls, then the other's release drops that
      claim. A reachable world in which one peel has two pending records under different keys. */
  lemma TwoOpenRecordsUnderDifferentKeys() returns (w: World, a: RecId, b: RecId)
    ensures IsReachable(w) && AreSplit(w, Peel, a, b)
    ensures w.store.kv.live[a].value.state.Pending? && w.store.kv.live[b].value.state.Pending?
  {
    var id, t, u;
    w, id := OneRejected();
    w, t := SeeRejected(Ever, w, "k1", id);
    w, u := SeeRejected(Ever, w, "k2", id);
    w, b := ReleaseAndCreate(Ever, w, u);
    w, a := ReleaseAndCreate(Ever, w, t);
  }

  lemma OneRejected() returns (w: World, id: RecId)
    ensures Got(Ever, w) && Names(w, id, Rejected)
  {
    StayHere(Ever);
    ReachableIsSound(false, Init());
    w, id := FirstEnrollment(Ever, Init(), "k0");
    w := RejectNamed(Ever, w, id);
  }

  // ----- a claim that stays -----

  /** The call is over without having written its record. */
  ghost predicate IsOver(w: World, t: Tid) {
    && t in w.threads && w.threads[t].Stranded?
    && IsMinted(w, t, w.threads[t].rec) && w.threads[t].rec.id !in w.store.born
  }

  /** And its claim stands. */
  ghost predicate IsStranded(w: World, t: Tid) {
    IsOver(w, t) && StandsFor(w, w.threads[t].rec)
  }

  /** The record write and the rollback both fail. */
  lemma FailTwice(w: World, t: Tid, n: RecId)
    requires t in w.threads && w.threads[t].Writing? && StandsFor(w, w.threads[t].rec)
    requires IsMinted(w, t, w.threads[t].rec) && w.threads[t].rec.id !in w.store.born
    ensures var s := Act(t, Env(Down, 0, n, ""));
      IsStranded(Apply(Apply(w, s), s), t) && Apply(w, s).minted == w.minted && t in Apply(w, s).threads
  {
    var w1 := Apply(w, Act(t, Env(Down, 0, n, "")));
    assert w1.threads[t] == RollingBack(w.threads[t].challenge, w.threads[t].rec);
  }

  lemma FailOut(from: Start, w: World, t: Tid) returns (w': World)
    requires Got(from, w) && t in w.threads && w.threads[t].Writing? && StandsFor(w, w.threads[t].rec)
    ensures Got(from, w') && IsStranded(w', t)
  {
    assert EnrollLifecycle.ThreadOk(w, t, w.threads[t]);
    var n := NewString(w.minted.Keys);
    var s := Act(t, Env(Down, 0, n, ""));
    FailTwice(w, t, n);
    Go(from, w, s);
    Go(from, Apply(w, s), s);
    w' := Apply(Apply(w, s), s);
  }

  /** A reachable world in which the index names a record that was never written. */
  lemma StrandedClaimIsReachable() returns (w: World, t: Tid)
    ensures IsReachable(w) && IsStranded(w, t)
  {
    StayHere(Ever);
    ReachableIsSound(false, Init());
    var c;
    w, t, c := Arrive(Ever, Init(), Peel, "k0");
    w := LookNowhere(Ever, w, t, Peel, "k0", c);
    w := ClaimOut(Ever, w, t);
    w := FailOut(Ever, w, t);
  }

  lemma Births(w: World, t: Tid, th: Thread, env: Env, id: RecId)
    requires id !in w.store.born && id in Advance(w, t, th, env).store.born
    ensures (th.Writing? || th.SupWrite?) && th.rec.id == id
  {
  }

  lemma AdvanceKeepsMinted(w: World, u: Tid, env: Env, id: RecId)
    requires u in w.threads && env.newId !in w.minted && id in w.minted
    ensures var w' := Advance(w, u, w.threads[u], env); id in w'.minted && w'.minted[id] == w.minted[id]
  {
  }

  lemma NobodyWrites(w: World, t: Tid, u: Tid, th: Thread, env: Env)
    requires EnrollLifecycle.Lifecycle(w) && IsOver(w, t) && u != t && u in w.threads && w.threads[u] == th
    requires env.newId !in w.minted
    ensures IsMinted(Advance(w, u, th, env), t, w.threads[t].rec)
    ensures w.threads[t].rec.id !in Advance(w, u, th, env).store.born
  {
    var id := w.threads[t].rec.id;
    AdvanceKeepsMinted(w, u, env, id);
    assert EnrollLifecycle.ThreadOk(w, u, th);
    if id in Advance(w, u, th, env).store.born {
      Births(w, u, th, env, id);
    }
  }

  lemma StepOver(w: World, s: Step, t: Tid)
    requires EnrollLifecycle.Lifecycle(w) && Enabled(w, s) && IsOver(w, t)
    ensures IsOver(Apply(w, s), t) && Apply(w, s).threads[t] == w.threads[t]
  {
    if s.Act? && s.t != t {
      AdvanceLeavesOthers(w, s.t, w.threads[s.t], s.env);
      NobodyWrites(w, t, s.t, w.threads[s.t], s.env);
    }
  }

  lemma StepStands(w: World, s: Step, t: Tid)
    requires Guarded(w) && Enabled(w, s) && IsOver(w, t) && StandsFor(w, w.threads[t].rec)
    ensures StandsFor(Apply(w, s), w.threads[t].rec)
      || (Removes(w, s) && PeelOf(w.threads[s.t]) == w.threads[t].rec.peel)
  {
    if s.Act? {
      ClaimStands(w, s.t, w.threads[s.t], s.env, w.threads[t].rec);
    }
  }

  /** Some step between the two moments removed the peel's entry. */
  ghost predicate WasRemoved(ws: seq<World>, steps: seq<Step>, i: nat, j: nat, p: PeelId)
    requires |ws| == |steps| + 1 && i <= j < |ws|
  {
    exists k :: i <= k < j && Removes(ws[k], steps[k]) && PeelOf(ws[k].threads[steps[k].t]) == p
  }

  /** Nobody ever writes the record of a stranded claim, and in a run that removes entries at idle
      peels only it blocks its peel until the entry is removed. */
  lemma {:induction false} StrandedStays(ws: seq<World>, steps: seq<Step>, i: nat, j: nat, t: Tid)
    requires IsCarefulRun(ws, steps) && i <= j < |ws| && IsStranded(ws[i], t)
    ensures IsOver(ws[j], t) && ws[j].threads[t] == ws[i].threads[t]
    ensures StandsFor(ws[j], ws[i].threads[t].rec) || WasRemoved(ws, steps, i, j, ws[i].threads[t].rec.peel)
    decreases j
  {
    if i < j {
      StrandedStays(ws, steps, i, j - 1, t);
      RunStranded(ws, steps, j - 1, t);
    }
  }

  lemma RunStranded(ws: seq<World>, steps: seq<Step>, k: nat, t: Tid)
    requires IsCarefulRun(ws, steps) && k < |steps| && IsOver(ws[k], t)
    ensures IsOver(ws[k + 1], t) && ws[k + 1].threads[t] == ws[k].threads[t]
    ensures StandsFor(ws[k], ws[k].threads[t].rec) ==>
      || StandsFor(ws[k + 1], ws[k].threads[t].rec)
      || (Removes(ws[k], steps[k]) && PeelOf(ws[k].threads[steps[k].t]) == ws[k].threads[t].rec.peel)
  {
    RunGuarded(ws, steps, k);
    assert Enabled(ws[k], steps[k]) && ws[k + 1] == Apply(ws[k], steps[k]);
    StepOver(ws[k], steps[k], t);
    if StandsFor(ws[k], ws[k].threads[t].rec) {
      StepStands(ws[k], steps[k], t);
    }
  }
}
