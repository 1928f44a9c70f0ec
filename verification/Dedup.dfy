/** The peel's fence against re-executing a dispatched job: the highest epoch seen per job id, kept
    in a capped tracker that is saved to disk before a job may run. */
module Dedup {
  import opened KeyValue

  type Jid = string

  /** `order` lists the tracked ids by first observation, oldest first. */
  datatype Tracker = Tracker(m: map<Jid, nat>, order: seq<Jid>)

  ghost predicate Distinct<T(!new)>(xs: seq<T>) {
    forall i, j :: 0 <= i < j < |xs| ==> xs[i] != xs[j]
  }

  ghost predicate Consistent(t: Tracker, capacity: int) {
    && Distinct(t.order)
    && (forall j :: j in t.order <==> j in t.m)
    && (capacity > 0 ==> |t.order| <= capacity)
  }

  const Empty: Tracker := Tracker(map[], [])

  predicate Rejects(t: Tracker, jid: Jid, epoch: nat) {
    jid in t.m && epoch <= t.m[jid]
  }

  /** The id a new observation pushes out, if any. */
  function Evicts(t: Tracker, capacity: int, jid: Jid): (r: Option<Jid>) {
    if jid !in t.m && |t.order| >= capacity && capacity > 0 then Some(t.order[0]) else None
  }

  function Observed(t: Tracker, capacity: int, jid: Jid, epoch: nat): (t': Tracker) {
    if Rejects(t, jid, epoch) then t
    else
      var t1 := match Evicts(t, capacity, jid)
        case None => t
        case Some(victim) => Tracker(t.m - {victim}, t.order[1..]);
      Tracker(t1.m[jid := epoch], if jid in t.m then t1.order else t1.order + [jid])
  }

  /** Reading a snapshot back, in whatever order its entries come. */
  function Loaded(disk: map<Jid, nat>, listed: seq<Jid>, capacity: int): (t: Tracker)
    requires forall i :: 0 <= i < |listed| ==> listed[i] in disk
    decreases |listed|
  {
    if listed == [] then Empty
    else
      var n := |listed| - 1;
      var t := Loaded(disk, listed[..n], capacity);
      if |t.order| >= capacity then t
      else Tracker(t.m[listed[n] := disk[listed[n]]],
                   if listed[n] in t.m then t.order else t.order + [listed[n]])
  }

  lemma ObservedConsistent(t: Tracker, capacity: int, jid: Jid, epoch: nat)
    requires Consistent(t, capacity)
    ensures Consistent(Observed(t, capacity, jid, epoch), capacity)
  {
    var t' := Observed(t, capacity, jid, epoch);
    if !Rejects(t, jid, epoch) && jid !in t.m {
      var kept := if Evicts(t, capacity, jid).Some? then t.order[1..] else t.order;
      assert t'.order == kept + [jid];
      forall j ensures j in t'.order <==> j in t'.m {
        if Evicts(t, capacity, jid).Some? {
          assert t.order == [t.order[0]] + kept;
        }
      }
    }
  }

  lemma {:induction false} LoadedConsistent(disk: map<Jid, nat>, listed: seq<Jid>, capacity: int)
    requires forall i :: 0 <= i < |listed| ==> listed[i] in disk
    ensures Consistent(Loaded(disk, listed, capacity), capacity)
    ensures var t := Loaded(disk, listed, capacity); forall j :: j in t.m ==> j in disk && t.m[j] == disk[j]
    decreases |listed|
  {
    if listed != [] {
      LoadedConsistent(disk, listed[..|listed| - 1], capacity);
    }
  }

  /** How many of `n` entries a tracker takes in. */
  function Room(capacity: int, n: nat): (k: nat) {
    if capacity < 0 then 0 else if capacity < n then capacity else n
  }

  /** A reload takes entries in the order they come until the tracker is full, and no others: a
      snapshot that fits is read back whole. */
  lemma {:induction false} LoadedIsPrefix(disk: map<Jid, nat>, listed: seq<Jid>, capacity: int)
    requires Distinct(listed) && forall i :: 0 <= i < |listed| ==> listed[i] in disk
    ensures var t := Loaded(disk, listed, capacity);
      && t.order == listed[..Room(capacity, |listed|)]
      && forall j :: j in t.m <==> j in listed[..Room(capacity, |listed|)]
    decreases |listed|
  {
    if listed != [] {
      var n := |listed| - 1;
      LoadedIsPrefix(disk, listed[..n], capacity);
      PrefixNext(listed, Room(capacity, n));
    }
  }

  lemma PrefixNext(listed: seq<Jid>, k: nat)
    requires listed != [] && Distinct(listed) && k < |listed|
    ensures listed[..|listed| - 1][..k] == listed[..k]
    ensures k == |listed| - 1 ==> listed[k] !in listed[..k] && listed[..k] + [listed[k]] == listed[..|listed|]
  {
  }

  /** The fence itself: an accepted epoch is above everything the id was accepted at before. */
  lemma AcceptedIsNewer(t: Tracker, capacity: int, jid: Jid, epoch: nat)
    requires Consistent(t, capacity) && !Rejects(t, jid, epoch)
    ensures jid in t.m ==> epoch > t.m[jid]
    ensures var t' := Observed(t, capacity, jid, epoch);
      && jid in t'.m && t'.m[jid] == epoch
      && (forall j :: j in t.m && j != jid && Evicts(t, capacity, jid) != Some(j) ==> j in t'.m && t'.m[j] == t.m[j])
  {
  }

  // ----- eviction is oldest-first -----

  datatype Dispatch = Dispatch(jid: Jid, epoch: nat)

  function ObservedFrom(t: Tracker, capacity: int, ds: seq<Dispatch>): (t': Tracker)
    decreases |ds|
  {
    if ds == [] then t
    else Observed(ObservedFrom(t, capacity, ds[..|ds| - 1]), capacity, ds[|ds| - 1].jid, ds[|ds| - 1].epoch)
  }

  function ObservedAll(capacity: int, ds: seq<Dispatch>): (t: Tracker) {
    ObservedFrom(Empty, capacity, ds)
  }

  /** The ids in the order in which they were taken into the tracker. */
  function Entered(capacity: int, ds: seq<Dispatch>): (r: seq<Jid>)
    decreases |ds|
  {
    if ds == [] then []
    else
      var n := |ds| - 1;
      Entered(capacity, ds[..n]) + (if ds[n].jid in ObservedAll(capacity, ds[..n]).m then [] else [ds[n].jid])
  }

  /** The tracker holds the most recently entered ids. */
  ghost predicate IsRecent(t: Tracker, e: seq<Jid>, capacity: int) {
    && |t.order| <= |e| && t.order == e[|e| - |t.order|..]
    && (|t.order| < capacity ==> |t.order| == |e|)
  }

  lemma ObservedRecent(t: Tracker, e: seq<Jid>, capacity: int, jid: Jid, epoch: nat)
    requires capacity > 0 && IsRecent(t, e, capacity) && |t.order| <= capacity
    ensures IsRecent(Observed(t, capacity, jid, epoch), e + (if jid in t.m then [] else [jid]), capacity)
  {
    var t' := Observed(t, capacity, jid, epoch);
    if jid in t.m {
      assert e + [] == e;
    } else {
      var kept := if Evicts(t, capacity, jid).Some? then t.order[1..] else t.order;
      assert t'.order == kept + [jid];
      assert kept == e[|e| - |kept|..];
      assert (e + [jid])[|e| - |kept|..] == e[|e| - |kept|..] + [jid];
    }
  }

  lemma {:induction false} OrderIsRecent(capacity: int, ds: seq<Dispatch>)
    requires capacity > 0
    ensures Consistent(ObservedAll(capacity, ds), capacity)
    ensures IsRecent(ObservedAll(capacity, ds), Entered(capacity, ds), capacity)
    decreases |ds|
  {
    if ds != [] {
      var n := |ds| - 1;
      OrderIsRecent(capacity, ds[..n]);
      ObservedConsistent(ObservedAll(capacity, ds[..n]), capacity, ds[n].jid, ds[n].epoch);
      ObservedRecent(ObservedAll(capacity, ds[..n]), Entered(capacity, ds[..n]), capacity, ds[n].jid, ds[n].epoch);
    }
  }

  lemma VictimIsOldest(t: Tracker, e: seq<Jid>, capacity: int, jid: Jid)
    requires capacity > 0 && Consistent(t, capacity) && IsRecent(t, e, capacity)
    requires Evicts(t, capacity, jid).Some?
    ensures var all := e + [jid];
      |all| > capacity && all[|all| - capacity - 1] == t.order[0] && Distinct([t.order[0]] + all[|all| - capacity..])
  {
    var all := e + [jid];
    assert |t.order| == capacity;
    assert [t.order[0]] + all[|all| - capacity..] == t.order + [jid];
    assert jid !in t.order;
  }

  /** From an empty tracker, an id is pushed out only after as many other distinct ids as the
      tracker holds were taken in after it. */
  lemma EvictionNeedsNewerIds(capacity: int, ds: seq<Dispatch>, d: Dispatch)
    requires capacity > 0 && Evicts(ObservedAll(capacity, ds), capacity, d.jid).Some?
    ensures var victim := Evicts(ObservedAll(capacity, ds), capacity, d.jid).value;
      var e := Entered(capacity, ds + [d]);
      |e| > capacity && e[|e| - capacity - 1] == victim && Distinct([victim] + e[|e| - capacity..])
  {
    OrderIsRecent(capacity, ds);
    EnteredNext(capacity, ds, d);
    VictimIsOldest(ObservedAll(capacity, ds), Entered(capacity, ds), capacity, d.jid);
  }

  lemma EnteredNext(capacity: int, ds: seq<Dispatch>, d: Dispatch)
    requires d.jid !in ObservedAll(capacity, ds).m
    ensures Entered(capacity, ds + [d]) == Entered(capacity, ds) + [d.jid]
  {
    assert (ds + [d])[..|ds|] == ds;
  }

  // ----- the fence across crashes -----

  /** The callback that handles dispatches one at a time: it fences, saves, then lets the job run. */
  datatype Handler =
    | Idle
    | Fenced(d: Dispatch)
    | Saving(d: Dispatch, snapshot: map<Jid, nat>)

  /** `up` is the tracker in memory while the peel runs; `background` is a debounced save in
      progress. `passed` lists the fenced jobs let through, `executed` those started; `seen` are
      all ids ever accepted and `forgotten` those evicted or not reloaded. `unsaved` are the ids
      let through since the last good save although their own save failed, and `lost` those for
      which a crash came in that time. */
  datatype World = World(
    capacity: int,
    disk: map<Jid, nat>,
    up: Option<Tracker>,
    background: Option<map<Jid, nat>>,
    handler: Handler,
    pending: multiset<Dispatch>,
    executed: multiset<Dispatch>,
    passed: seq<Dispatch>,
    seen: set<Jid>,
    forgotten: set<Jid>,
    unsaved: set<Jid>,
    lost: set<Jid>)

  datatype Step =
    | Receive(d: Dispatch)
    | BeginSave
    | EndSave(good: bool)
    | BeginBackgroundSave
    | EndBackgroundSave(good: bool)
    | Execute(d: Dispatch)
    | Crash
    | Restart(listed: seq<Jid>)

  function Init(capacity: int): (w: World) {
    World(capacity, map[], Some(Empty), None, Idle, multiset{}, multiset{}, [], {}, {}, {}, {})
  }

  /** Saves never overlap, and a restart reads every entry of the snapshot once. */
  ghost predicate Enabled(w: World, s: Step) {
    match s
    case Receive(d) => w.up.Some? && w.handler.Idle? && d.epoch > 0
    case BeginSave => w.up.Some? && w.handler.Fenced? && w.background.None?
    case EndSave(_) => w.up.Some? && w.handler.Saving?
    case BeginBackgroundSave => w.up.Some? && !w.handler.Saving? && w.background.None?
    case EndBackgroundSave(_) => w.up.Some? && w.background.Some?
    case Execute(d) => w.up.Some? && d in w.pending
    case Crash => w.up.Some?
    case Restart(listed) => w.up.None? && Distinct(listed) && forall j :: j in listed <==> j in w.disk
  }

  function Receives(w: World, d: Dispatch): (w': World)
    requires w.up.Some?
  {
    var t := w.up.value;
    if Rejects(t, d.jid, d.epoch) then w
    else
      w.(up := Some(Observed(t, w.capacity, d.jid, d.epoch)), handler := Fenced(d), seen := w.seen + {d.jid},
         forgotten := match Evicts(t, w.capacity, d.jid)
           case None => w.forgotten
           case Some(j) => w.forgotten + {j})
  }

  function LetThrough(w: World, d: Dispatch): (w': World) {
    w.(handler := Idle, pending := w.pending + multiset{d}, passed := w.passed + [d])
  }

  function Restarts(w: World, listed: seq<Jid>): (w': World)
    requires forall i :: 0 <= i < |listed| ==> listed[i] in w.disk
  {
    var t := Loaded(w.disk, listed, w.capacity);
    w.(up := Some(t), forgotten := w.forgotten + (w.disk.Keys - t.m.Keys))
  }

  ghost function Apply(w: World, s: Step): (w': World)
    requires Enabled(w, s)
  {
    match s
    case Receive(d) => Receives(w, d)
    case BeginSave => w.(handler := Saving(w.handler.d, w.up.value.m))
    case EndSave(good) =>
      LetThrough(if good then w.(disk := w.handler.snapshot, unsaved := {})
                 else w.(unsaved := w.unsaved + {w.handler.d.jid}), w.handler.d)
    case BeginBackgroundSave => w.(background := Some(w.up.value.m))
    case EndBackgroundSave(good) =>
      (if good then w.(disk := w.background.value, unsaved := {}) else w).(background := None)
    case Execute(d) => w.(pending := w.pending - multiset{d}, executed := w.executed + multiset{d})
    case Crash =>
      w.(up := None, background := None, handler := Idle, pending := multiset{},
         unsaved := {}, lost := w.lost + w.unsaved)
    case Restart(listed) => Restarts(w, listed)
  }

  ghost predicate IsRun(ws: seq<World>, steps: seq<Step>, capacity: int) {
    IsRunFrom(Init(capacity), ws, steps)
  }

  ghost predicate IsRunFrom(w: World, ws: seq<World>, steps: seq<Step>) {
    && |ws| == |steps| + 1
    && ws[0] == w
    && forall i {:trigger steps[i]} :: 0 <= i < |steps| ==>
         Enabled(ws[i], steps[i]) && ws[i + 1] == Apply(ws[i], steps[i])
  }

  // ----- the invariant -----

  /** The ids whose fence is gone: evicted, or not on disk when a crash came. */
  function Gaps(w: World): (js: set<Jid>) {
    w.forgotten + w.lost
  }

  /** The map fences every job that was let through, apart from the excused ids. */
  ghost predicate Covers(m: map<Jid, nat>, passed: seq<Dispatch>, excused: set<Jid>) {
    forall i :: 0 <= i < |passed| && passed[i].jid !in excused ==>
      passed[i].jid in m && passed[i].epoch <= m[passed[i].jid]
  }

  /** Epochs let through per id rise strictly, apart from the excused ids. */
  ghost predicate Rising(passed: seq<Dispatch>, excused: set<Jid>) {
    forall i, j :: 0 <= i < j < |passed| && passed[i].jid == passed[j].jid && passed[i].jid !in excused ==>
      passed[i].epoch < passed[j].epoch
  }

  /** The dispatch being saved is above everything let through for its id, and in the snapshot. */
  ghost predicate HandlerOk(w: World) {
    match w.handler
    case Idle => true
    case Fenced(d) =>
      AboveAll(w, d) && w.up.Some? && d.jid in w.up.value.m && w.up.value.m[d.jid] == d.epoch
    case Saving(d, snap) =>
      && AboveAll(w, d) && Covers(snap, w.passed, Gaps(w)) && d.jid in snap && snap[d.jid] == d.epoch
      && w.up.Some? && d.jid in w.up.value.m && w.up.value.m[d.jid] == d.epoch && w.background.None?
  }

  ghost predicate AboveAll(w: World, d: Dispatch) {
    d.jid !in Gaps(w) ==>
      forall i :: 0 <= i < |w.passed| && w.passed[i].jid == d.jid ==> w.passed[i].epoch < d.epoch
  }

  ghost predicate Inv(w: World) {
    && (w.up.Some? ==> Consistent(w.up.value, w.capacity) && Covers(w.up.value.m, w.passed, Gaps(w)))
    && (w.up.None? ==> w.unsaved == {})
    && Covers(w.disk, w.passed, Gaps(w) + w.unsaved)
    && (w.background.Some? ==> w.up.Some? && Covers(w.background.value, w.passed, Gaps(w)))
    && Rising(w.passed, Gaps(w))
    && HandlerOk(w)
    && w.pending + w.executed <= multiset(w.passed)
    && (w.handler.Idle? || w.handler.d.epoch > 0)
    && (forall i :: 0 <= i < |w.passed| ==> w.passed[i].epoch > 0)
  }

  lemma ReceiveKeeps(w: World, d: Dispatch)
    requires Inv(w) && Enabled(w, Receive(d))
    ensures Inv(Receives(w, d))
  {
    var t := w.up.value;
    if !Rejects(t, d.jid, d.epoch) {
      ObservedConsistent(t, w.capacity, d.jid, d.epoch);
      ReceiveCovers(w, d);
      ReceiveFences(w, d);
    }
  }

  /** The accepted dispatch is above all earlier ones of its id. */
  lemma ReceiveFences(w: World, d: Dispatch)
    requires Inv(w) && Enabled(w, Receive(d)) && !Rejects(w.up.value, d.jid, d.epoch)
    ensures HandlerOk(Receives(w, d))
  {
    AcceptedIsNewer(w.up.value, w.capacity, d.jid, d.epoch);
  }

  lemma ReceiveCovers(w: World, d: Dispatch)
    requires Inv(w) && Enabled(w, Receive(d)) && !Rejects(w.up.value, d.jid, d.epoch)
    ensures var w' := Receives(w, d); Covers(w'.up.value.m, w'.passed, Gaps(w'))
  {
    AcceptedIsNewer(w.up.value, w.capacity, d.jid, d.epoch);
  }

  lemma LetThroughKeeps(w: World, d: Dispatch)
    requires Inv(w) && AboveAll(w, d) && w.handler.Idle? && d.epoch > 0
    requires w.up.Some? && d.jid in w.up.value.m && d.epoch <= w.up.value.m[d.jid]
    requires (d.jid in w.disk && d.epoch <= w.disk[d.jid]) || d.jid in w.unsaved
    requires w.background.None?
    ensures Inv(LetThrough(w, d))
  {
    assert multiset(w.passed + [d]) == multiset(w.passed) + multiset{d};
  }

  lemma SaveKeeps(w: World, good: bool)
    requires Inv(w) && Enabled(w, EndSave(good))
    ensures Inv(Apply(w, EndSave(good)))
  {
    var d := w.handler.d;
    var saved := if good then w.(disk := w.handler.snapshot, handler := Idle, unsaved := {})
                 else w.(handler := Idle, unsaved := w.unsaved + {d.jid});
    assert Inv(saved);
    LetThroughKeeps(saved, d);
    assert Apply(w, EndSave(good)) == LetThrough(saved, d);
  }

  lemma RestartKeeps(w: World, listed: seq<Jid>)
    requires Inv(w) && Enabled(w, Restart(listed))
    ensures (forall i :: 0 <= i < |listed| ==> listed[i] in listed) && Inv(Restarts(w, listed))
  {
    assert forall i :: 0 <= i < |listed| ==> listed[i] in listed;
    LoadedConsistent(w.disk, listed, w.capacity);
    var w' := Restarts(w, listed);
    forall i | 0 <= i < |w.passed| && w.passed[i].jid !in Gaps(w')
      ensures w.passed[i].jid in w'.up.value.m && w.passed[i].epoch <= w'.up.value.m[w.passed[i].jid]
    {
      assert w.passed[i].jid in w.disk;
    }
  }

  lemma StepKeeps(w: World, s: Step)
    requires Inv(w) && Enabled(w, s)
    ensures Inv(Apply(w, s))
  {
    match s
    case Receive(d) => ReceiveKeeps(w, d);
    case EndSave(good) => SaveKeeps(w, good);
    case Restart(listed) => RestartKeeps(w, listed);
    case Crash => CrashKeeps(w);
    case Execute(d) => ExecuteKeeps(w, d);
    case BeginSave => BeginSaveKeeps(w);
    case _ => BackgroundKeeps(w, s);
  }

  lemma CrashKeeps(w: World)
    requires Inv(w) && Enabled(w, Crash)
    ensures Inv(Apply(w, Crash))
  {
  }

  lemma ExecuteKeeps(w: World, d: Dispatch)
    requires Inv(w) && Enabled(w, Execute(d))
    ensures Inv(Apply(w, Execute(d)))
  {
  }

  lemma BeginSaveKeeps(w: World)
    requires Inv(w) && Enabled(w, BeginSave)
    ensures Inv(Apply(w, BeginSave))
  {
  }

  lemma BackgroundKeeps(w: World, s: Step)
    requires Inv(w) && Enabled(w, s) && (s.BeginBackgroundSave? || s.EndBackgroundSave?)
    ensures Inv(Apply(w, s))
  {
  }

  lemma {:induction false} RunKeeps(ws: seq<World>, steps: seq<Step>, capacity: int, i: nat)
    requires IsRun(ws, steps, capacity) && i < |ws|
    ensures Inv(ws[i])
    decreases i
  {
    if i > 0 {
      RunKeeps(ws, steps, capacity, i - 1);
      StepKeeps(ws[i - 1], steps[i - 1]);
    }
  }

  // ----- the theorems -----

  /** Distinct entries occur once. */
  lemma {:induction false} OccursOnce(passed: seq<Dispatch>, forgotten: set<Jid>, d: Dispatch)
    requires Rising(passed, forgotten) && d.jid !in forgotten
    ensures multiset(passed)[d] <= 1
    decreases |passed|
  {
    if passed != [] {
      var n := |passed| - 1;
      assert passed == passed[..n] + [passed[n]];
      OccursOnce(passed[..n], forgotten, d);
      if passed[n] == d {
        assert d !in passed[..n];
      }
    }
  }

  /** Through any crashes, restarts and failed saves: no dispatch of a job id is executed twice, and
      the epochs let through for it rise strictly, unless the id was evicted or a crash came between
      its failed save and the next good one. */
  lemma NoJobRunsTwice(ws: seq<World>, steps: seq<Step>, capacity: int, i: nat, d: Dispatch)
    requires IsRun(ws, steps, capacity) && i < |ws| && d.jid !in Gaps(ws[i])
    ensures ws[i].executed[d] <= 1
    ensures Rising(ws[i].passed, Gaps(ws[i]))
  {
    RunKeeps(ws, steps, capacity, i);
    OccursOnce(ws[i].passed, Gaps(ws[i]), d);
    assert ws[i].executed[d] <= (ws[i].pending + ws[i].executed)[d] <= multiset(ws[i].passed)[d];
  }

  /** Failed background saves do no harm: as long as the saves before letting a job through succeed,
      no crash loses a fence. */
  lemma {:induction false} GoodSavesLoseNothing(ws: seq<World>, steps: seq<Step>, capacity: int, i: nat)
    requires IsRun(ws, steps, capacity) && i < |ws|
    requires forall k :: 0 <= k < i && steps[k].EndSave? ==> steps[k].good
    ensures ws[i].unsaved == {} && ws[i].lost == {}
    decreases i
  {
    if i > 0 {
      GoodSavesLoseNothing(ws, steps, capacity, i - 1);
      var s := steps[i - 1];
      assert Enabled(ws[i - 1], s) && ws[i] == Apply(ws[i - 1], s) && (s.EndSave? ==> s.good);
      StepLosesNothing(ws[i - 1], s);
    }
  }

  lemma StepLosesNothing(w: World, s: Step)
    requires Enabled(w, s) && w.unsaved == {} && w.lost == {} && (s.EndSave? ==> s.good)
    ensures Apply(w, s).unsaved == {} && Apply(w, s).lost == {}
  {
  }

  // ----- both exceptions are real -----

  ghost predicate LeadsTo(w: World, w': World) {
    exists ws, steps :: IsRunFrom(w, ws, steps) && ws[|steps|] == w'
  }

  lemma StayHere(w: World)
    ensures LeadsTo(w, w)
  {
    assert IsRunFrom(w, [w], []);
  }

  lemma StepOn(w0: World, w: World, s: Step)
    requires LeadsTo(w0, w) && Enabled(w, s)
    ensures LeadsTo(w0, Apply(w, s))
  {
    var ws, steps :| IsRunFrom(w0, ws, steps) && ws[|steps|] == w;
    var next := Apply(w, s);
    var ws', steps' := ws + [next], steps + [s];
    forall i | 0 <= i < |steps'| ensures Enabled(ws'[i], steps'[i]) && ws'[i + 1] == Apply(ws'[i], steps'[i]) {
      assert ws'[i] == ws[i];
      if i < |steps| {
        assert steps'[i] == steps[i] && ws'[i + 1] == ws[i + 1];
      }
    }
    assert IsRunFrom(w0, ws', steps') && ws'[|steps'|] == next;
  }

  /** Running, with neither a dispatch nor a save under way. */
  ghost predicate IsResting(w: World) {
    w.up.Some? && w.handler.Idle? && w.background.None?
  }

  /** One dispatch from its arrival to its execution. */
  function Served(w: World, d: Dispatch, good: bool): (w': World)
    requires w.up.Some?
  {
    var r := Receives(w, d);
    r.(handler := Idle, passed := w.passed + [d], executed := w.executed + multiset{d},
       disk := if good && r.up.Some? then r.up.value.m else w.disk,
       unsaved := if good then {} else w.unsaved + {d.jid})
  }

  lemma Serve(w0: World, w: World, d: Dispatch, good: bool)
    requires LeadsTo(w0, w) && IsResting(w) && d.epoch > 0 && !Rejects(w.up.value, d.jid, d.epoch)
    ensures LeadsTo(w0, Served(w, d, good)) && IsResting(Served(w, d, good))
  {
    var w1 := Apply(w, Receive(d));
    StepOn(w0, w, Receive(d));
    var w2 := Apply(w1, BeginSave);
    StepOn(w0, w1, BeginSave);
    var w3 := Apply(w2, EndSave(good));
    StepOn(w0, w2, EndSave(good));
    StepOn(w0, w3, Execute(d));
    assert w3.pending - multiset{d} == w.pending;
    assert Apply(w3, Execute(d)) == Served(w, d, good);
  }

  /** The entries of a snapshot in some order. */
  lemma Listing(js: set<Jid>) returns (listed: seq<Jid>)
    ensures Distinct(listed) && forall j :: j in listed <==> j in js
  {
    listed := [];
    var todo := js;
    while todo != {}
      invariant todo <= js && Distinct(listed)
      invariant forall j :: j in listed <==> j in js && j !in todo
      decreases todo
    {
      var j :| j in todo;
      listed := listed + [j];
      todo := todo - {j};
    }
  }

  /** A job that was let through while its fence is not on disk: crash, restart and redelivery
      execute it once more. */
  lemma CrashBeforeSaveRepeats(capacity: int, w: World, d: Dispatch) returns (w': World)
    requires LeadsTo(Init(capacity), w) && w.up.Some? && d in w.passed
    requires d.jid in w.disk ==> w.disk[d.jid] < d.epoch
    ensures LeadsTo(w, w') && w'.executed[d] == w.executed[d] + 1
    ensures w.disk == map[] ==> w'.forgotten == w.forgotten
  {
    assert d.epoch > 0 by {
      ReachedInv(capacity, w);
    }
    var again := ComeBack(w);
    Serve(w, again, d, true);
    w' := Served(again, d, true);
  }

  /** A crash and a restart: the tracker holds nothing that is not on disk. */
  lemma ComeBack(w: World) returns (w': World)
    requires w.up.Some?
    ensures LeadsTo(w, w') && IsResting(w') && w'.executed == w.executed
    ensures forall j :: j in w'.up.value.m ==> j in w.disk && w'.up.value.m[j] == w.disk[j]
    ensures w.disk == map[] ==> w'.forgotten == w.forgotten && w'.up.value == Empty
  {
    StayHere(w);
    var down := Apply(w, Crash);
    StepOn(w, w, Crash);
    var listed := Listing(w.disk.Keys);
    Reloads(down, listed);
    w' := Apply(down, Restart(listed));
    StepOn(w, down, Restart(listed));
  }

  lemma Reloads(w: World, listed: seq<Jid>)
    requires Enabled(w, Restart(listed)) && w.handler.Idle? && w.background.None?
    ensures var w' := Apply(w, Restart(listed));
      && IsResting(w') && w'.executed == w.executed
      && (forall j :: j in w'.up.value.m ==> j in w.disk && w'.up.value.m[j] == w.disk[j])
      && (w.disk == map[] ==> w'.forgotten == w.forgotten && w'.up.value == Empty)
  {
    assert forall i :: 0 <= i < |listed| ==> listed[i] in listed;
    LoadedConsistent(w.disk, listed, w.capacity);
    assert listed != [] ==> listed[0] in listed && listed[0] in w.disk;
  }

  lemma ReachedInv(capacity: int, w: World)
    requires LeadsTo(Init(capacity), w)
    ensures Inv(w)
  {
    var ws, steps :| IsRunFrom(Init(capacity), ws, steps) && ws[|steps|] == w;
    RunKeeps(ws, steps, capacity, |steps|);
  }

  /** A job that was let through and whose id is not in the tracker any more: redelivery executes it
      once more. */
  lemma EvictionRepeats(capacity: int, w: World, d: Dispatch) returns (w': World)
    requires LeadsTo(Init(capacity), w) && IsResting(w) && d in w.passed && d.jid !in w.up.value.m
    ensures LeadsTo(w, w') && w'.executed[d] == w.executed[d] + 1 && w'.lost == w.lost
  {
    ReachedInv(capacity, w);
    StayHere(w);
    Serve(w, w, d, true);
    w' := Served(w, d, true);
  }

  lemma {:induction false} Continues(a: World, b: World, ws: seq<World>, steps: seq<Step>, i: nat)
    requires LeadsTo(a, b) && IsRunFrom(b, ws, steps) && i < |ws|
    ensures LeadsTo(a, ws[i])
    decreases i
  {
    if i > 0 {
      Continues(a, b, ws, steps, i - 1);
      assert Enabled(ws[i - 1], steps[i - 1]);
      StepOn(a, ws[i - 1], steps[i - 1]);
    }
  }

  lemma Joined(a: World, b: World, c: World)
    requires LeadsTo(a, b) && LeadsTo(b, c)
    ensures LeadsTo(a, c)
  {
    var ws, steps :| IsRunFrom(b, ws, steps) && ws[|steps|] == c;
    Continues(a, b, ws, steps, |steps|);
  }

  /** A run without any eviction in which a save fails, the daemon crashes, and the same dispatch
      executes twice. */
  lemma TwiceAfterFailedSave(capacity: int, d: Dispatch) returns (w: World)
    requires d.epoch > 0
    ensures LeadsTo(Init(capacity), w) && w.executed[d] == 2 && w.forgotten == {}
  {
    var w0 := Init(capacity);
    StayHere(w0);
    Serve(w0, w0, d, false);
    var once := Served(w0, d, false);
    w := CrashBeforeSaveRepeats(capacity, once, d);
    Joined(w0, once, w);
  }

  /** The `j`-th of the ids that crowd out `jid`. */
  function Newcomer(jid: Jid, j: nat): (r: Jid)
    ensures |r| == |jid| + 1 + j
  {
    seq(|jid| + 1 + j, _ => 'n')
  }

  /** The tracker holds `jid` as its oldest id and `j` newcomers. */
  ghost predicate Crowded(w: World, d: Dispatch, j: nat) {
    && IsResting(w) && d in w.passed && w.executed[d] == 1 && w.lost == {}
    && |w.up.value.order| == j + 1 && w.up.value.order[0] == d.jid
    && Consistent(w.up.value, w.capacity)
    && forall x :: x in w.up.value.m ==> |x| <= |d.jid| + j
  }

  lemma Crowds(w: World, d: Dispatch, j: nat)
    requires Crowded(w, d, j) && j + 1 < w.capacity
    ensures Crowded(Served(w, Dispatch(Newcomer(d.jid, j), 1), true), d, j + 1)
    ensures Served(w, Dispatch(Newcomer(d.jid, j), 1), true).capacity == w.capacity
  {
    ObservedConsistent(w.up.value, w.capacity, Newcomer(d.jid, j), 1);
  }

  lemma {:induction false} Crowd(capacity: int, d: Dispatch, j: nat) returns (w: World)
    requires d.epoch > 0 && j < capacity
    ensures LeadsTo(Init(capacity), w) && Crowded(w, d, j) && w.capacity == capacity
    decreases j
  {
    if j == 0 {
      w := FirstIn(capacity, d);
    } else {
      var v := Crowd(capacity, d, j - 1);
      var next := Dispatch(Newcomer(d.jid, j - 1), 1);
      assert next.jid !in v.up.value.m;
      Serve(Init(capacity), v, next, true);
      Crowds(v, d, j - 1);
      w := Served(v, next, true);
    }
  }

  lemma FirstIn(capacity: int, d: Dispatch) returns (w: World)
    requires d.epoch > 0 && capacity > 0
    ensures LeadsTo(Init(capacity), w) && Crowded(w, d, 0) && w.capacity == capacity
  {
    var w0 := Init(capacity);
    StayHere(w0);
    Serve(w0, w0, d, true);
    w := Served(w0, d, true);
    assert w.passed == [d];
  }

  /** A run in which no crash loses a fence, newer ids push the job's id out of the tracker, and the
      same dispatch executes twice. */
  lemma TwiceAfterEviction(capacity: int, d: Dispatch) returns (w: World)
    requires d.epoch > 0 && capacity > 0
    ensures LeadsTo(Init(capacity), w) && w.executed[d] == 2 && w.lost == {}
  {
    var full := Crowd(capacity, d, capacity - 1);
    var last := Dispatch(Newcomer(d.jid, capacity - 1), 1);
    Serve(Init(capacity), full, last, true);
    var w1 := Served(full, last, true);
    w := EvictionRepeats(capacity, w1, d);
    Joined(Init(capacity), w1, w);
  }

  // ----- within capacity nothing is forgotten -----

  lemma {:induction false} DistinctSize(xs: seq<Jid>, s: set<Jid>)
    requires Distinct(xs) && forall x :: x in xs <==> x in s
    ensures |s| == |xs|
    decreases |xs|
  {
    if xs != [] {
      var n := |xs| - 1;
      assert xs == xs[..n] + [xs[n]];
      DistinctSize(xs[..n], s - {xs[n]});
    } else {
      assert s == {};
    }
  }

  lemma SubsetSize(a: set<Jid>, b: set<Jid>)
    requires a <= b
    ensures |a| <= |b|
  {
    assert b == a + (b - a);
  }

  /** Something is forgotten only once more ids were seen than the tracker can hold. */
  ghost predicate Sized(w: World) {
    && (w.up.Some? ==> Consistent(w.up.value, w.capacity) && w.up.value.m.Keys <= w.seen)
    && w.disk.Keys <= w.seen
    && (w.background.Some? ==> w.background.value.Keys <= w.seen)
    && (w.handler.Saving? ==> w.handler.snapshot.Keys <= w.seen)
    && (w.forgotten != {} ==> |w.seen| > w.capacity)
  }

  lemma ReceiveSized(w: World, d: Dispatch)
    requires w.capacity > 0 && Sized(w) && w.up.Some? && w.handler.Idle?
    ensures Sized(Receives(w, d))
  {
    var t := w.up.value;
    if !Rejects(t, d.jid, d.epoch) {
      ObservedConsistent(t, w.capacity, d.jid, d.epoch);
      SubsetSize(w.seen, w.seen + {d.jid});
      if Evicts(t, w.capacity, d.jid).Some? {
        DistinctSize(t.order, t.m.Keys);
        assert t.m.Keys !! {d.jid};
        assert |t.m.Keys + {d.jid}| == |t.m.Keys| + 1;
        SubsetSize(t.m.Keys + {d.jid}, w.seen + {d.jid});
      }
    }
  }

  lemma RestartSized(w: World, listed: seq<Jid>)
    requires w.capacity > 0 && Sized(w) && Enabled(w, Restart(listed))
    ensures (forall i :: 0 <= i < |listed| ==> listed[i] in listed) && Sized(Restarts(w, listed))
  {
    assert forall i :: 0 <= i < |listed| ==> listed[i] in listed;
    LoadedConsistent(w.disk, listed, w.capacity);
    DistinctSize(listed, w.disk.Keys);
    SubsetSize(w.disk.Keys, w.seen);
    if |w.seen| <= w.capacity {
      LoadedIsPrefix(w.disk, listed, w.capacity);
      assert listed[..|listed|] == listed;
    }
  }

  lemma {:induction false} RunSized(ws: seq<World>, steps: seq<Step>, capacity: int, i: nat)
    requires capacity > 0 && IsRun(ws, steps, capacity) && i < |ws|
    ensures ws[i].capacity == capacity && Sized(ws[i])
    decreases i
  {
    if i > 0 {
      RunSized(ws, steps, capacity, i - 1);
      var s := steps[i - 1];
      assert Enabled(ws[i - 1], s) && ws[i] == Apply(ws[i - 1], s);
      StepSized(ws[i - 1], s);
    }
  }

  lemma StepSized(w: World, s: Step)
    requires w.capacity > 0 && Sized(w) && Enabled(w, s)
    ensures Apply(w, s).capacity == w.capacity && Sized(Apply(w, s))
  {
    match s
    case Receive(d) => ReceiveSized(w, d);
    case Restart(listed) => RestartSized(w, listed);
    case _ =>
  }

  /** While no more job ids were seen than the tracker holds, only a crash before a save lets a
      dispatch run twice. */
  lemma NoJobRunsTwiceWithinCapacity(ws: seq<World>, steps: seq<Step>, capacity: int, i: nat, d: Dispatch)
    requires capacity > 0 && IsRun(ws, steps, capacity) && i < |ws| && d.jid !in ws[i].lost
    requires |ws[i].seen| <= capacity
    ensures ws[i].executed[d] <= 1
  {
    RunSized(ws, steps, capacity, i);
    NoJobRunsTwice(ws, steps, capacity, i, d);
  }

  // ----- the tracker as the peel runs it -----

  class DedupTracker {
    const capacity: int
    const persistent: bool
    var m: map<Jid, nat>
    var order: seq<Jid>
    var armed: bool
    var disk: map<Jid, nat>

    ghost function View(): (t: Tracker)
      reads this
    {
      Tracker(m, order)
    }

    ghost predicate Valid()
      reads this
    {
      Consistent(View(), capacity)
    }

    /** A new process over an existing snapshot file. */
    constructor (capacity: int, persistent: bool, disk: map<Jid, nat>)
      ensures Valid() && View() == Empty && !armed && this.disk == disk
      ensures this.capacity == capacity && this.persistent == persistent
    {
      this.capacity := capacity;
      this.persistent := persistent;
      this.disk := disk;
      m, order, armed := map[], [], false;
    }

    method Load(listed: seq<Jid>)
      requires Valid() && View() == Empty
      requires forall i :: 0 <= i < |listed| ==> listed[i] in disk
      modifies this`m, this`order
      ensures Valid() && View() == if persistent then Loaded(disk, listed, capacity) else Empty
      ensures persistent && Distinct(listed) ==>
        order == listed[..Room(capacity, |listed|)] && forall j :: j in order ==> j in m && m[j] == disk[j]
    {
      if persistent {
        Seed(listed);
        LoadedConsistent(disk, listed, capacity);
        if Distinct(listed) {
          LoadedIsPrefix(disk, listed, capacity);
        }
      }
    }

    /** The loop over the entries read. */
    method Seed(listed: seq<Jid>)
      requires View() == Empty
      requires forall i :: 0 <= i < |listed| ==> listed[i] in disk
      modifies this`m, this`order
      ensures View() == Loaded(disk, listed, capacity)
    {
      var i := 0;
      while i < |listed|
        invariant 0 <= i <= |listed|
        invariant View() == Loaded(disk, listed[..i], capacity)
      {
        if |order| >= capacity {
          break;
        }
        assert listed[..i + 1][..i] == listed[..i];
        if listed[i] !in m {
          order := order + [listed[i]];
        }
        m := m[listed[i] := disk[listed[i]]];
        i := i + 1;
      }
      if i < |listed| {
        FullStaysFull(disk, listed, i, capacity);
      } else {
        assert listed[..i] == listed;
      }
    }

    method Observe(jid: Jid, epoch: nat) returns (prev: nat, rejected: bool)
      requires Valid()
      modifies this`m, this`order, this`armed
      ensures Valid() && View() == Observed(old(View()), capacity, jid, epoch)
      ensures rejected <==> jid in old(m) && epoch <= old(m)[jid]
      ensures rejected ==> m == old(m) && order == old(order)
      ensures !rejected ==>
        && var full := jid !in old(m) && 0 < capacity <= |old(order)|;
        && m == (if full then old(m) - {old(order)[0]} else old(m))[jid := epoch]
        && order == (if full then old(order)[1..] else old(order)) + (if jid in old(m) then [] else [jid])
      ensures prev == if jid in old(m) then old(m)[jid] else 0
      ensures armed == (old(armed) || (!rejected && persistent))
    {
      ObservedConsistent(View(), capacity, jid, epoch);
      var seen := jid in m;
      prev := 0;
      if seen {
        prev := m[jid];
      }
      if seen && epoch <= prev {
        return prev, true;
      }
      if !seen {
        if |order| >= capacity && capacity > 0 {
          var evict := order[0];
          order := order[1..];
          m := m - {evict};
        }
        order := order + [jid];
      }
      m := m[jid := epoch];
      armed := armed || persistent;
      rejected := false;
    }

    /** `good` says whether the atomic file write succeeds. */
    method Flush(good: bool) returns (ok: bool)
      modifies this`armed, this`disk
      ensures !armed && ok == (good || !persistent)
      ensures disk == if persistent && good then m else old(disk)
    {
      armed := false;
      if !persistent {
        return true;
      }
      if good {
        disk := m;
      }
      ok := good;
    }

    /** When an accepted dispatch returns and the save went well, the snapshot already fences it. */
    method ObserveDurable(jid: Jid, epoch: nat, good: bool) returns (prev: nat, rejected: bool)
      requires Valid()
      modifies this`m, this`order, this`armed, this`disk
      ensures Valid() && View() == Observed(old(View()), capacity, jid, epoch)
      ensures rejected <==> jid in old(m) && epoch <= old(m)[jid]
      ensures disk == if !rejected && persistent && good then m else old(disk)
      ensures !rejected && persistent && good ==> jid in disk && disk[jid] == epoch && !armed
      ensures !rejected && persistent && !good ==> armed
    {
      prev, rejected := Observe(jid, epoch);
      if rejected {
        return;
      }
      var ok := Flush(good);
      if !ok {
        armed := true;
      }
    }
  }

  lemma {:induction false} FullStaysFull(disk: map<Jid, nat>, listed: seq<Jid>, i: nat, capacity: int)
    requires i <= |listed| && forall k :: 0 <= k < |listed| ==> listed[k] in disk
    requires |Loaded(disk, listed[..i], capacity).order| >= capacity
    ensures Loaded(disk, listed, capacity) == Loaded(disk, listed[..i], capacity)
    decreases |listed|
  {
    if i == |listed| {
      assert listed[..i] == listed;
    } else {
      var n := |listed| - 1;
      assert listed[..n][..i] == listed[..i];
      FullStaysFull(disk, listed[..n], i, capacity);
    }
  }
}
