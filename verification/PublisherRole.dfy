/** One master switching between publishing and standing by. The lease goroutine sets and
    clears the leader flag and runs the callbacks; each acquisition has a publish goroutine;
    each standby timer has one too. Every step below is what one goroutine does between two
    points where another can run; what happens under a mutex is one step, except that the
    standby start is split between its leadership check and its body. */
module PublisherRole {
  import opened KeyValue
  import opened FileMirrors

  type Acq = nat
  type Timer = nat

  /** The lease goroutine: between the flag changes it walks through the callbacks. */
  datatype LeasePc =
    | Idle
    | FlagSet                // OnAcquired about to run
    | CtxMade(acq: Acq)      // sub-context made, not yet installed
    | Installed(acq: Acq)    // installed, publish goroutine about to start
    | Leading
    | FlagCleared            // OnLost about to run
    | Rearming               // context cancelled, standby timer about to be armed

  datatype TimerPc = Ticking | Fired | Checked | Done

  datatype World = World(
    leader: bool,
    lease: LeasePc,
    pubCancel: Option<Acq>,
    uncancelled: set<Acq>,
    nextAcq: Acq,
    runners: set<Acq>,
    timers: map<Timer, TimerPc>,
    lock: Option<Timer>,
    mirrors: Mirrors,
    sets: nat,
    shutdown: bool)

  datatype Step =
    | Lease
    | Runner(acq: Acq)
    | Tick(timer: Timer)
    | Shutdown

  function Init(sets: nat): (w: World) {
    World(false, Idle, None, {}, 0, {}, map[0 := Ticking], None,
          Mirrors(false, [], None, {}, 0), sets, false)
  }

  function Cancelled(w: World): (u: set<Acq>) {
    if w.pubCancel.Some? then w.uncancelled - {w.pubCancel.value} else w.uncancelled
  }

  /** The lease goroutine: acquire, OnAcquired, hold, lose, OnLost. */
  function LeaseStep(w: World): (w': World) {
    match w.lease
    case Idle => w.(leader := true, lease := FlagSet)
    case FlagSet =>
      w.(lease := CtxMade(w.nextAcq), nextAcq := w.nextAcq + 1,
         uncancelled := if w.shutdown then w.uncancelled else w.uncancelled + {w.nextAcq})
    case CtxMade(a) => w.(lease := Installed(a), uncancelled := Cancelled(w), pubCancel := Some(a))
    case Installed(a) => w.(lease := Leading, runners := w.runners + {a})
    case Leading => w.(leader := false, lease := FlagCleared)
    case FlagCleared => w.(lease := Rearming, uncancelled := Cancelled(w), pubCancel := None)
    case Rearming => w.(lease := Idle, timers := w.timers[|w.timers| := Ticking])
  }

  /** The first thing a publish goroutine does: stop the mirrors, as soon as the lock is free. */
  function RunnerStep(w: World, a: Acq): (w': World) {
    if a !in w.runners || w.lock.Some? then w
    else w.(runners := w.runners - {a}, mirrors := StoppedSet(w.mirrors))
  }

  /** A standby timer: fire, check without the lock, take the lock and check again, start. */
  function TimerStep(w: World, t: Timer): (w': World) {
    if t !in w.timers then w
    else
      match w.timers[t]
      case Ticking => w.(timers := w.timers[t := if w.shutdown then Done else Fired])
      case Fired => w.(timers := w.timers[t := if w.shutdown || w.leader then Done else Checked])
      case Checked =>
        if w.lock.None? then
          if w.shutdown || w.leader then w.(timers := w.timers[t := Done])
          else w.(lock := Some(t))
        else if w.lock == Some(t) then
          w.(mirrors := Started(w.mirrors, w.sets, w.shutdown), lock := None, timers := w.timers[t := Done])
        else w
      case Done => w
  }

  function Apply(w: World, s: Step): (w': World) {
    match s
    case Lease => LeaseStep(w)
    case Runner(a) => RunnerStep(w, a)
    case Tick(t) => TimerStep(w, t)
    case Shutdown => w.(shutdown := true, uncancelled := {}, mirrors := w.mirrors.(live := {}))
  }

  function RunFrom(w: World, steps: seq<Step>): (w': World)
    decreases |steps|
  {
    if steps == [] then w else Apply(RunFrom(w, steps[..|steps| - 1]), steps[|steps| - 1])
  }

  // ----- the invariant -----

  /** The flag is up exactly between the two flag changes of the lease goroutine. */
  ghost predicate FlagOk(w: World) {
    w.leader <==> !(w.lease.Idle? || w.lease.FlagCleared? || w.lease.Rearming?)
  }

  /** Which acquisition context can be uncancelled, and who can cancel it. */
  ghost predicate ContextsOk(w: World) {
    match w.lease
    case Idle => w.pubCancel.None? && w.uncancelled == {}
    case FlagSet => w.pubCancel.None? && w.uncancelled == {}
    case CtxMade(a) => w.pubCancel.None? && w.uncancelled <= {a}
    case Installed(a) => w.pubCancel == Some(a) && w.uncancelled <= {a}
    case Leading => w.pubCancel.Some? && w.uncancelled <= {w.pubCancel.value}
    case FlagCleared => w.pubCancel.Some? && w.uncancelled <= {w.pubCancel.value}
    case Rearming => w.pubCancel.None? && w.uncancelled == {}
  }

  ghost predicate Inv(w: World) {
    FlagOk(w) && ContextsOk(w) && Accounted(w.mirrors)
  }

  lemma LeaseKeeps(w: World)
    requires FlagOk(w) && ContextsOk(w)
    ensures FlagOk(LeaseStep(w)) && ContextsOk(LeaseStep(w))
  {
  }

  lemma TimerKeeps(w: World, t: Timer)
    requires Inv(w)
    ensures Inv(TimerStep(w, t))
  {
    StartedAccounted(w.mirrors, w.sets, w.shutdown);
  }

  lemma StepKeeps(w: World, s: Step)
    requires Inv(w)
    ensures Inv(Apply(w, s))
  {
    match s
    case Lease => LeaseKeeps(w);
    case Runner(a) => StoppedAccounted(w.mirrors);
    case Tick(t) => TimerKeeps(w, t);
    case Shutdown =>
  }

  lemma {:induction false} RunKeeps(sets: nat, steps: seq<Step>)
    ensures Inv(RunFrom(Init(sets), steps))
    decreases |steps|
  {
    if steps != [] {
      RunKeeps(sets, steps[..|steps| - 1]);
      StepKeeps(RunFrom(Init(sets), steps[..|steps| - 1]), steps[|steps| - 1]);
    }
  }

  // ----- the theorems -----

  /** At most one acquisition context is uncancelled at any moment of any run. */
  lemma OneAcquisition(sets: nat, steps: seq<Step>, a: Acq, b: Acq)
    requires var w := RunFrom(Init(sets), steps); a in w.uncancelled && b in w.uncancelled
    ensures a == b
  {
    RunKeeps(sets, steps);
  }

  /** No mirror or refresh runs, and none is about to start. */
  ghost predicate Quiet(w: World) {
    w.lock.None? && !w.mirrors.running && w.mirrors.live == {}
  }

  /** Quiet lasts as long as the flag stays up: a standby start re-checks the flag under the
      lock, and a start that had checked before holds the lock against the stop. */
  lemma QuietLasts(w: World, s: Step)
    requires Inv(w) && w.leader && Quiet(w)
    ensures Quiet(Apply(w, s))
  {
  }

  /** Once a publish goroutine's stop has returned while this master leads, no mirror runs until
      the leader flag is cleared, whatever callbacks, timers and older goroutines do. */
  lemma {:induction false} NoMirrorWhileLeading(sets: nat, before: seq<Step>, a: Acq, after: seq<Step>)
    requires var w := RunFrom(Init(sets), before); w.leader && a in w.runners && w.lock.None?
    requires forall k :: 0 <= k < |after| ==> RunFrom(Init(sets), before + [Runner(a)] + after[..k]).leader
    ensures Quiet(RunFrom(Init(sets), before + [Runner(a)] + after))
    decreases |after|
  {
    if after == [] {
      assert before + [Runner(a)] + after == before + [Runner(a)];
      RunSnoc(Init(sets), before, Runner(a));
      RunKeeps(sets, before);
      StoppedAccounted(RunFrom(Init(sets), before).mirrors);
    } else {
      var n := |after| - 1;
      var shorter := before + [Runner(a)] + after[..n];
      assert before + [Runner(a)] + after == shorter + [after[n]];
      RunSnoc(Init(sets), shorter, after[n]);
      forall k | 0 <= k < n ensures RunFrom(Init(sets), before + [Runner(a)] + after[..n][..k]).leader {
        assert after[..n][..k] == after[..k];
      }
      NoMirrorWhileLeading(sets, before, a, after[..n]);
      RunKeeps(sets, shorter);
      QuietLasts(RunFrom(Init(sets), shorter), after[n]);
    }
  }

  /** The flag is the exact boundary: once it is cleared, a standby timer can start the mirrors
      before the lost acquisition's context is cancelled. */
  lemma MirrorsMayStartOnceFlagIsDown(sets: nat)
    ensures var w := RunFrom(Init(sets),
        [Lease, Lease, Lease, Lease, Runner(0), Lease, Tick(0), Tick(0), Tick(0), Tick(0)]);
      !w.leader && w.mirrors.running && w.uncancelled == {0}
  {
    var w4 := Apply(Apply(Apply(Apply(Init(sets), Lease), Lease), Lease), Lease);
    var w6 := Apply(Apply(w4, Runner(0)), Lease);
    assert !w6.leader && w6.uncancelled == {0} && w6.timers == map[0 := Ticking];
    assert w6.lock.None? && !w6.mirrors.running;
    var w8 := Apply(Apply(w6, Tick(0)), Tick(0));
    var w10 := Apply(Apply(w8, Tick(0)), Tick(0));
    var s4 := [Lease, Lease, Lease, Lease];
    RunSteps4(Init(sets), Lease, Lease, Lease, Lease);
    RunSteps2(w4, Runner(0), Lease);
    RunSteps4(w6, Tick(0), Tick(0), Tick(0), Tick(0));
    RunAppend(Init(sets), s4, [Runner(0), Lease]);
    RunAppend(Init(sets), s4 + [Runner(0), Lease], [Tick(0), Tick(0), Tick(0), Tick(0)]);
    assert s4 + [Runner(0), Lease] + [Tick(0), Tick(0), Tick(0), Tick(0)]
      == [Lease, Lease, Lease, Lease, Runner(0), Lease, Tick(0), Tick(0), Tick(0), Tick(0)];
  }

  // ----- back to standing by -----

  /** Timers are numbered in the order they were armed. */
  ghost predicate Dense(w: World) {
    forall t :: t in w.timers <==> 0 <= t < |w.timers|
  }

  lemma InitDense(sets: nat)
    ensures Dense(Init(sets))
  {
    var timers := Init(sets).timers;
    assert timers.Keys == {0} && |timers| == |timers.Keys|;
  }

  lemma StepDense(w: World, s: Step)
    requires Dense(w)
    ensures Dense(Apply(w, s))
  {
    if s.Lease? && w.lease.Rearming? {
      assert |w.timers[|w.timers| := Ticking]| == |w.timers| + 1;
    } else if s.Tick? && s.timer in w.timers {
      assert Apply(w, s).timers.Keys == w.timers.Keys;
      assert |Apply(w, s).timers| == |Apply(w, s).timers.Keys|;
    }
  }

  lemma {:induction false} RunDense(sets: nat, steps: seq<Step>)
    ensures Dense(RunFrom(Init(sets), steps))
    decreases |steps|
  {
    if steps == [] {
      InitDense(sets);
    } else {
      RunDense(sets, steps[..|steps| - 1]);
      StepDense(RunFrom(Init(sets), steps[..|steps| - 1]), steps[|steps| - 1]);
    }
  }

  /** The lease goroutine loses the lease and runs OnLost. */
  function Loses(w: World): (w': World) {
    Apply(Apply(Apply(w, Lease), Lease), Lease)
  }

  /** A timer from arming to done, with nothing in between. */
  function Fires(w: World, t: Timer): (w': World) {
    Apply(Apply(Apply(Apply(w, Tick(t)), Tick(t)), Tick(t)), Tick(t))
  }

  lemma LosesExactly(w: World)
    requires Dense(w) && w.lease.Leading?
    ensures Loses(w) == w.(leader := false, lease := Idle, uncancelled := Cancelled(w), pubCancel := None,
                           timers := w.timers[|w.timers| := Ticking])
  {
  }

  lemma FiresExactly(w: World, t: Timer)
    requires t in w.timers && w.timers[t].Ticking? && w.lock.None? && !w.shutdown && !w.leader
    ensures Fires(w, t) == w.(mirrors := Started(w.mirrors, w.sets, false), timers := w.timers[t := Done])
  {
    var w3 := Apply(Apply(Apply(w, Tick(t)), Tick(t)), Tick(t));
    assert w3 == w.(timers := w.timers[t := Checked], lock := Some(t));
  }

  /** Mirrors that run in full: one refresh and one watch per file set, all uncancelled. */
  ghost predicate AllRun(m: Mirrors, first: Ctx, sets: nat) {
    && m.running && m.refresh == Some(first) && |m.cancels| == sets
    && (forall i :: 0 <= i < sets ==> m.cancels[i] == Some(first + 1 + i))
    && (forall c :: c in m.live <==> first <= c <= first + sets)
  }

  lemma StartedInFull(m: Mirrors, sets: nat)
    requires Accounted(m)
    ensures Started(m, sets, false).running && Accounted(Started(m, sets, false))
    ensures !m.running ==> AllRun(Started(m, sets, false), m.next, sets)
  {
    StartedAccounted(m, sets, false);
  }

  lemma Cancels(w: World)
    requires ContextsOk(w) && w.lease.Leading?
    ensures Cancelled(w) == {}
  {
  }

  /** Whenever a leader loses the lease, its publish context is cancelled and it goes back to standing by:
      the timer armed then starts the mirrors in full. */
  lemma LoserStandsBy(sets: nat, steps: seq<Step>, w: World)
    requires w == RunFrom(Init(sets), steps) && w.lease.Leading? && w.lock.None? && !w.shutdown
    ensures !Loses(w).leader && Loses(w).uncancelled == {} && |w.timers| in Loses(w).timers
    ensures var m := Fires(Loses(w), |w.timers|).mirrors;
      m.running && Accounted(m) && (!w.mirrors.running ==> AllRun(m, w.mirrors.next, w.sets))
  {
    RunKeeps(sets, steps);
    RunDense(sets, steps);
    LosesExactly(w);
    Cancels(w);
    FiresExactly(Loses(w), |w.timers|);
    StartedInFull(w.mirrors, w.sets);
  }

  lemma RunSnoc(w: World, steps: seq<Step>, s: Step)
    ensures RunFrom(w, steps + [s]) == Apply(RunFrom(w, steps), s)
  {
    assert (steps + [s])[..|steps|] == steps;
  }

  lemma RunSteps2(w: World, a: Step, b: Step)
    ensures RunFrom(w, [a, b]) == Apply(Apply(w, a), b)
  {
    assert [a, b][..1] == [a] && [a][..0] == [];
    assert RunFrom(w, [a]) == Apply(RunFrom(w, []), a);
  }

  lemma RunSteps4(w: World, a: Step, b: Step, c: Step, d: Step)
    ensures RunFrom(w, [a, b, c, d]) == Apply(Apply(Apply(Apply(w, a), b), c), d)
  {
    assert [a, b, c, d] == [a, b] + [c, d];
    RunAppend(w, [a, b], [c, d]);
    RunSteps2(w, a, b);
    RunSteps2(RunFrom(w, [a, b]), c, d);
  }

  lemma {:induction false} RunAppend(w: World, xs: seq<Step>, ys: seq<Step>)
    ensures RunFrom(w, xs + ys) == RunFrom(RunFrom(w, xs), ys)
    decreases |ys|
  {
    if ys == [] {
      assert xs + ys == xs;
    } else {
      var n := |ys| - 1;
      assert (xs + ys)[..|xs + ys| - 1] == xs + ys[..n];
      RunAppend(w, xs, ys[..n]);
    }
  }

  // ----- the callbacks as code -----

  /** The daemon's handle on the current publish run, under its own mutex. */
  class Publisher {
    var pubCancel: Option<Acq>
    var uncancelled: set<Acq>
    var next: Acq

    /** Whatever is not cancelled can be cancelled through the handle. */
    ghost predicate Valid()
      reads this
    {
      (forall a :: a in uncancelled ==> pubCancel == Some(a)) && (pubCancel.Some? ==> pubCancel.value < next)
    }

    constructor ()
      ensures Valid() && pubCancel.None? && uncancelled == {}
    {
      pubCancel, uncancelled, next := None, {}, 0;
    }

    /** OnAcquired: even called twice in a row it leaves one run, the new one. */
    method StartLeaderPublish() returns (acq: Acq)
      requires Valid()
      modifies this
      ensures Valid() && acq == old(next) && pubCancel == Some(acq) && uncancelled == {acq}
    {
      acq := next;
      next := next + 1;
      uncancelled := uncancelled + {acq};
      if pubCancel.Some? {
        uncancelled := uncancelled - {pubCancel.value};
      }
      pubCancel := Some(acq);
    }

    /** OnLost. */
    method StopLeaderPublish()
      requires Valid()
      modifies this
      ensures Valid() && pubCancel.None? && uncancelled == {}
    {
      if pubCancel.Some? {
        uncancelled := uncancelled - {pubCancel.value};
        pubCancel := None;
      }
    }
  }
}
