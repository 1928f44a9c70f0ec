/** The shared revision counter of a bucket: any number of publishers run the bounded
    read-increment-swap loop on the same key. */
module Revision {
  import opened KeyValue
  import opened KvClient
  import opened Decimal

  const Key: string := "_revision"
  const MaxAttempts: nat := 10

  type Cid = nat

  /** A call: how many attempts it has used up, how many of them on writes that did not get
      through cleanly, and how many writes the key had seen when it began. */
  datatype Caller =
    | Ready(used: nat, faults: nat, since: nat)
    | Missing(used: nat, faults: nat, since: nat)
    | Read(used: nat, faults: nat, since: nat, entry: Entry<string>, at: nat)
    | Bumped
    | GaveUp(used: nat, faults: nat, since: nat)
    | Failed

  /** `writes` counts the writes the key has taken, `heard` the bumps reported as done. */
  datatype World = World(
    kv: Bucket<string, string>,
    callers: map<Cid, Caller>,
    writes: nat,
    heard: nat,
    unheard: nat)

  datatype Step =
    | Begin(c: Cid)
    | Abort(c: Cid)
    | Act(c: Cid, net: Net)

  /** The 64-bit increment. */
  function Next(current: nat): (n: nat)
    requires current < Limit
    ensures n < Limit
  {
    if current + 1 == Limit then 0 else current + 1
  }

  /** `n` increments in a row. */
  function Plus(start: nat, n: nat): (r: nat)
    requires start < Limit
    ensures r < Limit
  {
    if n == 0 then start else Next(Plus(start, n - 1))
  }

  lemma NextIsModular(x: nat)
    ensures Next(x % Limit) == (x + 1) % Limit
  {
    assert x + 1 == x / Limit * Limit + (x % Limit + 1);
  }

  /** That is addition modulo 2^64. */
  lemma {:induction false} PlusIsModular(start: nat, n: nat)
    requires start < Limit
    ensures Plus(start, n) == (start + n) % Limit
  {
    if n > 0 {
      PlusIsModular(start, n - 1);
      NextIsModular(start + n - 1);
    }
  }

  function Goto(w: World, c: Cid, x: Caller): (w': World) {
    w.(callers := w.callers[c := x])
  }

  function Retry(used: nat, faults: nat, since: nat): (x: Caller) {
    if used < MaxAttempts then Ready(used, faults, since) else GaveUp(used, faults, since)
  }

  function GetStep(w: World, c: Cid, x: Caller, net: Net): (w': World)
    requires x.Ready?
  {
    if net != Heard then Goto(w, c, Failed)
    else
      match w.kv.Get(Key)
      case None => Goto(w, c, Missing(x.used, x.faults, x.since))
      case Some(e) => Goto(w, c, Read(x.used, x.faults, x.since, e, w.writes))
  }

  /** The write of an attempt, whose bucket outcome is `out`. */
  function WriteStep(w: World, c: Cid, x: Caller, out: Outcome<string, string>, net: Net): (w': World)
    requires x.Missing? || x.Read?
  {
    if net.Down? then Goto(w, c, Retry(x.used + 1, x.faults + 1, x.since))
    else if out.Refused? then Goto(w, c, Retry(x.used + 1, x.faults, x.since))
    else if net.Unheard? then
      Goto(w.(kv := out.bucket, writes := w.writes + 1, unheard := w.unheard + 1),
           c, Retry(x.used + 1, x.faults + 1, x.since))
    else Goto(w.(kv := out.bucket, writes := w.writes + 1, heard := w.heard + 1), c, Bumped)
  }

  function Advance(w: World, c: Cid, x: Caller, net: Net): (w': World) {
    match x
    case Ready(_, _, _) => GetStep(w, c, x, net)
    case Missing(_, _, _) => WriteStep(w, c, x, w.kv.Create(Key, "1"), net)
    case Read(_, _, _, e, _) => WriteStep(w, c, x, w.kv.Update(Key, Show(Next(ScanUint64(e.value))), e.rev), net)
    case _ => w
  }

  function Apply(w: World, s: Step): (w': World) {
    match s
    case Begin(c) => if c in w.callers then w else Goto(w, c, Ready(0, 0, w.writes))
    case Abort(c) => if c in w.callers && w.callers[c].Ready? then Goto(w, c, Failed) else w
    case Act(c, net) => if c in w.callers then Advance(w, c, w.callers[c], net) else w
  }

  /** The key is absent, or holds the decimal of `start`. */
  ghost predicate Starts(kv: Bucket<string, string>, start: nat) {
    && kv.Valid()
    && start < Limit
    && if Key in kv.live then kv.live[Key].value == Show(start) else start == 0
  }

  function RunFrom(kv: Bucket<string, string>, steps: seq<Step>): (w: World)
    decreases |steps|
  {
    if steps == [] then World(kv, map[], 0, 0, 0)
    else Apply(RunFrom(kv, steps[..|steps| - 1]), steps[|steps| - 1])
  }

  // ----- the invariant -----

  /** The stored text is the start plus the writes so far; an absent key has seen none. */
  ghost predicate CounterOk(w: World, start: nat) {
    && start < Limit
    && w.kv.Valid()
    && w.writes == w.heard + w.unheard
    && if Key in w.kv.live then w.kv.live[Key].value == Show(Plus(start, w.writes))
       else start == 0 && w.writes == 0
  }

  /** Every used attempt that was not a fault lost against a write by someone else. */
  ghost predicate CallerOk(w: World, x: Caller) {
    match x
    case Ready(used, faults, since) => used < MaxAttempts && since <= w.writes && since + used <= w.writes + faults
    case Missing(used, faults, since) =>
      used < MaxAttempts && since == 0 && used <= faults && (Key in w.kv.live ==> w.writes > 0)
    case Read(used, faults, since, e, at) =>
      && used < MaxAttempts && since <= at && since + used <= at + faults && at <= w.writes
      && Honest(w.kv, Key, e)
      && (Key in w.kv.live && (w.kv.live[Key].rev != e.rev ==> at < w.writes))
    case Bumped => true
    case GaveUp(used, faults, since) => used == MaxAttempts && since + used <= w.writes + faults
    case Failed => true
  }

  ghost predicate Inv(w: World, start: nat) {
    && CounterOk(w, start)
    && forall c {:trigger CallerOk(w, w.callers[c])} :: c in w.callers ==> CallerOk(w, w.callers[c])
  }

  // ----- every step keeps it -----

  /** A call moves on without writing. */
  lemma GotoKeeps(w: World, start: nat, c: Cid, x: Caller)
    requires Inv(w, start) && CallerOk(w, x)
    ensures Inv(Goto(w, c, x), start)
  {
    var w' := Goto(w, c, x);
    forall d | d in w'.callers ensures CallerOk(w', w'.callers[d]) {
      assert d != c ==> CallerOk(w, w.callers[d]);
    }
  }

  /** The world after a write of the key that got through. */
  function Written(w: World, value: string, heard: bool): (w': World) {
    w.(kv := w.kv.Put(Key, value), writes := w.writes + 1,
       heard := if heard then w.heard + 1 else w.heard,
       unheard := if heard then w.unheard else w.unheard + 1)
  }

  /** A write of the successor value keeps every other call's bookkeeping. */
  lemma WrittenKeeps(w: World, start: nat, c: Cid, x: Caller, value: string, heard: bool)
    requires Inv(w, start) && start < Limit && value == Show(Plus(start, w.writes + 1))
    requires CallerOk(Written(w, value, heard), x)
    ensures Inv(Goto(Written(w, value, heard), c, x), start)
  {
    var w' := Goto(Written(w, value, heard), c, x);
    forall d | d in w'.callers ensures CallerOk(w', w'.callers[d]) {
      if d != c {
        assert CallerOk(w, w.callers[d]);
      }
    }
  }

  /** A swap that gets through writes the successor of the stored value: none is lost. */
  lemma SuccessorWritten(w: World, start: nat, c: Cid)
    requires Inv(w, start) && c in w.callers && w.callers[c].Read?
    requires Key in w.kv.live && w.kv.live[Key].rev == w.callers[c].entry.rev
    ensures Show(Next(ScanUint64(w.callers[c].entry.value))) == Show(Plus(start, w.writes + 1))
  {
    assert CallerOk(w, w.callers[c]);
    ScanOfShow(Plus(start, w.writes));
  }

  lemma ReadKeeps(w: World, start: nat, c: Cid, x: Caller, net: Net)
    requires Inv(w, start) && c in w.callers && w.callers[c] == x && x.Read?
    ensures Inv(Advance(w, c, x, net), start)
  {
    assert CallerOk(w, x);
    var value := Show(Next(ScanUint64(x.entry.value)));
    if net.Down? {
      GotoKeeps(w, start, c, Retry(x.used + 1, x.faults + 1, x.since));
    } else if w.kv.live[Key].rev != x.entry.rev {
      GotoKeeps(w, start, c, Retry(x.used + 1, x.faults, x.since));
    } else {
      SuccessorWritten(w, start, c);
      if net.Unheard? {
        WrittenKeeps(w, start, c, Retry(x.used + 1, x.faults + 1, x.since), value, false);
      } else {
        WrittenKeeps(w, start, c, Bumped, value, true);
      }
    }
  }

  lemma MissingKeeps(w: World, start: nat, c: Cid, x: Caller, net: Net)
    requires Inv(w, start) && c in w.callers && w.callers[c] == x && x.Missing?
    ensures Inv(Advance(w, c, x, net), start)
  {
    assert CallerOk(w, x);
    if net.Down? {
      GotoKeeps(w, start, c, Retry(x.used + 1, x.faults + 1, x.since));
    } else if Key in w.kv.live {
      GotoKeeps(w, start, c, Retry(x.used + 1, x.faults, x.since));
    } else {
      assert Show(Plus(0, 1)) == "1";
      if net.Unheard? {
        WrittenKeeps(w, start, c, Retry(x.used + 1, x.faults + 1, x.since), "1", false);
      } else {
        WrittenKeeps(w, start, c, Bumped, "1", true);
      }
    }
  }

  lemma ReadyKeeps(w: World, start: nat, c: Cid, x: Caller, net: Net)
    requires Inv(w, start) && c in w.callers && w.callers[c] == x && x.Ready?
    ensures Inv(Advance(w, c, x, net), start)
  {
    assert CallerOk(w, x);
    if net != Heard {
      GotoKeeps(w, start, c, Failed);
    } else if Key in w.kv.live {
      GotoKeeps(w, start, c, Read(x.used, x.faults, x.since, w.kv.live[Key], w.writes));
    } else {
      GotoKeeps(w, start, c, Missing(x.used, x.faults, x.since));
    }
  }

  lemma StepKeeps(w: World, start: nat, s: Step)
    requires Inv(w, start)
    ensures Inv(Apply(w, s), start)
  {
    match s
    case Begin(c) => if c !in w.callers { GotoKeeps(w, start, c, Ready(0, 0, w.writes)); }
    case Abort(c) => if c in w.callers && w.callers[c].Ready? { GotoKeeps(w, start, c, Failed); }
    case Act(c, net) =>
      if c in w.callers {
        var x := w.callers[c];
        match x
        case Ready(_, _, _) => ReadyKeeps(w, start, c, x, net);
        case Missing(_, _, _) => MissingKeeps(w, start, c, x, net);
        case Read(_, _, _, _, _) => ReadKeeps(w, start, c, x, net);
        case _ =>
      }
  }

  lemma {:induction false} RunKeeps(kv: Bucket<string, string>, start: nat, steps: seq<Step>)
    requires Starts(kv, start)
    ensures Inv(RunFrom(kv, steps), start)
    decreases |steps|
  {
    if steps != [] {
      RunKeeps(kv, start, steps[..|steps| - 1]);
      StepKeeps(RunFrom(kv, steps[..|steps| - 1]), start, steps[|steps| - 1]);
    }
  }

  // ----- the theorems -----

  lemma CounterMeans(w: World, start: nat)
    requires CounterOk(w, start)
    ensures Key in w.kv.live ==> ScanUint64(w.kv.live[Key].value) == Plus(start, w.heard + w.unheard)
    ensures Key !in w.kv.live ==> start + w.heard + w.unheard == 0
  {
    ScanOfShow(Plus(start, w.writes));
  }

  /** The calls that reported a bump as done. */
  ghost function Done(w: World): (cs: set<Cid>) {
    set c | c in w.callers && w.callers[c].Bumped?
  }

  lemma GotoDone(w: World, c: Cid, x: Caller)
    requires c in w.callers ==> !w.callers[c].Bumped?
    ensures Done(Goto(w, c, x)) == if x.Bumped? then Done(w) + {c} else Done(w)
    ensures |Done(Goto(w, c, x))| == |Done(w)| + if x.Bumped? then 1 else 0
  {
    assert Done(Goto(w, c, x)) == if x.Bumped? then Done(w) + {c} else Done(w);
  }

  lemma StepDone(w: World, s: Step)
    requires |Done(w)| == w.heard
    ensures |Done(Apply(w, s))| == Apply(w, s).heard
  {
    if s.Act? && s.c in w.callers {
      var x := w.callers[s.c];
      if x.Missing? || x.Read? {
        var out := if x.Missing? then w.kv.Create(Key, "1")
                   else w.kv.Update(Key, Show(Next(ScanUint64(x.entry.value))), x.entry.rev);
        WriteDone(w, s.c, x, out, s.net);
      } else if x.Ready? {
        GotoDone(w, s.c, Apply(w, s).callers[s.c]);
      }
    } else if !s.Act? && Apply(w, s) != w {
      GotoDone(w, s.c, Apply(w, s).callers[s.c]);
    }
  }

  lemma WriteDone(w: World, c: Cid, x: Caller, out: Outcome<string, string>, net: Net)
    requires |Done(w)| == w.heard && c in w.callers && w.callers[c] == x && (x.Missing? || x.Read?)
    ensures |Done(WriteStep(w, c, x, out, net))| == WriteStep(w, c, x, out, net).heard
  {
    var w' := WriteStep(w, c, x, out, net);
    GotoDone(w, c, w'.callers[c]);
    assert Done(w') == Done(Goto(w, c, w'.callers[c]));
  }

  lemma {:induction false} RunDone(kv: Bucket<string, string>, steps: seq<Step>)
    ensures |Done(RunFrom(kv, steps))| == RunFrom(kv, steps).heard
    decreases |steps|
  {
    if steps != [] {
      RunDone(kv, steps[..|steps| - 1]);
      StepDone(RunFrom(kv, steps[..|steps| - 1]), steps[|steps| - 1]);
    }
  }

  /** The counter is exact in every run: the stored decimal is the start plus one for every call
      that reported a bump as done and for every bump that got through unheard (PlusIsModular: mod
      2^64). */
  lemma NoBumpIsLost(kv: Bucket<string, string>, start: nat, steps: seq<Step>, w: World)
    requires Starts(kv, start) && w == RunFrom(kv, steps)
    ensures CountsTo(w, start, |Done(w)|)
  {
    CounterOfRun(kv, start, steps);
    RunDone(kv, steps);
  }

  lemma CounterOfRun(kv: Bucket<string, string>, start: nat, steps: seq<Step>)
    requires Starts(kv, start)
    ensures CountsTo(RunFrom(kv, steps), start, RunFrom(kv, steps).heard)
  {
    RunKeeps(kv, start, steps);
    CounterMeans(RunFrom(kv, steps), start);
  }

  /** The key holds the start plus `done` and the bumps that were not heard of. */
  ghost predicate CountsTo(w: World, start: nat, done: nat) {
    && start < Limit
    && if Key in w.kv.live then ScanUint64(w.kv.live[Key].value) == Plus(start, done + w.unheard)
       else start + done + w.unheard == 0
  }

  lemma BumpReads(w: World, c: Cid)
    requires c !in w.callers
    ensures Apply(Apply(w, Begin(c)), Act(c, Heard)) ==
      Goto(w, c, if Key in w.kv.live then Read(0, 0, w.writes, w.kv.live[Key], w.writes) else Missing(0, 0, w.writes))
  {
    assert Apply(w, Begin(c)) == Goto(w, c, Ready(0, 0, w.writes));
  }

  lemma BumpWrites(w: World, c: Cid, x: Caller)
    requires x == if Key in w.kv.live then Read(0, 0, w.writes, w.kv.live[Key], w.writes) else Missing(0, 0, w.writes)
    ensures var value := if Key in w.kv.live then Show(Next(ScanUint64(w.kv.live[Key].value))) else "1";
      Advance(Goto(w, c, x), c, x, Heard) ==
      Goto(w.(kv := w.kv.Put(Key, value), writes := w.writes + 1, heard := w.heard + 1), c, Bumped)
  {
  }

  lemma ScanOfNext(x: nat)
    requires x < Limit
    ensures ScanUint64(Show(Next(x))) == (x + 1) % Limit
  {
    ScanOfShow(Next(x));
    NextIsModular(x);
  }

  /** A call nobody overtakes is done after one read and one write, and the counter is one higher. */
  lemma UndisturbedBump(w: World, c: Cid)
    requires c !in w.callers
    ensures var w' := Apply(Apply(Apply(w, Begin(c)), Act(c, Heard)), Act(c, Heard));
      && c in w'.callers && w'.callers[c].Bumped? && w'.unheard == w.unheard && Key in w'.kv.live
      && ScanUint64(w'.kv.live[Key].value) ==
         (if Key in w.kv.live then (ScanUint64(w.kv.live[Key].value) + 1) % Limit else 1)
  {
    BumpReads(w, c);
    var x := if Key in w.kv.live then Read(0, 0, w.writes, w.kv.live[Key], w.writes) else Missing(0, 0, w.writes);
    assert Apply(Goto(w, c, x), Act(c, Heard)) == Advance(Goto(w, c, x), c, x, Heard);
    BumpWrites(w, c, x);
    ScanOfNext(if Key in w.kv.live then ScanUint64(w.kv.live[Key].value) else 0);
    FirstIsOne();
  }

  /** A call that gives up used all its attempts, and every one that was not a network fault
      lost against a write made since the call began: ten writes by others if only conflicts
      failed. */
  lemma GivingUpWitnessesWrites(kv: Bucket<string, string>, start: nat, steps: seq<Step>, w: World, c: Cid)
    requires Starts(kv, start) && w == RunFrom(kv, steps)
    requires c in w.callers && w.callers[c].GaveUp?
    ensures w.callers[c].since + MaxAttempts <= w.writes + w.callers[c].faults
  {
    RunKeeps(kv, start, steps);
    assert CallerOk(w, w.callers[c]);
  }

  // ----- one call, seen from inside -----

  /** The counter a bucket holds; an absent key counts as 0. */
  function CounterOf(b: Bucket<string, string>): (n: nat)
    ensures n < Limit
  {
    if Key in b.live then ScanUint64(b.live[Key].value) else 0
  }

  /** What one complete bump leaves behind. */
  function OneBump(b: Bucket<string, string>): (b': Bucket<string, string>) {
    b.Put(Key, Show(Next(CounterOf(b))))
  }

  lemma OneBumpCounts(b: Bucket<string, string>)
    ensures CounterOf(OneBump(b)) == Next(CounterOf(b))
    ensures b.Valid() ==> OneBump(b).Valid()
    ensures Key in OneBump(b).live && OneBump(b).live[Key].rev == OneBump(b).last == b.last + 1
  {
    ScanOfShow(Next(CounterOf(b)));
  }

  lemma FirstIsOne()
    ensures Show(Next(0)) == "1"
  {
  }

  /** The bucket's counter is `n` bumps past `start`. */
  ghost predicate Counts(b: Bucket<string, string>, start: nat, n: nat) {
    b.Valid() && start < Limit && CounterOf(b) == Plus(start, n)
  }

  /** `more` complete bumps by other publishers. */
  method OthersBump(kv: Kv<string, string>, more: nat, ghost start: nat, ghost n: nat)
    requires Counts(kv.b, start, n)
    modifies kv
    ensures Counts(kv.b, start, n + more)
    ensures if more == 0 then kv.b == old(kv.b) else Key in kv.b.live && kv.b.live[Key].rev > old(kv.b).last
  {
    for i := 0 to more
      invariant Counts(kv.b, start, n + i) && kv.b.last >= old(kv.b).last
      invariant if i == 0 then kv.b == old(kv.b) else Key in kv.b.live && kv.b.live[Key].rev > old(kv.b).last
    {
      OneBumpCounts(kv.b);
      kv.b := OneBump(kv.b);
    }
  }

  lemma PutKeepsCount(b: Bucket<string, string>, start: nat, n: nat, value: string)
    requires Counts(b, start, n)
    requires value == Show(Next(CounterOf(b)))
    ensures Counts(b.Put(Key, value), start, n + 1)
  {
    ScanOfShow(Next(CounterOf(b)));
  }

  /** The write of an attempt that read `entry`: it gets through exactly when the key is still
      as it was read. */
  method Swap(kv: Kv<string, string>, entry: Option<Entry<string>>, ghost start: nat, ghost n: nat)
    returns (done: bool)
    requires Counts(kv.b, start, n)
    requires kv.b.Get(Key) == entry || (kv.b.Get(Key).Some? && (entry.None? || kv.b.live[Key].rev != entry.value.rev))
    modifies kv
    ensures done <==> old(kv.b).Get(Key) == entry
    ensures Counts(kv.b, start, if done then n + 1 else n)
  {
    var value := "1";
    if entry.Some? {
      value := Show(Next(ScanUint64(entry.value.value)));
    }
    FirstIsOne();
    if kv.b.Get(Key) == entry {
      PutKeepsCount(kv.b, start, n, value);
    }
    var out;
    if entry.None? {
      out := kv.Create(Key, value);
    } else {
      out := kv.Update(Key, value, entry.value.rev);
    }
    done := out.Some?;
  }

  /** One attempt: it succeeds exactly when nobody overtakes it, and then the counter gains one
      on top of the bumps by others. */
  method Attempt(kv: Kv<string, string>, gap: Gap, ghost start: nat, ghost n: nat) returns (done: bool)
    requires Counts(kv.b, start, n)
    modifies kv
    ensures done <==> gap.between == 0
    ensures Counts(kv.b, start, n + gap.before + gap.between + if done then 1 else 0)
  {
    OthersBump(kv, gap.before, start, n);
    var entry := kv.Get(Key);
    OthersBump(kv, gap.between, start, n + gap.before);
    done := Swap(kv, entry, start, n + gap.before + gap.between);
  }

  /** The bumps other publishers make before an attempt's read, and between read and swap. */
  datatype Gap = Gap(before: nat, between: nat)

  /** The bumps others make before and during the first `k` attempts. */
  function Made(gaps: seq<Gap>, k: nat): (n: nat)
    requires k <= |gaps|
  {
    if k == 0 then 0 else Made(gaps, k - 1) + gaps[k - 1].before + gaps[k - 1].between
  }

  /** Each of the first `k` attempts was overtaken by a bump between its read and its swap. */
  predicate Overtaken(gaps: seq<Gap>, k: nat)
    requires k <= |gaps|
  {
    k == 0 || (Overtaken(gaps, k - 1) && gaps[k - 1].between > 0)
  }

  datatype Result = Ok(attempts: nat) | Exhausted(attempts: nat) | Cancelled(attempts: nat)

  /** BumpRevision, with the given gaps between its operations and the context cancelled before
      attempt `stop`. The counter gains exactly the bumps by others, and one more if the call
      succeeded; the call gives up only if all ten attempts were overtaken. */
  method BumpRevision(kv: Kv<string, string>, gaps: seq<Gap>, stop: nat) returns (r: Result)
    requires kv.b.Valid() && |gaps| == MaxAttempts
    modifies kv
    ensures r.attempts <= MaxAttempts
    ensures Counts(kv.b, CounterOf(old(kv.b)), Made(gaps, r.attempts) + if r.Ok? then 1 else 0)
    ensures if r.Ok? then 0 < r.attempts && gaps[r.attempts - 1].between == 0 && Overtaken(gaps, r.attempts - 1)
      else Overtaken(gaps, r.attempts)
    ensures r.Exhausted? ==> r.attempts == MaxAttempts
    ensures r.Cancelled? ==> r.attempts == stop
  {
    ghost var start := CounterOf(kv.b);
    var attempt := 0;
    while attempt < MaxAttempts
      invariant attempt <= MaxAttempts
      invariant Counts(kv.b, start, Made(gaps, attempt))
      invariant Overtaken(gaps, attempt)
    {
      if attempt > 0 && attempt == stop {
        return Cancelled(attempt);
      }
      var done := Attempt(kv, gaps[attempt], start, Made(gaps, attempt));
      attempt := attempt + 1;
      if done {
        return Ok(attempt);
      }
    }
    r := Exhausted(attempt);
  }
}
