/** The leader lease: candidates create, renew and release one entry of a bucket whose entries
    also expire. Any number of candidates for any number of roles, interleaved step by step. */
module Lease {
  import opened KeyValue

  type Role = string
  type Cid = nat

  /** Where a candidate's Run loop stands. `rev` is the last revision it was told it wrote. */
  datatype Phase =
    | Waiting
    | Won(rev: nat)
    | Leading(rev: nat)
    | Losing(rev: nat)
    | Cleared(rev: nat)
    | Releasing(rev: nat)
    | Stopped

  datatype Cand = Cand(role: Role, holder: string, phase: Phase)

  datatype World = World(
    kv: Bucket<Role, string>,
    cands: map<Cid, Cand>,
    cancelled: set<Cid>,
    author: map<nat, Cid>,
    expired: set<Cid>)

  datatype Step =
    | Join(c: Cid, role: Role, holder: string)
    | Cancel(c: Cid)
    | Expire(role: Role)
    | Act(c: Cid, net: Net, sawDone: bool)

  function Init(): (w: World) {
    World(Bucket(map[], 0), map[], {}, map[], {})
  }

  /** The leader flag: set after winning, cleared after the renew loop has returned. */
  predicate IsLeader(w: World, c: Cid) {
    c in w.cands && (w.cands[c].phase.Leading? || w.cands[c].phase.Losing?)
  }

  /** Believes it holds the lease: from the successful Create until the flag is cleared. */
  predicate Believes(w: World, c: Cid) {
    c in w.cands && (w.cands[c].phase.Won? || w.cands[c].phase.Leading? || w.cands[c].phase.Losing?)
  }

  /** Moving on; a term ends when the candidate stops believing. */
  function Goto(w: World, c: Cid, p: Phase): (w': World)
    requires c in w.cands
  {
    w.(cands := w.cands[c := w.cands[c].(phase := p)],
       expired := if p.Won? || p.Leading? || p.Losing? then w.expired else w.expired - {c})
  }

  /** The bucket after candidate `c` wrote its entry. */
  function Write(w: World, c: Cid): (w': World)
    requires c in w.cands
  {
    w.(kv := w.kv.Put(w.cands[c].role, w.cands[c].holder), author := w.author[w.kv.last + 1 := c])
  }

  function TryCreate(w: World, c: Cid, net: Net): (w': World)
    requires c in w.cands
  {
    var x := w.cands[c];
    var failed := if c in w.cancelled then Stopped else Waiting;
    if net.Down? || w.kv.Create(x.role, x.holder).Refused? then Goto(w, c, failed)
    else if net.Unheard? then Goto(Write(w, c), c, failed)
    else Goto(Write(w, c), c, Won(w.kv.last + 1))
  }

  /** A renewal, or the loop noticing that its context is done. */
  function Renew(w: World, c: Cid, rev: nat, net: Net, sawDone: bool): (w': World)
    requires c in w.cands
  {
    var x := w.cands[c];
    if sawDone && c in w.cancelled then Goto(w, c, Losing(rev))
    else if net.Down? || w.kv.Update(x.role, x.holder, rev).Refused? then Goto(w, c, Losing(rev))
    else if net.Unheard? then Goto(Write(w, c), c, Losing(rev))
    else Goto(Write(w, c), c, Leading(w.kv.last + 1))
  }

  function Release(w: World, c: Cid, rev: nat, net: Net): (w': World)
    requires c in w.cands
  {
    var r := w.kv.Delete(w.cands[c].role, [rev]);
    Goto(if net.Down? || r.Refused? then w else w.(kv := r.bucket), c, Stopped)
  }

  function Advance(w: World, c: Cid, net: Net, sawDone: bool): (w': World)
    requires c in w.cands
  {
    match w.cands[c].phase
    case Waiting => TryCreate(w, c, net)
    case Won(rev) => Goto(w, c, if c in w.cancelled then Releasing(rev) else Leading(rev))
    case Leading(rev) => Renew(w, c, rev, net, sawDone)
    case Losing(rev) => Goto(w, c, Cleared(rev))
    case Cleared(rev) => Goto(w, c, if c in w.cancelled then Releasing(rev) else Waiting)
    case Releasing(rev) => Release(w, c, rev, net)
    case Stopped => w
  }

  /** The bucket's own expiry. For a holder that still believes it is remembered until its term
      ends. */
  function ExpireEntry(w: World, role: Role): (w': World) {
    if role !in w.kv.live then w
    else
      var rev := w.kv.live[role].rev;
      var w1 := w.(kv := w.kv.(live := w.kv.live - {role}));
      if rev in w.author && Believes(w, w.author[rev]) then w1.(expired := w.expired + {w.author[rev]}) else w1
  }

  function Apply(w: World, s: Step): (w': World) {
    match s
    case Join(c, role, holder) =>
      if c in w.cands then w else w.(cands := w.cands[c := Cand(role, holder, Waiting)])
    case Cancel(c) => w.(cancelled := w.cancelled + {c})
    case Expire(role) => ExpireEntry(w, role)
    case Act(c, net, sawDone) => if c in w.cands then Advance(w, c, net, sawDone) else w
  }

  function RunFrom(w: World, steps: seq<Step>): (w': World)
    decreases |steps|
  {
    if steps == [] then w else Apply(RunFrom(w, steps[..|steps| - 1]), steps[|steps| - 1])
  }

  // ----- the invariant -----

  function Remembered(p: Phase): (r: Option<nat>) {
    match p
    case Waiting => None
    case Stopped => None
    case _ => Some(p.rev)
  }

  ghost predicate EntryOk(w: World, role: Role)
    requires role in w.kv.live
  {
    var rev := w.kv.live[role].rev;
    && 0 < rev <= w.kv.last
    && rev in w.author && w.author[rev] in w.cands && w.cands[w.author[rev]].role == role
  }

  /** A candidate only remembers revisions it wrote itself, and they are positive. */
  ghost predicate CandOk(w: World, c: Cid)
    requires c in w.cands
  {
    Remembered(w.cands[c].phase).Some? ==>
      var rev := Remembered(w.cands[c].phase).value;
      0 < rev <= w.kv.last && rev in w.author && w.author[rev] == c
  }

  /** Unless it expired in the current term, the entry of whoever believes is in the bucket, and up
      to the last renewal its holder knows that entry's revision. */
  ghost predicate LeadOk(w: World, c: Cid)
    requires c in w.cands
  {
    var x := w.cands[c];
    c !in w.expired && Believes(w, c) ==>
      && x.role in w.kv.live
      && w.kv.live[x.role].rev in w.author && w.author[w.kv.live[x.role].rev] == c
      && (!x.phase.Losing? ==> w.kv.live[x.role].rev == x.phase.rev)
  }

  ghost predicate Inv(w: World) {
    && (forall role {:trigger EntryOk(w, role)} :: role in w.kv.live ==> EntryOk(w, role))
    && (forall c {:trigger CandOk(w, c)} :: c in w.cands ==> CandOk(w, c))
    && (forall c {:trigger LeadOk(w, c)} :: c in w.cands ==> LeadOk(w, c))
    && (forall rev :: rev in w.author ==> rev <= w.kv.last)
  }

  // ----- every step keeps it -----

  /** A candidate moves on without touching the bucket. */
  lemma GotoKeeps(w: World, c: Cid, p: Phase)
    requires Inv(w) && c in w.cands
    requires Remembered(p).None? || Remembered(p) == Remembered(w.cands[c].phase)
    requires Believes(Goto(w, c, p), c) ==> Believes(w, c) && (w.cands[c].phase.Losing? ==> p.Losing?)
    ensures Inv(Goto(w, c, p))
  {
    var w' := Goto(w, c, p);
    assert CandOk(w, c) && LeadOk(w, c);
    forall role | role in w'.kv.live ensures EntryOk(w', role) {
      assert EntryOk(w, role);
    }
    forall d | d in w'.cands ensures CandOk(w', d) && LeadOk(w', d) {
      assert CandOk(w, d) && LeadOk(w, d);
    }
  }

  /** A candidate writes the entry of a role that nobody else holds. */
  lemma WriteKeeps(w: World, c: Cid, p: Phase)
    requires Inv(w) && c in w.cands
    requires w.cands[c].role in w.kv.live ==>
      w.kv.live[w.cands[c].role].rev in w.author && w.author[w.kv.live[w.cands[c].role].rev] == c
    requires Remembered(p) in {None, Some(w.kv.last + 1), Remembered(w.cands[c].phase)}
    requires p.Won? || p.Leading? ==> p.rev == w.kv.last + 1
    ensures Inv(Goto(Write(w, c), c, p))
  {
    var w' := Goto(Write(w, c), c, p);
    assert CandOk(w, c);
    forall role | role in w'.kv.live ensures EntryOk(w', role) {
      assert role != w.cands[c].role ==> EntryOk(w, role);
    }
    forall d | d in w'.cands ensures CandOk(w', d) {
      assert CandOk(w, d);
    }
    forall d | d in w'.cands && d != c ensures LeadOk(w', d) {
      assert LeadOk(w, d);
    }
    assert LeadOk(w', c);
  }

  lemma RenewKeeps(w: World, c: Cid, net: Net, sawDone: bool)
    requires Inv(w) && c in w.cands && w.cands[c].phase.Leading?
    ensures Inv(Renew(w, c, w.cands[c].phase.rev, net, sawDone))
  {
    var x := w.cands[c];
    assert CandOk(w, c);
    if (sawDone && c in w.cancelled) || net.Down? || w.kv.Update(x.role, x.holder, x.phase.rev).Refused? {
      GotoKeeps(w, c, Losing(x.phase.rev));
    } else if net.Unheard? {
      WriteKeeps(w, c, Losing(x.phase.rev));
    } else {
      WriteKeeps(w, c, Leading(w.kv.last + 1));
    }
  }

  /** A fenced release removes the candidate's own entry or nothing. */
  lemma ReleaseRemovesOwn(w: World, c: Cid, net: Net)
    requires Inv(w) && c in w.cands && w.cands[c].phase.Releasing?
    ensures var w' := Release(w, c, w.cands[c].phase.rev, net);
      forall role :: role in w.kv.live && role !in w'.kv.live ==>
        && role == w.cands[c].role
        && w.kv.live[role].rev == w.cands[c].phase.rev
        && w.cands[c].phase.rev in w.author && w.author[w.cands[c].phase.rev] == c
  {
    assert CandOk(w, c);
  }

  lemma ReleaseKeeps(w: World, c: Cid, net: Net)
    requires Inv(w) && c in w.cands && w.cands[c].phase.Releasing?
    ensures Inv(Release(w, c, w.cands[c].phase.rev, net))
  {
    var w' := Release(w, c, w.cands[c].phase.rev, net);
    assert CandOk(w, c);
    ReleaseRemovesOwn(w, c, net);
    forall role | role in w'.kv.live ensures EntryOk(w', role) {
      assert EntryOk(w, role);
    }
    forall d | d in w'.cands ensures CandOk(w', d) && LeadOk(w', d) {
      assert CandOk(w, d) && LeadOk(w, d);
    }
  }

  lemma ExpireKeeps(w: World, role: Role)
    requires Inv(w)
    ensures Inv(ExpireEntry(w, role))
  {
    var w' := ExpireEntry(w, role);
    forall r | r in w'.kv.live ensures EntryOk(w', r) {
      assert EntryOk(w, r);
    }
    forall d | d in w'.cands ensures CandOk(w', d) && LeadOk(w', d) {
      assert CandOk(w, d) && LeadOk(w, d);
    }
  }

  lemma AdvanceKeeps(w: World, c: Cid, net: Net, sawDone: bool)
    requires Inv(w) && c in w.cands
    ensures Inv(Advance(w, c, net, sawDone))
  {
    var x := w.cands[c];
    match x.phase
    case Waiting =>
      var failed := if c in w.cancelled then Stopped else Waiting;
      if net.Down? || x.role in w.kv.live {
        GotoKeeps(w, c, failed);
      } else if net.Unheard? {
        WriteKeeps(w, c, failed);
      } else {
        WriteKeeps(w, c, Won(w.kv.last + 1));
      }
    case Won(rev) => GotoKeeps(w, c, if c in w.cancelled then Releasing(rev) else Leading(rev));
    case Leading(rev) => RenewKeeps(w, c, net, sawDone);
    case Losing(rev) => GotoKeeps(w, c, Cleared(rev));
    case Cleared(rev) => GotoKeeps(w, c, if c in w.cancelled then Releasing(rev) else Waiting);
    case Releasing(rev) => ReleaseKeeps(w, c, net);
    case Stopped =>
  }

  lemma JoinKeeps(w: World, c: Cid, role: Role, holder: string)
    requires Inv(w) && c !in w.cands
    ensures Inv(w.(cands := w.cands[c := Cand(role, holder, Waiting)]))
  {
    var w' := w.(cands := w.cands[c := Cand(role, holder, Waiting)]);
    forall r | r in w'.kv.live ensures EntryOk(w', r) {
      assert EntryOk(w, r);
    }
    forall d | d in w'.cands ensures CandOk(w', d) && LeadOk(w', d) {
      assert d != c ==> CandOk(w, d) && LeadOk(w, d);
    }
  }

  lemma CancelKeeps(w: World, c: Cid)
    requires Inv(w)
    ensures Inv(w.(cancelled := w.cancelled + {c}))
  {
    var w' := w.(cancelled := w.cancelled + {c});
    forall r | r in w'.kv.live ensures EntryOk(w', r) {
      assert EntryOk(w, r);
    }
    forall d | d in w'.cands ensures CandOk(w', d) && LeadOk(w', d) {
      assert CandOk(w, d) && LeadOk(w, d);
    }
  }

  lemma StepKeeps(w: World, s: Step)
    requires Inv(w)
    ensures Inv(Apply(w, s))
  {
    match s
    case Join(c, role, holder) => if c !in w.cands { JoinKeeps(w, c, role, holder); }
    case Cancel(c) => CancelKeeps(w, c);
    case Expire(role) => ExpireKeeps(w, role);
    case Act(c, net, sawDone) => if c in w.cands { AdvanceKeeps(w, c, net, sawDone); }
  }

  lemma {:induction false} RunKeeps(steps: seq<Step>)
    ensures Inv(RunFrom(Init(), steps))
    decreases |steps|
  {
    if steps != [] {
      RunKeeps(steps[..|steps| - 1]);
      StepKeeps(RunFrom(Init(), steps[..|steps| - 1]), steps[|steps| - 1]);
    }
  }

  // ----- the theorems -----

  /** At most one candidate remembers the revision a role's entry currently has, and every
      remembered revision is positive, so a release is always fenced. */
  lemma OneCandidateKnowsTheEntry(steps: seq<Step>, w: World, c: Cid, d: Cid, role: Role)
    requires w == RunFrom(Init(), steps)
    requires c in w.cands && Remembered(w.cands[c].phase).Some?
    ensures Remembered(w.cands[c].phase).value > 0
    ensures role in w.kv.live && d in w.cands
      && Remembered(w.cands[c].phase).value == w.kv.live[role].rev
      && Remembered(w.cands[d].phase) == Remembered(w.cands[c].phase)
      ==> d == c && w.cands[c].role == role
  {
    RunKeeps(steps);
    assert CandOk(w, c);
    assert d in w.cands ==> CandOk(w, d);
    assert role in w.kv.live ==> EntryOk(w, role);
  }

  /** A release never removes a successor's entry, in any run. */
  lemma ReleaseNeverHitsSuccessor(steps: seq<Step>, w: World, c: Cid, net: Net, role: Role)
    requires w == RunFrom(Init(), steps)
    requires c in w.cands && w.cands[c].phase.Releasing?
    requires role in w.kv.live && role !in Apply(w, Act(c, net, false)).kv.live
    ensures w.kv.live[role].rev == w.cands[c].phase.rev
    ensures w.kv.live[role].rev in w.author && w.author[w.kv.live[role].rev] == c
  {
    RunKeeps(steps);
    ReleaseRemovesOwn(w, c, net);
    assert EntryOk(w, role);
  }

  /** Two candidates for a role are leader at once only if the entry of one of them expired in its
      current term. */
  lemma OneLeader(steps: seq<Step>, w: World, c: Cid, d: Cid)
    requires w == RunFrom(Init(), steps)
    requires IsLeader(w, c) && IsLeader(w, d) && w.cands[c].role == w.cands[d].role
    ensures c == d || c in w.expired || d in w.expired
  {
    RunKeeps(steps);
    assert LeadOk(w, c);
    assert LeadOk(w, d);
  }

  /** The rival creates the free entry and raises its flag. */
  function TakeOver(w: World, d: Cid): (w': World) {
    Apply(Apply(w, Act(d, Heard, false)), Act(d, Heard, false))
  }

  /** The condition is sharp: whenever an entry expires under a holder that leads, or has won and is
      not shutting down, any waiting rival that is not shutting down makes two leaders. */
  lemma ExpiryUnderHolderSplits(steps: seq<Step>, w: World, c: Cid, d: Cid)
    requires w == RunFrom(Init(), steps)
    requires Believes(w, c) && c !in w.expired && (w.cands[c].phase.Won? ==> c !in w.cancelled)
    requires d in w.cands && w.cands[d].role == w.cands[c].role
    requires w.cands[d].phase.Waiting? && d !in w.cancelled
    ensures var w1 := Apply(w, Expire(w.cands[c].role));
      var w2 := if w.cands[c].phase.Won? then Apply(w1, Act(c, Heard, false)) else w1;
      var w3 := TakeOver(w2, d);
      c != d && IsLeader(w3, c) && IsLeader(w3, d) && c in w3.expired
  {
    RunKeeps(steps);
    assert LeadOk(w, c);
    var w1 := Apply(w, Expire(w.cands[c].role));
    assert w.cands[c].role !in w1.kv.live && c in w1.expired;
  }

  // ----- a term nobody interferes with -----

  /** The candidate leads under an entry of its own at the revision it remembers. */
  ghost predicate Holds(w: World, c: Cid) {
    && c in w.cands && w.cands[c].phase.Leading?
    && var x := w.cands[c];
       x.role in w.kv.live && w.kv.live[x.role] == Entry(x.holder, x.phase.rev)
  }

  /** Only the candidate and its role's entry changed. */
  ghost predicate OnlyOwn(w: World, w': World, c: Cid) {
    && w'.cancelled == w.cancelled && w'.cands.Keys == w.cands.Keys && c in w.cands
    && w'.cands[c].role == w.cands[c].role && w'.cands[c].holder == w.cands[c].holder
    && (forall d :: d in w.cands && d != c ==> w'.cands[d] == w.cands[d])
    && (forall r :: r != w.cands[c].role ==> w'.kv.Get(r) == w.kv.Get(r))
  }

  /** A waiting candidate takes a free role in two steps and then holds it; a taken role stays as it is,
      and the candidate keeps waiting. */
  lemma CandidateTakesFreeRole(w: World, c: Cid)
    requires c in w.cands && w.cands[c].phase.Waiting? && c !in w.cancelled
    ensures var w' := TakeOver(w, c);
      if w.cands[c].role in w.kv.live then w'.kv == w.kv && w'.cands == w.cands
      else Holds(w', c) && IsLeader(w', c) && OnlyOwn(w, w', c)
  {
    var x := w.cands[c];
    var w1 := Apply(w, Act(c, Heard, false));
    if x.role in w.kv.live {
      assert w1.cands == w.cands && w1.kv == w.kv;
    } else {
      assert w1.cands[c].phase == Won(w.kv.last + 1) && w1.kv.live[x.role] == Entry(x.holder, w.kv.last + 1);
    }
  }

  function Renewals(w: World, c: Cid, n: nat): (w': World) {
    if n == 0 then w else Apply(Renewals(w, c, n - 1), Act(c, Heard, false))
  }

  lemma RenewalHolds(w: World, c: Cid)
    requires Holds(w, c)
    ensures var w' := Apply(w, Act(c, Heard, false)); Holds(w', c) && OnlyOwn(w, w', c) && w'.kv.last == w.kv.last + 1
  {
    assert Apply(w, Act(c, Heard, false)) == Goto(Write(w, c), c, Leading(w.kv.last + 1));
  }

  lemma OnlyOwnTransitive(w: World, w1: World, w2: World, c: Cid)
    requires OnlyOwn(w, w1, c) && OnlyOwn(w1, w2, c)
    ensures OnlyOwn(w, w2, c)
  {
  }

  /** However often it renews, the holder goes on leading, and each renewal writes the entry anew. */
  lemma {:induction false} HolderKeepsLeading(w: World, c: Cid, n: nat)
    requires Holds(w, c)
    ensures Holds(Renewals(w, c, n), c) && OnlyOwn(w, Renewals(w, c, n), c)
    ensures Renewals(w, c, n).kv.last == w.kv.last + n
    decreases n
  {
    if n > 0 {
      HolderKeepsLeading(w, c, n - 1);
      RenewalHolds(Renewals(w, c, n - 1), c);
      OnlyOwnTransitive(w, Renewals(w, c, n - 1), Renewals(w, c, n), c);
    }
  }

  /** A renewal that finds another entry, or none, ends the term and writes nothing. */
  lemma DispossessedHolderStops(w: World, c: Cid, net: Net, sawDone: bool)
    requires c in w.cands && w.cands[c].phase.Leading?
    requires var x := w.cands[c]; x.role !in w.kv.live || w.kv.live[x.role].rev != x.phase.rev
    ensures var w' := Apply(Apply(w, Act(c, net, sawDone)), Act(c, net, sawDone));
      w'.kv == w.kv && !IsLeader(w', c) && !Believes(w', c)
  {
    assert Apply(w, Act(c, net, sawDone)) == Goto(w, c, Losing(w.cands[c].phase.rev));
  }

  /** A cancelled holder's shutdown: it leaves the renew loop, lowers its flag, and releases. */
  function ShutDown(w: World, c: Cid): (w': World) {
    var a := Act(c, Heard, true);
    Apply(Apply(Apply(Apply(w, a), a), a), a)
  }

  lemma ShutDownFreesRole(w: World, c: Cid)
    requires Holds(w, c) && c in w.cancelled && w.cands[c].phase.rev > 0
    ensures var w' := ShutDown(w, c);
      w'.cands[c].phase == Stopped && w.cands[c].role !in w'.kv.live && OnlyOwn(w, w', c)
  {
    var a := Act(c, Heard, true);
    var rev := w.cands[c].phase.rev;
    var w1 := Apply(w, a);
    assert w1 == Goto(w, c, Losing(rev));
    var w2 := Apply(w1, a);
    assert w2 == Goto(w1, c, Cleared(rev));
    var w3 := Apply(w2, a);
    assert w3 == Goto(w2, c, Releasing(rev));
  }

  /** A whole term: whoever waits for a free role leads it through any number of renewals, and when shut
      down leaves it free again, with every other role and candidate as they were. */
  lemma UndisturbedTerm(w: World, c: Cid, n: nat)
    requires c in w.cands && w.cands[c].phase.Waiting? && c !in w.cancelled && w.cands[c].role !in w.kv.live
    ensures var led := Renewals(TakeOver(w, c), c, n);
      var ends := ShutDown(Apply(led, Cancel(c)), c);
      && IsLeader(led, c) && led.kv.Get(w.cands[c].role) == Some(Entry(w.cands[c].holder, led.kv.last))
      && c in ends.cands && ends.cands[c].phase == Stopped && !IsLeader(ends, c)
      && ends.kv.live == w.kv.live
  {
    CandidateTakesFreeRole(w, c);
    var first := TakeOver(w, c);
    HolderKeepsLeading(first, c, n);
    HolderIsLatest(w, c, n);
    var led := Renewals(first, c, n);
    ShutDownFreesRole(Apply(led, Cancel(c)), c);
    var ends := ShutDown(Apply(led, Cancel(c)), c);
    forall r ensures ends.kv.Get(r) == w.kv.Get(r) {
      assert r != w.cands[c].role ==> first.kv.Get(r) == w.kv.Get(r);
    }
    SameGets(ends.kv, w.kv);
  }

  lemma {:induction false} HolderIsLatest(w: World, c: Cid, n: nat)
    requires c in w.cands && w.cands[c].phase.Waiting? && c !in w.cancelled && w.cands[c].role !in w.kv.live
    ensures var led := Renewals(TakeOver(w, c), c, n); c in led.cands && led.cands[c].phase == Leading(led.kv.last)
    ensures Renewals(TakeOver(w, c), c, n).kv.last > 0
    decreases n
  {
    CandidateTakesFreeRole(w, c);
    if n > 0 {
      HolderIsLatest(w, c, n - 1);
      HolderKeepsLeading(TakeOver(w, c), c, n - 1);
      RenewalHolds(Renewals(TakeOver(w, c), c, n - 1), c);
    }
  }

  lemma SameGets(a: Bucket<Role, string>, b: Bucket<Role, string>)
    requires forall r :: a.Get(r) == b.Get(r)
    ensures a.live == b.live
  {
    forall r ensures r in a.live <==> r in b.live {
      assert a.Get(r) == b.Get(r);
    }
    forall r | r in a.live ensures a.live[r] == b.live[r] {
      assert a.Get(r) == b.Get(r);
    }
  }
}
