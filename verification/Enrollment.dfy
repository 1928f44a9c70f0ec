/** Enrollment records, their life cycle, and the decisions the master takes about them. */
module Enrollment {
  import opened KeyValue

  type PeelId = string
  type Key = string
  type RecId = string
  type ChId = string
  type Time = int

  datatype State = Pending | Approved | Rejected | Issued | Active | Revoked

  datatype Record = Record(
    id: RecId,
    peel: PeelId,
    key: Key,
    state: State,
    mismatch: bool,
    decidedAt: Option<Time>,
    updatedAt: Time)

  /** Records are stored under their own identifier. */
  ghost predicate OwnIds(b: Bucket<RecId, Record>) {
    forall id :: id in b.live ==> b.live[id].value.id == id
  }

  /** The transition table. */
  function Successors(s: State): (next: set<State>)
  {
    match s
    case Pending => {Approved, Rejected}
    case Approved => {Issued, Revoked}
    case Issued => {Active, Revoked}
    case Active => {Revoked}
    case Rejected => {}
    case Revoked => {}
  }

  predicate CanTransition(s: State, target: State) {
    target in Successors(s)
  }

  /** What the table means: one step forward from pending over approved and issued to active, the
      rejection of what is pending, and the revocation of whatever was approved and not revoked yet. */
  lemma TableMeans(s: State, target: State)
    ensures CanTransition(s, target) <==>
      match target
      case Pending => false
      case Approved => s == Pending
      case Rejected => s == Pending
      case Issued => s == Approved
      case Active => s == Issued
      case Revoked => s == Approved || s == Issued || s == Active
  {
  }

  /** How far a state is along the life cycle. */
  function Rank(s: State): (r: nat) {
    match s
    case Pending => 0
    case Approved => 1
    case Issued => 2
    case Active => 3
    case Rejected => 4
    case Revoked => 4
  }

  /** A state history the table allows: it starts pending and follows the table. */
  ghost predicate IsPath(h: seq<State>) {
    && |h| > 0
    && h[0] == Pending
    && forall i :: 0 < i < |h| ==> CanTransition(h[i - 1], h[i])
  }

  /** The table has no way back: no state is entered twice. */
  lemma {:induction false} PathClimbs(h: seq<State>, i: nat, j: nat)
    requires IsPath(h)
    requires i < j < |h|
    ensures Rank(h[i]) < Rank(h[j])
    decreases j
  {
    if i < j - 1 {
      PathClimbs(h, i, j - 1);
    }
    assert CanTransition(h[j - 1], h[j]);
  }

  // ----- decisions on one record -----

  datatype Decision = Approve(force: bool) | Reject | MarkIssued | MarkActive | Revoke

  function Target(op: Decision): (s: State) {
    match op
    case Approve(_) => Approved
    case Reject => Rejected
    case MarkIssued => Issued
    case MarkActive => Active
    case Revoke => Revoked
  }

  /** What a store operation makes of the record it read; None is its refusal. */
  function Decide(rec: Record, op: Decision, now: Time): (r: Option<Record>) {
    if op.Approve? && rec.mismatch && !op.force then None
    else if !CanTransition(rec.state, Target(op)) then None
    else
      var decided := if op.MarkIssued? || op.MarkActive? then rec else rec.(decidedAt := Some(now));
      Some(decided.(state := Target(op), updatedAt := now))
  }

  /** Exactly which records an operation accepts, and the record it leaves: approve and reject take a
      pending record, and a flagged one is approved only by force; a record is issued once approved and
      active once issued; whatever was approved can be revoked. Identity and flag never change. */
  lemma DecisionsExactly(rec: Record, op: Decision, now: Time)
    ensures Decide(rec, op, now).Some? <==>
      match op
      case Approve(force) => rec.state == Pending && (force || !rec.mismatch)
      case Reject => rec.state == Pending
      case MarkIssued => rec.state == Approved
      case MarkActive => rec.state == Issued
      case Revoke => rec.state == Approved || rec.state == Issued || rec.state == Active
    ensures Decide(rec, op, now).Some? ==>
      && var made := Decide(rec, op, now).value;
      && made.id == rec.id && made.peel == rec.peel && made.key == rec.key && made.mismatch == rec.mismatch
      && made.updatedAt == now
      && made.decidedAt == (if op.MarkIssued? || op.MarkActive? then rec.decidedAt else Some(now))
      && match op
         case Approve(_) => made.state == Approved
         case Reject => made.state == Rejected
         case MarkIssued => made.state == Issued
         case MarkActive => made.state == Active
         case Revoke => made.state == Revoked
  {
  }

  /** The retirement of a superseded record. */
  function Retire(rec: Record, now: Time): (r: Option<Record>) {
    if !CanTransition(rec.state, Revoked) then None
    else Some(rec.(state := Revoked, decidedAt := Some(now), updatedAt := now))
  }

  /** A superseded record that was approved, issued or active is revoked, and keeps its identity; one
      that was still pending, or already rejected or revoked, is left alone. */
  lemma RetireRevokes(rec: Record, now: Time)
    ensures Retire(rec, now).Some? <==> rec.state == Approved || rec.state == Issued || rec.state == Active
    ensures Retire(rec, now).Some? ==>
      Retire(rec, now).value ==
      Record(rec.id, rec.peel, rec.key, Revoked, rec.mismatch, Some(now), now)
  {
  }

  /** What a reactor operation does after its own lookup. */
  datatype Reaction = Refuse | Duplicate | Call(op: Decision)

  function AppliedStates(op: Decision): (r: set<State>) {
    match op
    case Approve(_) => {Approved, Issued, Active}
    case Reject => {Rejected}
    case MarkIssued => {Issued}
    case MarkActive => {Active}
    case Revoke => {Revoked}
  }

  /** `op` is None for an operation name the reactor does not know. */
  function React(rec: Record, op: Option<Decision>, inScope: bool): (r: Reaction) {
    if !inScope then Refuse
    else match op
      case None => Refuse
      case Some(d) =>
        if !(d.Approve? || d.Reject? || d.Revoke?) then Refuse
        else if rec.state in AppliedStates(d) then Duplicate
        else if !CanTransition(rec.state, Target(d)) then Refuse
        else if d.Approve? && rec.mismatch then Refuse
        else Call(if d.Approve? then Approve(false) else d)
  }

  /** The record is one the operation still applies to: approve and reject want it pending, revoke wants
      it approved, issued or active. */
  ghost predicate Actionable(state: State, op: Decision) {
    match op
    case Approve(_) => state == Pending
    case Reject => state == Pending
    case Revoke => state == Approved || state == Issued || state == Active
    case _ => false
  }

  /** The record shows that the operation was applied before. */
  ghost predicate AlreadyApplied(state: State, op: Decision) {
    match op
    case Approve(_) => state == Approved || state == Issued || state == Active
    case Reject => state == Rejected
    case Revoke => state == Revoked
    case _ => false
  }

  /** What the reactor does with any record. A store call follows exactly if the operation is in scope
      and known and still applies, and is not the approval of a flagged record; the call is the
      operation itself and never forces. A duplicate is exactly an operation in scope whose effect the
      record shows; everything else is refused. */
  lemma ReactsExactly(rec: Record, op: Option<Decision>, inScope: bool)
    ensures React(rec, op, inScope).Call? <==>
      inScope && op.Some? && Actionable(rec.state, op.value) && !(op.value.Approve? && rec.mismatch)
    ensures React(rec, op, inScope).Call? ==>
      && var called := React(rec, op, inScope).op;
      && called != Approve(true)
      && (called.Approve? <==> op.value.Approve?)
      && (called.Reject? <==> op.value.Reject?)
      && (called.Revoke? <==> op.value.Revoke?)
    ensures React(rec, op, inScope).Duplicate? <==> inScope && op.Some? && AlreadyApplied(rec.state, op.value)
  {
  }

  /** Redelivering a reactor operation that took effect is always classified as a duplicate
      or refused, however far the record has moved since: it is never applied twice. */
  lemma RedeliveryNeverReapplies(rec: Record, op: Decision, inScope: bool, h: seq<State>)
    requires IsPath(h) && h[|h| - 1] == rec.state
    requires Target(op) in h
    ensures !React(rec, Some(op), inScope).Call?
    ensures inScope && (op.Reject? || op.Revoke? || (op.Approve? && rec.state != Revoked)) ==>
      React(rec, Some(op), inScope).Duplicate?
  {
    var i :| 0 <= i < |h| && h[i] == Target(op);
    var n := |h| - 1;
    if i < n {
      PathClimbs(h, i, n);
      assert CanTransition(h[n - 1], h[n]);
      if i < n - 1 {
        PathClimbs(h, i, n - 1);
      }
    }
  }

  // ----- the enrollment request -----

  datatype Challenge = Challenge(peel: PeelId, key: Key, expiresAt: Time, used: bool)

  /** `proved` and `bound` say whether the signatures over the challenge and over the reported CA
      verify; an empty `spki` is a request without a CA binding. */
  datatype Request = Request(
    peel: PeelId,
    key: Key,
    challenge: ChId,
    proved: bool,
    spki: string,
    bound: bool)

  function FoldChar(c: char): (r: char) {
    if 'A' <= c <= 'Z' then (c as int + 32) as char else c
  }

  function Fold(s: string): (r: string)
    ensures |r| == |s|
    ensures forall i :: 0 <= i < |s| ==> r[i] == FoldChar(s[i])
  {
    if s == "" then "" else [FoldChar(s[0])] + Fold(s[1..])
  }

  /** The same character, or the two cases of one letter from A to Z. */
  ghost predicate SameLetter(c: char, d: char) {
    || c == d
    || ('A' <= c <= 'Z' && d as int - c as int == 'a' as int - 'A' as int)
    || ('A' <= d <= 'Z' && c as int - d as int == 'a' as int - 'A' as int)
  }

  ghost predicate SameButCase(a: string, b: string) {
    |a| == |b| && forall i :: 0 <= i < |a| ==> SameLetter(a[i], b[i])
  }

  lemma SameLetterMeans(c: char, d: char)
    ensures FoldChar(c) == FoldChar(d) <==> SameLetter(c, d)
  {
  }

  lemma {:induction false} SameFolded(x: string, y: string)
    requires |x| == |y| && forall i :: 0 <= i < |x| ==> x[i] == y[i]
    ensures x == y
  {
  }

  /** Folding identifies exactly the strings that differ in the case of letters only. */
  lemma FoldIsSameButCase(a: string, b: string)
    ensures Fold(a) == Fold(b) <==> SameButCase(a, b)
  {
    var x, y := Fold(a), Fold(b);
    if |a| == |b| {
      forall i | 0 <= i < |a| ensures x[i] == y[i] <==> SameLetter(a[i], b[i]) {
        SameLetterMeans(a[i], b[i]);
      }
      if SameButCase(a, b) {
        SameFolded(x, y);
      }
    }
  }

  /** The trust gate: None refuses the request, Some(flag) is the record's mismatch flag.
      `pin` is the master's own root, "" on a master without an embedded CA. */
  function TrustGate(pin: string, req: Request): (r: Option<bool>)
    ensures r == Some(true) ==> pin != "" && req.spki != "" && req.bound
  {
    if req.spki == "" then (if pin != "" then None else Some(false))
    else if !req.bound then None
    else Some(pin != "" && Fold(pin) != Fold(req.spki))
  }

  /** What the gate means. A request is refused exactly if it reports a CA without proving the binding,
      or reports none to a master that has its own root. It is flagged exactly if it proves that it
      trusts something other than that root, where letter case does not count. So on such a master an
      unflagged request proved that it trusts exactly that root. */
  lemma GateMeans(pin: string, req: Request)
    ensures TrustGate(pin, req).None? <==> (if req.spki == "" then pin != "" else !req.bound)
    ensures TrustGate(pin, req) == Some(true) <==>
      pin != "" && req.spki != "" && req.bound && !SameButCase(pin, req.spki)
    ensures pin != "" ==>
      (TrustGate(pin, req) == Some(false) <==> req.spki != "" && req.bound && SameButCase(pin, req.spki))
  {
    FoldIsSameButCase(pin, req.spki);
  }

  /** The checks between consuming a challenge and looking the peel up. */
  function Admit(req: Request, ch: Challenge, pin: string): (r: Option<bool>) {
    if ch.peel != req.peel || ch.key != req.key then None
    else if !req.proved then None
    else TrustGate(pin, req)
  }

  /** The branch handleEnroll takes on the record the index led to. */
  datatype Plan = Answer | Replace | Free

  function PlanFor(existing: Record, req: Request): (r: Plan) {
    match existing.state
    case Pending => Answer
    case Approved => if existing.key != req.key then Answer else Replace
    case Issued => if existing.key != req.key then Answer else Replace
    case Active => if existing.key != req.key then Answer else Replace
    case Rejected => Free
    case Revoked => Free
  }

  function NewRecord(id: RecId, req: Request, mismatch: bool, now: Time): (r: Record) {
    Record(id, req.peel, req.key, Pending, mismatch, None, now)
  }
}
