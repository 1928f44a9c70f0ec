/** The credential revocation list: derived from all enrollment records, pushed to the server when
    it changed. */
module Revocation {
  import opened KeyValue
  import opened Enrollment
  import EnrollProtocol
  import EnrollLifecycle

  const ZeroTime: Time := 0
  const Second: Time := 1_000_000_000

  /** When a revoked record takes effect; a record without any time counts from now. */
  function RevokedAt(rec: Record, now: Time): (t: Time) {
    var at := if rec.decidedAt.Some? then rec.decidedAt.value else rec.updatedAt;
    if at == ZeroTime then now else at
  }

  /** Records that put their key on the list; `ok` says which keys are well formed. */
  predicate Counts(ok: Key -> bool, rec: Record) {
    rec.state.Revoked? && rec.key != "" && ok(rec.key)
  }

  type KeyTimes = map<Key, Time>

  function AddKey(keys: KeyTimes, ok: Key -> bool, rec: Record, now: Time): (r: KeyTimes) {
    if !Counts(ok, rec) then keys
    else
      var at := RevokedAt(rec, now);
      if rec.key in keys && keys[rec.key] >= at then keys else keys[rec.key := at]
  }

  /** The revoked keys with their times, from the records in listing order. */
  function RevokedKeys(ok: Key -> bool, recs: seq<Record>, now: Time): (r: KeyTimes)
    decreases |recs|
  {
    if recs == [] then map[]
    else AddKey(RevokedKeys(ok, recs[..|recs| - 1], now), ok, recs[|recs| - 1], now)
  }

  function AddLatest(latest: map<PeelId, Record>, rec: Record): (r: map<PeelId, Record>) {
    if rec.peel in latest && rec.updatedAt <= latest[rec.peel].updatedAt then latest else latest[rec.peel := rec]
  }

  /** The most recently updated record of each peel; the first listed one among equals. */
  function Latest(recs: seq<Record>): (r: map<PeelId, Record>)
    decreases |recs|
  {
    if recs == [] then map[] else AddLatest(Latest(recs[..|recs| - 1]), recs[|recs| - 1])
  }

  function RevokedPeels(recs: seq<Record>): (r: set<PeelId>) {
    var latest := Latest(recs);
    set p | p in latest && latest[p].state.Revoked?
  }

  // ----- what the list says -----

  /** A revoked record that carries this key, which is well formed. */
  ghost predicate Revokes(ok: Key -> bool, rec: Record, k: Key) {
    rec.state == Revoked && rec.key == k && k != "" && ok(k)
  }

  /** The record counts from its decision, without one from its last update, and if that time was never
      set from now. */
  ghost predicate TakesEffect(rec: Record, now: Time, at: Time) {
    match rec.decidedAt
    case Some(decided) => if decided != ZeroTime then at == decided else at == now
    case None => if rec.updatedAt != ZeroTime then at == rec.updatedAt else at == now
  }

  /** The key's time is the latest among the records that put it on the list. */
  ghost predicate IsLatestRevocation(ok: Key -> bool, recs: seq<Record>, now: Time, k: Key, at: Time) {
    && (exists i :: 0 <= i < |recs| && Revokes(ok, recs[i], k) && TakesEffect(recs[i], now, at))
    && (forall i, t :: 0 <= i < |recs| && Revokes(ok, recs[i], k) && TakesEffect(recs[i], now, t) ==> t <= at)
  }

  lemma CountsMeans(ok: Key -> bool, rec: Record, now: Time, k: Key, at: Time)
    ensures Counts(ok, rec) && rec.key == k <==> Revokes(ok, rec, k)
    ensures RevokedAt(rec, now) == at <==> TakesEffect(rec, now, at)
  {
  }

  lemma LatestRevocationNext(ok: Key -> bool, rest: seq<Record>, rec: Record, now: Time, k: Key, at: Time)
    requires IsLatestRevocation(ok, rest, now, k, at)
    requires forall t :: Revokes(ok, rec, k) && TakesEffect(rec, now, t) ==> t <= at
    ensures IsLatestRevocation(ok, rest + [rec], now, k, at)
  {
    var recs := rest + [rec];
    var i :| 0 <= i < |rest| && Revokes(ok, rest[i], k) && TakesEffect(rest[i], now, at);
    assert recs[i] == rest[i];
  }

  /** A key is on the list exactly if some revoked record carries it, at the latest such time. */
  lemma {:induction false} RevokedKeysMean(ok: Key -> bool, recs: seq<Record>, now: Time, k: Key)
    ensures k in RevokedKeys(ok, recs, now) <==> exists i :: 0 <= i < |recs| && Revokes(ok, recs[i], k)
    ensures k in RevokedKeys(ok, recs, now) ==>
      IsLatestRevocation(ok, recs, now, k, RevokedKeys(ok, recs, now)[k])
    decreases |recs|
  {
    if recs != [] {
      var n := |recs| - 1;
      var rest := recs[..n];
      RevokedKeysMean(ok, rest, now, k);
      assert recs == rest + [recs[n]];
      assert forall i :: 0 <= i < n ==> rest[i] == recs[i];
      KeyNext(ok, rest, recs[n], now, k);
    }
  }

  lemma KeyNext(ok: Key -> bool, rest: seq<Record>, rec: Record, now: Time, k: Key)
    requires k in RevokedKeys(ok, rest, now) <==> exists i :: 0 <= i < |rest| && Revokes(ok, rest[i], k)
    requires k in RevokedKeys(ok, rest, now) ==> IsLatestRevocation(ok, rest, now, k, RevokedKeys(ok, rest, now)[k])
    ensures var keys := AddKey(RevokedKeys(ok, rest, now), ok, rec, now);
      && (k in keys <==> k in RevokedKeys(ok, rest, now) || Revokes(ok, rec, k))
      && (k in keys ==> IsLatestRevocation(ok, rest + [rec], now, k, keys[k]))
  {
    var before := RevokedKeys(ok, rest, now);
    var keys := AddKey(before, ok, rec, now);
    CountsMeans(ok, rec, now, k, RevokedAt(rec, now));
    if k in keys && k in before && keys[k] == before[k] {
      LatestRevocationNext(ok, rest, rec, now, k, keys[k]);
    } else if k in keys {
      assert (rest + [rec])[|rest|] == rec;
    }
  }

  lemma LatestRevocationUnique(ok: Key -> bool, a: seq<Record>, b: seq<Record>, now: Time, k: Key, x: Time, y: Time)
    requires forall r :: r in a <==> r in b
    requires IsLatestRevocation(ok, a, now, k, x) && IsLatestRevocation(ok, b, now, k, y)
    ensures x == y
  {
    var i :| 0 <= i < |a| && Revokes(ok, a[i], k) && TakesEffect(a[i], now, x);
    var j :| 0 <= j < |b| && Revokes(ok, b[j], k) && TakesEffect(b[j], now, y);
    assert a[i] in b && b[j] in a;
  }

  lemma KeyListed(ok: Key -> bool, a: seq<Record>, b: seq<Record>, now: Time, k: Key)
    requires forall r :: r in a ==> r in b
    requires k in RevokedKeys(ok, a, now)
    ensures k in RevokedKeys(ok, b, now)
  {
    RevokedKeysMean(ok, a, now, k);
    RevokedKeysMean(ok, b, now, k);
    var i :| 0 <= i < |a| && Revokes(ok, a[i], k);
    assert a[i] in b;
  }

  /** The list does not depend on the order, or the repetition, in which records are listed. */
  lemma ListingOrderDoesNotMatter(ok: Key -> bool, a: seq<Record>, b: seq<Record>, now: Time)
    requires forall r :: r in a <==> r in b
    ensures RevokedKeys(ok, a, now) == RevokedKeys(ok, b, now)
  {
    var ka, kb := RevokedKeys(ok, a, now), RevokedKeys(ok, b, now);
    forall k ensures k in ka <==> k in kb {
      if k in ka {
        KeyListed(ok, a, b, now, k);
      }
      if k in kb {
        KeyListed(ok, b, a, now, k);
      }
    }
    forall k | k in ka ensures ka[k] == kb[k] {
      RevokedKeysMean(ok, a, now, k);
      RevokedKeysMean(ok, b, now, k);
      LatestRevocationUnique(ok, a, b, now, k, ka[k], kb[k]);
    }
  }

  // ----- the list over time -----

  /** All keys of `a` are in `b`, at times no earlier. */
  ghost predicate Advances(a: KeyTimes, b: KeyTimes) {
    forall k :: k in a ==> k in b && a[k] <= b[k]
  }

  /** Later records: every revoked one is still there, unchanged. */
  ghost predicate Evolves(a: seq<Record>, b: seq<Record>) {
    forall i :: 0 <= i < |a| && a[i].state.Revoked? ==> a[i] in b
  }

  /** As records evolve and the clock moves on, keys are only added and times only rise. */
  lemma ListOnlyGrows(ok: Key -> bool, a: seq<Record>, b: seq<Record>, now: Time, later: Time)
    requires Evolves(a, b) && now <= later
    ensures Advances(RevokedKeys(ok, a, now), RevokedKeys(ok, b, later))
  {
    forall k | k in RevokedKeys(ok, a, now)
      ensures k in RevokedKeys(ok, b, later) && RevokedKeys(ok, a, now)[k] <= RevokedKeys(ok, b, later)[k]
    {
      RevokedKeysMean(ok, a, now, k);
      RevokedKeysMean(ok, b, later, k);
      var i :| 0 <= i < |a| && Revokes(ok, a[i], k) && TakesEffect(a[i], now, RevokedKeys(ok, a, now)[k]);
      assert a[i] in b;
      var j :| 0 <= j < |b| && b[j] == a[i];
      assert Revokes(ok, b[j], k);
      CountsMeans(ok, b[j], later, k, RevokedAt(b[j], later));
    }
  }

  /** A complete listing of the stored records. */
  ghost predicate Lists(recs: seq<Record>, s: EnrollProtocol.Store) {
    && (forall r :: r in recs ==> exists id :: id in s.kv.live && s.kv.live[id].value == r)
    && (forall id :: id in s.kv.live ==> s.kv.live[id].value in recs)
  }

  /** No step of the run deletes a revoked record. */
  ghost predicate KeepsRevoked(ws: seq<EnrollProtocol.World>) {
    forall k, id {:trigger IsRevoked(ws[k].store, id)} ::
      0 <= k < |ws| - 1 && IsRevoked(ws[k].store, id) ==> id in ws[k + 1].store.kv.live
  }

  ghost predicate IsRevoked(s: EnrollProtocol.Store, id: RecId) {
    id in s.kv.live && s.kv.live[id].value.state.Revoked?
  }

  lemma {:induction false} RevokedStays(ws: seq<EnrollProtocol.World>, steps: seq<EnrollProtocol.Step>,
                                        i: nat, j: nat, id: RecId)
    requires EnrollProtocol.IsRun(ws, steps) && KeepsRevoked(ws) && i <= j < |ws| && IsRevoked(ws[i].store, id)
    ensures id in ws[j].store.kv.live && ws[j].store.kv.live[id] == ws[i].store.kv.live[id]
    decreases j
  {
    if i < j {
      RevokedStays(ws, steps, i, j - 1, id);
      assert IsRevoked(ws[j - 1].store, id);
      EnrollLifecycle.RunFreezes(ws, steps, j - 1, id);
    }
  }

  /** What complete listings see at two moments of a run. */
  lemma ListingsEvolve(ws: seq<EnrollProtocol.World>, steps: seq<EnrollProtocol.Step>,
                       i: nat, j: nat, a: seq<Record>, b: seq<Record>)
    requires EnrollProtocol.IsRun(ws, steps) && KeepsRevoked(ws) && i <= j < |ws|
    requires Lists(a, ws[i].store) && Lists(b, ws[j].store)
    ensures Evolves(a, b)
  {
    forall n | 0 <= n < |a| && a[n].state.Revoked? ensures a[n] in b {
      assert a[n] in a;
      var id :| id in ws[i].store.kv.live && ws[i].store.kv.live[id].value == a[n];
      RevokedStays(ws, steps, i, j, id);
      assert ws[j].store.kv.live[id].value in b;
    }
  }

  /** Over any run of the enrollment protocol in which no revoked record is deleted, the list
      derived from complete listings only grows. */
  lemma ListGrowsOverRuns(ok: Key -> bool, ws: seq<EnrollProtocol.World>, steps: seq<EnrollProtocol.Step>,
                          i: nat, j: nat, a: seq<Record>, b: seq<Record>, now: Time, later: Time)
    requires EnrollProtocol.IsRun(ws, steps) && KeepsRevoked(ws) && i <= j < |ws| && now <= later
    requires Lists(a, ws[i].store) && Lists(b, ws[j].store)
    ensures Advances(RevokedKeys(ok, a, now), RevokedKeys(ok, b, later))
  {
    ListingsEvolve(ws, steps, i, j, a, b);
    ListOnlyGrows(ok, a, b, now, later);
  }

  // ----- the soft-revoked peels -----

  /** No record of the same peel was updated later. */
  ghost predicate IsLatest(recs: seq<Record>, rec: Record) {
    rec in recs && forall r :: r in recs && r.peel == rec.peel ==> r.updatedAt <= rec.updatedAt
  }

  lemma {:induction false} LatestMeans(recs: seq<Record>, p: PeelId)
    ensures p in Latest(recs) <==> exists r :: r in recs && r.peel == p
    ensures p in Latest(recs) ==> Latest(recs)[p].peel == p && IsLatest(recs, Latest(recs)[p])
    decreases |recs|
  {
    if recs != [] {
      var n := |recs| - 1;
      LatestMeans(recs[..n], p);
      assert recs == recs[..n] + [recs[n]];
      if p in Latest(recs[..n]) {
        assert Latest(recs[..n])[p] in recs;
      }
      if recs[n].peel == p {
        assert recs[n] in recs;
      }
    }
  }

  /** The record at `i` is the current one of its peel: none of the peel's records was updated later, and
      none listed before it at the same time. */
  ghost predicate IsCurrent(recs: seq<Record>, i: nat)
    requires i < |recs|
  {
    && (forall j :: 0 <= j < |recs| && recs[j].peel == recs[i].peel ==> recs[j].updatedAt <= recs[i].updatedAt)
    && (forall j :: 0 <= j < i && recs[j].peel == recs[i].peel ==> recs[j].updatedAt != recs[i].updatedAt)
  }

  /** The peel's current record is revoked. */
  ghost predicate CurrentlyRevoked(recs: seq<Record>, p: PeelId) {
    exists i :: 0 <= i < |recs| && recs[i].peel == p && recs[i].state == Revoked && IsCurrent(recs, i)
  }

  lemma {:induction false} LatestIsCurrent(recs: seq<Record>, p: PeelId) returns (i: nat)
    requires p in Latest(recs)
    ensures i < |recs| && recs[i] == Latest(recs)[p] && recs[i].peel == p && IsCurrent(recs, i)
    decreases |recs|
  {
    var n := |recs| - 1;
    LatestMeans(recs[..n], p);
    if p in Latest(recs[..n]) && Latest(recs)[p] == Latest(recs[..n])[p] && !(recs[n].peel == p && recs[n].updatedAt >
      Latest(recs[..n])[p].updatedAt) {
      i := LatestIsCurrent(recs[..n], p);
      assert forall j :: 0 <= j < n ==> recs[j] == recs[..n][j];
    } else {
      i := n;
      assert forall j :: 0 <= j < n ==> recs[j] in recs[..n];
    }
  }

  /** A peel is soft-revoked exactly if its current record is revoked. */
  lemma RevokedPeelsMean(recs: seq<Record>, p: PeelId)
    ensures p in RevokedPeels(recs) <==> CurrentlyRevoked(recs, p)
  {
    LatestMeans(recs, p);
    if p in Latest(recs) {
      var i := LatestIsCurrent(recs, p);
      forall j | 0 <= j < |recs| && recs[j].peel == p && IsCurrent(recs, j) ensures j == i {
        assert recs[i].updatedAt == recs[j].updatedAt;
      }
    }
  }

  /** Two latest records of one peel disagree on whether it is revoked. */
  ghost predicate HasMixedTie(recs: seq<Record>) {
    exists x, y :: IsLatest(recs, x) && IsLatest(recs, y) && x.peel == y.peel
      && x.state.Revoked? && !y.state.Revoked?
  }

  lemma {:induction false} FirstLatestWins(r: Record, rest: seq<Record>)
    requires forall x :: x in rest && x.peel == r.peel ==> x.updatedAt <= r.updatedAt
    ensures r.peel in Latest([r] + rest) && Latest([r] + rest)[r.peel] == r
    decreases |rest|
  {
    if rest == [] {
      assert ([r] + rest)[..0] == [];
    } else {
      var n := |rest| - 1;
      FirstLatestWins(r, rest[..n]);
      assert ([r] + rest)[..|rest|] == [r] + rest[..n];
      assert rest[n] in rest;
    }
  }

  lemma ToFront(recs: seq<Record>, r: Record) returns (b: seq<Record>)
    requires IsLatest(recs, r)
    ensures multiset(b) == multiset(recs)
    ensures r.peel in Latest(b) && Latest(b)[r.peel] == r
  {
    var i :| 0 <= i < |recs| && recs[i] == r;
    var rest := recs[..i] + recs[i + 1..];
    b := [r] + rest;
    assert recs == recs[..i] + [recs[i]] + recs[i + 1..];
    FirstLatestWins(r, rest);
  }

  lemma SameElements(a: seq<Record>, b: seq<Record>)
    requires multiset(a) == multiset(b)
    ensures forall r :: r in a <==> r in b
  {
    assert forall r :: r in a <==> r in multiset(a);
    assert forall r :: r in b <==> r in multiset(b);
  }

  lemma SettledPeels(a: seq<Record>, b: seq<Record>)
    requires multiset(a) == multiset(b) && !HasMixedTie(a)
    ensures RevokedPeels(a) == RevokedPeels(b)
  {
    SameElements(a, b);
    forall p ensures p in RevokedPeels(a) <==> p in RevokedPeels(b) {
      LatestMeans(a, p);
      LatestMeans(b, p);
      if p in Latest(a) {
        assert IsLatest(a, Latest(b)[p]);
      }
    }
  }

  /** Which peels are soft-revoked depends on the listing order exactly when two latest records of
      a peel, updated at the same time, disagree. */
  lemma PeelsDependOnOrderIff(a: seq<Record>)
    ensures (exists b :: multiset(b) == multiset(a) && RevokedPeels(b) != RevokedPeels(a)) <==> HasMixedTie(a)
  {
    if HasMixedTie(a) {
      var x, y :| IsLatest(a, x) && IsLatest(a, y) && x.peel == y.peel && x.state.Revoked? && !y.state.Revoked?;
      var bx := ToFront(a, x);
      var by' := ToFront(a, y);
      assert x.peel in RevokedPeels(bx) && x.peel !in RevokedPeels(by');
    }
    forall b | multiset(b) == multiset(a) && RevokedPeels(b) != RevokedPeels(a) ensures HasMixedTie(a) {
      if !HasMixedTie(a) {
        SettledPeels(a, b);
      }
    }
  }

  // ----- pushing the list -----

  datatype Reply = Applied(server: string) | Skipped(server: string) | Refused

  /** How a push ends: it could not be signed, nobody could be reached, or servers answered. */
  datatype Push = Unsigned | Unreachable | Answered(replies: seq<Reply>)

  /** A push counts as accepted if at least one server answered and none rejected it. */
  predicate Accepted(p: Push) {
    p.Answered? && p.replies != [] && Reply.Refused !in p.replies
  }

  /** One sync: the listing (None if it failed), the clock, the force flag, and how a push would
      end. */
  datatype Round = Round(list: Option<seq<Record>>, now: Time, force: bool, push: Push)

  type Seconds = map<Key, int>

  /** The list in the server's terms, in whole seconds. */
  function Want(ok: Key -> bool, recs: seq<Record>, now: Time): (r: Seconds) {
    var keys := RevokedKeys(ok, recs, now);
    map k | k in keys :: keys[k] / Second
  }

  /** The time in whole seconds. */
  ghost predicate IsWhole(sec: int, at: Time) {
    sec * Second <= at < (sec + 1) * Second
  }

  ghost predicate IsSecondOf(ok: Key -> bool, recs: seq<Record>, now: Time, k: Key, sec: int) {
    exists at :: IsLatestRevocation(ok, recs, now, k, at) && IsWhole(sec, at)
  }

  /** The list to push for these records: exactly the keys of revoked records, each at the latest time
      one of them takes effect, in whole seconds. */
  ghost predicate IsListOf(want: Seconds, ok: Key -> bool, recs: seq<Record>, now: Time) {
    && (forall k :: k in want <==> exists i :: 0 <= i < |recs| && Revokes(ok, recs[i], k))
    && (forall k :: k in want ==> IsSecondOf(ok, recs, now, k, want[k]))
  }

  lemma WantMeans(ok: Key -> bool, recs: seq<Record>, now: Time)
    ensures IsListOf(Want(ok, recs, now), ok, recs, now)
  {
    var keys, want := RevokedKeys(ok, recs, now), Want(ok, recs, now);
    forall k ensures k in want <==> exists i :: 0 <= i < |recs| && Revokes(ok, recs[i], k) {
      RevokedKeysMean(ok, recs, now, k);
    }
    forall k | k in want ensures IsSecondOf(ok, recs, now, k, want[k]) {
      RevokedKeysMean(ok, recs, now, k);
      assert IsLatestRevocation(ok, recs, now, k, keys[k]) && IsWhole(want[k], keys[k]);
    }
  }

  lemma ListIsUnique(a: Seconds, b: Seconds, ok: Key -> bool, recs: seq<Record>, now: Time)
    requires IsListOf(a, ok, recs, now) && IsListOf(b, ok, recs, now)
    ensures a == b
  {
    forall k | k in a ensures k in b && a[k] == b[k] {
      var x :| IsLatestRevocation(ok, recs, now, k, x) && IsWhole(a[k], x);
      var y :| IsLatestRevocation(ok, recs, now, k, y) && IsWhole(b[k], y);
      LatestRevocationUnique(ok, recs, recs, now, k, x, y);
    }
  }

  /** A list a server took, with the round it came from. */
  datatype Taken = Taken(want: Seconds, round: nat)

  datatype State = State(
    lastPushed: Option<Seconds>,
    failed: bool,
    peels: set<PeelId>,
    rounds: nat,
    taken: seq<Taken>)

  function Initial(): (s: State) {
    State(None, false, {}, 0, [])
  }

  /** Whether this round sends anything. */
  predicate Sends(ok: Key -> bool, s: State, r: Round) {
    r.list.Some? && (r.force || s.lastPushed != Some(Want(ok, r.list.value, r.now)))
  }

  predicate Succeeds(ok: Key -> bool, s: State, r: Round) {
    r.list.Some? && (Sends(ok, s, r) ==> Accepted(r.push))
  }

  function Synced(ok: Key -> bool, s: State, r: Round): (s': State) {
    var s1 := s.(rounds := s.rounds + 1);
    if r.list.None? then s1.(failed := true)
    else
      var want := Want(ok, r.list.value, r.now);
      var s2 := s1.(peels := RevokedPeels(r.list.value));
      if !Sends(ok, s, r) then s2
      else if !Accepted(r.push) then s2.(failed := true)
      else s2.(lastPushed := Some(want), failed := false, taken := s.taken + [Taken(want, s.rounds)])
  }

  /** At least one server answered and none refused. */
  ghost predicate IsTaken(push: Push) {
    match push
    case Answered(replies) => |replies| > 0 && forall i :: 0 <= i < |replies| ==> !replies[i].Refused?
    case _ => false
  }

  /** What a sync comes to. Without a listing only the failure is noted. With one, exactly the peels whose
      current record is revoked are soft-revoked from now on. It succeeds exactly if servers took the
      push, or it is not forced and the list pushed last is still the one to push; then that list is the
      one pushed last, and otherwise the failure is noted and the list pushed last is what it was. */
  ghost predicate Settles(ok: Key -> bool, s: State, r: Round, s': State, success: bool) {
    match r.list
    case None => !success && s' == s.(failed := true, rounds := s.rounds + 1)
    case Some(recs) =>
      && (forall p :: p in s'.peels <==> CurrentlyRevoked(recs, p))
      && (success <==>
            IsTaken(r.push) || (!r.force && s.lastPushed.Some? && IsListOf(s.lastPushed.value, ok, recs, r.now)))
      && (success ==> s'.lastPushed.Some? && IsListOf(s'.lastPushed.value, ok, recs, r.now))
      && (success && s'.taken != s.taken ==> IsTaken(r.push) && !s'.failed)
      && (!success ==> s'.failed && s'.lastPushed == s.lastPushed && s'.taken == s.taken)
  }

  lemma SyncedMeans(ok: Key -> bool, s: State, r: Round)
    ensures Settles(ok, s, r, Synced(ok, s, r), Succeeds(ok, s, r))
  {
    if r.list.Some? {
      var recs := r.list.value;
      forall p ensures p in RevokedPeels(recs) <==> CurrentlyRevoked(recs, p) {
        RevokedPeelsMean(recs, p);
      }
      WantMeans(ok, recs, r.now);
      TakenMeans(r.push);
      if s.lastPushed.Some? && IsListOf(s.lastPushed.value, ok, recs, r.now) {
        ListIsUnique(s.lastPushed.value, Want(ok, recs, r.now), ok, recs, r.now);
      }
    }
  }

  lemma TakenMeans(push: Push)
    ensures Accepted(push) <==> IsTaken(push)
  {
    if push.Answered? && Reply.Refused in push.replies {
      var i :| 0 <= i < |push.replies| && push.replies[i] == Reply.Refused;
      assert push.replies[i].Refused?;
    }
  }

  function AfterRounds(ok: Key -> bool, rounds: seq<Round>): (s: State)
    decreases |rounds|
  {
    if rounds == [] then Initial() else Synced(ok, AfterRounds(ok, rounds[..|rounds| - 1]), rounds[|rounds| - 1])
  }

  /** The last list taken is remembered, and each taken list is the one derived in its round. */
  ghost predicate TakenOk(ok: Key -> bool, rounds: seq<Round>, s: State) {
    && s.rounds == |rounds|
    && (s.taken == [] ==> s.lastPushed.None?)
    && (s.taken != [] ==> s.lastPushed == Some(s.taken[|s.taken| - 1].want))
    && (forall x {:trigger EntryOk(ok, rounds, s.taken[x])} :: 0 <= x < |s.taken| ==> EntryOk(ok, rounds, s.taken[x]))
    && (forall x, y :: 0 <= x < y < |s.taken| ==> s.taken[x].round < s.taken[y].round)
  }

  /** A taken list is the one derived in its round. */
  ghost predicate EntryOk(ok: Key -> bool, rounds: seq<Round>, t: Taken) {
    && t.round < |rounds| && rounds[t.round].list.Some?
    && t.want == Want(ok, rounds[t.round].list.value, rounds[t.round].now)
  }

  lemma EntryStaysOk(ok: Key -> bool, rounds: seq<Round>, r: Round, t: Taken)
    requires EntryOk(ok, rounds, t)
    ensures EntryOk(ok, rounds + [r], t)
  {
    assert (rounds + [r])[t.round] == rounds[t.round];
  }

  lemma StepTakenOk(ok: Key -> bool, rounds: seq<Round>, s: State, r: Round)
    requires TakenOk(ok, rounds, s)
    ensures TakenOk(ok, rounds + [r], Synced(ok, s, r))
  {
    var s' := Synced(ok, s, r);
    var all := rounds + [r];
    assert all[|rounds|] == r;
    forall x | 0 <= x < |s'.taken| ensures EntryOk(ok, all, s'.taken[x]) {
      if x < |s.taken| {
        assert EntryOk(ok, rounds, s.taken[x]);
        EntryStaysOk(ok, rounds, r, s.taken[x]);
      }
    }
    forall x, y | 0 <= x < y < |s'.taken| ensures s'.taken[x].round < s'.taken[y].round {
      assert EntryOk(ok, rounds, s.taken[x]);
    }
  }

  lemma {:induction false} RunTakenOk(ok: Key -> bool, rounds: seq<Round>)
    ensures TakenOk(ok, rounds, AfterRounds(ok, rounds))
    decreases |rounds|
  {
    if rounds != [] {
      var n := |rounds| - 1;
      RunTakenOk(ok, rounds[..n]);
      StepTakenOk(ok, rounds[..n], AfterRounds(ok, rounds[..n]), rounds[n]);
      assert rounds == rounds[..n] + [rounds[n]];
    }
  }

  /** With one sync after the other: a round that succeeds leaves the server with exactly the list
      derived in it, and it sends nothing only if the last list the server took is that one. */
  lemma SyncSettlesTheList(ok: Key -> bool, rounds: seq<Round>, r: Round)
    requires r.list.Some? && Succeeds(ok, AfterRounds(ok, rounds), r)
    ensures var s, s' := AfterRounds(ok, rounds), AfterRounds(ok, rounds + [r]);
      var want := Want(ok, r.list.value, r.now);
      && s'.taken != [] && s'.taken[|s'.taken| - 1].want == want
      && (!Sends(ok, s, r) ==> s.taken != [] && s.taken[|s.taken| - 1].want == want)
  {
    RunTakenOk(ok, rounds);
    assert (rounds + [r])[..|rounds|] == rounds;
  }

  /** Between any two rounds revoked records stay and the clock does not go back. */
  ghost predicate IsHistory(rounds: seq<Round>) {
    forall i, j :: 0 <= i <= j < |rounds| && rounds[i].list.Some? && rounds[j].list.Some? ==>
      Evolves(rounds[i].list.value, rounds[j].list.value) && rounds[i].now <= rounds[j].now
  }

  ghost predicate SecondsAdvance(a: Seconds, b: Seconds) {
    forall k :: k in a ==> k in b && a[k] <= b[k]
  }

  /** The server never sees a revocation taken back: later lists contain all earlier ones. */
  lemma TakenListsOnlyGrow(ok: Key -> bool, rounds: seq<Round>, x: nat, y: nat)
    requires IsHistory(rounds) && x <= y < |AfterRounds(ok, rounds).taken|
    ensures SecondsAdvance(AfterRounds(ok, rounds).taken[x].want, AfterRounds(ok, rounds).taken[y].want)
  {
    RunTakenOk(ok, rounds);
    var s := AfterRounds(ok, rounds);
    assert EntryOk(ok, rounds, s.taken[x]) && EntryOk(ok, rounds, s.taken[y]);
    var a, b := rounds[s.taken[x].round], rounds[s.taken[y].round];
    ListOnlyGrows(ok, a.list.value, b.list.value, a.now, b.now);
    var ka, kb := RevokedKeys(ok, a.list.value, a.now), RevokedKeys(ok, b.list.value, b.now);
    forall k | k in ka ensures ka[k] / Second <= kb[k] / Second {
      WholeSeconds(ka[k], kb[k]);
    }
  }

  /** Round `r` of the syncer listed the store completely at moment `at[r]` of the run; moments and
      clock do not go back. */
  ghost predicate IsWatching(rounds: seq<Round>, at: seq<nat>, ws: seq<EnrollProtocol.World>) {
    && |at| == |rounds|
    && (forall r {:trigger rounds[r]} :: 0 <= r < |rounds| ==>
          at[r] < |ws| && (rounds[r].list.Some? ==> Lists(rounds[r].list.value, ws[at[r]].store)))
    && (forall q, r :: 0 <= q <= r < |rounds| ==> at[q] <= at[r] && rounds[q].now <= rounds[r].now)
  }

  /** A syncer watching a run of the enrollment protocol, while no revoked record is deleted: the
      server never sees a revocation taken back. */
  lemma TakenListsGrowOverRuns(ok: Key -> bool, ws: seq<EnrollProtocol.World>, steps: seq<EnrollProtocol.Step>,
                               rounds: seq<Round>, at: seq<nat>, x: nat, y: nat)
    requires EnrollProtocol.IsRun(ws, steps) && KeepsRevoked(ws) && IsWatching(rounds, at, ws)
    requires x <= y < |AfterRounds(ok, rounds).taken|
    ensures SecondsAdvance(AfterRounds(ok, rounds).taken[x].want, AfterRounds(ok, rounds).taken[y].want)
  {
    forall q, r | 0 <= q <= r < |rounds| && rounds[q].list.Some? && rounds[r].list.Some?
      ensures Evolves(rounds[q].list.value, rounds[r].list.value)
    {
      ListingsEvolve(ws, steps, at[q], at[r], rounds[q].list.value, rounds[r].list.value);
    }
    TakenListsOnlyGrow(ok, rounds, x, y);
  }

  lemma WholeSeconds(a: Time, b: Time)
    requires a <= b
    ensures a / Second <= b / Second
  {
  }

  // ----- the syncer -----

  class Syncer {
    const ok: Key -> bool
    var lastPushed: Option<Seconds>
    var failed: bool
    var revokedPeels: set<PeelId>
    ghost var rounds: nat
    ghost var taken: seq<Taken>

    ghost function View(): (s: State)
      reads this
    {
      State(lastPushed, failed, revokedPeels, rounds, taken)
    }

    constructor (ok: Key -> bool)
      ensures View() == Initial() && this.ok == ok
    {
      this.ok := ok;
      lastPushed, failed, revokedPeels, rounds, taken := None, false, {}, 0, [];
    }

    /** load: one pass over the listed records. */
    method Load(recs: seq<Record>, now: Time) returns (keys: KeyTimes, peels: set<PeelId>)
      ensures keys == RevokedKeys(ok, recs, now) && peels == RevokedPeels(recs)
      ensures forall k :: k in keys <==> exists i :: 0 <= i < |recs| && Revokes(ok, recs[i], k)
      ensures forall k :: k in keys ==> IsLatestRevocation(ok, recs, now, k, keys[k])
      ensures forall p :: p in peels <==> CurrentlyRevoked(recs, p)
    {
      keys := map[];
      var latest: map<PeelId, Record> := map[];
      for i := 0 to |recs|
        invariant keys == RevokedKeys(ok, recs[..i], now) && latest == Latest(recs[..i])
      {
        var rec := recs[i];
        assert recs[..i + 1][..i] == recs[..i];
        if rec.peel !in latest || rec.updatedAt > latest[rec.peel].updatedAt {
          latest := latest[rec.peel := rec];
        }
        if rec.state.Revoked? && rec.key != "" && ok(rec.key) {
          var at := rec.updatedAt;
          if rec.decidedAt.Some? {
            at := rec.decidedAt.value;
          }
          if at == ZeroTime {
            at := now;
          }
          if rec.key !in keys || at > keys[rec.key] {
            keys := keys[rec.key := at];
          }
        }
      }
      assert recs[..|recs|] == recs;
      peels := set p | p in latest && latest[p].state.Revoked?;
      forall k {
        RevokedKeysMean(ok, recs, now, k);
      }
      forall p {
        RevokedPeelsMean(recs, p);
      }
    }

    method Sync(r: Round) returns (success: bool)
      modifies this
      ensures View() == Synced(ok, old(View()), r)
      ensures Settles(ok, old(View()), r, View(), success)
      ensures r.list.Some? ==> forall p :: IsRevoked(p) <==> CurrentlyRevoked(r.list.value, p)
    {
      SyncedMeans(ok, View(), r);
      rounds := rounds + 1;
      if r.list.None? {
        failed := true;
        return false;
      }
      var keys, peels := Load(r.list.value, r.now);
      revokedPeels := peels;
      var want := map k | k in keys :: keys[k] / Second;
      if lastPushed == Some(want) && !r.force {
        return true;
      }
      if !Accepted(r.push) {
        failed := true;
        return false;
      }
      lastPushed := Some(want);
      failed := false;
      taken := taken + [Taken(want, rounds - 1)];
      success := true;
    }

    /** Takes effect at once; the next sync rebuilds the set. */
    method MarkRevoked(p: PeelId)
      modifies this`revokedPeels
      ensures revokedPeels == old(revokedPeels) + {p}
    {
      revokedPeels := revokedPeels + {p};
    }

    predicate IsRevoked(p: PeelId)
      reads this
    {
      p in revokedPeels
    }
  }
}
