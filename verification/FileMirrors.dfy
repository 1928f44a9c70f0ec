/** A standby master's file mirrors: the bookkeeping under one lock that starts and stops them. */
module FileMirrors {
  import opened KeyValue

  type Ctx = nat

  /** The bookkeeping under the mirror lock. `live` holds the contexts of mirror watches and
      settings refreshes that are not cancelled, wherever they are referenced from. */
  datatype Mirrors = Mirrors(
    running: bool,
    cancels: seq<Option<Ctx>>,
    refresh: Option<Ctx>,
    live: set<Ctx>,
    next: Ctx)

  /** Every running context can be reached for cancelling, and none runs while stopped. */
  ghost predicate Accounted(m: Mirrors) {
    && (forall c :: c in m.live ==> c < m.next && (m.refresh == Some(c) || Some(c) in m.cancels))
    && (!m.running ==> m.live == {} && m.refresh.None? && forall i :: 0 <= i < |m.cancels| ==> m.cancels[i].None?)
  }

  function Fresh(first: Ctx, n: nat): (cs: seq<Option<Ctx>>)
    ensures |cs| == n
    ensures forall i :: 0 <= i < n ==> cs[i] == Some(first + i)
  {
    if n == 0 then [] else Fresh(first, n - 1) + [Some(first + n - 1)]
  }

  function Range(first: Ctx, n: nat): (cs: set<Ctx>)
    ensures forall c :: c in cs <==> first <= c < first + n
  {
    if n == 0 then {} else Range(first, n - 1) + {first + n - 1}
  }

  /** startFilesMirrors after its checks: one refresh and one watch per configured set. A
      context derived from a cancelled parent is born cancelled. */
  function Started(m: Mirrors, sets: nat, parentDone: bool): (m': Mirrors) {
    if m.running then m
    else Mirrors(true, Fresh(m.next + 1, sets), Some(m.next),
                 if parentDone then m.live else m.live + Range(m.next, sets + 1),
                 m.next + sets + 1)
  }

  /** stopFilesMirrors. */
  function StoppedSet(m: Mirrors): (m': Mirrors) {
    if !m.running then m
    else m.(running := false,
            cancels := seq(|m.cancels|, i => None),
            refresh := None,
            live := set c | c in m.live && m.refresh != Some(c) && Some(c) !in m.cancels)
  }

  /** Starting keeps every context reachable, and stopping then ends all of them: no watch or
      refresh is ever leaked. */
  lemma StartedAccounted(m: Mirrors, sets: nat, parentDone: bool)
    requires Accounted(m)
    ensures Accounted(Started(m, sets, parentDone))
  {
    var m' := Started(m, sets, parentDone);
    forall c | c in m'.live ensures c < m'.next && (m'.refresh == Some(c) || Some(c) in m'.cancels) {
      if !m.running && c != m.next {
        assert m'.cancels[c - m.next - 1] == Some(c);
      }
    }
  }

  lemma StoppedAccounted(m: Mirrors)
    requires Accounted(m)
    ensures Accounted(StoppedSet(m)) && StoppedSet(m).live == {} && !StoppedSet(m).running
  {
  }

  /** The daemon's mirror fields, changed in place under its lock. */
  class MirrorState {
    var running: bool
    var cancels: array<Option<Ctx>>
    var refresh: Option<Ctx>
    var live: set<Ctx>
    var next: Ctx

    ghost function View(): (m: Mirrors)
      reads this, cancels
    {
      Mirrors(running, cancels[..], refresh, live, next)
    }

    constructor ()
      ensures View() == Mirrors(false, [], None, {}, 0)
      ensures fresh(cancels)
    {
      running, refresh, live, next := false, None, {}, 0;
      cancels := new Option<Ctx>[0];
    }

    method Start(sets: nat, ctxDone: bool, leader: bool)
      modifies this
      ensures View() == if ctxDone || leader then old(View()) else Started(old(View()), sets, false)
      ensures fresh(cancels) || cancels == old(cancels)
      ensures ctxDone || leader || old(running) ==> View() == old(View())
      ensures !ctxDone && !leader && !old(running) ==>
        && running && refresh == Some(old(next)) && cancels.Length == sets && next == old(next) + sets + 1
        && (forall i :: 0 <= i < sets ==> cancels[i] == Some(old(next) + 1 + i))
        && (forall c :: c in live <==> c in old(live) || old(next) <= c <= old(next) + sets)
    {
      if ctxDone || leader || running {
        return;
      }
      ghost var was := View();
      refresh := Some(next);
      live := live + {next};
      next := next + 1;
      running := true;
      Watch(sets);
      assert live == was.live + Range(was.next, sets + 1);
    }

    /** One watch per file set. */
    method Watch(sets: nat)
      modifies this
      ensures fresh(cancels) && cancels[..] == Fresh(old(next), sets) && next == old(next) + sets
      ensures live == old(live) + Range(old(next), sets)
      ensures running == old(running) && refresh == old(refresh)
    {
      cancels := new Option<Ctx>[sets](_ => None);
      for i := 0 to sets
        invariant fresh(cancels) && cancels.Length == sets
        invariant running == old(running) && refresh == old(refresh) && next == old(next) + i
        invariant live == old(live) + Range(old(next), i)
        invariant forall k :: 0 <= k < i ==> cancels[k] == Some(old(next) + k)
      {
        cancels[i] := Some(next);
        live := live + {next};
        next := next + 1;
      }
    }

    method Stop()
      modifies this, cancels
      ensures View() == StoppedSet(old(View()))
      ensures cancels == old(cancels)
      ensures old(Accounted(View())) ==> live == {} && !running && refresh.None?
      ensures old(Accounted(View())) ==> forall i :: 0 <= i < cancels.Length ==> cancels[i].None?
    {
      if Accounted(View()) {
        StoppedAccounted(View());
      }
      if !running {
        return;
      }
      ghost var was := View();
      if refresh.Some? {
        live := live - {refresh.value};
        refresh := None;
      }
      for i := 0 to cancels.Length
        invariant cancels == old(cancels) && running && refresh.None? && next == was.next
        invariant forall k :: 0 <= k < i ==> cancels[k].None?
        invariant forall k :: i <= k < cancels.Length ==> cancels[k] == was.cancels[k]
        invariant live == set c | c in was.live && was.refresh != Some(c) && Some(c) !in was.cancels[..i]
      {
        if cancels[i].Some? {
          live := live - {cancels[i].value};
          cancels[i] := None;
        }
        assert was.cancels[..i + 1] == was.cancels[..i] + [was.cancels[i]];
      }
      running := false;
      assert was.cancels[..cancels.Length] == was.cancels;
      assert cancels[..] == seq(cancels.Length, i => None);
    }
  }
}
