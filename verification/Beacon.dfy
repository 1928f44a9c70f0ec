/** The peel's service beacon: baselines per service that turn state changes into events, and the
    bounded buffer that keeps events while they cannot be published. */
module Beacon {
  import opened KeyValue
  import Sequences

  datatype Event = Event(service: string, running: bool, previous: bool)

  // ----- the buffer -----

  datatype Fate = Published | Dropped

  /** The buffer with everything that ever went through it: all events in the order they were
      generated, and what became of those no longer buffered. */
  datatype Outbox = Outbox(buf: seq<Event>, generated: seq<Event>, fates: seq<Fate>, published: seq<Event>)

  function Delivered(events: seq<Event>, fates: seq<Fate>): (r: seq<Event>)
    requires |fates| <= |events|
    decreases |fates|
  {
    if fates == [] then []
    else
      var n := |fates| - 1;
      Delivered(events, fates[..n]) + (if fates[n].Published? then [events[n]] else [])
  }

  /** The buffer is a suffix of the generated events; every earlier one has its fate, and the
      published ones went out once each, in order. */
  ghost predicate Accounted(o: Outbox) {
    && |o.fates| + |o.buf| == |o.generated|
    && o.buf == o.generated[|o.fates|..]
    && o.published == Delivered(o.generated, o.fates)
  }

  /** The oldest buffered event leaves the buffer. */
  function Leave(o: Outbox, fate: Fate): (o': Outbox)
    requires o.buf != []
  {
    o.(buf := o.buf[1..], fates := o.fates + [fate],
       published := if fate.Published? then o.published + [o.buf[0]] else o.published)
  }

  function Enqueued(o: Outbox, cap: nat, ev: Event): (o': Outbox)
    requires cap > 0
  {
    var o1 := if |o.buf| >= cap then Leave(o, Dropped) else o;
    o1.(buf := o1.buf + [ev], generated := o1.generated + [ev])
  }

  function EnqueuedAll(o: Outbox, cap: nat, evs: seq<Event>): (o': Outbox)
    requires cap > 0
    decreases |evs|
  {
    if evs == [] then o else Enqueued(EnqueuedAll(o, cap, evs[..|evs| - 1]), cap, evs[|evs| - 1])
  }

  /** The `n` oldest events published, in order. */
  function Sent(o: Outbox, n: nat): (o': Outbox)
    requires n <= |o.buf|
  {
    o.(buf := o.buf[n..], fates := o.fates + seq(n, _ => Published), published := o.published + o.buf[..n])
  }

  /** Publishing from the front until the first failure; `up` says how many attempts get through. */
  function Flushed(o: Outbox, up: nat): (o': Outbox) {
    Sent(o, if up < |o.buf| then up else |o.buf|)
  }

  lemma {:induction false} DeliveredExtends(events: seq<Event>, more: seq<Event>, fates: seq<Fate>)
    requires |fates| <= |events|
    ensures Delivered(events + more, fates) == Delivered(events, fates)
    decreases |fates|
  {
    if fates != [] {
      DeliveredExtends(events, more, fates[..|fates| - 1]);
    }
  }

  lemma LeaveAccounted(o: Outbox, fate: Fate)
    requires Accounted(o) && o.buf != []
    ensures Accounted(Leave(o, fate)) && |Leave(o, fate).buf| == |o.buf| - 1
  {
    var o' := Leave(o, fate);
    assert o'.fates[..|o.fates|] == o.fates;
    assert o.buf[0] == o.generated[|o.fates|];
  }

  lemma EnqueuedAccounted(o: Outbox, cap: nat, ev: Event)
    requires cap > 0 && Accounted(o) && |o.buf| <= cap
    ensures Accounted(Enqueued(o, cap, ev)) && 0 < |Enqueued(o, cap, ev).buf| <= cap
  {
    var o1 := if |o.buf| >= cap then Leave(o, Dropped) else o;
    if |o.buf| >= cap {
      LeaveAccounted(o, Dropped);
    }
    DeliveredExtends(o1.generated, [ev], o1.fates);
    assert (o1.generated + [ev])[|o1.fates|..] == o1.generated[|o1.fates|..] + [ev];
  }

  lemma {:induction false} EnqueuedAllAccounted(o: Outbox, cap: nat, evs: seq<Event>)
    requires cap > 0 && Accounted(o) && |o.buf| <= cap
    ensures Accounted(EnqueuedAll(o, cap, evs)) && |EnqueuedAll(o, cap, evs).buf| <= cap
    ensures EnqueuedAll(o, cap, evs).generated == o.generated + evs
    decreases |evs|
  {
    if evs != [] {
      var n := |evs| - 1;
      EnqueuedAllAccounted(o, cap, evs[..n]);
      EnqueuedAccounted(EnqueuedAll(o, cap, evs[..n]), cap, evs[n]);
      assert evs == evs[..n] + [evs[n]];
    } else {
      assert o.generated + evs == o.generated;
    }
  }

  lemma SentNext(o: Outbox, n: nat)
    requires n < |o.buf|
    ensures Sent(o, n + 1) == Leave(Sent(o, n), Published)
  {
    assert o.buf[..n + 1] == o.buf[..n] + [o.buf[n]] && o.buf[n..][1..] == o.buf[n + 1..];
    assert seq(n + 1, _ => Published) == seq(n, _ => Published) + [Published];
    assert o.fates + (seq(n, _ => Published) + [Published]) == o.fates + seq(n, _ => Published) + [Published];
    assert o.published + (o.buf[..n] + [o.buf[n]]) == o.published + o.buf[..n] + [o.buf[n]];
  }

  lemma SentNone(o: Outbox)
    ensures Sent(o, 0) == o
  {
    assert o.fates + [] == o.fates && o.published + [] == o.published && o.buf[0..] == o.buf;
  }

  /** What publishing the oldest event keeps, a flush keeps. */
  lemma {:induction false} SentKeeps(p: Outbox -> bool, o: Outbox, n: nat)
    requires forall x: Outbox :: p(x) && x.buf != [] ==> p(Leave(x, Published))
    requires p(o) && n <= |o.buf|
    ensures p(Sent(o, n))
    decreases n
  {
    if n == 0 {
      SentNone(o);
    } else {
      SentKeeps(p, o, n - 1);
      SentNext(o, n - 1);
    }
  }

  lemma FlushedAccounted(o: Outbox, up: nat)
    requires Accounted(o)
    ensures Accounted(Flushed(o, up)) && |Flushed(o, up).buf| <= |o.buf|
    ensures Flushed(o, up).generated == o.generated
  {
    ghost var p := (x: Outbox) => Accounted(x) && |x.buf| <= |o.buf| && x.generated == o.generated;
    forall x: Outbox | p(x) && x.buf != [] ensures p(Leave(x, Published)) {
      LeaveAccounted(x, Published);
    }
    SentKeeps(p, o, if up < |o.buf| then up else |o.buf|);
  }

  /** A tick enqueues what the poll found and then flushes. */
  datatype Tick = Tick(events: seq<Event>, up: nat)

  function Ticked(o: Outbox, cap: nat, t: Tick): (o': Outbox)
    requires cap > 0
  {
    Flushed(EnqueuedAll(o, cap, t.events), t.up)
  }

  function AllEvents(ticks: seq<Tick>): (evs: seq<Event>)
    decreases |ticks|
  {
    if ticks == [] then [] else AllEvents(ticks[..|ticks| - 1]) + ticks[|ticks| - 1].events
  }

  function AfterTicks(cap: nat, ticks: seq<Tick>): (o: Outbox)
    requires cap > 0
    decreases |ticks|
  {
    if ticks == [] then Outbox([], [], [], [])
    else Ticked(AfterTicks(cap, ticks[..|ticks| - 1]), cap, ticks[|ticks| - 1])
  }

  /** After any sequence of ticks, whatever publishes failed: the buffer holds at most its
      capacity and is a suffix of all events ever generated; each earlier event was published
      exactly once, in order, or dropped when it was the oldest. */
  lemma {:induction false} NoEventUnaccounted(cap: nat, ticks: seq<Tick>)
    requires cap > 0
    ensures var o := AfterTicks(cap, ticks);
      Accounted(o) && |o.buf| <= cap && o.generated == AllEvents(ticks)
    decreases |ticks|
  {
    if ticks != [] {
      var n := |ticks| - 1;
      NoEventUnaccounted(cap, ticks[..n]);
      var o := AfterTicks(cap, ticks[..n]);
      EnqueuedAllAccounted(o, cap, ticks[n].events);
      FlushedAccounted(EnqueuedAll(o, cap, ticks[n].events), ticks[n].up);
    }
  }

  /** The last `cap` of a sequence, or all of it. */
  function Newest(evs: seq<Event>, cap: nat): (r: seq<Event>) {
    if |evs| <= cap then evs else evs[|evs| - cap..]
  }

  lemma NewestNext(all: seq<Event>, cap: nat, ev: Event)
    requires cap > 0
    ensures var kept := Newest(all, cap);
      (if |kept| >= cap then kept[1..] else kept) + [ev] == Newest(all + [ev], cap)
  {
    var kept, next := Newest(all, cap), Newest(all + [ev], cap);
    if |all| >= cap {
      assert |kept[1..] + [ev]| == |next| == cap;
      forall i | 0 <= i < cap ensures (kept[1..] + [ev])[i] == next[i] {
      }
    }
  }

  /** Enqueueing keeps the newest events and publishes nothing. */
  lemma {:induction false} EnqueueKeepsNewest(o: Outbox, cap: nat, evs: seq<Event>)
    requires cap > 0 && |o.buf| <= cap
    ensures EnqueuedAll(o, cap, evs).buf == Newest(o.buf + evs, cap)
    ensures EnqueuedAll(o, cap, evs).published == o.published
    decreases |evs|
  {
    if evs == [] {
      Sequences.AppendsNothing(o.buf);
    } else {
      var n := |evs| - 1;
      var rest, ev := evs[..n], evs[n];
      EnqueueKeepsNewest(o, cap, rest);
      NewestNext(o.buf + rest, cap, ev);
      assert evs == rest + [ev];
      Sequences.Associates(o.buf, rest, [ev]);
    }
  }

  /** A tick exactly: of what was buffered and what it adds, the newest that fit are kept, and of these as
      many as get through are published from the front, oldest first, while the rest stays. */
  ghost predicate Sends(o: Outbox, cap: nat, t: Tick, o': Outbox) {
    var kept := Newest(o.buf + t.events, cap);
    var n := if t.up < |kept| then t.up else |kept|;
    o'.published == o.published + kept[..n] && o'.buf == kept[n..]
  }

  lemma TickSends(o: Outbox, cap: nat, t: Tick)
    requires cap > 0 && |o.buf| <= cap
    ensures Sends(o, cap, t, Ticked(o, cap, t))
  {
    EnqueueKeepsNewest(o, cap, t.events);
  }

  /** As long as everything fits nothing is lost or reordered: what was published, followed by what is
      buffered, is everything generated. So once a tick gets all of it through, everything generated so
      far has been published, in order, and the buffer is empty. */
  lemma {:induction false} EverythingGetsThrough(cap: nat, ticks: seq<Tick>)
    requires cap > 0 && AllFit(cap, ticks)
    ensures var o := AfterTicks(cap, ticks); o.published + o.buf == AllEvents(ticks)
    ensures var n := |ticks| - 1;
      n >= 0 && ticks[n].up >= |AfterTicks(cap, ticks[..n]).buf| + |ticks[n].events| ==>
      AfterTicks(cap, ticks).published == AllEvents(ticks) && AfterTicks(cap, ticks).buf == []
    decreases |ticks|
  {
    if ticks != [] {
      var n := |ticks| - 1;
      EverythingGetsThrough(cap, ticks[..n]);
      NoEventUnaccounted(cap, ticks[..n]);
      FittingTick(AfterTicks(cap, ticks[..n]), cap, ticks[n]);
    }
  }

  lemma FittingTick(o: Outbox, cap: nat, t: Tick)
    requires cap > 0 && |o.buf| + |t.events| <= cap
    ensures var o' := Ticked(o, cap, t); o'.published + o'.buf == o.published + o.buf + t.events
    ensures t.up >= |o.buf| + |t.events| ==> Ticked(o, cap, t).buf == []
    ensures t.up >= |o.buf| + |t.events| ==> Ticked(o, cap, t).published == o.published + o.buf + t.events
  {
    TickSends(o, cap, t);
    var all := o.buf + t.events;
    var n := if t.up < |all| then t.up else |all|;
    Sequences.CutInTwo(all, n);
    Sequences.Associates(o.published, all[..n], all[n..]);
    Sequences.Associates(o.published, o.buf, t.events);
  }

  /** Every event that left the buffer was published. */
  ghost predicate NoneDropped(o: Outbox) {
    forall i :: 0 <= i < |o.fates| ==> o.fates[i].Published?
  }

  /** At every tick, what was still buffered and what it added fitted together. */
  ghost predicate AllFit(cap: nat, ticks: seq<Tick>)
    requires cap > 0
    decreases |ticks|
  {
    ticks == [] ||
    var n := |ticks| - 1;
    AllFit(cap, ticks[..n]) && |AfterTicks(cap, ticks[..n]).buf| + |ticks[n].events| <= cap
  }

  /** A drop happens under pressure and only then: nothing was ever dropped exactly if every tick's
      events fitted beside what was still buffered. */
  lemma {:induction false} NothingDroppedIff(cap: nat, ticks: seq<Tick>)
    requires cap > 0
    ensures NoneDropped(AfterTicks(cap, ticks)) <==> AllFit(cap, ticks)
    decreases |ticks|
  {
    if ticks != [] {
      var n := |ticks| - 1;
      NoEventUnaccounted(cap, ticks[..n]);
      NothingDroppedIff(cap, ticks[..n]);
      TickDrops(AfterTicks(cap, ticks[..n]), cap, ticks[n]);
    }
  }

  lemma TickDrops(o: Outbox, cap: nat, t: Tick)
    requires cap > 0 && |o.buf| <= cap
    ensures NoneDropped(Ticked(o, cap, t)) <==> NoneDropped(o) && |o.buf| + |t.events| <= cap
  {
    OverflowDrops(o, cap, t.events);
    FlushDropsNone(EnqueuedAll(o, cap, t.events), t.up);
  }

  lemma {:induction false} OverflowDrops(o: Outbox, cap: nat, evs: seq<Event>)
    requires cap > 0 && |o.buf| <= cap
    ensures NoneDropped(EnqueuedAll(o, cap, evs)) <==> NoneDropped(o) && |o.buf| + |evs| <= cap
    ensures |EnqueuedAll(o, cap, evs).buf| == if |o.buf| + |evs| <= cap then |o.buf| + |evs| else cap
    decreases |evs|
  {
    if evs != [] {
      var p := EnqueuedAll(o, cap, evs[..|evs| - 1]);
      OverflowDrops(o, cap, evs[..|evs| - 1]);
      assert |p.buf| >= cap ==> EnqueuedAll(o, cap, evs).fates[|p.fates|].Dropped?;
      assert NoneDropped(EnqueuedAll(o, cap, evs)) ==> NoneDropped(p);
    }
  }

  lemma FlushDropsNone(o: Outbox, up: nat)
    ensures NoneDropped(Flushed(o, up)) <==> NoneDropped(o)
  {
    var o' := Flushed(o, up);
    FlushKeepsFates(o, up);
    forall i | 0 <= i < |o.fates| ensures o'.fates[i] == o.fates[i] {
      assert o'.fates[..|o.fates|][i] == o.fates[i];
    }
  }

  lemma FlushKeepsFates(o: Outbox, up: nat)
    ensures |o.fates| <= |Flushed(o, up).fates| && Flushed(o, up).fates[..|o.fates|] == o.fates
    ensures forall i :: |o.fates| <= i < |Flushed(o, up).fates| ==> Flushed(o, up).fates[i].Published?
  {
  }

  // ----- the baselines -----

  datatype Config = Config(services: seq<string>, onChangeOnly: bool)

  datatype Polled = Polled(prev: map<string, bool>, events: seq<Event>)

  /** One service observed; None is a provider error, which keeps the old baseline. */
  function Observed(p: Polled, onChangeOnly: bool, name: string, reading: Option<bool>): (p': Polled) {
    match reading
    case None => p
    case Some(running) =>
      var seen := name in p.prev;
      var previous := if seen then p.prev[name] else running;
      var prev := p.prev[name := running];
      if onChangeOnly && (!seen || previous == running) then Polled(prev, p.events)
      else Polled(prev, p.events + [Event(name, running, previous)])
  }

  /** One poll: its configuration and what the provider answered for each service. */
  datatype Round = Round(cfg: Config, readings: seq<Option<bool>>)

  ghost predicate IsRound(r: Round) {
    |r.readings| == |r.cfg.services|
  }

  function ObservedTo(p: Polled, r: Round, k: nat): (p': Polled)
    requires IsRound(r) && k <= |r.readings|
  {
    if k == 0 then p
    else Observed(ObservedTo(p, r, k - 1), r.cfg.onChangeOnly, r.cfg.services[k - 1], r.readings[k - 1])
  }

  /** Baselines of services no longer configured are forgotten. */
  function Pruned(prev: map<string, bool>, services: seq<string>): (r: map<string, bool>) {
    map s | s in prev && s in services :: prev[s]
  }

  /** A poll, with its events appended to those of earlier polls. */
  function Poll(p: Polled, r: Round): (p': Polled)
    requires IsRound(r)
  {
    var o := ObservedTo(p, r, |r.readings|);
    Polled(Pruned(o.prev, r.cfg.services), o.events)
  }

  /** What a tick polls: nothing without configured services, while busy, or without a provider. */
  function TickPoll(prev: map<string, bool>, r: Option<Round>, busy: bool, hasProvider: bool): (p: Polled)
    requires r.Some? ==> IsRound(r.value)
  {
    if r.Some? && r.value.cfg.services != [] && !busy && hasProvider then Poll(Polled(prev, []), r.value)
    else Polled(prev, [])
  }

  function AfterRounds(rounds: seq<Round>): (p: Polled)
    requires forall i :: 0 <= i < |rounds| ==> IsRound(rounds[i])
    decreases |rounds|
  {
    if rounds == [] then Polled(map[], [])
    else Poll(AfterRounds(rounds[..|rounds| - 1]), rounds[|rounds| - 1])
  }

  /** The events of one service. */
  function Of(s: string, evs: seq<Event>): (r: seq<Event>)
    ensures forall i :: 0 <= i < |r| ==> r[i].service == s
    decreases |evs|
  {
    if evs == [] then []
    else
      var n := |evs| - 1;
      Of(s, evs[..n]) + (if evs[n].service == s then [evs[n]] else [])
  }

  lemma OfAppend(s: string, evs: seq<Event>, e: Event)
    ensures Of(s, evs + [e]) == Of(s, evs) + (if e.service == s then [e] else [])
  {
    assert (evs + [e])[..|evs|] == evs;
  }

  /** Every event is a change, and it starts from the state the one before it reported. */
  ghost predicate Chained(evs: seq<Event>) {
    && (forall i :: 0 <= i < |evs| ==> evs[i].previous != evs[i].running)
    && (forall i :: 0 < i < |evs| ==> evs[i].previous == evs[i - 1].running)
  }

  ghost predicate ChainOk(s: string, p: Polled) {
    var own := Of(s, p.events);
    Chained(own) && (own != [] ==> s in p.prev && p.prev[s] == own[|own| - 1].running)
  }

  /** One successful reading of a service, and whether the poll was in change-only mode. */
  datatype Reading = Reading(quiet: bool, running: bool)

  /** What one observation of `name` reads of service `s`. */
  function Reads(s: string, quiet: bool, name: string, reading: Option<bool>): (obs: seq<Reading>) {
    if name == s && reading.Some? then [Reading(quiet, reading.value)] else []
  }

  /** The readings of a service among the first `k` of a poll. */
  function ReadingsTo(s: string, r: Round, k: nat): (obs: seq<Reading>)
    requires IsRound(r) && k <= |r.readings|
  {
    if k == 0 then []
    else ReadingsTo(s, r, k - 1) + Reads(s, r.cfg.onChangeOnly, r.cfg.services[k - 1], r.readings[k - 1])
  }

  function AllReadings(s: string, rounds: seq<Round>): (obs: seq<Reading>)
    requires forall i :: 0 <= i < |rounds| ==> IsRound(rounds[i])
    decreases |rounds|
  {
    if rounds == [] then []
    else
      var n := |rounds| - 1;
      AllReadings(s, rounds[..n]) + ReadingsTo(s, rounds[n], |rounds[n].readings|)
  }

  /** The events a history of readings calls for: in change-only mode one for each reading that differs
      from the reading before it, else one for every reading; each tells the reading before it, and the
      first reading stands for itself. */
  ghost function Due(s: string, obs: seq<Reading>): (evs: seq<Event>)
    decreases |obs|
  {
    if obs == [] then []
    else
      var n := |obs| - 1;
      var before := if n == 0 then obs[n].running else obs[n - 1].running;
      Due(s, obs[..n]) +
      (if obs[n].running != before || !obs[n].quiet then [Event(s, obs[n].running, before)] else [])
  }

  /** The baseline is the last reading, and the events are those the readings call for. */
  ghost predicate Reports(s: string, p: Polled, obs: seq<Reading>) {
    && Of(s, p.events) == Due(s, obs)
    && (s in p.prev <==> obs != [])
    && (obs != [] ==> p.prev[s] == obs[|obs| - 1].running)
  }

  lemma DueNext(s: string, obs: seq<Reading>, x: Reading)
    ensures var before := if obs == [] then x.running else obs[|obs| - 1].running;
      Due(s, obs + [x]) == Due(s, obs) + (if x.running != before || !x.quiet then [Event(s, x.running, before)] else [])
  {
    assert (obs + [x])[..|obs|] == obs;
  }

  lemma ObservedReports(s: string, p: Polled, obs: seq<Reading>, quiet: bool, name: string, reading: Option<bool>)
    requires Reports(s, p, obs)
    ensures Reports(s, Observed(p, quiet, name, reading), obs + Reads(s, quiet, name, reading))
  {
    if reading.None? {
      Sequences.AppendsNothing(obs);
    } else if name != s {
      Sequences.AppendsNothing(obs);
      OtherObserved(s, p, quiet, name, reading.value);
    } else {
      DueNext(s, obs, Reading(quiet, reading.value));
      var previous := if name in p.prev then p.prev[name] else reading.value;
      OfAppend(s, p.events, Event(name, reading.value, previous));
      Sequences.AppendsNothing(Due(s, obs));
    }
  }

  lemma OtherObserved(s: string, p: Polled, quiet: bool, name: string, running: bool)
    requires name != s
    ensures var p' := Observed(p, quiet, name, Some(running));
      && Of(s, p'.events) == Of(s, p.events)
      && (s in p'.prev <==> s in p.prev) && (s in p.prev ==> p'.prev[s] == p.prev[s])
  {
    var previous := if name in p.prev then p.prev[name] else running;
    OfAppend(s, p.events, Event(name, running, previous));
    Sequences.AppendsNothing(Of(s, p.events));
  }

  lemma PrunedReports(s: string, p: Polled, obs: seq<Reading>, services: seq<string>)
    requires Reports(s, p, obs) && s in services
    ensures Reports(s, Polled(Pruned(p.prev, services), p.events), obs)
  {
  }

  /** What every observation of a history of readings keeps, and every pruning that keeps the service. */
  ghost predicate KeptByPolls(rep: (Polled, seq<Reading>) -> bool, s: string) {
    && (forall p, obs, quiet, name, reading :: rep(p, obs) ==>
          rep(Observed(p, quiet, name, reading), obs + Reads(s, quiet, name, reading)))
    && (forall p, obs, services :: rep(p, obs) && s in services ==>
          rep(Polled(Pruned(p.prev, services), p.events), obs))
  }

  lemma {:induction false} KeptTo(rep: (Polled, seq<Reading>) -> bool, s: string,
                                  p: Polled, obs: seq<Reading>, r: Round, k: nat)
    requires KeptByPolls(rep, s) && rep(p, obs) && IsRound(r) && k <= |r.readings|
    ensures rep(ObservedTo(p, r, k), obs + ReadingsTo(s, r, k))
  {
    if k == 0 {
      Sequences.AppendsNothing(obs);
    } else {
      KeptTo(rep, s, p, obs, r, k - 1);
      Sequences.Associates(obs, ReadingsTo(s, r, k - 1),
                           Reads(s, r.cfg.onChangeOnly, r.cfg.services[k - 1], r.readings[k - 1]));
    }
  }

  lemma {:induction false} KeptThroughout(rep: (Polled, seq<Reading>) -> bool, s: string, rounds: seq<Round>)
    requires forall i :: 0 <= i < |rounds| ==> IsRound(rounds[i]) && s in rounds[i].cfg.services
    requires KeptByPolls(rep, s) && rep(Polled(map[], []), [])
    ensures rep(AfterRounds(rounds), AllReadings(s, rounds))
    decreases |rounds|
  {
    if rounds != [] {
      var n := |rounds| - 1;
      KeptThroughout(rep, s, rounds[..n]);
      KeptTo(rep, s, AfterRounds(rounds[..n]), AllReadings(s, rounds[..n]), rounds[n], |rounds[n].readings|);
    }
  }

  /** The events of a service that stays configured are exactly those its readings call for, over any
      number of polls, provider errors, changes of mode and changes to the rest of the configuration: no
      change goes unreported and nothing else is reported. */
  lemma EventsExactly(s: string, rounds: seq<Round>)
    requires forall i :: 0 <= i < |rounds| ==> IsRound(rounds[i]) && s in rounds[i].cfg.services
    ensures Of(s, AfterRounds(rounds).events) == Due(s, AllReadings(s, rounds))
    ensures Reports(s, AfterRounds(rounds), AllReadings(s, rounds))
  {
    var rep := (p: Polled, obs: seq<Reading>) => Reports(s, p, obs);
    forall p, obs, quiet, name, reading | rep(p, obs)
      ensures rep(Observed(p, quiet, name, reading), obs + Reads(s, quiet, name, reading))
    {
      ObservedReports(s, p, obs, quiet, name, reading);
    }
    forall p, obs, services | rep(p, obs) && s in services
      ensures rep(Polled(Pruned(p.prev, services), p.events), obs)
    {
      PrunedReports(s, p, obs, services);
    }
    KeptThroughout(rep, s, rounds);
  }

  lemma ChainGrows(own: seq<Event>, e: Event)
    requires Chained(own) && e.previous != e.running && (own != [] ==> e.previous == own[|own| - 1].running)
    ensures Chained(own + [e])
  {
  }

  ghost predicate AllQuiet(obs: seq<Reading>) {
    forall i :: 0 <= i < |obs| ==> obs[i].quiet
  }

  /** The events change-only readings call for form a chain that ends in the last reading. */
  lemma {:induction false} DueChains(s: string, obs: seq<Reading>)
    requires AllQuiet(obs)
    ensures Chained(Due(s, obs))
    ensures Due(s, obs) != [] ==> obs != [] && Due(s, obs)[|Due(s, obs)| - 1].running == obs[|obs| - 1].running
    decreases |obs|
  {
    if obs != [] {
      var n := |obs| - 1;
      var x := obs[n];
      DueChains(s, obs[..n]);
      assert obs == obs[..n] + [x];
      DueNext(s, obs[..n], x);
      if n > 0 && x.running != obs[n - 1].running {
        ChainGrows(Due(s, obs[..n]), Event(s, x.running, obs[n - 1].running));
      } else {
        Sequences.AppendsNothing(Due(s, obs[..n]));
      }
    }
  }

  lemma {:induction false} QuietReadingsTo(s: string, r: Round, k: nat)
    requires IsRound(r) && k <= |r.readings| && r.cfg.onChangeOnly
    ensures AllQuiet(ReadingsTo(s, r, k))
  {
    if k > 0 {
      QuietReadingsTo(s, r, k - 1);
    }
  }

  lemma {:induction false} QuietReadings(s: string, rounds: seq<Round>)
    requires forall i :: 0 <= i < |rounds| ==> IsRound(rounds[i]) && rounds[i].cfg.onChangeOnly
    ensures AllQuiet(AllReadings(s, rounds))
    decreases |rounds|
  {
    if rounds != [] {
      var n := |rounds| - 1;
      QuietReadings(s, rounds[..n]);
      QuietReadingsTo(s, rounds[n], |rounds[n].readings|);
    }
  }

  /** In change-only mode the events of a service that stays configured form a chain, over any
      number of polls, provider errors and changes to the rest of the configuration. */
  lemma EventsChain(s: string, rounds: seq<Round>)
    requires forall i :: 0 <= i < |rounds| ==>
      IsRound(rounds[i]) && rounds[i].cfg.onChangeOnly && s in rounds[i].cfg.services
    ensures ChainOk(s, AfterRounds(rounds))
  {
    EventsExactly(s, rounds);
    QuietReadings(s, rounds);
    DueChains(s, AllReadings(s, rounds));
  }

  /** A poll that does not list a service forgets it, so its next observation is a baseline and
      emits nothing. */
  lemma ForgottenServiceRebaselines(p: Polled, r: Round, s: string, running: bool)
    requires IsRound(r) && s !in r.cfg.services
    ensures var p' := Poll(p, r);
      s !in p'.prev && Observed(p', true, s, Some(running)) == Polled(p'.prev[s := running], p'.events)
  {
  }

  // ----- the manager -----

  class Manager {
    const cap: nat
    const hasProvider: bool
    var buf: seq<Event>
    var prev: map<string, bool>
    var warnedNilService: bool
    ghost var generated: seq<Event>
    ghost var fates: seq<Fate>
    ghost var published: seq<Event>

    ghost predicate Valid()
      reads this
    {
      cap > 0 && Accounted(Box()) && |buf| <= cap
    }

    ghost function Box(): (o: Outbox)
      reads this
    {
      Outbox(buf, generated, fates, published)
    }

    constructor (cap: nat, hasProvider: bool)
      requires cap > 0
      ensures Valid() && Box() == Outbox([], [], [], []) && prev == map[] && !warnedNilService
      ensures this.cap == cap && this.hasProvider == hasProvider
    {
      this.cap := cap;
      this.hasProvider := hasProvider;
      buf, prev, warnedNilService := [], map[], false;
      generated, fates, published := [], [], [];
    }

    method Enqueue(ev: Event)
      requires Valid()
      modifies this`buf, this`generated, this`fates
      ensures Valid() && Box() == Enqueued(old(Box()), cap, ev)
      ensures buf == (if |old(buf)| < cap then old(buf) else old(buf)[1..]) + [ev]
    {
      EnqueuedAccounted(Box(), cap, ev);
      if |buf| >= cap {
        buf := buf[1..];
        fates := fates + [Dropped];
      }
      buf := buf + [ev];
      generated := generated + [ev];
    }

    /** `up` attempts to publish get through before one fails. */
    method Flush(up: nat)
      requires Valid()
      modifies this`buf, this`fates, this`published
      ensures Valid() && Box() == Flushed(old(Box()), up)
      ensures up < |old(buf)| ==> published == old(published) + old(buf)[..up] && buf == old(buf)[up..]
      ensures up >= |old(buf)| ==> published == old(published) + old(buf) && buf == []
    {
      var n := 0;
      ghost var was := Box();
      SentNone(was);
      while |buf| > 0 && n < up
        invariant Valid() && n <= up && n <= |was.buf| && Box() == Sent(was, n)
        decreases up - n
      {
        SentNext(was, n);
        PublishOldest();
        n := n + 1;
      }
    }

    method PublishOldest()
      requires Valid() && buf != []
      modifies this`buf, this`fates, this`published
      ensures Valid() && Box() == Leave(old(Box()), Published) && |buf| < |old(buf)|
    {
      LeaveAccounted(Box(), Published);
      published := published + [buf[0]];
      fates := fates + [Published];
      buf := buf[1..];
    }

    method PollServices(r: Round) returns (evs: seq<Event>)
      requires IsRound(r)
      modifies this`prev
      ensures Poll(Polled(old(prev), []), r) == Polled(prev, evs)
    {
      evs := [];
      for i := 0 to |r.cfg.services|
        invariant Polled(prev, evs) == ObservedTo(Polled(old(prev), []), r, i)
      {
        var name := r.cfg.services[i];
        if r.readings[i].Some? {
          var running := r.readings[i].value;
          var seen := name in prev;
          var prevRunning := running;
          if seen {
            prevRunning := prev[name];
          }
          prev := prev[name := running];
          if !(r.cfg.onChangeOnly && (!seen || prevRunning == running)) {
            evs := evs + [Event(name, running, prevRunning)];
          }
        }
      }
      Prune(r.cfg.services);
    }

    method Prune(services: seq<string>)
      modifies this`prev
      ensures prev == Pruned(old(prev), services)
    {
      var todo := prev.Keys;
      ghost var was := prev;
      while todo != {}
        invariant todo <= was.Keys
        invariant prev == map s | s in was && (s in todo || s in services) :: was[s]
        decreases todo
      {
        var s :| s in todo;
        if s !in services {
          prev := prev - {s};
        }
        todo := todo - {s};
      }
    }

    /** One tick. None is no service configuration; `busy` skips the poll but not the flush. */
    method DoTick(r: Option<Round>, busy: bool, up: nat)
      requires Valid() && (r.Some? ==> IsRound(r.value))
      modifies this
      ensures Valid()
      ensures var p := TickPoll(old(prev), r, busy, hasProvider);
        && prev == p.prev && Box() == Ticked(old(Box()), cap, Tick(p.events, up))
        && Sends(old(Box()), cap, Tick(p.events, up), Box())
      ensures warnedNilService ==
        (old(warnedNilService) || (r.Some? && r.value.cfg.services != [] && !busy && !hasProvider))
    {
      var evs := PollIfDue(r, busy);
      Deliver(evs, up);
    }

    method PollIfDue(r: Option<Round>, busy: bool) returns (evs: seq<Event>)
      requires Valid() && (r.Some? ==> IsRound(r.value))
      modifies this`prev, this`warnedNilService
      ensures Valid() && Box() == old(Box())
      ensures Polled(prev, evs) == TickPoll(old(prev), r, busy, hasProvider)
      ensures r.Some? && r.value.cfg.services != [] && !busy && hasProvider ==>
        Polled(prev, evs) == Poll(Polled(old(prev), []), r.value)
      ensures r.None? || r.value.cfg.services == [] || busy || !hasProvider ==> prev == old(prev) && evs == []
      ensures warnedNilService ==
        (old(warnedNilService) || (r.Some? && r.value.cfg.services != [] && !busy && !hasProvider))
    {
      evs := [];
      if r.Some? && r.value.cfg.services != [] && !busy {
        if !hasProvider {
          warnedNilService := true;
        } else {
          evs := PollServices(r.value);
        }
      }
    }

    method Deliver(evs: seq<Event>, up: nat)
      requires Valid()
      modifies this`buf, this`generated, this`fates, this`published
      ensures Valid() && Box() == Ticked(old(Box()), cap, Tick(evs, up))
      ensures Sends(old(Box()), cap, Tick(evs, up), Box())
    {
      TickSends(Box(), cap, Tick(evs, up));
      EnqueueAll(evs);
      Flush(up);
    }

    method EnqueueAll(evs: seq<Event>)
      requires Valid()
      modifies this`buf, this`generated, this`fates
      ensures Valid() && Box() == EnqueuedAll(old(Box()), cap, evs)
    {
      for i := 0 to |evs|
        invariant Valid() && Box() == EnqueuedAll(old(Box()), cap, evs[..i])
      {
        assert evs[..i + 1][..i] == evs[..i];
        Enqueue(evs[i]);
      }
      assert evs[..|evs|] == evs;
    }
  }
}
