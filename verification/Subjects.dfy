/** NATS subjects: wildcard matching, the subjects peels and masters build, and the publish
    grants a peel's credentials carry. */
module Subjects {
  import opened Dotted
  import Sequences
  import opened PeelId

  // ----- matching -----

  /** Token-wise matching: '*' takes one token, '>' one or more at the end. */
  predicate Matches(pt: seq<string>, st: seq<string>) {
    if pt == [] then st == []
    else if pt[0] == ">" then st != []
    else st != [] && (pt[0] == "*" || pt[0] == st[0]) && Matches(pt[1..], st[1..])
  }

  predicate Allows(pattern: string, subject: string) {
    Matches(Split(pattern), Split(subject))
  }

  predicate AnyAllows(grants: seq<string>, subject: string) {
    exists i :: 0 <= i < |grants| && Allows(grants[i], subject)
  }

  /** The string matcher. */
  method SubjectAllows(pattern: string, subject: string) returns (ok: bool)
    ensures ok == Allows(pattern, subject)
  {
    var pt, st := Split(pattern), Split(subject);
    var i := 0;
    assert pt[0..] == pt && st[0..] == st;
    while i < |pt|
      invariant 0 <= i <= |pt| && i <= |st|
      invariant Matches(pt, st) == Matches(pt[i..], st[i..])
    {
      if pt[i] == ">" {
        return i < |st|;
      }
      if i >= |st| {
        return false;
      }
      if pt[i] != "*" && pt[i] != st[i] {
        return false;
      }
      assert pt[i..][1..] == pt[i + 1..] && st[i..][1..] == st[i + 1..];
      i := i + 1;
    }
    ok := |pt| == |st|;
  }

  method AnyGrantAllows(grants: seq<string>, subject: string) returns (ok: bool)
    ensures ok == AnyAllows(grants, subject)
  {
    for i := 0 to |grants|
      invariant forall k :: 0 <= k < i ==> !Allows(grants[k], subject)
    {
      var hit := SubjectAllows(grants[i], subject);
      if hit {
        return true;
      }
    }
    ok := false;
  }

  // The reference: a pattern stands for the subjects got by putting tokens for its wildcards.

  ghost predicate Fills(p: string, part: seq<string>) {
    if p == ">" then |part| >= 1
    else if p == "*" then |part| == 1
    else part == [p]
  }

  function Concat(parts: seq<seq<string>>): (r: seq<string>) {
    if parts == [] then [] else parts[0] + Concat(parts[1..])
  }

  ghost predicate IsFilling(pt: seq<string>, parts: seq<seq<string>>) {
    |parts| == |pt| && forall i :: 0 <= i < |pt| ==> Fills(pt[i], parts[i])
  }

  /** '>' stands at the end or nowhere. */
  predicate IsWellFormed(pt: seq<string>) {
    forall i :: 0 <= i < |pt| - 1 ==> pt[i] != ">"
  }

  function Filling(pt: seq<string>, st: seq<string>): (parts: seq<seq<string>>) {
    if pt == [] || st == [] then []
    else if pt[0] == ">" then [st]
    else [[st[0]]] + Filling(pt[1..], st[1..])
  }

  lemma {:induction false} MatchHasFilling(pt: seq<string>, st: seq<string>)
    requires IsWellFormed(pt) && Matches(pt, st)
    ensures IsFilling(pt, Filling(pt, st)) && Concat(Filling(pt, st)) == st
  {
    if pt == [] {
    } else if pt[0] == ">" {
      assert |pt| == 1;
      assert [st][1..] == [];
    } else {
      MatchHasFilling(pt[1..], st[1..]);
      var parts := Filling(pt, st);
      assert parts[1..] == Filling(pt[1..], st[1..]);
      assert [st[0]] + st[1..] == st;
    }
  }

  lemma {:induction false} FillingMatches(pt: seq<string>, parts: seq<seq<string>>)
    requires IsWellFormed(pt) && IsFilling(pt, parts)
    ensures Matches(pt, Concat(parts))
  {
    if pt != [] {
      assert Fills(pt[0], parts[0]);
      FillingMatches(pt[1..], parts[1..]);
      var st := Concat(parts);
      if pt[0] != ">" {
        assert st[1..] == Concat(parts[1..]);
      }
    }
  }

  /** A pattern up to its first '>', where the matcher stops reading. */
  function Cut(pt: seq<string>): (r: seq<string>) {
    if pt == [] then [] else if pt[0] == ">" then [">"] else [pt[0]] + Cut(pt[1..])
  }

  lemma {:induction false} CutMatches(pt: seq<string>, st: seq<string>)
    ensures Matches(Cut(pt), st) <==> Matches(pt, st)
    ensures IsWellFormed(Cut(pt))
    ensures IsWellFormed(pt) ==> Cut(pt) == pt
  {
    if pt != [] && pt[0] != ">" {
      CutMatches(pt[1..], if st == [] then [] else st[1..]);
      assert Cut(pt)[1..] == Cut(pt[1..]);
    }
  }

  /** The matcher decides exactly whether the subject is an instance of the pattern, read up to
      its first '>'; in a well-formed pattern that is all of it. */
  lemma AllowsIffInstance(pattern: string, subject: string)
    ensures Allows(pattern, subject) <==>
      exists parts :: IsFilling(Cut(Split(pattern)), parts) && Concat(parts) == Split(subject)
    ensures IsWellFormed(Split(pattern)) ==> Cut(Split(pattern)) == Split(pattern)
  {
    var pt, st := Cut(Split(pattern)), Split(subject);
    CutMatches(Split(pattern), st);
    if Matches(pt, st) {
      MatchHasFilling(pt, st);
    }
    forall parts | IsFilling(pt, parts) && Concat(parts) == st ensures Matches(pt, st) {
      FillingMatches(pt, parts);
    }
  }

  // ----- what is published -----

  /** The subjects published in a peel's name: through the bus and into KV buckets. */
  datatype Message =
    | Bare
    | Beacon(name: string)
    | Send(tag: string)
    | FactSync
    | BasketData(fn: string)
    | Ack(jid: string)
    | Return(jid: string)
    | Schedule(jid: string)
    | KvFacts
    | KvBasket(fn: string)
    | KvHeartbeat
    | KvStatus

  /** A subject as its builder writes it: the parts with dots between them. */
  function Parts(m: Message, peel: string): (ts: seq<string>) {
    match m
    case Bare => ["zester", "event", peel]
    case Beacon(name) => ["zester", "event", peel, "beacon", name]
    case Send(tag) => ["zester", "event", peel, "send", tag]
    case FactSync => ["zester", "fact", peel]
    case BasketData(fn) => ["zester", "basket", peel, fn]
    case Ack(jid) => ["zester", "job", jid, "ack", peel]
    case Return(jid) => ["zester", "job", jid, "return", peel]
    case Schedule(jid) => ["zester", "job", jid, "schedule", peel]
    case KvFacts => ["$KV", "facts", peel]
    case KvBasket(fn) => ["$KV", "basket", peel, fn]
    case KvHeartbeat => ["$KV", "peel-heartbeat", peel]
    case KvStatus => ["$KV", "update-status", "peel", peel]
  }

  function Subject(m: Message, peel: string): (s: string) {
    Join(Parts(m, peel))
  }

  function MasterEvent(tag: string): (s: string) {
    Join(["zester", "event", "_master", tag])
  }

  function AdminEventSend(tag: string): (s: string) {
    Join(["zester", "event", "_admin", "send", tag])
  }

  lemma PeelIdIsToken(id: string)
    requires IsPeelId(id)
    ensures DotFree(id) && Split(id) == [id] && id != "*" && id != ">" && id != "_master" && id != "_admin"
  {
    forall i | 0 <= i < |id| ensures id[i] != '.' {
      assert IsPeelByte(id[i]);
    }
    SplitDotFree(id);
  }

  // ----- what a peel may publish -----

  function OwnGrants(peel: string): (gs: seq<seq<string>>) {
    [["zester", "event", peel, ">"],
     ["zester", "fact", peel],
     ["zester", "job", "*", "ack", peel],
     ["zester", "job", "*", "return", peel],
     ["zester", "job", "*", "schedule", peel]]
  }

  /** Reading and watching one stream. */
  function StreamGrants(stream: string): (gs: seq<seq<string>>) {
    [["$JS", "API", "STREAM", "INFO", stream],
     ["$JS", "API", "DIRECT", "GET", stream, ">"],
     ["$JS", "API", "STREAM", "MSG", "GET", stream],
     ["$JS", "API", "CONSUMER", "CREATE", stream],
     ["$JS", "API", "CONSUMER", "CREATE", stream, ">"],
     ["$JS", "API", "CONSUMER", "DELETE", stream, ">"]]
  }

  function FlowGrants(): (gs: seq<seq<string>>) {
    [["$JS", "FC", "OBJ_update-binaries", ">"],
     ["$JS", "FC", "KV_settings-files", ">"],
     ["$JS", "FC", "KV_state-files", ">"],
     ["$JS", "FC", "KV_secrets", ">"],
     ["$JS", "FC", "KV_basket", ">"],
     ["$JS", "FC", "KV_facts", ">"]]
  }

  function BucketGrants(peel: string): (gs: seq<seq<string>>) {
    [["$KV", "basket", peel, ">"],
     ["$KV", "facts", peel],
     ["$KV", "peel-heartbeat", peel],
     ["$KV", "update-status", "peel", peel]]
  }

  function ApiGrants(): (gs: seq<seq<string>>) {
    StreamGrants("KV_facts") + StreamGrants("KV_settings-files") + StreamGrants("KV_secrets")
    + StreamGrants("KV_basket") + StreamGrants("KV_state-files")
    + [["$JS", "API", "STREAM", "INFO", "KV_peel-heartbeat"], ["$JS", "API", "STREAM", "INFO", "KV_update-status"]]
    + StreamGrants("OBJ_update-binaries") + FlowGrants()
  }

  /** The publish grants in the order of the credential template, as token lists. */
  function GrantTokens(peel: string): (gs: seq<seq<string>>) {
    OwnGrants(peel) + [["zester", "target", "resolve"]] + ApiGrants() + BucketGrants(peel) + [["_INBOX", ">"]]
  }

  function JoinAll(gs: seq<seq<string>>): (r: seq<string>)
    ensures |r| == |gs|
    ensures forall i :: 0 <= i < |gs| ==> r[i] == Join(gs[i])
  {
    if gs == [] then [] else [Join(gs[0])] + JoinAll(gs[1..])
  }

  function PublishGrants(peel: string): (r: seq<string>) {
    JoinAll(GrantTokens(peel))
  }

  predicate AreTokens(g: seq<string>) {
    g != [] && forall i :: 0 <= i < |g| ==> DotFree(g[i])
  }

  /** A grant on the JetStream API or on inboxes, which no subject above can fall under. */
  predicate IsPlumbing(g: seq<string>) {
    AreTokens(g) && g[0] in {"$JS", "_INBOX"}
  }

  ghost predicate AllPlumbing(gs: seq<seq<string>>) {
    forall i :: 0 <= i < |gs| ==> IsPlumbing(gs[i])
  }

  lemma ApiWords()
    ensures DotFree("$JS") && DotFree("API") && DotFree("STREAM") && DotFree("INFO") && DotFree("DIRECT")
    ensures DotFree("GET") && DotFree("MSG") && DotFree("CONSUMER") && DotFree("CREATE") && DotFree("DELETE")
    ensures DotFree(">") && DotFree("FC")
  {
  }

  lemma StreamNames()
    ensures DotFree("KV_facts") && DotFree("KV_settings-files") && DotFree("KV_secrets") && DotFree("KV_basket")
    ensures DotFree("KV_state-files") && DotFree("OBJ_update-binaries")
    ensures DotFree("KV_peel-heartbeat") && DotFree("KV_update-status")
  {
  }

  lemma StreamGrantsArePlumbing(stream: string)
    requires DotFree(stream)
    ensures AllPlumbing(StreamGrants(stream))
  {
    ApiWords();
  }

  lemma ApiGrantsArePlumbing()
    ensures AllPlumbing(ApiGrants())
  {
    StreamNames();
    ApiWords();
    StreamGrantsArePlumbing("KV_facts");
    StreamGrantsArePlumbing("KV_settings-files");
    StreamGrantsArePlumbing("KV_secrets");
    StreamGrantsArePlumbing("KV_basket");
    StreamGrantsArePlumbing("KV_state-files");
    StreamGrantsArePlumbing("OBJ_update-binaries");
    var info := [["$JS", "API", "STREAM", "INFO", "KV_peel-heartbeat"],
                 ["$JS", "API", "STREAM", "INFO", "KV_update-status"]];
    assert AllPlumbing(info);
    assert AllPlumbing(FlowGrants());
    var a := StreamGrants("KV_facts") + StreamGrants("KV_settings-files");
    AppendPlumbing(StreamGrants("KV_facts"), StreamGrants("KV_settings-files"));
    AppendPlumbing(a, StreamGrants("KV_secrets"));
    var b := a + StreamGrants("KV_secrets");
    AppendPlumbing(b, StreamGrants("KV_basket"));
    var c := b + StreamGrants("KV_basket");
    AppendPlumbing(c, StreamGrants("KV_state-files"));
    var d := c + StreamGrants("KV_state-files");
    AppendPlumbing(d, info);
    AppendPlumbing(d + info, StreamGrants("OBJ_update-binaries"));
    AppendPlumbing(d + info + StreamGrants("OBJ_update-binaries"), FlowGrants());
  }

  lemma AppendPlumbing(a: seq<seq<string>>, b: seq<seq<string>>)
    requires AllPlumbing(a) && AllPlumbing(b)
    ensures AllPlumbing(a + b)
  {
  }

  // ----- which grant covers which subject -----

  /** A pattern without '>' matches token by token. */
  lemma {:induction false} MatchIsPointwise(pt: seq<string>, st: seq<string>)
    requires Matches(pt, st) && ">" !in pt
    ensures |st| == |pt| && forall i :: 0 <= i < |pt| ==> pt[i] == "*" || pt[i] == st[i]
  {
    if pt != [] {
      assert pt[0] in pt;
      MatchIsPointwise(pt[1..], st[1..]);
    }
  }

  /** A pattern that ends in '>' matches token by token before it. */
  lemma {:induction false} TailMatchIsPointwise(pt: seq<string>, st: seq<string>)
    requires Matches(pt + [">"], st) && ">" !in pt
    ensures |st| > |pt| && forall i :: 0 <= i < |pt| ==> pt[i] == "*" || pt[i] == st[i]
  {
    if pt != [] {
      assert pt[0] in pt;
      assert (pt + [">"])[1..] == pt[1..] + [">"];
      TailMatchIsPointwise(pt[1..], st[1..]);
    }
  }

  lemma {:induction false} PointwiseMatches(pt: seq<string>, st: seq<string>)
    requires |st| == |pt| && forall i :: 0 <= i < |pt| ==> pt[i] != ">" && (pt[i] == "*" || pt[i] == st[i])
    ensures Matches(pt, st)
  {
    if pt != [] {
      PointwiseMatches(pt[1..], st[1..]);
    }
  }

  lemma {:induction false} PointwiseTailMatches(pt: seq<string>, st: seq<string>)
    requires |st| > |pt| && forall i :: 0 <= i < |pt| ==> pt[i] != ">" && (pt[i] == "*" || pt[i] == st[i])
    ensures Matches(pt + [">"], st)
  {
    if pt != [] {
      assert (pt + [">"])[1..] == pt[1..] + [">"];
      PointwiseTailMatches(pt[1..], st[1..]);
    }
  }

  /** The tokens of a subject, read off its parts. */
  function Tokens(m: Message, peel: string): (ts: seq<string>)
    ensures |ts| >= 3
  {
    match m
    case Bare => ["zester", "event", peel]
    case Beacon(name) => ["zester", "event", peel, "beacon"] + Split(name)
    case Send(tag) => ["zester", "event", peel, "send"] + Split(tag)
    case FactSync => ["zester", "fact", peel]
    case BasketData(fn) => ["zester", "basket", peel] + Split(fn)
    case Ack(jid) => ["zester", "job"] + Split(jid) + ["ack", peel]
    case Return(jid) => ["zester", "job"] + Split(jid) + ["return", peel]
    case Schedule(jid) => ["zester", "job"] + Split(jid) + ["schedule", peel]
    case KvFacts => ["$KV", "facts", peel]
    case KvBasket(fn) => ["$KV", "basket", peel] + Split(fn)
    case KvHeartbeat => ["$KV", "peel-heartbeat", peel]
    case KvStatus => ["$KV", "update-status", "peel", peel]
  }

  /** A subject whose last part may hold dots. */
  lemma SplitTail(lead: seq<string>, tail: string)
    requires forall i :: 0 <= i < |lead| ==> DotFree(lead[i])
    ensures Split(Join(lead + [tail])) == lead + Split(tail)
  {
    SplitLead(lead, [tail]);
  }

  lemma SplitFront(mid: string, kind: string, peel: string)
    requires DotFree(kind) && DotFree(peel)
    ensures Split(Join([mid, kind, peel])) == Split(mid) + [kind, peel]
  {
    assert [mid, kind, peel][1..] == [kind, peel];
    SplitAt(mid, Join([kind, peel]));
    SplitOfJoin([kind, peel]);
  }

  /** A job subject, whose middle part may hold dots. */
  lemma SplitJob(lead: seq<string>, mid: string, kind: string, peel: string)
    requires DotFree(kind) && DotFree(peel) && forall i :: 0 <= i < |lead| ==> DotFree(lead[i])
    ensures Split(Join(lead + [mid, kind, peel])) == lead + Split(mid) + [kind, peel]
  {
    SplitLead(lead, [mid, kind, peel]);
    SplitFront(mid, kind, peel);
  }

  lemma EventTokens(m: Message, peel: string)
    requires IsPeelId(peel) && (m.Bare? || m.Beacon? || m.Send?)
    ensures Split(Subject(m, peel)) == Tokens(m, peel)
  {
    PeelIdIsToken(peel);
    assert Split(peel) == [peel];
    match m
    case Bare =>
      assert Parts(m, peel) == ["zester", "event"] + [peel];
      SplitTail(["zester", "event"], peel);
    case Beacon(name) =>
      assert Parts(m, peel) == ["zester", "event", peel, "beacon"] + [name];
      SplitTail(["zester", "event", peel, "beacon"], name);
    case Send(tag) =>
      assert Parts(m, peel) == ["zester", "event", peel, "send"] + [tag];
      SplitTail(["zester", "event", peel, "send"], tag);
  }

  lemma DataTokens(m: Message, peel: string)
    requires IsPeelId(peel) && (m.FactSync? || m.BasketData? || m.KvFacts?)
    ensures Split(Subject(m, peel)) == Tokens(m, peel)
  {
    PeelIdIsToken(peel);
    assert Split(peel) == [peel];
    match m
    case FactSync =>
      assert Parts(m, peel) == ["zester", "fact"] + [peel];
      SplitTail(["zester", "fact"], peel);
    case BasketData(fn) =>
      assert Parts(m, peel) == ["zester", "basket", peel] + [fn];
      SplitTail(["zester", "basket", peel], fn);
    case KvFacts =>
      assert Parts(m, peel) == ["$KV", "facts"] + [peel];
      SplitTail(["$KV", "facts"], peel);
  }

  lemma JobTokens(m: Message, peel: string)
    requires IsPeelId(peel) && (m.Ack? || m.Return? || m.Schedule?)
    ensures Split(Subject(m, peel)) == Tokens(m, peel)
  {
    PeelIdIsToken(peel);
    assert Split(peel) == [peel];
    match m
    case Ack(jid) =>
      assert Parts(m, peel) == ["zester", "job"] + [jid, "ack", peel];
      SplitJob(["zester", "job"], jid, "ack", peel);
    case Return(jid) =>
      assert Parts(m, peel) == ["zester", "job"] + [jid, "return", peel];
      SplitJob(["zester", "job"], jid, "return", peel);
    case Schedule(jid) =>
      assert Parts(m, peel) == ["zester", "job"] + [jid, "schedule", peel];
      SplitJob(["zester", "job"], jid, "schedule", peel);
  }

  lemma BucketTokens(m: Message, peel: string)
    requires IsPeelId(peel) && (m.KvBasket? || m.KvHeartbeat? || m.KvStatus?)
    ensures Split(Subject(m, peel)) == Tokens(m, peel)
  {
    PeelIdIsToken(peel);
    assert Split(peel) == [peel];
    match m
    case KvBasket(fn) =>
      assert Parts(m, peel) == ["$KV", "basket", peel] + [fn];
      SplitTail(["$KV", "basket", peel], fn);
    case KvHeartbeat =>
      assert Parts(m, peel) == ["$KV", "peel-heartbeat"] + [peel];
      SplitTail(["$KV", "peel-heartbeat"], peel);
    case KvStatus =>
      assert Parts(m, peel) == ["$KV", "update-status", "peel"] + [peel];
      SplitTail(["$KV", "update-status", "peel"], peel);
  }

  lemma SubjectTokens(m: Message, peel: string)
    requires IsPeelId(peel)
    ensures Split(Subject(m, peel)) == Tokens(m, peel)
  {
    match m
    case Bare => EventTokens(m, peel);
    case Beacon(_) => EventTokens(m, peel);
    case Send(_) => EventTokens(m, peel);
    case FactSync => DataTokens(m, peel);
    case BasketData(_) => DataTokens(m, peel);
    case KvFacts => DataTokens(m, peel);
    case Ack(_) => JobTokens(m, peel);
    case Return(_) => JobTokens(m, peel);
    case Schedule(_) => JobTokens(m, peel);
    case KvBasket(_) => BucketTokens(m, peel);
    case KvHeartbeat => BucketTokens(m, peel);
    case KvStatus => BucketTokens(m, peel);
  }

  lemma EventGrantCovers(a: string, b: string, m: Message)
    requires IsPeelId(a) && IsPeelId(b)
    ensures Matches(["zester", "event", a, ">"], Tokens(m, b)) <==> a == b && (m.Beacon? || m.Send?)
  {
    PeelIdIsToken(a);
    var lead, st := ["zester", "event", a], Tokens(m, b);
    assert ["zester", "event", a, ">"] == lead + [">"];
    if Matches(lead + [">"], st) {
      TailMatchIsPointwise(lead, st);
      assert lead[1] == st[1] && lead[0] == st[0] && lead[2] == st[2];
    } else if a == b && (m.Beacon? || m.Send?) {
      PointwiseTailMatches(lead, st);
    }
  }

  lemma FactGrantCovers(a: string, b: string, m: Message)
    requires IsPeelId(a) && IsPeelId(b)
    ensures Matches(["zester", "fact", a], Tokens(m, b)) <==> a == b && m.FactSync?
  {
    PeelIdIsToken(a);
    var g, st := ["zester", "fact", a], Tokens(m, b);
    if Matches(g, st) {
      MatchIsPointwise(g, st);
      assert g[0] == st[0] && g[1] == st[1] && g[2] == st[2];
    } else if a == b && m.FactSync? {
      PointwiseMatches(g, st);
    }
  }

  /** The last word of a job subject before the peel, and the job it is about. */
  function JobKind(m: Message): (r: string) {
    match m
    case Ack(_) => "ack"
    case Return(_) => "return"
    case Schedule(_) => "schedule"
    case _ => ""
  }

  lemma JobShape(m: Message, peel: string)
    ensures var st := Tokens(m, peel);
      if JobKind(m) != "" then
        st[0] == "zester" && st[1] == "job" && st[|st| - 2] == JobKind(m) && st[|st| - 1] == peel
        && |st| == 4 + |Split(m.jid)|
      else
        st[0] == "zester" ==> st[1] != "job"
  {
  }

  lemma JobGrantCovers(a: string, b: string, m: Message, kind: string)
    requires IsPeelId(a) && IsPeelId(b) && kind in {"ack", "return", "schedule"}
    ensures Matches(["zester", "job", "*", kind, a], Tokens(m, b)) <==>
      a == b && JobKind(m) == kind && DotFree(m.jid)
  {
    PeelIdIsToken(a);
    JobShape(m, b);
    var g, st := ["zester", "job", "*", kind, a], Tokens(m, b);
    if Matches(g, st) {
      MatchIsPointwise(g, st);
      assert g[0] == st[0] && g[1] == st[1] && g[3] == st[3] && g[4] == st[4];
      OneTokenIff(m.jid);
    } else if a == b && JobKind(m) == kind && DotFree(m.jid) {
      OneTokenIff(m.jid);
      PointwiseMatches(g, st);
    }
  }

  lemma ResolveGrantCovers(b: string, m: Message)
    ensures !Matches(["zester", "target", "resolve"], Tokens(m, b))
  {
    var g, st := ["zester", "target", "resolve"], Tokens(m, b);
    if Matches(g, st) {
      MatchIsPointwise(g, st);
    }
  }

  lemma BasketGrantCovers(a: string, b: string, m: Message)
    requires IsPeelId(a) && IsPeelId(b)
    ensures Matches(["$KV", "basket", a, ">"], Tokens(m, b)) <==> a == b && m.KvBasket?
  {
    PeelIdIsToken(a);
    var lead, st := ["$KV", "basket", a], Tokens(m, b);
    assert ["$KV", "basket", a, ">"] == lead + [">"];
    if Matches(lead + [">"], st) {
      TailMatchIsPointwise(lead, st);
      assert lead[0] == st[0] && lead[1] == st[1] && lead[2] == st[2];
    } else if a == b && m.KvBasket? {
      PointwiseTailMatches(lead, st);
    }
  }

  lemma KeyGrantCovers(a: string, b: string, m: Message, bucket: string)
    requires IsPeelId(a) && IsPeelId(b) && bucket in {"facts", "peel-heartbeat"}
    ensures Matches(["$KV", bucket, a], Tokens(m, b)) <==>
      a == b && ((bucket == "facts" && m.KvFacts?) || (bucket == "peel-heartbeat" && m.KvHeartbeat?))
  {
    PeelIdIsToken(a);
    var g, st := ["$KV", bucket, a], Tokens(m, b);
    if Matches(g, st) {
      MatchIsPointwise(g, st);
      assert g[0] == st[0] && g[1] == st[1] && g[2] == st[2];
    } else if a == b && ((bucket == "facts" && m.KvFacts?) || (bucket == "peel-heartbeat" && m.KvHeartbeat?)) {
      PointwiseMatches(g, st);
    }
  }

  lemma StatusGrantCovers(a: string, b: string, m: Message)
    requires IsPeelId(a) && IsPeelId(b)
    ensures Matches(["$KV", "update-status", "peel", a], Tokens(m, b)) <==> a == b && m.KvStatus?
  {
    PeelIdIsToken(a);
    var g, st := ["$KV", "update-status", "peel", a], Tokens(m, b);
    if Matches(g, st) {
      MatchIsPointwise(g, st);
      assert g[0] == st[0] && g[1] == st[1] && g[3] == st[3];
    } else if a == b && m.KvStatus? {
      PointwiseMatches(g, st);
    }
  }

  // ----- the theorems -----

  ghost predicate Covers(gs: seq<seq<string>>, st: seq<string>) {
    exists i :: 0 <= i < |gs| && Matches(gs[i], st)
  }

  lemma CoversAppend(a: seq<seq<string>>, b: seq<seq<string>>, st: seq<string>)
    ensures Covers(a + b, st) <==> Covers(a, st) || Covers(b, st)
  {
    if Covers(a, st) {
      var i :| 0 <= i < |a| && Matches(a[i], st);
      assert (a + b)[i] == a[i];
    }
    if Covers(b, st) {
      var i :| 0 <= i < |b| && Matches(b[i], st);
      assert (a + b)[|a| + i] == b[i];
    }
  }

  lemma PlumbingNeverCovers(gs: seq<seq<string>>, st: seq<string>)
    requires AllPlumbing(gs) && st != [] && st[0] !in {"$JS", "_INBOX"}
    ensures !Covers(gs, st)
  {
  }

  /** The grants as a whole cover what the peel's own two groups and the resolver cover. */
  lemma CoveredBy(peel: string, st: seq<string>)
    requires st != [] && st[0] !in {"$JS", "_INBOX"}
    ensures Covers(GrantTokens(peel), st) <==>
      Covers(OwnGrants(peel), st) || Covers(BucketGrants(peel), st) || Matches(["zester", "target", "resolve"], st)
  {
    var resolve := [["zester", "target", "resolve"]];
    var inbox := [["_INBOX", ">"]];
    ApiGrantsArePlumbing();
    PlumbingNeverCovers(ApiGrants(), st);
    assert AllPlumbing(inbox);
    PlumbingNeverCovers(inbox, st);
    var own, api, bucket := OwnGrants(peel), ApiGrants(), BucketGrants(peel);
    CoversAppend(own + resolve + api + bucket, inbox, st);
    CoversAppend(own + resolve + api, bucket, st);
    CoversAppend(own + resolve, api, st);
    CoversAppend(own, resolve, st);
    assert Covers(resolve, st) <==> Matches(resolve[0], st);
  }

  lemma AllTokens(peel: string, i: nat)
    requires IsPeelId(peel) && i < |GrantTokens(peel)|
    ensures AreTokens(GrantTokens(peel)[i])
  {
    PeelIdIsToken(peel);
    ApiGrantsArePlumbing();
    var own, resolve := OwnGrants(peel), [["zester", "target", "resolve"]];
    var api, bucket := ApiGrants(), BucketGrants(peel);
    assert forall k :: 0 <= k < |own| ==> AreTokens(own[k]);
    assert forall k :: 0 <= k < |bucket| ==> AreTokens(bucket[k]);
    assert AreTokens(resolve[0]);
    assert AreTokens(["_INBOX", ">"]);
    assert forall k :: 0 <= k < |api| ==> IsPlumbing(api[k]);
  }

  /** Being granted is being covered, token by token. */
  lemma GrantedIffCovered(peel: string, subject: string)
    requires IsPeelId(peel)
    ensures AnyAllows(PublishGrants(peel), subject) <==> Covers(GrantTokens(peel), Split(subject))
  {
    var gs := GrantTokens(peel);
    forall i | 0 <= i < |gs| ensures Allows(PublishGrants(peel)[i], subject) <==> Matches(gs[i], Split(subject)) {
      AllTokens(peel, i);
      SplitOfJoin(gs[i]);
    }
  }

  /** What a peel may publish as itself: everything its code publishes except on the two bare
      subject families that nothing grants, and job messages only for one-token job ids. */
  predicate Grantable(m: Message) {
    match m
    case Bare => false
    case BasketData(_) => false
    case Ack(jid) => DotFree(jid)
    case Return(jid) => DotFree(jid)
    case Schedule(jid) => DotFree(jid)
    case _ => true
  }

  lemma OwnCovers(a: string, b: string, m: Message)
    requires IsPeelId(a) && IsPeelId(b)
    ensures Covers(OwnGrants(a), Tokens(m, b)) <==>
      a == b && (m.Beacon? || m.Send? || m.FactSync? || (JobKind(m) != "" && DotFree(m.jid)))
  {
    var gs, st := OwnGrants(a), Tokens(m, b);
    EventGrantCovers(a, b, m);
    FactGrantCovers(a, b, m);
    JobGrantCovers(a, b, m, "ack");
    JobGrantCovers(a, b, m, "return");
    JobGrantCovers(a, b, m, "schedule");
    assert Covers(gs, st) <==>
      Matches(gs[0], st) || Matches(gs[1], st) || Matches(gs[2], st) || Matches(gs[3], st) || Matches(gs[4], st);
  }

  lemma BucketCovers(a: string, b: string, m: Message)
    requires IsPeelId(a) && IsPeelId(b)
    ensures Covers(BucketGrants(a), Tokens(m, b)) <==>
      a == b && (m.KvBasket? || m.KvFacts? || m.KvHeartbeat? || m.KvStatus?)
  {
    var gs, st := BucketGrants(a), Tokens(m, b);
    BasketGrantCovers(a, b, m);
    KeyGrantCovers(a, b, m, "facts");
    KeyGrantCovers(a, b, m, "peel-heartbeat");
    StatusGrantCovers(a, b, m);
    assert Covers(gs, st) <==> Matches(gs[0], st) || Matches(gs[1], st) || Matches(gs[2], st) || Matches(gs[3], st);
  }

  /** A peel's publish grants match a subject published in a peel's name exactly when that peel
      is itself and the message is one peels send. */
  lemma GrantedIffOwn(a: string, b: string, m: Message)
    requires IsPeelId(a) && IsPeelId(b)
    ensures AnyAllows(PublishGrants(a), Subject(m, b)) <==> a == b && Grantable(m)
  {
    GrantedIffCovered(a, Subject(m, b));
    SubjectTokens(m, b);
    CoveredBy(a, Tokens(m, b));
    OwnCovers(a, b, m);
    BucketCovers(a, b, m);
    ResolveGrantCovers(b, m);
  }

  lemma OriginNeverCovered(a: string, origin: string, rest: seq<string>)
    requires IsPeelId(a) && origin != a
    ensures !Covers(GrantTokens(a), ["zester", "event", origin] + rest)
  {
    PeelIdIsToken(a);
    var st := ["zester", "event", origin] + rest;
    assert st[0] == "zester" && st[1] == "event" && st[2] == origin;
    CoveredBy(a, st);
    forall i | 0 <= i < |OwnGrants(a)| ensures !Matches(OwnGrants(a)[i], st) {
      ShortPrefix(OwnGrants(a)[i], st);
    }
    forall i | 0 <= i < |BucketGrants(a)| ensures !Matches(BucketGrants(a)[i], st) {
      ShortPrefix(BucketGrants(a)[i], st);
    }
    ShortPrefix(["zester", "target", "resolve"], st);
  }

  /** A match agrees with the pattern's first three tokens up to wildcards. */
  lemma ShortPrefix(g: seq<string>, st: seq<string>)
    requires |g| >= 3 && |st| >= 3 && g[0] != ">" && g[1] != ">" && g[2] != ">"
    ensures Matches(g, st) ==> g[0] in {"*", st[0]} && g[1] in {"*", st[1]} && g[2] in {"*", st[2]}
  {
    assert g[1..][1..] == g[2..] && st[1..][1..] == st[2..];
    assert Matches(g, st) ==> Matches(g[1..], st[1..]) && Matches(g[2..], st[2..]);
  }

  lemma OriginOutOfReach(a: string, origin: string, rest: seq<string>, subject: string)
    requires IsPeelId(a) && origin != a && Split(subject) == ["zester", "event", origin] + rest
    ensures !AnyAllows(PublishGrants(a), subject)
  {
    GrantedIffCovered(a, subject);
    OriginNeverCovered(a, origin, rest);
  }

  lemma MasterTokens(tag: string)
    ensures Split(MasterEvent(tag)) == ["zester", "event", "_master"] + Split(tag)
  {
    assert ["zester", "event", "_master", tag] == ["zester", "event", "_master"] + [tag];
    SplitTail(["zester", "event", "_master"], tag);
  }

  lemma AdminTokens(tag: string)
    ensures Split(AdminEventSend(tag)) == ["zester", "event", "_admin"] + (["send"] + Split(tag))
  {
    assert ["zester", "event", "_admin", "send", tag] == ["zester", "event", "_admin"] + ["send"] + [tag];
    SplitTwice(["zester", "event", "_admin"], ["send"], tag);
  }

  lemma SplitTwice(a: seq<string>, b: seq<string>, tail: string)
    requires (forall i :: 0 <= i < |a| ==> DotFree(a[i])) && (forall i :: 0 <= i < |b| ==> DotFree(b[i]))
    ensures Split(Join(a + b + [tail])) == a + (b + Split(tail))
  {
    SplitTail(a + b, tail);
    Sequences.Associates(a, b, Split(tail));
  }

  lemma MasterOutOfReach(a: string, tag: string)
    requires IsPeelId(a)
    ensures !AnyAllows(PublishGrants(a), MasterEvent(tag))
  {
    PeelIdIsToken(a);
    MasterTokens(tag);
    OriginOutOfReach(a, "_master", Split(tag), MasterEvent(tag));
  }

  lemma AdminOutOfReach(a: string, tag: string)
    requires IsPeelId(a)
    ensures !AnyAllows(PublishGrants(a), AdminEventSend(tag))
  {
    PeelIdIsToken(a);
    AdminTokens(tag);
    OriginOutOfReach(a, "_admin", ["send"] + Split(tag), AdminEventSend(tag));
  }

  /** No peel can publish an event in the name of a master or an operator. */
  lemma TrustedOriginsAreOutOfReach(a: string, tag: string)
    requires IsPeelId(a)
    ensures !AnyAllows(PublishGrants(a), MasterEvent(tag))
    ensures !AnyAllows(PublishGrants(a), AdminEventSend(tag))
  {
    MasterOutOfReach(a, tag);
    AdminOutOfReach(a, tag);
  }
}
