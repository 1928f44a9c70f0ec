/** The offline linter for publish and subscribe grants, and what it says about a peel's own. */
module Lint {
  import opened Dotted
  import opened PeelId
  import opened Subjects
  import opened Ordering

  /** Token `i` of a grant creates a consumer on the stream named by the next one. */
  ghost predicate CreatesAt(g: seq<string>, i: int) {
    && 0 < i && i + 1 < |g|
    && g[i] == "CREATE" && g[i - 1] in {"CONSUMER", "DURABLE"}
    && g[i + 1] !in {"", ">", "*"}
  }

  ghost predicate CreatesOn(g: seq<string>, stream: string) {
    exists i :: CreatesAt(g, i) && g[i + 1] == stream
  }

  ghost predicate IsConsumerStream(grants: seq<string>, stream: string) {
    exists k :: 0 <= k < |grants| && CreatesOn(Split(grants[k]), stream)
  }

  /** The subject a client of a flow-controlled consumer answers on. */
  function FlowProbe(stream: string): (s: string) {
    Join(["$JS", "FC", stream, "cons", "seq"])
  }

  const InboxProbe: string := Join(["_INBOX", "reply"])

  datatype Finding = MissingFlowControl(stream: string, severe: bool) | MissingInbox

  /** The streams one grant names, added to those already found. */
  method StreamsOfGrant(g: seq<string>, found: set<string>) returns (r: set<string>)
    ensures forall s :: s in r <==> s in found || CreatesOn(g, s)
  {
    r := found;
    for i := 0 to |g|
      invariant forall s :: s in r <==> s in found || exists j :: 0 <= j < i && CreatesAt(g, j) && g[j + 1] == s
    {
      if g[i] == "CREATE" && 0 < i && (g[i - 1] == "CONSUMER" || g[i - 1] == "DURABLE") && i + 1 < |g| {
        var stream := g[i + 1];
        if stream != "" && stream != ">" && stream != "*" {
          assert CreatesAt(g, i);
          r := r + {stream};
        }
      }
      assert CreatesAt(g, i) ==> g[i + 1] in r;
    }
  }

  method ConsumerStreams(grants: seq<string>) returns (out: seq<string>)
    ensures Sorted(out) && forall s :: s in out <==> IsConsumerStream(grants, s)
  {
    var seen: set<string> := {};
    for k := 0 to |grants|
      invariant forall s :: s in seen <==> IsConsumerStream(grants[..k], s)
    {
      ghost var was := seen;
      seen := StreamsOfGrant(Split(grants[k]), seen);
      forall s ensures s in seen <==> IsConsumerStream(grants[..k + 1], s) {
        OneMoreGrant(grants, k, s);
      }
    }
    assert grants[..|grants|] == grants;
    var listed := ListSet(seen);
    out := SortKeys(listed, seen);
    InOrderSorted(seen);
  }

  lemma OneMoreGrant(grants: seq<string>, k: nat, s: string)
    requires k < |grants|
    ensures IsConsumerStream(grants[..k + 1], s) <==> IsConsumerStream(grants[..k], s) || CreatesOn(Split(grants[k]), s)
  {
    var longer, shorter := grants[..k + 1], grants[..k];
    assert forall i :: 0 <= i < k ==> longer[i] == shorter[i];
    assert longer[k] == grants[k];
  }

  method ListSet(s: set<string>) returns (xs: seq<string>)
    ensures forall x :: x in xs <==> x in s
  {
    xs := [];
    var todo := s;
    while todo != {}
      invariant todo <= s && forall x :: x in xs <==> x in s && x !in todo
      decreases todo
    {
      var x :| x in todo;
      xs := xs + [x];
      todo := todo - {x};
    }
  }

  /** A finding for exactly the consumer streams without a flow-control grant, and one if consumers
      can be created but no inbox can be read. */
  method LintPermissions(pub: seq<string>, sub: seq<string>) returns (findings: seq<Finding>)
    ensures forall s, severe :: MissingFlowControl(s, severe) in findings <==>
      IsConsumerStream(pub, s) && !AnyAllows(pub, FlowProbe(s)) && (severe <==> "OBJ_" <= s)
    ensures MissingInbox in findings <==> (exists s :: IsConsumerStream(pub, s)) && !AnyAllows(sub, InboxProbe)
  {
    var streams := ConsumerStreams(pub);
    findings := [];
    for i := 0 to |streams|
      invariant MissingInbox !in findings
      invariant forall s, severe :: MissingFlowControl(s, severe) in findings <==>
        s in streams[..i] && !AnyAllows(pub, FlowProbe(s)) && (severe <==> "OBJ_" <= s)
    {
      assert streams[..i + 1] == streams[..i] + [streams[i]];
      var ok := AnyGrantAllows(pub, FlowProbe(streams[i]));
      if !ok {
        findings := findings + [MissingFlowControl(streams[i], "OBJ_" <= streams[i])];
      }
    }
    assert streams[..|streams|] == streams;
    assert |streams| > 0 ==> streams[0] in streams;
    if |streams| > 0 {
      var inbox := AnyGrantAllows(sub, InboxProbe);
      if !inbox {
        findings := findings + [MissingInbox];
      }
    }
  }

  // ----- a peel's own grants -----

  /** Every consumer these grants create is on one of the given streams. */
  ghost predicate CreatesWithin(gs: seq<seq<string>>, streams: set<string>) {
    forall k, s :: 0 <= k < |gs| && CreatesOn(gs[k], s) ==> s in streams
  }

  lemma AppendWithin(a: seq<seq<string>>, b: seq<seq<string>>, streams: set<string>)
    requires CreatesWithin(a, streams) && CreatesWithin(b, streams)
    ensures CreatesWithin(a + b, streams)
  {
  }

  /** A grant whose only CREATE token, if any, is followed by `stream`. */
  lemma GrantWithin(g: seq<string>, stream: string, s: string)
    requires forall i :: 0 < i < |g| - 1 && g[i] == "CREATE" && g[i - 1] in {"CONSUMER", "DURABLE"} ==>
      g[i + 1] == stream
    requires CreatesOn(g, s)
    ensures s == stream
  {
  }

  lemma StreamWithin(stream: string)
    requires stream !in {"CREATE", "CONSUMER", "DURABLE"}
    ensures CreatesWithin(StreamGrants(stream), {stream})
  {
    var gs := StreamGrants(stream);
    forall k, s | 0 <= k < |gs| && CreatesOn(gs[k], s) ensures s in {stream} {
      GrantWithin(gs[k], stream, s);
    }
  }

  lemma CreateFree(g: seq<string>, s: string)
    requires forall i :: 0 < i < |g| - 1 ==> g[i] != "CREATE" || g[i - 1] !in {"CONSUMER", "DURABLE"}
    ensures !CreatesOn(g, s)
  {
  }

  lemma OwnWithin(peel: string)
    ensures CreatesWithin(OwnGrants(peel), {}) && CreatesWithin(BucketGrants(peel), {})
  {
    var own, bucket := OwnGrants(peel), BucketGrants(peel);
    forall k, s | 0 <= k < |own| ensures !CreatesOn(own[k], s) {
      CreateFree(own[k], s);
    }
    forall k, s | 0 <= k < |bucket| ensures !CreatesOn(bucket[k], s) {
      CreateFree(bucket[k], s);
    }
  }

  const FlowStreams: set<string> :=
    {"OBJ_update-binaries", "KV_settings-files", "KV_state-files", "KV_secrets", "KV_basket", "KV_facts"}

  lemma WithinMore(gs: seq<seq<string>>, a: set<string>, b: set<string>)
    requires CreatesWithin(gs, a) && a <= b
    ensures CreatesWithin(gs, b)
  {
  }

  lemma FlowWithin()
    ensures CreatesWithin(FlowGrants(), {})
  {
    var gs := FlowGrants();
    forall k, s | 0 <= k < |gs| ensures !CreatesOn(gs[k], s) {
      CreateFree(gs[k], s);
    }
  }

  lemma ApiWithin()
    ensures CreatesWithin(ApiGrants(), FlowStreams)
  {
    var info := [["$JS", "API", "STREAM", "INFO", "KV_peel-heartbeat"],
                 ["$JS", "API", "STREAM", "INFO", "KV_update-status"]];
    forall k, s | 0 <= k < |info| ensures !CreatesOn(info[k], s) {
      CreateFree(info[k], s);
    }
    FlowWithin();
    WithinMore(FlowGrants(), {}, FlowStreams);
    KnownStream("KV_facts");
    KnownStream("KV_settings-files");
    KnownStream("KV_secrets");
    KnownStream("KV_basket");
    KnownStream("KV_state-files");
    KnownStream("OBJ_update-binaries");
    var a := StreamGrants("KV_facts") + StreamGrants("KV_settings-files");
    AppendWithin(StreamGrants("KV_facts"), StreamGrants("KV_settings-files"), FlowStreams);
    AppendWithin(a, StreamGrants("KV_secrets"), FlowStreams);
    var b := a + StreamGrants("KV_secrets");
    AppendWithin(b, StreamGrants("KV_basket"), FlowStreams);
    var c := b + StreamGrants("KV_basket");
    AppendWithin(c, StreamGrants("KV_state-files"), FlowStreams);
    var d := c + StreamGrants("KV_state-files");
    AppendWithin(d, info, FlowStreams);
    AppendWithin(d + info, StreamGrants("OBJ_update-binaries"), FlowStreams);
    AppendWithin(d + info + StreamGrants("OBJ_update-binaries"), FlowGrants(), FlowStreams);
  }

  lemma KnownStream(stream: string)
    requires stream in FlowStreams
    ensures CreatesWithin(StreamGrants(stream), FlowStreams)
  {
    StreamWithin(stream);
    WithinMore(StreamGrants(stream), {stream}, FlowStreams);
  }

  lemma AllWithin(peel: string)
    ensures CreatesWithin(GrantTokens(peel), FlowStreams)
  {
    OwnWithin(peel);
    ApiWithin();
    var own, api, bucket := OwnGrants(peel), ApiGrants(), BucketGrants(peel);
    WithinMore(own, {}, FlowStreams);
    WithinMore(bucket, {}, FlowStreams);
    var resolve, inbox := [["zester", "target", "resolve"]], [["_INBOX", ">"]];
    forall s ensures !CreatesOn(resolve[0], s) && !CreatesOn(inbox[0], s) {
      CreateFree(resolve[0], s);
      CreateFree(inbox[0], s);
    }
    AppendWithin(own, resolve, FlowStreams);
    AppendWithin(own + resolve, api, FlowStreams);
    AppendWithin(own + resolve + api, bucket, FlowStreams);
    AppendWithin(own + resolve + api + bucket, inbox, FlowStreams);
  }

  lemma FlowCovered(stream: string)
    requires stream in FlowStreams
    ensures Covers(FlowGrants(), ["$JS", "FC", stream, "cons", "seq"])
  {
    var gs := FlowGrants();
    var lead, st := ["$JS", "FC", stream], ["$JS", "FC", stream, "cons", "seq"];
    assert lead + [">"] == ["$JS", "FC", stream, ">"];
    var i := if stream == "OBJ_update-binaries" then 0
      else if stream == "KV_settings-files" then 1
      else if stream == "KV_state-files" then 2
      else if stream == "KV_secrets" then 3
      else if stream == "KV_basket" then 4 else 5;
    assert gs[i] == lead + [">"];
    assert stream != ">";
    PointwiseTailMatches(lead, st);
  }

  lemma FlowAllowed(peel: string, stream: string)
    requires IsPeelId(peel) && stream in FlowStreams
    ensures AnyAllows(PublishGrants(peel), FlowProbe(stream))
  {
    var st := ["$JS", "FC", stream, "cons", "seq"];
    StreamNames();
    assert DotFree(stream);
    SplitOfJoin(st);
    GrantedIffCovered(peel, FlowProbe(stream));
    FlowCovered(stream);
    var own, resolve, api, bucket, inbox :=
      OwnGrants(peel), [["zester", "target", "resolve"]], ApiGrants(), BucketGrants(peel), [["_INBOX", ">"]];
    var rest := StreamGrants("KV_facts") + StreamGrants("KV_settings-files") + StreamGrants("KV_secrets")
      + StreamGrants("KV_basket") + StreamGrants("KV_state-files")
      + [["$JS", "API", "STREAM", "INFO", "KV_peel-heartbeat"], ["$JS", "API", "STREAM", "INFO", "KV_update-status"]]
      + StreamGrants("OBJ_update-binaries");
    CoversAppend(rest, FlowGrants(), st);
    CoversAppend(own + resolve, api, st);
    CoversAppend(own + resolve + api, bucket, st);
    CoversAppend(own + resolve + api + bucket, inbox, st);
  }

  /** Grants on the subjects that carry the peel's own id. */
  function OwnSubscriptions(peel: string): (gs: seq<seq<string>>) {
    [["zester", "cmd", peel], ["zester", "cmd", peel, ">"], ["zester", "update", "cmd", peel],
     ["$KV", "secrets", peel]]
  }

  /** Grants on the subjects that all peels share. */
  function SharedSubscriptions(): (gs: seq<seq<string>>) {
    [["zester", "job", "*", "cancel"], ["$KV", "secrets", "_master_curve_pub"], ["$KV", "secrets", "_cluster_info"],
     ["$KV", "settings-files", ">"], ["$KV", "basket", ">"], ["$KV", "state-files", ">"], ["_INBOX", ">"]]
  }

  /** The subscribe grants of a peel's credentials. */
  function SubscribeGrants(peel: string): (r: seq<string>) {
    JoinAll(OwnSubscriptions(peel) + SharedSubscriptions())
  }

  /** A pattern without '>' stands for the subjects of its length that agree with it. */
  lemma ExactGrant(g: seq<string>, st: seq<string>)
    requires ">" !in g
    ensures Matches(g, st) <==> |st| == |g| && forall i :: 0 <= i < |g| ==> g[i] == "*" || g[i] == st[i]
  {
    if Matches(g, st) {
      MatchIsPointwise(g, st);
    } else if |st| == |g| && forall i :: 0 <= i < |g| ==> g[i] == "*" || g[i] == st[i] {
      assert forall i :: 0 <= i < |g| ==> g[i] in g;
      PointwiseMatches(g, st);
    }
  }

  /** A pattern that ends in '>' stands for the longer subjects that agree with what is before it. */
  lemma OpenGrant(lead: seq<string>, st: seq<string>)
    requires ">" !in lead
    ensures Matches(lead + [">"], st) <==>
      |st| > |lead| && forall i :: 0 <= i < |lead| ==> lead[i] == "*" || lead[i] == st[i]
  {
    if Matches(lead + [">"], st) {
      TailMatchIsPointwise(lead, st);
    } else if |st| > |lead| && forall i :: 0 <= i < |lead| ==> lead[i] == "*" || lead[i] == st[i] {
      assert forall i :: 0 <= i < |lead| ==> lead[i] in lead;
      PointwiseTailMatches(lead, st);
    }
  }

  /** Commands and update commands for this peel, and its own secrets. */
  ghost predicate IsForPeel(peel: string, st: seq<string>) {
    || (|st| >= 3 && st[0] == "zester" && st[1] == "cmd" && st[2] == peel)
    || (|st| == 4 && st[0] == "zester" && st[1] == "update" && st[2] == "cmd" && st[3] == peel)
    || (|st| == 3 && st[0] == "$KV" && st[1] == "secrets" && st[2] == peel)
  }

  /** Job cancellations, the two public entries of the secrets bucket, shared files and basket data, and
      inboxes. */
  ghost predicate IsForAll(st: seq<string>) {
    || (|st| == 4 && st[0] == "zester" && st[1] == "job" && st[3] == "cancel")
    || (|st| == 3 && st[0] == "$KV" && st[1] == "secrets" && st[2] in {"_master_curve_pub", "_cluster_info"})
    || (|st| >= 3 && st[0] == "$KV" && st[1] in {"settings-files", "basket", "state-files"})
    || (|st| >= 2 && st[0] == "_INBOX")
  }

  lemma OwnSubscriptionsCover(peel: string, st: seq<string>)
    requires IsPeelId(peel)
    ensures Covers(OwnSubscriptions(peel), st) <==> IsForPeel(peel, st)
  {
    PeelIdIsToken(peel);
    var gs := OwnSubscriptions(peel);
    ExactGrant(gs[0], st);
    OpenGrant(["zester", "cmd", peel], st);
    assert gs[1] == ["zester", "cmd", peel] + [">"];
    ExactGrant(gs[2], st);
    ExactGrant(gs[3], st);
    assert Covers(gs, st) <==>
      Matches(gs[0], st) || Matches(gs[1], st) || Matches(gs[2], st) || Matches(gs[3], st);
  }

  lemma SharedSubscriptionsCover(st: seq<string>)
    ensures Covers(SharedSubscriptions(), st) <==> IsForAll(st)
  {
    var gs := SharedSubscriptions();
    ExactGrant(gs[0], st);
    ExactGrant(gs[1], st);
    ExactGrant(gs[2], st);
    OpenGrant(["$KV", "settings-files"], st);
    OpenGrant(["$KV", "basket"], st);
    OpenGrant(["$KV", "state-files"], st);
    OpenGrant(["_INBOX"], st);
    assert gs[3] == ["$KV", "settings-files"] + [">"] && gs[4] == ["$KV", "basket"] + [">"];
    assert gs[5] == ["$KV", "state-files"] + [">"] && gs[6] == ["_INBOX"] + [">"];
    assert Covers(gs, st) <==>
      || Matches(gs[0], st) || Matches(gs[1], st) || Matches(gs[2], st) || Matches(gs[3], st)
      || Matches(gs[4], st) || Matches(gs[5], st) || Matches(gs[6], st);
  }

  lemma SubscriptionsAreTokens(peel: string, k: nat)
    requires IsPeelId(peel) && k < |OwnSubscriptions(peel) + SharedSubscriptions()|
    ensures AreTokens((OwnSubscriptions(peel) + SharedSubscriptions())[k])
  {
    PeelIdIsToken(peel);
    ApiWords();
  }

  /** What a peel may subscribe to, over all subjects: its own commands and secrets, and what is meant for
      all peels, and nothing else; so never another peel's commands or secrets. */
  lemma SubscribesExactly(peel: string, subject: string)
    requires IsPeelId(peel)
    ensures AnyAllows(SubscribeGrants(peel), subject) <==> IsForPeel(peel, Split(subject)) || IsForAll(Split(subject))
  {
    var gs, st := OwnSubscriptions(peel) + SharedSubscriptions(), Split(subject);
    forall k | 0 <= k < |gs| ensures Allows(SubscribeGrants(peel)[k], subject) <==> Matches(gs[k], st) {
      SubscriptionsAreTokens(peel, k);
      SplitOfJoin(gs[k]);
    }
    CoversAppend(OwnSubscriptions(peel), SharedSubscriptions(), st);
    OwnSubscriptionsCover(peel, st);
    SharedSubscriptionsCover(st);
  }

  lemma InboxAllowed(peel: string)
    requires IsPeelId(peel)
    ensures AnyAllows(SubscribeGrants(peel), InboxProbe)
  {
    SplitOfJoin(["_INBOX", "reply"]);
    SubscribesExactly(peel, InboxProbe);
  }

  /** The credentials every peel gets are free of findings: wherever they let it create a consumer
      they also let it answer flow control, and it can read its inbox. */
  lemma PeelGrantsAreLintClean(peel: string, stream: string)
    requires IsPeelId(peel)
    ensures IsConsumerStream(PublishGrants(peel), stream) ==> AnyAllows(PublishGrants(peel), FlowProbe(stream))
    ensures AnyAllows(SubscribeGrants(peel), InboxProbe)
  {
    InboxAllowed(peel);
    if IsConsumerStream(PublishGrants(peel), stream) {
      var k :| 0 <= k < |PublishGrants(peel)| && CreatesOn(Split(PublishGrants(peel)[k]), stream);
      AllTokens(peel, k);
      SplitOfJoin(GrantTokens(peel)[k]);
      AllWithin(peel);
      FlowAllowed(peel, stream);
    }
  }
}
