/** Splitting a string at its dots and putting it back together. */
module Dotted {

  predicate DotFree(s: string) {
    '.' !in s
  }

  /** The text before the first dot, and the text after it. */
  function Head(s: string): (h: string)
    ensures |h| <= |s| && DotFree(h)
    ensures DotFree(s) ==> h == s
    ensures !DotFree(s) ==> |h| < |s|
  {
    if s == "" || s[0] == '.' then "" else [s[0]] + Head(s[1..])
  }

  function Tail(s: string): (t: string)
    requires !DotFree(s)
    ensures |t| < |s|
    ensures Head(s) + "." + t == s
  {
    if s[0] == '.' then s[1..] else Tail(s[1..])
  }

  function Split(s: string): (ts: seq<string>)
    ensures |ts| > 0
    decreases |s|
  {
    if DotFree(s) then [s] else [Head(s)] + Split(Tail(s))
  }

  function Join(ts: seq<string>): (s: string) {
    if |ts| == 0 then ""
    else if |ts| == 1 then ts[0]
    else ts[0] + "." + Join(ts[1..])
  }

  lemma {:induction false} JoinOfSplit(s: string)
    ensures Join(Split(s)) == s
    decreases |s|
  {
    if !DotFree(s) {
      JoinOfSplit(Tail(s));
      assert Split(s)[1..] == Split(Tail(s));
    }
  }

  lemma SplitDotFree(s: string)
    requires DotFree(s)
    ensures Split(s) == [s]
  {
  }

  /** The first dot of a longer text is that of its front, if it has one. */
  lemma {:induction false} HeadTailOf(a: string, b: string)
    ensures var s := a + "." + b;
      !DotFree(s) && if DotFree(a) then Head(s) == a && Tail(s) == b
        else Head(s) == Head(a) && Tail(s) == Tail(a) + "." + b
  {
    var s := a + "." + b;
    assert s[|a|] == '.';
    if a == "" {
      assert s[1..] == b;
    } else if a[0] == '.' {
      assert s[1..] == a[1..] + "." + b;
    } else {
      HeadTailOf(a[1..], b);
      assert s[1..] == a[1..] + "." + b;
      assert a == [a[0]] + a[1..];
    }
  }

  lemma {:induction false} SplitAt(a: string, b: string)
    ensures Split(a + "." + b) == Split(a) + Split(b)
    decreases |a|
  {
    HeadTailOf(a, b);
    if !DotFree(a) {
      SplitAt(Tail(a), b);
    }
  }

  lemma SplitCons(t: string, ts: seq<string>)
    requires ts != [] && DotFree(t)
    ensures Split(Join([t] + ts)) == [t] + Split(Join(ts))
  {
    assert ([t] + ts)[1..] == ts;
    SplitAt(t, Join(ts));
  }

  lemma {:induction false} LeadComesBack(f: seq<string> -> seq<string>, lead: seq<string>, rest: seq<string>)
    requires forall t: string, ts: seq<string> :: ts != [] && DotFree(t) ==> f([t] + ts) == [t] + f(ts)
    requires rest != [] && forall i :: 0 <= i < |lead| ==> DotFree(lead[i])
    ensures f(lead + rest) == lead + f(rest)
    decreases |lead|
  {
    if lead == [] {
      assert lead + rest == rest;
    } else {
      var x, more := lead[0], lead[1..];
      LeadComesBack(f, more, rest);
      assert lead + rest == [x] + (more + rest) && lead == [x] + more;
    }
  }

  /** Leading dot-free parts come back as tokens, whatever follows. */
  lemma SplitLead(lead: seq<string>, rest: seq<string>)
    requires rest != [] && forall i :: 0 <= i < |lead| ==> DotFree(lead[i])
    ensures Split(Join(lead + rest)) == lead + Split(Join(rest))
  {
    var f := (ts: seq<string>) => Split(Join(ts));
    forall t: string, ts: seq<string> | ts != [] && DotFree(t) ensures f([t] + ts) == [t] + f(ts) {
      SplitCons(t, ts);
    }
    LeadComesBack(f, lead, rest);
  }

  /** Splitting gives back exactly the dot-free tokens that were joined. */
  lemma SplitOfJoin(ts: seq<string>)
    requires |ts| > 0
    requires forall i :: 0 <= i < |ts| ==> DotFree(ts[i])
    ensures Split(Join(ts)) == ts
  {
    var n := |ts| - 1;
    SplitOfLast(ts[..n], ts[n]);
    assert ts == ts[..n] + [ts[n]];
  }

  lemma SplitOfLast(lead: seq<string>, t: string)
    requires DotFree(t) && forall i :: 0 <= i < |lead| ==> DotFree(lead[i])
    ensures Split(Join(lead + [t])) == lead + [t]
  {
    SplitLead(lead, [t]);
  }

  lemma {:induction false} SplitTokensDotFree(s: string)
    ensures forall i :: 0 <= i < |Split(s)| ==> DotFree(Split(s)[i])
    decreases |s|
  {
    if !DotFree(s) {
      SplitTokensDotFree(Tail(s));
    }
  }

  lemma SplitInjective(a: string, b: string)
    requires Split(a) == Split(b)
    ensures a == b
  {
    JoinOfSplit(a);
    JoinOfSplit(b);
  }

  lemma OneTokenIff(s: string)
    ensures |Split(s)| == 1 <==> DotFree(s)
  {
  }
}
