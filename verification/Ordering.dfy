/** Byte-wise order on strings, and putting the elements of a set in that order. */
module Ordering {

  predicate Less(a: string, b: string) {
    b != "" && (a == "" || a[0] < b[0] || (a[0] == b[0] && Less(a[1..], b[1..])))
  }

  lemma {:induction false} LessTotal(a: string, b: string)
    ensures a == b || Less(a, b) || Less(b, a)
  {
    if a != "" && b != "" && a[0] == b[0] {
      LessTotal(a[1..], b[1..]);
      assert a == [a[0]] + a[1..] && b == [b[0]] + b[1..];
    }
  }

  lemma {:induction false} LessTransitive(a: string, b: string, c: string)
    requires Less(a, b) && Less(b, c)
    ensures Less(a, c)
  {
    if a != "" && a[0] == b[0] == c[0] {
      LessTransitive(a[1..], b[1..], c[1..]);
    }
  }

  lemma {:induction false} LessIrreflexive(a: string)
    ensures !Less(a, a)
  {
    if a != "" {
      LessIrreflexive(a[1..]);
    }
  }

  ghost predicate Sorted(xs: seq<string>) {
    forall i, j :: 0 <= i < j < |xs| ==> Less(xs[i], xs[j])
  }

  function Insert(x: string, xs: seq<string>): (r: seq<string>) {
    if xs == [] || Less(x, xs[0]) then [x] + xs
    else if x == xs[0] then xs
    else [xs[0]] + Insert(x, xs[1..])
  }

  lemma {:induction false} InsertContents(x: string, xs: seq<string>, y: string)
    ensures y in Insert(x, xs) <==> y == x || y in xs
  {
    if xs != [] && !Less(x, xs[0]) && x != xs[0] {
      InsertContents(x, xs[1..], y);
      assert xs == [xs[0]] + xs[1..];
    }
  }

  lemma {:induction false} InsertSorts(x: string, xs: seq<string>)
    requires Sorted(xs)
    ensures Sorted(Insert(x, xs))
  {
    if xs == [] || x == xs[0] {
    } else if Less(x, xs[0]) {
      forall j | 0 <= j < |xs| ensures Less(x, xs[j]) {
        if j > 0 {
          LessTransitive(x, xs[0], xs[j]);
        }
      }
    } else {
      InsertSorts(x, xs[1..]);
      var rest := Insert(x, xs[1..]);
      forall j | 0 <= j < |rest| ensures Less(xs[0], rest[j]) {
        InsertContents(x, xs[1..], rest[j]);
        assert rest[j] in rest;
        LessTotal(x, xs[0]);
      }
    }
  }

  /** The elements of a set in order. */
  ghost function InOrder(s: set<string>): (xs: seq<string>) {
    if s == {} then []
    else
      var x :| x in s;
      Insert(x, InOrder(s - {x}))
  }

  lemma {:induction false} InOrderSorted(s: set<string>)
    ensures Sorted(InOrder(s))
    ensures forall y :: y in InOrder(s) <==> y in s
  {
    if s != {} {
      var x :| x in s && InOrder(s) == Insert(x, InOrder(s - {x}));
      InOrderSorted(s - {x});
      InsertSorts(x, InOrder(s - {x}));
      forall y ensures y in InOrder(s) <==> y in s {
        InsertContents(x, InOrder(s - {x}), y);
      }
    }
  }

  /** There is only one way to put a set in order. */
  lemma {:induction false} SortedUnique(xs: seq<string>, ys: seq<string>)
    requires Sorted(xs) && Sorted(ys)
    requires forall z :: z in xs <==> z in ys
    ensures xs == ys
    decreases |xs|
  {
    assert ys != [] ==> ys[0] in ys;
    if xs != [] {
      assert xs[0] in xs && xs[0] in ys;
      assert ys[0] in ys && ys[0] in xs;
      var i :| 0 <= i < |xs| && xs[i] == ys[0];
      var j :| 0 <= j < |ys| && ys[j] == xs[0];
      if i > 0 && j > 0 {
        LessTransitive(xs[0], ys[0], xs[0]);
        LessIrreflexive(xs[0]);
      }
      assert xs[0] == ys[0];
      SortedTail(xs);
      SortedTail(ys);
      SortedUnique(xs[1..], ys[1..]);
    }
  }

  lemma SortedTail(xs: seq<string>)
    requires Sorted(xs) && xs != []
    ensures Sorted(xs[1..])
    ensures forall z :: z in xs[1..] <==> z in xs && z != xs[0]
  {
    assert xs == [xs[0]] + xs[1..];
    forall k | 0 <= k < |xs[1..]| ensures xs[1..][k] != xs[0] {
      LessIrreflexive(xs[0]);
    }
  }

  method KeysOf<V>(m: map<string, V>) returns (keys: seq<string>)
    ensures forall k :: k in keys <==> k in m
  {
    keys := [];
    var todo := m.Keys;
    while todo != {}
      invariant todo <= m.Keys
      invariant forall k :: k in keys <==> k in m && k !in todo
      decreases todo
    {
      var k :| k in todo;
      keys := keys + [k];
      todo := todo - {k};
    }
  }

  /** Sorting a listing of a set, in whatever order it was listed. */
  method SortKeys(listed: seq<string>, ghost s: set<string>) returns (r: seq<string>)
    requires forall k :: k in listed <==> k in s
    ensures r == InOrder(s)
  {
    r := [];
    for i := 0 to |listed|
      invariant Sorted(r)
      invariant forall k :: k in r <==> k in listed[..i]
    {
      InsertSorts(listed[i], r);
      forall k ensures k in Insert(listed[i], r) <==> k in listed[..i + 1] {
        InsertContents(listed[i], r, k);
        assert listed[..i + 1] == listed[..i] + [listed[i]];
      }
      r := Insert(listed[i], r);
    }
    assert listed[..|listed|] == listed;
    InOrderSorted(s);
    SortedUnique(r, InOrder(s));
  }
}
