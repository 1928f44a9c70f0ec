/** Target globs written with host-name dots, rewritten to match encoded peel identifiers.
    Patterns and names are ASCII strings. */
module Glob {
  import opened KeyValue
  import opened PeelId

  // ----- the rewriting -----

  /** What a byte of a pattern is part of, from the bytes before it. A ']' right after '[' or
      after the negation is a member of the class; an open class runs to the end. */
  datatype Mode = Outside | Escaped | Opened | Negated | Inside | InsideEscaped

  function Delta(m: Mode, c: char): (m': Mode) {
    match m
    case Outside => if c == '\\' then Escaped else if c == '[' then Opened else Outside
    case Escaped => Outside
    case Opened => if c == '!' || c == '^' then Negated else if c == '\\' then InsideEscaped else Inside
    case Negated => if c == '\\' then InsideEscaped else Inside
    case Inside => if c == ']' then Outside else if c == '\\' then InsideEscaped else Inside
    case InsideEscaped => Inside
  }

  function Emit(m: Mode, c: char): (r: char) {
    if m == Outside && c == '.' then '_' else c
  }

  /** The mode of byte `i` of `p`. */
  function ModeAt(p: string, i: nat): (m: Mode)
    requires i <= |p|
  {
    if i == 0 then Outside else Delta(ModeAt(p, i - 1), p[i - 1])
  }

  /** The pattern with every dot outside classes and escapes replaced. */
  function Rewrite(p: string): (r: string)
    ensures |r| == |p|
  {
    seq(|p|, i requires 0 <= i < |p| => Emit(ModeAt(p, i), p[i]))
  }

  /** The loop's buffer: rewritten up to `i`, the pattern from there on. */
  ghost predicate Rewritten(p: string, i: nat, b: string) {
    && i <= |p| == |b|
    && (forall k {:trigger b[k]} :: 0 <= k < i ==> b[k] == Rewrite(p)[k])
    && (forall k {:trigger b[k]} :: i <= k < |p| ==> b[k] == p[k])
  }

  /** The rewriting leaves the bytes from `i` up to `j` alone. */
  ghost predicate Untouched(p: string, i: nat, j: nat) {
    j <= |p| && forall k {:trigger Rewrite(p)[k]} :: i <= k < j ==> Rewrite(p)[k] == p[k]
  }

  lemma UntouchedByte(p: string, i: nat, j: nat, m: Mode)
    requires Untouched(p, i, j) && i <= j < |p| && m == ModeAt(p, j)
    requires m != Outside || p[j] != '.'
    ensures Untouched(p, i, j + 1) && ModeAt(p, j + 1) == Delta(m, p[j])
  {
  }

  lemma SkipRewritten(p: string, i: nat, next: nat, b: string)
    requires Rewritten(p, i, b) && i <= next <= |p|
    requires Untouched(p, i, next)
    ensures Rewritten(p, next, b)
  {
  }

  lemma MarkRewritten(p: string, i: nat, b: string)
    requires Rewritten(p, i, b) && i < |p| && p[i] == '.' && ModeAt(p, i).Outside?
    ensures Rewritten(p, i + 1, b[i := '_']) && ModeAt(p, i + 1).Outside?
  {
  }

  /** The scanning loop, which skips escapes and classes and copies the pattern only once there
      is a dot to replace. */
  method SanitizeGlobDots(pattern: string) returns (r: string)
    ensures r == Rewrite(pattern)
  {
    var n := |pattern|;
    var b: array?<char> := null;
    var i := 0;
    ghost var now := pattern;
    while i < n
      invariant 0 <= i <= n && (i < n ==> ModeAt(pattern, i).Outside?)
      invariant if b == null then now == pattern else fresh(b) && b[..] == now
      invariant Rewritten(pattern, i, now)
    {
      if pattern[i] == '.' {
        if b == null {
          b := Copy(pattern);
        }
        b[i] := '_';
        MarkRewritten(pattern, i, now);
        now := now[i := '_'];
        i := i + 1;
      } else {
        var next := SkipPiece(pattern, i);
        SkipRewritten(pattern, i, next, now);
        i := next;
      }
    }
    r := pattern;
    if b != null {
      r := b[..];
    }
  }

  /** Where the escape, class or plain byte at `i` is over. */
  method SkipPiece(p: string, i: nat) returns (next: nat)
    requires i < |p| && p[i] != '.' && ModeAt(p, i).Outside?
    ensures i < next <= |p|
    ensures next < |p| ==> ModeAt(p, next).Outside?
    ensures Untouched(p, i, next)
  {
    if p[i] == '\\' && i + 1 < |p| {
      assert ModeAt(p, i + 1).Escaped?;
      next := i + 2;
    } else if p[i] == '[' {
      next := SkipClass(p, i);
    } else {
      next := i + 1;
    }
  }

  method Copy(p: string) returns (b: array<char>)
    ensures fresh(b) && b[..] == p
  {
    b := new char[|p|](k requires 0 <= k < |p| => p[k]);
  }

  /** Where the class that opens at `i` is over. */
  method SkipClass(p: string, i: nat) returns (next: nat)
    requires i < |p| && p[i] == '[' && ModeAt(p, i).Outside?
    ensures i < next <= |p|
    ensures next < |p| ==> ModeAt(p, next).Outside?
    ensures Untouched(p, i, next)
  {
    var j := i + 1;
    ghost var m := Opened;
    UntouchedByte(p, i, i, Outside);
    if j < |p| && (p[j] == '!' || p[j] == '^') {
      UntouchedByte(p, i, j, m);
      m, j := Negated, j + 1;
    }
    if j < |p| && p[j] == ']' {
      UntouchedByte(p, i, j, m);
      m, j := Inside, j + 1;
    }
    while j < |p| && p[j] != ']'
      invariant i < j <= |p| && Untouched(p, i, j)
      invariant j < |p| ==> m == ModeAt(p, j) && m in {Opened, Negated, Inside}
      invariant j < |p| && !m.Inside? ==> p[j] != ']' && !Delta(m, p[j]).Negated?
    {
      UntouchedByte(p, i, j, m);
      m := Delta(m, p[j]);
      if p[j] == '\\' && j + 1 < |p| {
        j := j + 1;
        UntouchedByte(p, i, j, m);
        m := Inside;
      }
      j := j + 1;
    }
    next := j;
    if j < |p| {
      UntouchedByte(p, i, j, m);
      next := j + 1;
    }
  }

  /** The rewriting keeps every byte's part: literals stay literals, escapes escapes and class
      members class members. */
  lemma RewriteKeepsModes(p: string, i: nat)
    requires i <= |p|
    ensures ModeAt(Rewrite(p), i) == ModeAt(p, i)
  {
    SameModes(p, Rewrite(p), i);
  }

  /** Byte `k` of `q` is what the rewriting makes of byte `k` of `p`. */
  ghost predicate EmitsAt(p: string, q: string, k: nat)
    requires k < |p| == |q|
  {
    q[k] == Emit(ModeAt(p, k), p[k])
  }

  lemma {:induction false} SameModes(p: string, q: string, i: nat)
    requires i <= |p| == |q|
    requires forall k {:trigger EmitsAt(p, q, k)} :: 0 <= k < |p| ==> EmitsAt(p, q, k)
    ensures ModeAt(q, i) == ModeAt(p, i)
  {
    if i > 0 {
      SameModes(p, q, i - 1);
      SameStep(ModeAt(p, i - 1), p[i - 1]);
      assert EmitsAt(p, q, i - 1);
    }
  }

  /** Replacing a dot does not change what the next byte is part of. */
  lemma SameStep(m: Mode, c: char)
    ensures Delta(m, Emit(m, c)) == Delta(m, c)
  {
  }

  lemma RewriteIdempotent(p: string)
    ensures Rewrite(Rewrite(p)) == Rewrite(p)
  {
    forall i | 0 <= i < |p| ensures Rewrite(Rewrite(p))[i] == Rewrite(p)[i] {
      RewriteKeepsModes(p, i);
    }
  }

  // The rewriting piece by piece.

  lemma {:induction false} ModeOfPrefix(a: string, b: string, i: nat)
    requires i <= |a|
    ensures ModeAt(a + b, i) == ModeAt(a, i)
  {
    if i > 0 {
      ModeOfPrefix(a, b, i - 1);
    }
  }

  lemma {:induction false} ModeOfSuffix(a: string, b: string, i: nat)
    requires ModeAt(a, |a|).Outside? && i <= |b|
    ensures ModeAt(a + b, |a| + i) == ModeAt(b, i)
  {
    if i == 0 {
      ModeOfPrefix(a, b, |a|);
    } else {
      ModeOfSuffix(a, b, i - 1);
    }
  }

  /** Every byte of `q` is what the rewriting makes of that byte of `p`. */
  ghost predicate EmitsAll(p: string, q: string) {
    |q| == |p| && forall k {:trigger EmitsAt(p, q, k)} :: 0 <= k < |p| ==> EmitsAt(p, q, k)
  }

  lemma RewriteEmits(p: string)
    ensures EmitsAll(p, Rewrite(p))
  {
  }

  lemma EmitsUnique(p: string, q: string, r: string)
    requires EmitsAll(p, q) && EmitsAll(p, r)
    ensures q == r
  {
    forall k | 0 <= k < |p| ensures q[k] == r[k] {
      assert EmitsAt(p, q, k) && EmitsAt(p, r, k);
    }
  }

  lemma FrontEmits(a: string, b: string, qa: string, qb: string, k: nat)
    requires |qa| == |a| && |qb| == |b| && k < |a| && EmitsAt(a, qa, k)
    ensures EmitsAt(a + b, qa + qb, k)
  {
    ModeOfPrefix(a, b, k);
  }

  lemma BackEmits(a: string, b: string, qa: string, qb: string, k: nat)
    requires |qa| == |a| && |qb| == |b| && k < |b| && EmitsAt(b, qb, k) && ModeAt(a, |a|).Outside?
    ensures EmitsAt(a + b, qa + qb, |a| + k)
  {
    ModeOfSuffix(a, b, k);
  }

  lemma EmitsJoin(a: string, b: string, qa: string, qb: string)
    requires EmitsAll(a, qa) && EmitsAll(b, qb) && ModeAt(a, |a|).Outside?
    ensures EmitsAll(a + b, qa + qb)
  {
    forall k | 0 <= k < |a + b| ensures EmitsAt(a + b, qa + qb, k) {
      if k < |a| {
        assert EmitsAt(a, qa, k);
        FrontEmits(a, b, qa, qb, k);
      } else {
        assert EmitsAt(b, qb, k - |a|);
        BackEmits(a, b, qa, qb, k - |a|);
      }
    }
  }

  /** A pattern that ends outside escapes and classes, followed by another, is rewritten part by part. */
  lemma RewriteJoins(a: string, b: string)
    requires ModeAt(a, |a|).Outside?
    ensures Rewrite(a + b) == Rewrite(a) + Rewrite(b)
    ensures ModeAt(a + b, |a + b|) == ModeAt(b, |b|)
  {
    RewriteEmits(a);
    RewriteEmits(b);
    RewriteEmits(a + b);
    JoinsAs(a, b, Rewrite(a), Rewrite(b), Rewrite(a + b));
  }

  lemma JoinsAs(a: string, b: string, qa: string, qb: string, q: string)
    requires EmitsAll(a, qa) && EmitsAll(b, qb) && EmitsAll(a + b, q) && ModeAt(a, |a|).Outside?
    ensures q == qa + qb && ModeAt(a + b, |a + b|) == ModeAt(b, |b|)
  {
    EmitsJoin(a, b, qa, qb);
    EmitsUnique(a + b, q, qa + qb);
    ModeOfSuffix(a, b, |b|);
  }

  /** A single byte: a dot is replaced, nothing else is. */
  lemma RewriteOfByte(c: char)
    requires c != '\\' && c != '['
    ensures Rewrite([c]) == (if c == '.' then "_" else [c]) && ModeAt([c], 1).Outside?
  {
  }

  /** An escaped byte stays, a dot too. */
  lemma RewriteOfEscape(c: char)
    ensures Rewrite(['\\', c]) == ['\\', c] && ModeAt(['\\', c], 2).Outside?
  {
    assert ModeAt(['\\', c], 1).Escaped?;
  }

  /** A class stays, dots included: its body holds no ']' and no escape, and is not a lone negation. */
  lemma {:induction false} RewriteOfClass(body: string)
    requires body != "" && body != "!" && body != "^" && ']' !in body && '\\' !in body
    ensures var p := "[" + body + "]"; Rewrite(p) == p && ModeAt(p, |p|).Outside?
  {
    var p := "[" + body + "]";
    forall i | 0 < i <= |body| + 1 ensures InClass(ModeAt(p, i)) && (i == |body| + 1 ==> ModeAt(p, i).Inside?) {
      ClassModes(body, i);
    }
    forall i | 0 <= i < |p| ensures Rewrite(p)[i] == p[i] {
      assert i > 0 ==> InClass(ModeAt(p, i));
    }
    assert p[|p| - 1] == ']';
  }

  predicate InClass(m: Mode) {
    m.Opened? || m.Negated? || m.Inside?
  }

  lemma {:induction false} ClassModes(body: string, i: nat)
    requires body != "" && body != "!" && body != "^" && ']' !in body && '\\' !in body
    requires 0 < i <= |body| + 1
    ensures var m := ModeAt("[" + body + "]", i);
      if i == 1 then m.Opened? else if i == 2 && body[0] in {'!', '^'} then m.Negated? else m.Inside?
    decreases i
  {
    var p := "[" + body + "]";
    if i > 1 {
      ClassModes(body, i - 1);
      assert p[i - 1] == body[i - 2] && body[i - 2] in body;
    } else {
      assert ModeAt(p, 0).Outside?;
    }
  }

  // ----- matching -----

  /** The pieces of a glob as the matcher reads them. */
  datatype Item = Star | Any | Lit(c: char) | Class(negated: bool, ranges: seq<Range>)

  datatype Range = Range(lo: char, hi: char)

  /** The length of one class member, an escape counting as one; None if there is none or if
      nothing follows it. */
  function Member(q: string): (n: Option<nat>)
    ensures n.Some? ==> 0 < n.value < |q|
  {
    if q == "" || q[0] == '-' || q[0] == ']' then None
    else if q[0] == '\\' then (if |q| < 3 then None else Some(2))
    else if |q| < 2 then None else Some(1)
  }

  datatype Ranged = Ranged(ranges: seq<Range>, length: nat)

  /** One range, single members included. */
  function OneRange(q: string): (r: Option<Ranged>)
    ensures r.Some? ==> 0 < r.value.length < |q|
  {
    match Member(q)
    case None => None
    case Some(n) =>
      if q[n] != '-' then Some(Ranged([Range(q[n - 1], q[n - 1])], n))
      else
        var rest := q[n + 1..];
        match Member(rest)
        case None => None
        case Some(k) => Some(Ranged([Range(q[n - 1], rest[k - 1])], n + 1 + k))
  }

  /** The ranges of a class up to and including its ']', at least one. */
  function Ranges(q: string, first: bool): (r: Option<Ranged>)
    ensures r.Some? ==> 0 < r.value.length <= |q|
    decreases |q|
  {
    if !first && q != "" && q[0] == ']' then Some(Ranged([], 1))
    else
      match OneRange(q)
      case None => None
      case Some(one) =>
        match Ranges(q[one.length..], false)
        case None => None
        case Some(more) => Some(Ranged(one.ranges + more.ranges, one.length + more.length))
  }

  /** How the matcher reads a pattern; None is a bad pattern. */
  function Items(p: string): (r: Option<seq<Item>>)
    decreases |p|
  {
    if p == "" then Some([])
    else if p[0] == '*' then Prepend(Star, Items(p[1..]))
    else if p[0] == '?' then Prepend(Any, Items(p[1..]))
    else if p[0] == '\\' then
      if |p| < 2 then None else Prepend(Lit(p[1]), Items(p[2..]))
    else if p[0] == '[' then
      var negated := |p| > 1 && p[1] == '^';
      var body := if negated then p[2..] else p[1..];
      match Ranges(body, true)
      case None => None
      case Some(r) => Prepend(Class(negated, r.ranges), Items(body[r.length..]))
    else Prepend(Lit(p[0]), Items(p[1..]))
  }

  function Prepend(x: Item, r: Option<seq<Item>>): (r': Option<seq<Item>>) {
    match r
    case None => None
    case Some(xs) => Some([x] + xs)
  }

  predicate InRanges(ranges: seq<Range>, c: char) {
    exists i :: 0 <= i < |ranges| && ranges[i].lo <= c <= ranges[i].hi
  }

  /** Neither '*' nor '?' matches the separator. */
  predicate Matches(items: seq<Item>, s: string)
    decreases |items| + |s|
  {
    if items == [] then s == ""
    else
      match items[0]
      case Star => Matches(items[1..], s) || (s != "" && s[0] != '/' && Matches(items, s[1..]))
      case Any => s != "" && s[0] != '/' && Matches(items[1..], s[1..])
      case Lit(c) => s != "" && s[0] == c && Matches(items[1..], s[1..])
      case Class(negated, ranges) => s != "" && InRanges(ranges, s[0]) != negated && Matches(items[1..], s[1..])
  }

  predicate GlobMatches(p: string, s: string) {
    Items(p).Some? && Matches(Items(p).value, s)
  }

  /** The target matcher: the pattern as written, or rewritten if that makes a difference. */
  predicate TargetMatches(p: string, id: string) {
    GlobMatches(p, id) || (Rewrite(p) != p && GlobMatches(Rewrite(p), id))
  }

  /** A name matched by a pattern contains each of its literals. */
  lemma {:induction false} LiteralsAppear(items: seq<Item>, s: string, c: char)
    requires Matches(items, s) && Lit(c) in items
    ensures c in s
    decreases |items| + |s|
  {
    if items[0] == Lit(c) {
      assert s[0] in s;
    } else {
      assert items == [items[0]] + items[1..];
      if items[0].Star? && Matches(items[1..], s) {
        LiteralsAppear(items[1..], s, c);
      } else if items[0].Star? {
        LiteralsAppear(items, s[1..], c);
      } else {
        LiteralsAppear(items[1..], s[1..], c);
      }
    }
  }

  // ----- the two readings of a pattern stay in step -----

  /** Scanning `p` from mode `m` meets a dot to replace. */
  predicate Dotty(m: Mode, p: string)
    decreases |p|
  {
    p != "" && ((m.Outside? && p[0] == '.') || Dotty(Delta(m, p[0]), p[1..]))
  }

  /** The mode after the first `i` bytes of `p`, starting from `m`. */
  function RunTo(m: Mode, p: string, i: nat): (m': Mode)
    requires i <= |p|
    decreases i
  {
    if i == 0 then m else RunTo(Delta(m, p[0]), p[1..], i - 1)
  }

  lemma {:induction false} RunToStep(m: Mode, p: string, i: nat)
    requires i < |p|
    ensures RunTo(m, p, i + 1) == Delta(RunTo(m, p, i), p[i])
    decreases i
  {
    if i > 0 {
      RunToStep(Delta(m, p[0]), p[1..], i - 1);
    }
  }

  lemma {:induction false} ModeAtIsRunTo(p: string, i: nat)
    requires i <= |p|
    ensures ModeAt(p, i) == RunTo(Outside, p, i)
  {
    if i > 0 {
      ModeAtIsRunTo(p, i - 1);
      RunToStep(Outside, p, i - 1);
    }
  }

  lemma {:induction false} DotIsMet(m: Mode, p: string, i: nat)
    requires i < |p| && RunTo(m, p, i).Outside? && p[i] == '.'
    ensures Dotty(m, p)
    decreases i
  {
    if i > 0 {
      DotIsMet(Delta(m, p[0]), p[1..], i - 1);
    }
  }

  lemma NotDottyUnchanged(p: string)
    requires !Dotty(Outside, p)
    ensures Rewrite(p) == p
  {
    forall i | 0 <= i < |p| ensures Rewrite(p)[i] == p[i] {
      ModeAtIsRunTo(p, i);
      if RunTo(Outside, p, i).Outside? && p[i] == '.' {
        DotIsMet(Outside, p, i);
      }
    }
  }

  lemma MemberStaysInside(q: string)
    requires Member(q).Some?
    ensures Dotty(Inside, q) <==> Dotty(Inside, q[Member(q).value..])
  {
    if q[0] == '\\' {
      assert q[1..][1..] == q[2..];
    }
  }

  lemma RangeStaysInside(q: string)
    requires OneRange(q).Some?
    ensures Dotty(Inside, q) <==> Dotty(Inside, q[OneRange(q).value.length..])
  {
    MemberStaysInside(q);
    var n := Member(q).value;
    if q[n] == '-' {
      var rest := q[n + 1..];
      assert q[n..][1..] == rest;
      MemberStaysInside(rest);
      assert rest[Member(rest).value..] == q[OneRange(q).value.length..];
    }
  }

  /** A class body the matcher accepts ends where the scan leaves the class. */
  lemma {:induction false} ClassBodyEndsTogether(q: string, first: bool)
    requires Ranges(q, first).Some?
    ensures Dotty(Inside, q) <==> Dotty(Outside, q[Ranges(q, first).value.length..])
    decreases |q|
  {
    if first || q == "" || q[0] != ']' {
      RangeStaysInside(q);
      var n := OneRange(q).value.length;
      ClassBodyEndsTogether(q[n..], false);
      assert q[n..][Ranges(q[n..], false).value.length..] == q[Ranges(q, first).value.length..];
    }
  }

  ghost predicate NoDotLiteral(p: string) {
    Items(p).Some? && Lit('.') !in Items(p).value
  }

  lemma TailNoDotLiteral(p: string, x: Item, rest: string)
    requires NoDotLiteral(p) && Items(p) == Prepend(x, Items(rest))
    ensures NoDotLiteral(rest) && x != Lit('.')
  {
    assert Items(p).value[0] == x;
  }

  /** The bracket the matcher sees at the front of `p`: its item and what follows. */
  function Body(p: string): (b: string)
    requires p != "" && p[0] == '['
  {
    if |p| > 1 && p[1] == '^' then p[2..] else p[1..]
  }

  function AfterClass(p: string): (rest: string)
    requires p != "" && p[0] == '[' && Ranges(Body(p), true).Some?
  {
    Body(p)[Ranges(Body(p), true).value.length..]
  }

  lemma ClassTail(p: string)
    requires NoDotLiteral(p) && p != "" && p[0] == '['
    ensures Ranges(Body(p), true).Some? && NoDotLiteral(AfterClass(p)) && |AfterClass(p)| < |p|
  {
    var negated := |p| > 1 && p[1] == '^';
    TailNoDotLiteral(p, Class(negated, Ranges(Body(p), true).value.ranges), AfterClass(p));
  }

  /** Inside the scan's class while the matcher is already outside, as after "[!]". */
  lemma {:induction false} InsideInStep(q: string)
    requires NoDotLiteral(q)
    ensures !Dotty(Inside, q)
    decreases |q|, 0
  {
    if q == "" {
    } else if q[0] == '*' {
      TailNoDotLiteral(q, Star, q[1..]);
      InsideInStep(q[1..]);
    } else if q[0] == '?' {
      TailNoDotLiteral(q, Any, q[1..]);
      InsideInStep(q[1..]);
    } else if q[0] == '\\' {
      TailNoDotLiteral(q, Lit(q[1]), q[2..]);
      InsideInStep(q[2..]);
      assert q[1..][1..] == q[2..];
    } else if q[0] == '[' {
      ClassTail(q);
      OutsideInStep(AfterClass(q));
      ClassBodyEndsTogether(Body(q), true);
      if |q| > 1 && q[1] == '^' {
        assert q[1..][1..] == Body(q);
      }
    } else {
      TailNoDotLiteral(q, Lit(q[0]), q[1..]);
      if q[0] == ']' {
        OutsideInStep(q[1..]);
      } else {
        InsideInStep(q[1..]);
      }
    }
  }

  /** Right after a class opens, unless its first member is a lone '!'. */
  lemma OpenedIsInside(body: string)
    requires Ranges(body, true).Some?
    requires body[0] == '!' ==> body[1] != ']'
    ensures body[0] != '^' ==> Dotty(Opened, body) == Dotty(Inside, body)
    ensures Dotty(Negated, body) == Dotty(Inside, body)
  {
  }

  lemma {:induction false} OutsideInStep(p: string)
    requires NoDotLiteral(p)
    ensures !Dotty(Outside, p)
    decreases |p|, 1
  {
    if p == "" {
    } else if p[0] == '*' {
      TailNoDotLiteral(p, Star, p[1..]);
      OutsideInStep(p[1..]);
    } else if p[0] == '?' {
      TailNoDotLiteral(p, Any, p[1..]);
      OutsideInStep(p[1..]);
    } else if p[0] == '\\' {
      TailNoDotLiteral(p, Lit(p[1]), p[2..]);
      OutsideInStep(p[2..]);
      assert p[1..][1..] == p[2..];
    } else if p[0] == '[' {
      ClassTail(p);
      OpenClassInStep(p);
    } else {
      TailNoDotLiteral(p, Lit(p[0]), p[1..]);
      OutsideInStep(p[1..]);
    }
  }

  lemma {:induction false} OpenClassInStep(p: string)
    requires NoDotLiteral(p) && p != "" && p[0] == '['
    requires Ranges(Body(p), true).Some? && NoDotLiteral(AfterClass(p))
    ensures !Dotty(Outside, p)
    decreases |p|, 0
  {
    var body := Body(p);
    if p[1] == '^' {
      assert p[1..][1..] == body;
      ClassBodyEndsTogether(body, true);
      if body[0] == '!' && body[1] == ']' {
        LoneBang(body);
        assert Dotty(Negated, body) == Dotty(Inside, body);
      } else {
        OpenedIsInside(body);
      }
      OutsideInStep(AfterClass(p));
    } else if body[0] == '!' && body[1] == ']' {
      LoneBang(body);
      InsideInStep(AfterClass(p));
      assert body[1..][1..] == AfterClass(p);
      assert Dotty(Negated, body[1..]) == Dotty(Inside, AfterClass(p));
      assert Dotty(Opened, body) == Dotty(Negated, body[1..]);
    } else {
      OpenedIsInside(body);
      ClassBodyEndsTogether(body, true);
      OutsideInStep(AfterClass(p));
    }
  }

  lemma LoneBang(body: string)
    requires |body| > 1 && body[0] == '!' && body[1] == ']'
    ensures Ranges(body, true).Some? && Ranges(body, true).value.length == 2
  {
    assert OneRange(body).value.length == 1;
    assert body[1..][0] == ']';
  }

  // ----- the theorems -----

  /** A pattern that matches a peel identifier as written is not changed by the rewriting. */
  lemma MatchingPatternUnchanged(p: string, id: string)
    requires IsPeelId(id) && GlobMatches(p, id)
    ensures Rewrite(p) == p
  {
    if Lit('.') in Items(p).value {
      LiteralsAppear(Items(p).value, id, '.');
    }
    OutsideInStep(p);
    NotDottyUnchanged(p);
  }

  /** The rewriting never loses a match, so matching either form is matching the rewritten one. */
  lemma RewriteOnlyAdds(p: string, id: string)
    requires IsPeelId(id)
    ensures GlobMatches(p, id) ==> GlobMatches(Rewrite(p), id)
    ensures TargetMatches(p, id) <==> GlobMatches(Rewrite(p), id)
  {
    if GlobMatches(p, id) {
      MatchingPatternUnchanged(p, id);
    }
  }

  // ----- dotted host names -----

  predicate IsSimple(p: string) {
    forall i :: 0 <= i < |p| ==> p[i] != '[' && p[i] != '\\'
  }

  /** How a byte of a simple pattern is read. */
  function SimpleItem(c: char): (x: Item) {
    if c == '*' then Star else if c == '?' then Any else Lit(c)
  }

  function SimpleItems(p: string): (xs: seq<Item>)
    ensures |xs| == |p|
  {
    if p == "" then [] else [SimpleItem(p[0])] + SimpleItems(p[1..])
  }

  lemma {:induction false} SimpleRead(p: string)
    requires IsSimple(p)
    ensures Items(p) == Some(SimpleItems(p))
  {
    if p != "" {
      SimpleRead(p[1..]);
    }
  }

  function EncodeDots(s: string): (r: string)
    ensures |r| == |s|
  {
    if s == "" then "" else [RewriteByte(s[0])] + EncodeDots(s[1..])
  }

  function RewriteByte(c: char): (r: char) {
    if c == '.' then '_' else c
  }

  lemma {:induction false} SimpleRewrite(p: string, i: nat)
    requires IsSimple(p) && i <= |p|
    ensures ModeAt(p, i).Outside?
  {
    if i > 0 {
      SimpleRewrite(p, i - 1);
    }
  }

  lemma {:induction false} EncodeDotsAt(s: string, i: nat)
    requires i < |s|
    ensures EncodeDots(s)[i] == RewriteByte(s[i])
    decreases i
  {
    if i > 0 {
      EncodeDotsAt(s[1..], i - 1);
    }
  }

  lemma SimpleRewriteIsEncodeDots(p: string)
    requires IsSimple(p)
    ensures Rewrite(p) == EncodeDots(p) && IsSimple(Rewrite(p))
  {
    forall i | 0 <= i < |p| ensures Rewrite(p)[i] == EncodeDots(p)[i] && Rewrite(p)[i] != '[' && Rewrite(p)[i] != '\\' {
      SimpleRewrite(p, i);
      EncodeDotsAt(p, i);
    }
  }

  /** Encoding dots in a simple pattern and in a name keeps matches; without underscores in
      either it also adds none. */
  lemma {:induction false} EncodedMatch(p: string, s: string)
    ensures Matches(SimpleItems(p), s) ==> Matches(SimpleItems(EncodeDots(p)), EncodeDots(s))
    ensures '_' !in p && '_' !in s ==>
      (Matches(SimpleItems(p), s) <==> Matches(SimpleItems(EncodeDots(p)), EncodeDots(s)))
    decreases |p| + |s|
  {
    if p != "" {
      assert p[0] in p && ('_' in p[1..] ==> '_' in p);
      EncodedMatch(p[1..], s);
      if s != "" {
        assert s[0] in s && ('_' in s[1..] ==> '_' in s);
        EncodedMatch(p[1..], s[1..]);
        EncodedMatch(p, s[1..]);
      }
    }
  }

  lemma HostEncoding(h: string)
    requires IsHostLike(h)
    ensures Sanitize(h) == EncodeDots(h) && '_' !in h
  {
    SanitizeHostLike(h);
    forall i | 0 <= i < |h| ensures EncodeBytes(h)[i] == EncodeDots(h)[i] {
      EncodeDotsAt(h, i);
    }
  }

  /** A target written for dotted host names finds the node under its encoded identifier: the
      rewritten pattern matches the identifier whenever the pattern matches the host name, and
      only then unless the pattern itself contains an underscore. */
  lemma DottedTargetsFindTheirNode(p: string, h: string)
    requires IsSimple(p) && IsHostLike(h)
    ensures GlobMatches(p, h) ==> GlobMatches(Rewrite(p), Sanitize(h))
    ensures '_' !in p ==> (GlobMatches(p, h) <==> GlobMatches(Rewrite(p), Sanitize(h)))
  {
    SimpleRead(p);
    SimpleRewriteIsEncodeDots(p);
    SimpleRead(Rewrite(p));
    HostEncoding(h);
    EncodedMatch(p, h);
  }
}
