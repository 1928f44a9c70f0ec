/** Peel identifiers: validation, the encoding of host names into them, and its inverse.
    Strings are byte strings, one char per byte. */
module PeelId {
  import opened KeyValue
  import Enrollment
  import opened Dotted

  const MaxLength: nat := 128

  predicate IsAlnum(c: char) {
    'a' <= c <= 'z' || 'A' <= c <= 'Z' || '0' <= c <= '9'
  }

  predicate IsPeelByte(c: char) {
    IsAlnum(c) || c == '_' || c == '-'
  }

  // ----- validation -----

  datatype Problem = Missing | TooLong | ReservedOrigin | Separator | BadCharacter

  /** The checks in their order; None means valid. */
  function Validate(id: string): (r: Option<Problem>) {
    if id == "" then Some(Missing)
    else if |id| > MaxLength then Some(TooLong)
    else if id[0] == '_' then Some(ReservedOrigin)
    else if '.' in id || '*' in id || '>' in id then Some(Separator)
    else if !IsAlnum(id[0]) || exists i :: 0 <= i < |id| && !IsPeelByte(id[i]) then Some(BadCharacter)
    else None
  }

  predicate IsPeelId(id: string) {
    0 < |id| <= 128 && IsAlnum(id[0]) && forall i :: 0 <= i < |id| ==> IsPeelByte(id[i])
  }

  /** The earlier checks only choose the message: validity is the pattern and the length. */
  lemma ValidateIff(id: string)
    ensures Validate(id).None? <==> IsPeelId(id)
  {
  }

  // ----- encoding -----

  function EncodeByte(c: char): (r: char)
    ensures IsPeelByte(r)
  {
    if IsPeelByte(c) then c else if c == '.' then '_' else '-'
  }

  function EncodeBytes(s: string): (r: string)
    ensures |r| == |s|
    ensures forall i :: 0 <= i < |s| ==> r[i] == EncodeByte(s[i])
  {
    if s == "" then "" else [EncodeByte(s[0])] + EncodeBytes(s[1..])
  }

  function StripLead(s: string): (r: string)
    ensures |r| <= |s|
    ensures r != "" ==> r[0] != '-' && r[0] != '_'
  {
    if s != "" && (s[0] == '-' || s[0] == '_') then StripLead(s[1..]) else s
  }

  function Truncate(s: string): (r: string) {
    if |s| > MaxLength then s[..MaxLength] else s
  }

  function Sanitize(raw: string): (r: string) {
    Truncate(StripLead(EncodeBytes(raw)))
  }

  /** The in-place form: bytes are rewritten in a buffer, which is then cut at both ends. */
  method SanitizePeelId(raw: string) returns (r: string)
    ensures r == Sanitize(raw)
  {
    var b := new char[|raw|](i requires 0 <= i < |raw| => raw[i]);
    assert b[..] == raw;
    EncodeInPlace(b);
    var j := LeadEnd(b);
    r := b[j..];
    if |r| > MaxLength {
      r := r[..MaxLength];
    }
  }

  method EncodeInPlace(b: array<char>)
    modifies b
    ensures b[..] == EncodeBytes(old(b[..]))
  {
    for i := 0 to b.Length
      invariant forall k :: 0 <= k < i ==> b[k] == EncodeByte(old(b[k]))
      invariant forall k :: i <= k < b.Length ==> b[k] == old(b[k])
    {
      if !IsPeelByte(b[i]) {
        if b[i] == '.' {
          b[i] := '_';
        } else {
          b[i] := '-';
        }
      }
    }
  }

  /** Where the leading run of '-' and '_' ends. */
  method LeadEnd(b: array<char>) returns (j: nat)
    ensures j <= b.Length && b[j..] == StripLead(b[..])
  {
    j := 0;
    while j < b.Length && (b[j] == '-' || b[j] == '_')
      invariant 0 <= j <= b.Length
      invariant StripLead(b[j..]) == StripLead(b[..])
    {
      assert b[j..][1..] == b[j + 1..];
      j := j + 1;
    }
  }

  /** What a byte becomes: letters, digits, '-' and '_' stay, a dot becomes '_', anything else '-'. */
  ghost predicate Becomes(c: char, d: char) {
    if IsAlnum(c) || c == '-' || c == '_' then d == c
    else if c == '.' then d == '_'
    else d == '-'
  }

  /** What is left of `raw`, without its first `lead` bytes. */
  ghost predicate IsEncodingFrom(raw: string, lead: nat, rest: string) {
    && lead <= |raw| && |rest| <= |raw| - lead
    && forall i :: 0 <= i < |rest| ==> Becomes(raw[lead + i], rest[i])
  }

  /** The first letter or digit is at `lead`, if there is one. */
  ghost predicate IsLead(raw: string, lead: nat) {
    && lead <= |raw| && (lead < |raw| ==> IsAlnum(raw[lead]))
    && forall i :: 0 <= i < lead ==> !IsAlnum(raw[i])
  }

  /** The encoding exactly: everything before the first letter or digit goes, the rest is encoded byte by
      byte and cut at 128 bytes. */
  lemma SanitizeExactly(raw: string) returns (lead: nat)
    ensures IsLead(raw, lead) && IsEncodingFrom(raw, lead, Sanitize(raw))
    ensures |Sanitize(raw)| == if |raw| - lead > 128 then 128 else |raw| - lead
  {
    lead := StrippedIs(raw);
    Truncated(raw, lead, StripLead(EncodeBytes(raw)));
  }

  lemma StrippedIs(raw: string) returns (lead: nat)
    ensures IsLead(raw, lead) && IsEncodingFrom(raw, lead, StripLead(EncodeBytes(raw)))
    ensures |StripLead(EncodeBytes(raw))| == |raw| - lead
  {
    var e := EncodeBytes(raw);
    lead := |raw| - |StripLead(e)|;
    StrippedLead(e);
    SuffixIs(raw, e, StripLead(e));
  }

  lemma Truncated(raw: string, lead: nat, rest: string)
    requires IsEncodingFrom(raw, lead, rest)
    ensures IsEncodingFrom(raw, lead, Truncate(rest))
    ensures |Truncate(rest)| == if |rest| > 128 then 128 else |rest|
  {
  }

  lemma SuffixIs(raw: string, e: string, rest: string)
    requires |e| == |raw| && forall i :: 0 <= i < |e| ==> e[i] == EncodeByte(raw[i])
    requires |rest| <= |e| && rest == e[|e| - |rest|..]
    requires rest != "" ==> rest[0] != '-' && rest[0] != '_'
    requires forall i :: 0 <= i < |e| - |rest| ==> e[i] == '-' || e[i] == '_'
    ensures IsLead(raw, |raw| - |rest|) && IsEncodingFrom(raw, |raw| - |rest|, rest)
  {
    var lead := |e| - |rest|;
    forall i | 0 <= i < |rest| ensures Becomes(raw[lead + i], rest[i]) {
      assert rest[i] == e[lead + i];
    }
    if lead < |raw| {
      assert rest[0] == e[lead];
    }
  }

  /** Only '-' and '_' are stripped, from the front. */
  lemma {:induction false} StrippedLead(e: string)
    ensures StripLead(e) == e[|e| - |StripLead(e)|..]
    ensures forall i :: 0 <= i < |e| - |StripLead(e)| ==> e[i] == '-' || e[i] == '_'
  {
    if e != "" && (e[0] == '-' || e[0] == '_') {
      StrippedLead(e[1..]);
      assert e[1..][|e| - 1 - |StripLead(e)|..] == e[|e| - |StripLead(e)|..];
      LeadNext(e, |e| - |StripLead(e)|);
    }
  }

  lemma LeadNext(e: string, n: nat)
    requires 0 < n <= |e| && (e[0] == '-' || e[0] == '_')
    requires forall i :: 0 <= i < n - 1 ==> e[1..][i] == '-' || e[1..][i] == '_'
    ensures forall i :: 0 <= i < n ==> e[i] == '-' || e[i] == '_'
  {
    forall i | 0 < i < n ensures e[i] == '-' || e[i] == '_' {
      assert e[i] == e[1..][i - 1];
    }
  }

  /** Whatever goes in, a non-empty result is a valid identifier. */
  lemma SanitizedIsValid(raw: string)
    ensures Sanitize(raw) != "" ==> IsPeelId(Sanitize(raw)) && Validate(Sanitize(raw)).None?
  {
    var s := StripLead(EncodeBytes(raw));
    StrippedBytes(EncodeBytes(raw));
    if Sanitize(raw) != "" {
      assert forall i :: 0 <= i < |Sanitize(raw)| ==> Sanitize(raw)[i] == s[i];
      ValidateIff(Sanitize(raw));
    }
  }

  /** What is left after stripping is still made of peel bytes and starts with a letter or digit. */
  lemma StrippedBytes(e: string)
    requires forall i :: 0 <= i < |e| ==> IsPeelByte(e[i])
    ensures forall i :: 0 <= i < |StripLead(e)| ==> IsPeelByte(StripLead(e)[i])
    ensures StripLead(e) != "" ==> IsAlnum(StripLead(e)[0])
  {
    var s := StripLead(e);
    StrippedLead(e);
    assert forall i :: 0 <= i < |s| ==> s[i] == e[i + |e| - |s|];
  }

  lemma {:induction false} EncodeFixes(s: string)
    requires forall i :: 0 <= i < |s| ==> IsPeelByte(s[i])
    ensures EncodeBytes(s) == s
  {
  }

  /** Valid identifiers are left alone, so encoding twice is encoding once. */
  lemma SanitizeKeepsValid(id: string)
    requires IsPeelId(id)
    ensures Sanitize(id) == id
  {
    EncodeFixes(id);
  }

  lemma SanitizeIdempotent(raw: string)
    ensures Sanitize(Sanitize(raw)) == Sanitize(raw)
  {
    SanitizedIsValid(raw);
    if Sanitize(raw) != "" {
      SanitizeKeepsValid(Sanitize(raw));
    }
  }

  // ----- decoding -----

  function DecodeBytes(s: string): (r: string)
    ensures |r| == |s|
    ensures forall i :: 0 <= i < |s| ==> r[i] == if s[i] == '_' then '.' else s[i]
  {
    if s == "" then "" else [if s[0] == '_' then '.' else s[0]] + DecodeBytes(s[1..])
  }

  function Display(id: string): (r: string) {
    if id == "" || id[0] == '_' || '_' !in id then id
    else if Validate(id).Some? then id
    else DecodeBytes(id)
  }

  /** The decoding exactly: in a valid identifier every '_' becomes a dot, and anything else is shown as
      it is. */
  lemma DisplayExactly(id: string)
    ensures |Display(id)| == |id|
    ensures forall i :: 0 <= i < |id| ==> Display(id)[i] == if IsPeelId(id) && id[i] == '_' then '.' else id[i]
  {
    ValidateIff(id);
    if '_' !in id {
      assert forall i :: 0 <= i < |id| ==> id[i] in id;
    }
  }

  /** The names the encoding is exact on: letters, digits, hyphens and dots, starting with a
      letter or digit, at most 128 bytes. */
  predicate IsHostLike(h: string) {
    0 < |h| <= 128 && IsAlnum(h[0]) && forall i :: 0 <= i < |h| ==> IsAlnum(h[i]) || h[i] == '-' || h[i] == '.'
  }

  lemma SanitizeHostLike(h: string)
    requires IsHostLike(h)
    ensures Sanitize(h) == EncodeBytes(h) && IsPeelId(Sanitize(h))
  {
  }

  lemma DisplayUndoesHostLike(h: string)
    requires IsHostLike(h)
    ensures Display(Sanitize(h)) == h
  {
    SanitizeHostLike(h);
    ValidateIff(Sanitize(h));
    DecodeUndoesEncode(h);
    if '_' !in EncodeBytes(h) {
      EncodeWithoutDots(h);
    }
  }

  lemma DecodeUndoesEncode(h: string)
    requires IsHostLike(h)
    ensures DecodeBytes(EncodeBytes(h)) == h
  {
  }

  lemma EncodeWithoutDots(h: string)
    requires IsHostLike(h) && '_' !in EncodeBytes(h)
    ensures EncodeBytes(h) == h
  {
    var id := EncodeBytes(h);
    assert forall i :: 0 <= i < |h| ==> id[i] == EncodeByte(h[i]) && id[i] in id;
  }

  /** Whatever a non-empty identifier displays as, it has no underscore and no stray byte. */
  lemma DisplayOfValid(id: string)
    requires IsPeelId(id)
    ensures IsHostLike(Display(id))
  {
    ValidateIff(id);
    if '_' !in id {
      assert forall i :: 0 <= i < |id| ==> id[i] in id;
    }
  }

  /** Display undoes the encoding on exactly the host-like names and the empty string. */
  lemma DisplayUndoesIff(h: string)
    ensures Display(Sanitize(h)) == h <==> h == "" || IsHostLike(h)
  {
    if h != "" {
      if IsHostLike(h) {
        DisplayUndoesHostLike(h);
      } else if Sanitize(h) != "" {
        SanitizedIsValid(h);
        DisplayOfValid(Sanitize(h));
      }
    }
  }

  // ----- host names -----

  /** One label in the syntax of section 2.1 of RFC 1123. */
  predicate IsLabel(l: string) {
    && 0 < |l| <= 63
    && IsAlnum(l[0]) && IsAlnum(l[|l| - 1])
    && forall i :: 0 <= i < |l| ==> IsAlnum(l[i]) || l[i] == '-'
  }

  ghost predicate IsHostname(h: string) {
    |h| <= 255 && forall i :: 0 <= i < |Split(h)| ==> IsLabel(Split(h)[i])
  }

  lemma {:induction false} LabelBytes(ts: seq<string>)
    requires |ts| > 0
    requires forall i :: 0 <= i < |ts| ==> IsLabel(ts[i])
    ensures var h := Join(ts);
      |h| > 0 && IsAlnum(h[0]) && forall i :: 0 <= i < |h| ==> IsAlnum(h[i]) || h[i] == '-' || h[i] == '.'
    decreases |ts|
  {
    if |ts| > 1 {
      LabelBytes(ts[1..]);
      var rest := Join(ts[1..]);
      var h := Join(ts);
      forall i | 0 <= i < |h| ensures IsAlnum(h[i]) || h[i] == '-' || h[i] == '.' {
        if i > |ts[0]| {
          assert h[i] == rest[i - |ts[0]| - 1];
        }
      }
    }
  }

  lemma HostnameIsHostLike(h: string)
    requires IsHostname(h) && |h| <= MaxLength
    ensures IsHostLike(h)
  {
    LabelBytes(Split(h));
    JoinOfSplit(h);
  }

  /** Distinct host names get distinct identifiers, and each displays as itself. */
  lemma HostnamesStayDistinct(a: string, b: string)
    requires IsHostname(a) && |a| <= MaxLength
    requires IsHostname(b) && |b| <= MaxLength
    ensures Display(Sanitize(a)) == a
    ensures Sanitize(a) == Sanitize(b) ==> a == b
  {
    HostnameIsHostLike(a);
    HostnameIsHostLike(b);
    DisplayUndoesHostLike(a);
    DisplayUndoesHostLike(b);
  }

  // ----- node identity -----

  datatype Resolved = Ok(id: string) | Underscore | Nothing | Invalid | Localhost

  function BeforeUnderscore(s: string): (r: string) {
    if s == "" || s[0] == '_' then "" else [s[0]] + BeforeUnderscore(s[1..])
  }

  predicate IsLocalhostId(id: string) {
    Enrollment.Fold(BeforeUnderscore(id)) in {"localhost", "localhost4", "localhost6"}
  }

  /** The first label is `n` bytes long. */
  ghost predicate EndsLabel(id: string, n: nat) {
    n <= |id| && '_' !in id[..n] && (n == |id| || id[n] == '_')
  }

  ghost predicate IsLocalName(s: string) {
    || Enrollment.SameButCase(s, "localhost")
    || Enrollment.SameButCase(s, "localhost4")
    || Enrollment.SameButCase(s, "localhost6")
  }

  /** The first label of an identifier is one of the three names for this host, in any case of letters. */
  ghost predicate NamesThisHost(id: string) {
    exists n: nat :: EndsLabel(id, n) && IsLocalName(id[..n])
  }

  lemma {:induction false} LabelLength(id: string) returns (n: nat)
    ensures EndsLabel(id, n)
  {
    n := 0;
    if id != "" && id[0] != '_' {
      n := LabelLength(id[1..]);
      n := n + 1;
      assert id[..n] == [id[0]] + id[1..][..n - 1];
    }
  }

  lemma {:induction false} LabelIs(id: string, n: nat)
    requires EndsLabel(id, n)
    ensures id[..n] == BeforeUnderscore(id)
    decreases n
  {
    if n > 0 {
      assert id[..n] == [id[0]] + id[1..][..n - 1];
      LabelIs(id[1..], n - 1);
    }
  }

  lemma LocalhostMeans(id: string)
    ensures IsLocalhostId(id) <==> NamesThisHost(id)
  {
    var n := LabelLength(id);
    LabelIs(id, n);
    LocalNameMeans(BeforeUnderscore(id));
    forall m: nat | EndsLabel(id, m) ensures id[..m] == BeforeUnderscore(id) {
      LabelIs(id, m);
    }
  }

  lemma LocalNameMeans(s: string)
    ensures Enrollment.Fold(s) in {"localhost", "localhost4", "localhost6"} <==> IsLocalName(s)
  {
    FoldedIs(s, "localhost");
    FoldedIs(s, "localhost4");
    FoldedIs(s, "localhost6");
  }

  lemma FoldedIs(s: string, name: string)
    requires forall i :: 0 <= i < |name| ==> 'a' <= name[i] <= 'z' || '0' <= name[i] <= '9'
    ensures Enrollment.Fold(s) == name <==> Enrollment.SameButCase(s, name)
  {
    Enrollment.FoldIsSameButCase(s, name);
    assert Enrollment.Fold(name) == name;
  }

  /** An identity taken from configuration, after trimming. */
  function FromConfig(raw: string): (r: Resolved) {
    if '_' in raw then Underscore
    else if Sanitize(raw) == "" then Nothing
    else if Validate(Sanitize(raw)).Some? then Invalid
    else Ok(Sanitize(raw))
  }

  /** An identity derived from the host name. */
  function FromHostname(raw: string): (r: Resolved) {
    if '_' in raw then Underscore
    else if Sanitize(raw) == "" then Nothing
    else if Validate(Sanitize(raw)).Some? then Invalid
    else if IsLocalhostId(Sanitize(raw)) then Localhost
    else Ok(Sanitize(raw))
  }

  /** How any name is resolved: one with an underscore is turned away, one without a letter or digit
      yields nothing, a derived one that names this host is turned away, and any other yields its
      encoding. */
  lemma ResolvedExactly(raw: string)
    ensures FromConfig(raw).Underscore? <==> '_' in raw
    ensures FromConfig(raw).Nothing? <==> '_' !in raw && forall i :: 0 <= i < |raw| ==> !IsAlnum(raw[i])
    ensures !FromConfig(raw).Underscore? && !FromConfig(raw).Nothing? ==> FromConfig(raw) == Ok(Sanitize(raw))
    ensures FromHostname(raw).Localhost? <==> FromConfig(raw).Ok? && NamesThisHost(Sanitize(raw))
    ensures !FromHostname(raw).Localhost? ==> FromHostname(raw) == FromConfig(raw)
  {
    SanitizedIsValid(raw);
    var lead := SanitizeExactly(raw);
    LocalhostMeans(Sanitize(raw));
  }

  /** A resolved identity is always valid: the check after encoding never fires, and only the
      localhost guard tells a derived identity from a configured one. */
  lemma ResolvedIsValid(raw: string)
    ensures !FromHostname(raw).Invalid? && !FromConfig(raw).Invalid?
    ensures FromConfig(raw).Ok? ==> IsPeelId(FromConfig(raw).id)
    ensures FromHostname(raw).Ok? <==> FromConfig(raw).Ok? && !IsLocalhostId(FromConfig(raw).id)
    ensures FromHostname(raw).Ok? ==> FromHostname(raw) == FromConfig(raw)
  {
    SanitizedIsValid(raw);
  }

  /** A node whose host name is well formed shows that host name, so no two such nodes share an
      identity. */
  lemma DerivedIdentitiesStayDistinct(a: string, b: string)
    requires IsHostname(a) && |a| <= MaxLength
    requires IsHostname(b) && |b| <= MaxLength
    requires FromHostname(a).Ok?
    ensures Display(FromHostname(a).id) == a
    ensures FromHostname(a) == FromHostname(b) ==> a == b
  {
    HostnamesStayDistinct(a, b);
  }
}
