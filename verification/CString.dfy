/** NUL-terminated strings in char buffers, their sequence-level searches, and the C library calls over them. */
module CString {
  const NUL: char := '\0'

  predicate NoNul(s: string) {
    forall i :: 0 <= i < |s| ==> s[i] != NUL
  }

  /** The buffer holds the C string `s` at offset `p`. */
  ghost predicate Holds(a: seq<char>, p: nat, s: string) {
    && NoNul(s) && p + |s| < |a|
    && a[p..p + |s|] == s && a[p + |s|] == NUL
  }

  /** Any tail of a C string is a C string. */
  lemma HoldsTail(a: seq<char>, p: nat, s: string, k: nat)
    requires Holds(a, p, s) && k <= |s|
    ensures Holds(a, p + k, s[k..])
  {
    assert a[p..p + |s|][k..] == a[p + k..p + |s|];
  }

  lemma HoldsAt(a: seq<char>, p: nat, s: string, k: nat)
    requires Holds(a, p, s) && k <= |s|
    ensures p + k < |a|
    ensures k < |s| ==> a[p + k] == s[k] != NUL
    ensures k == |s| ==> a[p + k] == NUL
  {
    if k < |s| {
      assert a[p..p + |s|][k] == s[k];
    }
  }

  lemma HoldsSlice(a: seq<char>, p: nat, s: string, i: nat, j: nat)
    requires Holds(a, p, s) && i <= j <= |s|
    ensures a[p + i..p + j] == s[i..j]
  {
    forall k | 0 <= k < j - i ensures a[p + i..p + j][k] == s[i..j][k] {
      HoldsAt(a, p, s, i + k);
    }
  }

  // ----- searches on strings

  predicate OccursAt(s: string, pat: string, i: int) {
    0 <= i && i + |pat| <= |s| && s[i..i + |pat|] == pat
  }

  /** First occurrence of `pat` at or after `from`, or -1. */
  function FindFrom(s: string, pat: string, from: nat): (i: int)
    ensures i == -1 || (OccursAt(s, pat, i) && from <= i)
    ensures forall j :: from <= j < (if i == -1 then |s| + 1 else i) ==> !OccursAt(s, pat, j)
    decreases |s| + 1 - from
  {
    if from + |pat| > |s| then -1
    else if OccursAt(s, pat, from) then from
    else FindFrom(s, pat, from + 1)
  }

  function Find(s: string, pat: string): (i: int)
    ensures i == -1 || OccursAt(s, pat, i)
    ensures forall j :: 0 <= j < (if i == -1 then |s| + 1 else i) ==> !OccursAt(s, pat, j)
  {
    FindFrom(s, pat, 0)
  }

  /** An occurrence with none before it is the one found. */
  lemma FindIs(s: string, pat: string, i: nat)
    requires OccursAt(s, pat, i)
    requires forall j :: 0 <= j < i ==> !OccursAt(s, pat, j)
    ensures Find(s, pat) == i
  {
    assert Find(s, pat) != -1;
  }

  /** Last position of `c`, or -1. */
  function LastIndex(s: string, c: char): (i: int)
    ensures -1 <= i < |s|
    ensures i >= 0 ==> s[i] == c
    ensures forall j :: i < j < |s| ==> s[j] != c
  {
    if s == [] then -1
    else if s[|s| - 1] == c then |s| - 1
    else LastIndex(s[..|s| - 1], c)
  }

  function Replace(s: string, from: char, to: char): (r: string)
    ensures |r| == |s|
    ensures forall i :: 0 <= i < |s| ==> r[i] == if s[i] == from then to else s[i]
  {
    if s == [] then [] else Replace(s[..|s| - 1], from, to) + [if s[|s| - 1] == from then to else s[|s| - 1]]
  }

  /** The string up to the first `pat`. */
  function Before(s: string, pat: string): string {
    if Find(s, pat) < 0 then s else s[..Find(s, pat)]
  }

  // ----- C library calls

  /** `strlen(a + p)`. */
  method StrLen(a: array<char>, p: nat, ghost s: string) returns (n: nat)
    requires Holds(a[..], p, s)
    ensures n == |s|
  {
    n := 0;
    HoldsAt(a[..], p, s, 0);
    while a[p + n] != NUL
      invariant n <= |s| && p + |s| < a.Length
      decreases |s| - n
    {
      HoldsAt(a[..], p, s, n);
      n := n + 1;
      HoldsAt(a[..], p, s, n);
    }
    HoldsAt(a[..], p, s, n);
  }

  /** `strstr(a + p, pat)` as an offset from `p`, -1 for NULL. */
  method StrStr(a: array<char>, p: nat, ghost s: string, pat: string) returns (i: int)
    requires Holds(a[..], p, s)
    ensures i == Find(s, pat)
  {
    var n := StrLen(a, p, s);
    i := 0;
    while i + |pat| <= n
      invariant 0 <= i
      invariant forall j :: 0 <= j < i ==> !OccursAt(s, pat, j)
    {
      HoldsSlice(a[..], p, s, i, i + |pat|);
      assert a[p + i..p + i + |pat|] == a[..][p + i..p + i + |pat|];
      if a[p + i..p + i + |pat|] == pat {
        FindIs(s, pat, i);
        return;
      }
      i := i + 1;
    }
    i := -1;
  }

  /** `strncpy(dst, src + p, n)`: at most `n` characters, padded with NUL up to `n`. */
  method StrNCpy(dst: array<char>, src: array<char>, p: nat, n: nat, ghost s: string)
    requires dst != src && n <= dst.Length && Holds(src[..], p, s)
    modifies dst
    ensures forall k :: 0 <= k < n ==> dst[k] == if k < |s| then s[k] else NUL
    ensures forall k :: n <= k < dst.Length ==> dst[k] == old(dst[k])
  {
    var i := 0;
    var ended := false;
    while i < n
      invariant 0 <= i <= n
      invariant ended == (i > |s|)
      invariant forall k :: 0 <= k < i ==> dst[k] == if k < |s| then s[k] else NUL
      invariant forall k :: i <= k < dst.Length ==> dst[k] == old(dst[k])
    {
      if !ended {
        HoldsAt(src[..], p, s, i);
        dst[i] := src[p + i];
        ended := src[p + i] == NUL;
      } else {
        dst[i] := NUL;
      }
      i := i + 1;
    }
  }

  /** `memmove` within one buffer; the ranges may overlap. */
  method MemMove(a: array<char>, dst: nat, src: nat, n: nat)
    requires dst + n <= a.Length && src + n <= a.Length
    modifies a
    ensures a[..] == old(a[..dst] + a[src..src + n] + a[dst + n..])
  {
    forall i | 0 <= i < n {
      a[dst + i] := a[src + i];
    }
  }

  // ----- strtok_r

  datatype Token = NoToken | Token(text: string, rest: string)

  function Leading(s: string, c: char): (n: nat)
    ensures n <= |s|
    ensures forall i :: 0 <= i < n ==> s[i] == c
    ensures n < |s| ==> s[n] != c
    decreases |s|
  {
    if s == [] || s[0] != c then 0 else 1 + Leading(s[1..], c)
  }

  function UpTo(s: string, c: char): (n: nat)
    ensures n <= |s|
    ensures forall i :: 0 <= i < n ==> s[i] != c
    ensures n < |s| ==> s[n] == c
    decreases |s|
  {
    if s == [] || s[0] == c then 0 else 1 + UpTo(s[1..], c)
  }

  /** The next token of `s` separated by `c`, and what is left after its separator. */
  function NextToken(s: string, c: char): (t: Token)
    ensures t.Token? ==> |t.text| <= |s| && |t.rest| < |s|
  {
    var skipped := s[Leading(s, c)..];
    if skipped == [] then NoToken
    else
      var n := UpTo(skipped, c);
      Token(skipped[..n], if n < |skipped| then skipped[n + 1..] else [])
  }

  /** The scan over leading separators (`strspn`). */
  method SkipChar(a: array<char>, p: nat, c: char, ghost s: string) returns (n: nat)
    requires Holds(a[..], p, s) && c != NUL
    ensures n == Leading(s, c)
  {
    n := 0;
    HoldsAt(a[..], p, s, 0);
    while a[p + n] == c
      invariant n <= Leading(s, c) && p + |s| < a.Length
      decreases |s| - n
    {
      HoldsAt(a[..], p, s, n);
      n := n + 1;
      HoldsAt(a[..], p, s, n);
    }
    HoldsAt(a[..], p, s, n);
  }

  /** The scan to the next separator or the end (`strcspn`). */
  method ScanTo(a: array<char>, p: nat, c: char, ghost s: string) returns (n: nat)
    requires Holds(a[..], p, s) && c != NUL
    ensures n == UpTo(s, c)
  {
    n := 0;
    HoldsAt(a[..], p, s, 0);
    while a[p + n] != NUL && a[p + n] != c
      invariant n <= UpTo(s, c) && p + |s| < a.Length
      decreases |s| - n
    {
      HoldsAt(a[..], p, s, n);
      n := n + 1;
      HoldsAt(a[..], p, s, n);
    }
    HoldsAt(a[..], p, s, n);
  }

  /** Writing NUL over position `k` of a C string cuts it there and leaves the tail after it. */
  lemma HoldsCut(a: seq<char>, b: seq<char>, p: nat, s: string, k: nat)
    requires Holds(a, p, s) && k < |s| && b == a[p + k := NUL]
    ensures Holds(b, p, s[..k]) && Holds(b, p + k + 1, s[k + 1..])
  {
    HoldsTail(a, p, s, k + 1);
    assert b[p..p + k] == a[p..p + |s|][..k];
    assert b[p + k + 1..p + |s|] == a[p + k + 1..p + |s|];
  }

  /** End the token of `t` at offset `start` and step past its separator. */
  method EndToken(a: array<char>, start: nat, c: char, ghost t: string) returns (next: nat)
    requires Holds(a[..], start, t) && c != NUL
    modifies a
    ensures Holds(a[..], start, t[..UpTo(t, c)])
    ensures Holds(a[..], next, if UpTo(t, c) < |t| then t[UpTo(t, c) + 1..] else [])
  {
    hide Holds, NoNul, UpTo;
    var n := ScanTo(a, start, c, t);
    next := start + n;
    HoldsAt(a[..], start, t, n);
    if a[next] == c {
      ghost var before := a[..];
      a[next] := NUL;
      assert a[..] == before[next := NUL];
      HoldsCut(before, a[..], start, t, n);
      next := next + 1;
    } else {
      HoldsTail(a[..], start, t, n);
      assert t[..n] == t && t[n..] == [];
    }
  }

  /** `strtok_r` from offset `p`: overwrites the separator after the token with NUL. */
  method StrTok(a: array<char>, p: nat, c: char, ghost s: string) returns (found: bool, start: nat, next: nat)
    requires Holds(a[..], p, s) && c != NUL
    modifies a
    ensures found == NextToken(s, c).Token?
    ensures found ==> Holds(a[..], start, NextToken(s, c).text) && Holds(a[..], next, NextToken(s, c).rest)
    ensures !found ==> a[..] == old(a[..])
  {
    hide Holds, NoNul, Leading, UpTo;
    var lead := SkipChar(a, p, c, s);
    start, next := p + lead, p + lead;
    HoldsTail(a[..], p, s, lead);
    ghost var t := s[lead..];
    HoldsAt(a[..], start, t, 0);
    found := a[start] != NUL;
    if found {
      next := EndToken(a, start, c, t);
    }
  }
}
