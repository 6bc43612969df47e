/** `get_cgroup_data` on its char buffers, refining the string-level parser. */
module CgroupParser {
  import opened CString
  import opened CgroupPath

  const LINE_BUFFER: nat := 4096

  /** `fgets`: the line and its terminator, the rest of the buffer as it was. */
  method FGets(buffer: array<char>, line: string)
    requires |line| < buffer.Length && NoNul(line)
    modifies buffer
    ensures Holds(buffer[..], 0, line)
  {
    for i := 0 to |line|
      invariant forall k :: 0 <= k < i ==> buffer[k] == line[k]
    {
      buffer[i] := line[i];
    }
    buffer[|line|] := NUL;
    assert buffer[..][0..|line|] == line;
  }

  /** `!strcmp(a + p, literal)`. */
  method Equals(a: array<char>, p: nat, ghost s: string, literal: string) returns (same: bool)
    requires Holds(a[..], p, s) && NoNul(literal)
    ensures same == (s == literal)
  {
    var i := 0;
    HoldsAt(a[..], p, s, 0);
    while i < |literal| && a[p + i] == literal[i]
      invariant i <= |literal| && i <= |s| && p + |s| < a.Length
      invariant s[..i] == literal[..i]
    {
      HoldsAt(a[..], p, s, i);
      i := i + 1;
      HoldsAt(a[..], p, s, i);
    }
    HoldsAt(a[..], p, s, i);
    same := i == |literal| && a[p + i] == NUL;
    if same {
      assert s == s[..i] && literal == literal[..i];
    } else {
      assert i < |literal| ==> i == |s| || s[i] != literal[i];
    }
  }

  /** The `strtok_r` loop over one line. */
  method MemoryToken(buffer: array<char>, ghost line: string) returns (found: bool, ptr: nat)
    requires Holds(buffer[..], 0, line)
    modifies buffer
    ensures found == MemoryPath(line).Token?
    ensures found ==> Holds(buffer[..], ptr, MemoryPath(line).text)
  {
    hide Holds, NoNul, NextToken, MemoryPath;
    var next;
    ghost var rest := line;
    found, ptr, next := StrTok(buffer, 0, ':', line);
    while found
      invariant found == NextToken(rest, ':').Token?
      invariant found ==> Holds(buffer[..], ptr, NextToken(rest, ':').text)
      invariant found ==> Holds(buffer[..], next, NextToken(rest, ':').rest)
      invariant MemoryPath(line) == MemoryPath(rest)
      decreases |rest|
    {
      ghost var t := NextToken(rest, ':');
      MemoryHasNoNul();
      var hit := Equals(buffer, ptr, t.text, "memory");
      MemoryPathNext(rest);
      if hit {
        found, ptr, next := StrTok(buffer, next, ':', t.rest);
        return;
      }
      found, ptr, next := StrTok(buffer, next, ':', t.rest);
      rest := t.rest;
    }
    MemoryPathNext(rest);
  }

  lemma MemoryPathNext(line: string)
    ensures NextToken(line, ':').NoToken? ==> MemoryPath(line) == NoToken
    ensures NextToken(line, ':').Token? ==>
              var t := NextToken(line, ':');
              MemoryPath(line) == if t.text == "memory" then NextToken(t.rest, ':') else MemoryPath(t.rest)
  {
  }

  lemma MemoryHasNoNul()
    ensures NoNul("memory")
  {
  }

  lemma TokenSizes(s: string)
    requires NextToken(s, ':').Token?
    ensures var t := NextToken(s, ':'); t.rest != [] ==> |t.text| + 1 + |t.rest| <= |s|
  {
    hide Leading, UpTo;
  }

  lemma NothingInNothing()
    ensures NextToken([], ':').NoToken?
  {
  }

  /** Before its path a memory line has the word "memory" and a colon. */
  lemma {:induction false} MemoryPathSize(line: string)
    ensures MemoryPath(line).Token? ==> |"memory"| + 1 + |MemoryPath(line).text| <= |line|
    decreases |line|
  {
    hide NextToken;
    NothingInNothing();
    if NextToken(line, ':').Token? {
      TokenSizes(line);
      MemoryPathSize(NextToken(line, ':').rest);
    }
  }

  /** The lines of a file, as `fgets` delivers them. */
  predicate Readable(lines: seq<string>) {
    forall i :: 0 <= i < |lines| ==> lines[i] != [] && NoNul(lines[i]) && |lines[i]| < LINE_BUFFER
  }

  /** The `fgets` loop: stops at the first line with a memory path. */
  method MemoryLinePointer(lines: seq<string>, buffer: array<char>) returns (found: bool, ptr: nat)
    requires buffer.Length == LINE_BUFFER && Readable(lines)
    modifies buffer
    ensures found == FirstMemoryPath(lines).Token?
    ensures found ==> Holds(buffer[..], ptr, FirstMemoryPath(lines).text)
    ensures found ==> |FirstMemoryPath(lines).text| + 8 < LINE_BUFFER
  {
    hide MemoryPath, Holds;
    found, ptr := false, 0;
    for i := 0 to |lines|
      invariant FirstMemoryPath(lines) == FirstMemoryPath(lines[i..])
    {
      var line := lines[i];
      assert lines[i..][0] == line && lines[i..][1..] == lines[i + 1..];
      FGets(buffer, line);
      var n := StrLen(buffer, 0, line);
      ghost var before := buffer[..];
      buffer[n - 1] := NUL;
      HoldsCut(before, buffer[..], 0, line, n - 1);
      found, ptr := MemoryToken(buffer, Chop(line));
      if found {
        MemoryPathSize(Chop(line));
        return;
      }
    }
  }

  /** The slash scan: offsets of the last slash and of the one before it, -1 for none. */
  method ScanSlashes(a: array<char>, p: nat, ghost path: string) returns (last: int, second: int)
    requires Holds(a[..], p, path)
    ensures last == LastIndex(path, '/')
    ensures second == if last < 0 then -1 else LastIndex(path[..last], '/')
  {
    last, second := -1, -1;
    var i := 0;
    HoldsAt(a[..], p, path, 0);
    assert path[..0] == [];
    while a[p + i] != NUL
      invariant i <= |path| && p + |path| < a.Length
      invariant last == LastIndex(path[..i], '/')
      invariant second == if last < 0 then -1 else LastIndex(path[..last], '/')
      decreases |path| - i
    {
      HoldsAt(a[..], p, path, i);
      assert path[..i + 1][..i] == path[..i];
      if a[p + i] == '/' {
        second, last := last, i;
      }
      i := i + 1;
      HoldsAt(a[..], p, path, i);
    }
    HoldsAt(a[..], p, path, i);
    assert path[..i] == path;
  }

  /** `strncpy` of the whole destination size, then a terminator in its last byte. */
  method CopyAll(dst: array<char>, src: array<char>, p: nat, ghost s: string)
    requires dst != src && Holds(src[..], p, s) && |s| < dst.Length
    modifies dst
    ensures Holds(dst[..], 0, s)
    ensures forall k :: |s| <= k < dst.Length ==> dst[k] == NUL
  {
    StrNCpy(dst, src, p, dst.Length, s);
    dst[dst.Length - 1] := NUL;
    assert dst[..][0..|s|] == s;
  }

  /** Cut the string at the first `pat`, if there is one. */
  method Prune(a: array<char>, ghost s: string, pat: string) returns (found: bool)
    requires Holds(a[..], 0, s) && pat != []
    modifies a
    ensures found == (Find(s, pat) >= 0)
    ensures Holds(a[..], 0, Before(s, pat))
    ensures !found ==> a[..] == old(a[..])
  {
    var i := StrStr(a, 0, s, pat);
    found := i >= 0;
    if found {
      ghost var before := a[..];
      a[i] := NUL;
      HoldsCut(before, a[..], 0, s, i);
    }
  }

  /** The move of `|s|` bytes from behind the last dash of `s` stays within a buffer of `size`. */
  predicate MoveFits(s: string, size: nat) {
    LastIndex(s, '-') + 1 + |s| <= size
  }

  /** The scan for the last dash. */
  method LastDash(a: array<char>, ghost s: string) returns (dash: int)
    requires Holds(a[..], 0, s)
    ensures dash == LastIndex(s, '-')
  {
    dash := -1;
    var i := 0;
    HoldsAt(a[..], 0, s, 0);
    while a[i] != NUL
      invariant i <= |s| < a.Length
      invariant dash == LastIndex(s[..i], '-')
      decreases |s| - i
    {
      HoldsAt(a[..], 0, s, i);
      assert s[..i + 1][..i] == s[..i];
      if a[i] == '-' {
        dash := i;
      }
      i := i + 1;
      HoldsAt(a[..], 0, s, i);
    }
    HoldsAt(a[..], 0, s, i);
    assert s[..i] == s;
  }

  /** Keep what follows the last dash: an overlapping move of as many bytes as the string had, terminator included. */
  method TrimContainerInPlace(a: array<char>, ghost s: string) returns (ok: bool)
    requires Holds(a[..], 0, s) && MoveFits(s, a.Length)
    modifies a
    ensures ok == TrimContainer(s).Token?
    ensures ok ==> Holds(a[..], 0, TrimContainer(s).text)
  {
    hide Holds, LastIndex;
    var dash := LastDash(a, s);
    if dash < 0 {
      return false;
    }
    var n := StrLen(a, 0, s);
    HoldsTail(a[..], 0, s, dash + 1);
    MoveDown(a, dash + 1, n, s[dash + 1..]);
    return true;
  }

  /** Moving `n` bytes down from `from` moves a string that ends within them. */
  method MoveDown(a: array<char>, from: nat, n: nat, ghost t: string)
    requires Holds(a[..], from, t) && |t| < n && from + n <= a.Length
    modifies a
    ensures Holds(a[..], 0, t)
  {
    ghost var before := a[..];
    MemMove(a, 0, from, n);
    HoldsAt(before, from, t, |t|);
    assert a[..][0..|t|] == before[from..from + |t|];
  }

  /**
   * Keep what follows the first `-pod`, underscores as dashes. The move does
   * not copy the terminator; the length taken again after it is nevertheless
   * still that of the suffix, and the terminator goes right behind it.
   */
  method TrimPodInPlace(a: array<char>, ghost s: string) returns (ok: bool)
    requires Holds(a[..], 0, s)
    modifies a
    ensures ok == TrimPod(s).Token?
    ensures ok ==> Holds(a[..], 0, TrimPod(s).text)
  {
    var at := StrStr(a, 0, s, "-pod");
    if at < 0 {
      return false;
    }
    HoldsTail(a[..], 0, s, at + 4);
    MoveSuffix(a, at + 4, s[at + 4..]);
    DashUnderscores(a, s[at + 4..]);
    return true;
  }

  method MoveSuffix(a: array<char>, from: nat, ghost t: string)
    requires Holds(a[..], from, t) && from > 0
    modifies a
    ensures Holds(a[..], 0, t)
  {
    hide Holds, NoNul, Overlapped;
    var n := StrLen(a, from, t);
    ghost var before := a[..];
    SuffixLengthSurvives(before, from, t);
    MemMove(a, 0, from, n);
    ghost var moved := a[..];
    MovedToFront(before, from, n);
    n := StrLen(a, from, Overlapped(t, from));
    a[n] := NUL;
    assert a[..] == moved[n := NUL];
  }

  lemma MovedToFront(a: seq<char>, from: nat, n: nat)
    requires from + n <= |a|
    ensures a[..0] + a[from..from + n] + a[0 + n..] == a[from..from + n] + a[n..]
  {
  }

  /** What is left at offset `from` after the suffix `t` moved down to 0 over it. */
  ghost function Overlapped(t: string, from: nat): (r: string)
    ensures |r| == |t|
    ensures forall i :: 0 <= i < |t| ==> r[i] == if from + i < |t| then t[from + i] else t[i]
  {
    seq(|t|, i requires 0 <= i < |t| => if from + i < |t| then t[from + i] else t[i])
  }

  lemma SuffixLengthSurvives(before: seq<char>, from: nat, t: string)
    requires Holds(before, from, t) && from > 0
    ensures from + |t| < |before|
    ensures var moved := before[from..from + |t|] + before[|t|..];
            Holds(moved, from, Overlapped(t, from)) && Holds(moved[|t| := NUL], 0, t)
  {
    var n := |t|;
    var moved := before[from..from + n] + before[n..];
    assert moved[n := NUL][0..n] == t;
    HoldsAt(before, from, t, n);
    assert moved[from + n] == NUL;
    forall i | 0 <= i < n ensures moved[from + i] == Overlapped(t, from)[i] != NUL {
      OverlappedAt(before, from, t, i);
    }
    assert moved[from..from + n] == Overlapped(t, from);
  }

  lemma OverlappedAt(before: seq<char>, from: nat, t: string, i: nat)
    requires Holds(before, from, t) && from > 0 && i < |t|
    ensures (before[from..from + |t|] + before[|t|..])[from + i] == Overlapped(t, from)[i] != NUL
  {
    HoldsAt(before, from, t, i);
    if from + i < |t| {
      HoldsAt(before, from, t, from + i);
    }
  }

  method DashUnderscores(a: array<char>, ghost t: string)
    requires Holds(a[..], 0, t)
    modifies a
    ensures Holds(a[..], 0, Replace(t, '_', '-'))
  {
    ghost var before := a[..];
    ghost var r := Replace(t, '_', '-');
    var i := 0;
    HoldsAt(before, 0, t, 0);
    while a[i] != NUL
      invariant i <= |t| < a.Length == |before|
      invariant forall k :: 0 <= k < i ==> a[k] == r[k]
      invariant forall k :: i <= k < a.Length ==> a[k] == before[k]
      decreases |t| - i
    {
      HoldsAt(before, 0, t, i);
      if a[i] == '_' {
        a[i] := '-';
      }
      i := i + 1;
      HoldsAt(before, 0, t, i);
    }
    HoldsAt(before, 0, t, i);
    forall k | 0 <= k < |r| ensures r[k] != NUL {
      HoldsAt(before, 0, t, k);
    }
    assert a[..][0..|r|] == r;
  }

  /** The cgroupfs branch: move down by four, as many bytes as the string had, in a zero-padded buffer. */
  method DropPodInPlace(a: array<char>, ghost s: string)
    requires Holds(a[..], 0, s) && |s| + 4 <= a.Length
    requires forall k :: |s| <= k < a.Length ==> a[k] == NUL
    requires s != []
    modifies a
    ensures Holds(a[..], 0, DropPod(s))
  {
    var n := StrLen(a, 0, s);
    ghost var before := a[..];
    MemMove(a, 0, 4, n);
    MovedToFront(before, 4, n);
    DroppedFour(before, s);
  }

  lemma DroppedFour(before: seq<char>, s: string)
    requires Holds(before, 0, s) && s != [] && |s| + 4 <= |before|
    requires forall k :: |s| <= k < |before| ==> before[k] == NUL
    ensures Holds(before[4..4 + |s|] + before[|s|..], 0, DropPod(s))
  {
    var after := before[4..4 + |s|] + before[|s|..];
    if |s| < 4 {
      assert after[0] == before[4] == NUL;
      assert after[0..0] == [];
    } else {
      HoldsTail(before, 0, s, 4);
      assert after[0..|s| - 4] == before[4..|s|] == s[4..];
      assert after[|s| - 4] == before[|s|];
    }
  }

  /** The systemd branch, on the pruned container segment and the pod segment. */
  method TrimSystemd(podUid: array<char>, ghost slice: string, containerId: array<char>, ghost scope: string)
      returns (ok: bool)
    requires podUid != containerId && Holds(podUid[..], 0, slice) && Holds(containerId[..], 0, scope)
    requires MoveFits(scope, containerId.Length)
    modifies podUid, containerId
    ensures ok == (TrimContainer(scope).Token? && TrimPod(Before(slice, ".slice")).Token?)
    ensures ok ==> Holds(podUid[..], 0, TrimPod(Before(slice, ".slice")).text)
    ensures ok ==> Holds(containerId[..], 0, TrimContainer(scope).text)
  {
    hide Holds, Before, TrimContainer, TrimPod;
    var sliced := Prune(podUid, slice, ".slice");
    ok := TrimContainerInPlace(containerId, scope);
    if ok {
      ok := TrimPodInPlace(podUid, Before(slice, ".slice"));
    }
  }

  /** If the path leads to the move of the container id, that move stays within a buffer of `size`. */
  predicate PathFits(path: string, size: nat) {
    var last := LastIndex(path, '/');
    var scope := path[last + 1..];
    last >= 0 && LastIndex(path[..last], '/') >= 0 && Find(scope, ".scope") >= 0 ==>
      MoveFits(Before(scope, ".scope"), size)
  }

  /** Copy the container segment, cut it at `.scope`, and cut the path before it. */
  method TakeLeaf(buffer: array<char>, ptr: nat, ghost path: string, last: nat, containerId: array<char>)
      returns (systemd: bool)
    requires buffer != containerId && Holds(buffer[..], ptr, path) && last < |path| < containerId.Length
    modifies buffer, containerId
    ensures systemd == (Find(path[last + 1..], ".scope") >= 0)
    ensures Holds(containerId[..], 0, Before(path[last + 1..], ".scope"))
    ensures Holds(buffer[..], ptr, path[..last])
  {
    hide Find, Before, Holds;
    HoldsTail(buffer[..], ptr, path, last + 1);
    CopyAll(containerId, buffer, ptr + last + 1, path[last + 1..]);
    systemd := Prune(containerId, path[last + 1..], ".scope");
    HoldsAt(buffer[..], ptr, path, last);
    ghost var before := buffer[..];
    buffer[ptr + last] := NUL;
    assert buffer[..] == before[ptr + last := NUL];
    HoldsCut(before, buffer[..], ptr, path, last);
  }

  /** The second half of the parser, from the memory path on. */
  method SplitInPlace(buffer: array<char>, ptr: nat, ghost path: string, podUid: array<char>, containerId: array<char>)
      returns (ret: nat)
    requires Holds(buffer[..], ptr, path)
    requires buffer != podUid && buffer != containerId && podUid != containerId
    requires podUid.Length == containerId.Length && |path| + 4 <= podUid.Length && PathFits(path, podUid.Length)
    modifies buffer, podUid, containerId
    ensures ret == 0 <==> ParsePath(path).Found?
    ensures ret == 0 ==>
              Holds(podUid[..], 0, ParsePath(path).podUid) && Holds(containerId[..], 0, ParsePath(path).containerId)
  {
    hide Find, LastIndex, Before, Holds, TrimContainer, TrimPod, DropPod, MoveFits;
    var last, second := ScanSlashes(buffer, ptr, path);
    if last < 0 {
      return 1;
    }
    var systemd := TakeLeaf(buffer, ptr, path, last, containerId);
    if second < 0 {
      return 1;
    }
    ghost var leaf, slice := path[last + 1..], path[second..last];
    HoldsTail(buffer[..], ptr, path[..last], second);
    assert path[..last][second..] == slice;
    CopyAll(podUid, buffer, ptr + second, slice);
    if systemd {
      var ok := TrimSystemd(podUid, slice, containerId, Before(leaf, ".scope"));
      if !ok {
        return 1;
      }
    } else {
      WholeLeaf(leaf);
      DropPodInPlace(podUid, slice);
    }
    return 0;
  }

  lemma WholeLeaf(s: string)
    requires Find(s, ".scope") < 0
    ensures Before(s, ".scope") == s
  {
  }

  /**
   * `get_cgroup_data`: succeeds exactly when the string-level parser finds an
   * identity, and then both buffers hold it, NUL-terminated.
   */
  method GetCgroupData(lines: seq<string>, podUid: array<char>, containerId: array<char>) returns (ret: nat)
    requires podUid != containerId && podUid.Length == containerId.Length >= LINE_BUFFER
    requires Readable(lines)
    requires FirstMemoryPath(lines).Token? ==> PathFits(FirstMemoryPath(lines).text, containerId.Length)
    modifies podUid, containerId
    ensures ret == 0 <==> Parse(lines).Found?
    ensures ret == 0 ==>
              Holds(podUid[..], 0, Parse(lines).podUid) && Holds(containerId[..], 0, Parse(lines).containerId)
  {
    hide FirstMemoryPath, ParsePath, PathFits, Holds, Readable;
    var buffer := new char[LINE_BUFFER];
    var found, ptr := MemoryLinePointer(lines, buffer);
    if !found {
      return 1;
    }
    ret := SplitInPlace(buffer, ptr, FirstMemoryPath(lines).text, podUid, containerId);
  }
}
