/** The cgroup v2 counterpart: pod uid and container name from a kubelet mount line. */
module MountLine {
  import opened CString
  import CgroupPath
  import CgroupParser

  const POD_MARK := "/var/lib/kubelet/pods/"
  const CONTAINERS_MARK := "/containers/"

  datatype Mount = NoMount | Mounted(podUid: string, name: string)

  predicate HasMarks(line: string, prefix: string, end: string) {
    Find(line, prefix) >= 0 && Find(line, end) >= 0
  }

  /** A line on which the pointer arithmetic is defined: the end mark after the prefix, a slash after the name. */
  predicate Parsable(line: string, prefix: string, end: string) {
    HasMarks(line, prefix, end) ==>
      && Find(line, prefix) + |prefix| <= Find(line, end)
      && '/' in line[Find(line, end) + |end|..]
  }

  function ParseMount(line: string, prefix: string, end: string): Mount
    requires Parsable(line, prefix, end)
  {
    if !HasMarks(line, prefix, end) then NoMount
    else
      var rest := line[Find(line, end) + |end|..];
      Mounted(line[Find(line, prefix) + |prefix|..Find(line, end)], rest[..UpTo(rest, '/')])
  }

  /** Uid and name, with their terminators, fit the buffers they are copied to. */
  predicate Fits(m: Mount, uidSize: nat, nameSize: nat) {
    m.Mounted? ==> |m.podUid| < uidSize && |m.name| < nameSize
  }

  /** `strncpy` of a part of a string and the terminator behind it. */
  method CopyPart(dst: array<char>, src: array<char>, p: nat, n: nat, ghost s: string)
    requires dst != src && Holds(src[..], p, s) && n <= |s| && n < dst.Length
    modifies dst
    ensures Holds(dst[..], 0, s[..n])
  {
    StrNCpy(dst, src, p, n, s);
    dst[n] := NUL;
    assert dst[..][0..n] == s[..n];
  }

  /** `getStr`. */
  method GetStr(buffer: array<char>, ghost line: string, prefix: string, end: string,
                podUid: array<char>, podName: array<char>) returns (found: bool)
    requires Holds(buffer[..], 0, line) && Parsable(line, prefix, end)
    requires buffer != podUid && buffer != podName && podUid != podName
    requires Fits(ParseMount(line, prefix, end), podUid.Length, podName.Length)
    modifies podUid, podName
    ensures found == ParseMount(line, prefix, end).Mounted?
    ensures found ==>
              Holds(podUid[..], 0, ParseMount(line, prefix, end).podUid)
              && Holds(podName[..], 0, ParseMount(line, prefix, end).name)
    ensures !found ==> podUid[..] == old(podUid[..]) && podName[..] == old(podName[..])
  {
    hide Holds, NoNul, Find, UpTo;
    var start := StrStr(buffer, 0, line, prefix);
    var stop := StrStr(buffer, 0, line, end);
    if start < 0 || stop < 0 {
      return false;
    }
    CopyUid(buffer, line, start + |prefix|, stop, podUid);
    CopyName(buffer, line, stop + |end|, podName);
    return true;
  }

  method CopyUid(buffer: array<char>, ghost line: string, from: nat, to: nat, podUid: array<char>)
    requires Holds(buffer[..], 0, line) && buffer != podUid && from <= to <= |line| && to - from < podUid.Length
    modifies podUid
    ensures Holds(podUid[..], 0, line[from..to])
  {
    hide Holds;
    HoldsTail(buffer[..], 0, line, from);
    CopyPart(podUid, buffer, from, to - from, line[from..]);
    assert line[from..][..to - from] == line[from..to];
  }

  /** `strchr` to the slash after the name, and the copy of what lies before it. */
  method CopyName(buffer: array<char>, ghost line: string, from: nat, podName: array<char>)
    requires Holds(buffer[..], 0, line) && buffer != podName && from <= |line|
    requires UpTo(line[from..], '/') < podName.Length
    modifies podName
    ensures Holds(podName[..], 0, line[from..][..UpTo(line[from..], '/')])
  {
    hide Holds, UpTo;
    HoldsTail(buffer[..], 0, line, from);
    var n := CString.ScanTo(buffer, from, '/', line[from..]);
    CopyPart(podName, buffer, from, n, line[from..]);
  }

  predicate Marked(line: string) {
    HasMarks(line, POD_MARK, CONTAINERS_MARK)
  }

  /** The lines the loop looks at are as `fgets` delivers them, and the one it stops at is parsable. */
  predicate MountLines(lines: seq<string>) {
    lines != [] ==>
      && NoNul(lines[0]) && |lines[0]| < CgroupParser.LINE_BUFFER
      && Parsable(lines[0], POD_MARK, CONTAINERS_MARK)
      && (!Marked(lines[0]) ==> MountLines(lines[1..]))
  }

  /** What the loop over the lines finds. */
  function FirstMount(lines: seq<string>): Mount
    requires MountLines(lines)
  {
    if lines == [] then NoMount
    else
      var m := ParseMount(lines[0], POD_MARK, CONTAINERS_MARK);
      if m.Mounted? then m else FirstMount(lines[1..])
  }

  /**
   * `get_cgroupV2_data`: the buffers hold the first mount found; without one
   * they are untouched, and the call reports success all the same.
   */
  method GetCgroupV2Data(lines: seq<string>, podUid: array<char>, name: array<char>) returns (ret: nat)
    requires podUid != name && MountLines(lines) && Fits(FirstMount(lines), podUid.Length, name.Length)
    modifies podUid, name
    ensures ret == 0
    ensures var m := FirstMount(lines);
            if m.Mounted? then Holds(podUid[..], 0, m.podUid) && Holds(name[..], 0, m.name)
            else podUid[..] == old(podUid[..]) && name[..] == old(name[..])
  {
    hide ParseMount, Parsable, Holds, NoNul;
    var buffer := new char[CgroupParser.LINE_BUFFER];
    for i := 0 to |lines|
      invariant MountLines(lines[i..]) && FirstMount(lines) == FirstMount(lines[i..])
      invariant podUid[..] == old(podUid[..]) && name[..] == old(name[..])
    {
      assert lines[i..][0] == lines[i] && lines[i..][1..] == lines[i + 1..];
      UnmarkedGivesNone(lines[i]);
      CgroupParser.FGets(buffer, lines[i]);
      var found := GetStr(buffer, lines[i], POD_MARK, CONTAINERS_MARK, podUid, name);
      if found {
        return 0;
      }
    }
    return 0;
  }

  lemma UnmarkedGivesNone(line: string)
    requires Parsable(line, POD_MARK, CONTAINERS_MARK)
    ensures ParseMount(line, POD_MARK, CONTAINERS_MARK).Mounted? <==> Marked(line)
  {
  }

  predicate Unmarked(lines: seq<string>) {
    forall i :: 0 <= i < |lines| ==> !Marked(lines[i])
  }

  /** Unmarked lines are skipped: the line after them decides if it is marked. */
  lemma {:induction false} MountSkips(before: seq<string>, rest: seq<string>)
    requires Unmarked(before) && MountLines(before + rest)
    ensures MountLines(rest) && FirstMount(before + rest) == FirstMount(rest)
  {
    hide ParseMount, Parsable, Marked, NoNul;
    if before == [] {
      assert before + rest == rest;
    } else {
      assert (before + rest)[0] == before[0] && (before + rest)[1..] == before[1..] + rest;
      UnmarkedGivesNone(before[0]);
      assert forall i :: 0 <= i < |before| - 1 ==> before[1..][i] == before[i + 1];
      MountSkips(before[1..], rest);
    }
  }

  /** The result is the mount of the least marked line. */
  lemma FirstMountIsLeast(lines: seq<string>, i: nat)
    requires MountLines(lines) && i < |lines| && Marked(lines[i]) && Unmarked(lines[..i])
    ensures Parsable(lines[i], POD_MARK, CONTAINERS_MARK)
    ensures FirstMount(lines) == ParseMount(lines[i], POD_MARK, CONTAINERS_MARK)
    ensures FirstMount(lines).Mounted?
  {
    hide ParseMount, Parsable, Marked, NoNul, Unmarked;
    assert lines == lines[..i] + lines[i..];
    MountSkips(lines[..i], lines[i..]);
    UnmarkedGivesNone(lines[i]);
  }

  /** The loop finds an identity exactly when some line has both marks; the call's result does not tell. */
  lemma {:induction false} MountFoundIff(lines: seq<string>)
    requires MountLines(lines)
    ensures FirstMount(lines).Mounted? <==> !Unmarked(lines)
  {
    hide ParseMount, Parsable, Marked, NoNul, FirstMount, MountLines;
    if Unmarked(lines) {
      assert lines + [] == lines;
      MountSkips(lines, []);
      NoLines();
    } else {
      var i := LeastMarked(lines);
      FirstMountIsLeast(lines, i);
    }
  }

  lemma NoLines()
    ensures MountLines([]) && FirstMount([]) == NoMount
  {
  }

  lemma {:induction false} LeastMarked(lines: seq<string>) returns (i: nat)
    requires !Unmarked(lines)
    ensures i < |lines| && Marked(lines[i]) && Unmarked(lines[..i])
  {
    hide Marked;
    var n := |lines| - 1;
    if Unmarked(lines[..n]) {
      i := n;
      assert forall j :: 0 <= j < n ==> lines[..n][j] == lines[j];
    } else {
      i := LeastMarked(lines[..n]);
      assert lines[..n][..i] == lines[..i];
    }
  }

  const ROOT_LINE := "1 0 0:2 / / rw - xfs a rw\n"

  lemma RootLineUnmarked()
    ensures !Marked(ROOT_LINE)
  {
    hide Find;
    var j := Find(ROOT_LINE, POD_MARK);
    if j >= 0 {
      assert j < 5;
      CgroupPath.OccurrenceStarts(ROOT_LINE, POD_MARK, j);
    }
  }

  lemma RootLineText()
    ensures NoNul(ROOT_LINE)
  {
  }

  /** A mount table of one line, the root file system: success is reported although there is no identity. */
  lemma SuccessWithoutIdentity()
    ensures MountLines([ROOT_LINE]) && FirstMount([ROOT_LINE]) == NoMount
  {
    hide Find, NoNul;
    RootLineUnmarked();
    RootLineText();
    assert [ROOT_LINE][1..] == [];
    UnmarkedGivesNone(ROOT_LINE);
    NoLines();
  }

  /** A line printed with the two marks, each for the first time, gives back exactly the uid and the name. */
  lemma MountRoundTrip(head: string, uid: string, name: string, tail: string)
    requires '/' !in name
    requires var line := head + POD_MARK + uid + CONTAINERS_MARK + name + "/" + tail;
             && (forall j :: 0 <= j < |head| ==> !OccursAt(line, POD_MARK, j))
             && (forall j :: 0 <= j < |head| + |POD_MARK| + |uid| ==> !OccursAt(line, CONTAINERS_MARK, j))
    ensures var line := head + POD_MARK + uid + CONTAINERS_MARK + name + "/" + tail;
            && Parsable(line, POD_MARK, CONTAINERS_MARK)
            && ParseMount(line, POD_MARK, CONTAINERS_MARK) == Mounted(uid, name)
  {
    ParsePrinted(head, POD_MARK, uid, CONTAINERS_MARK, name, tail);
  }

  /** The whole file: whatever unmarked lines precede it and whatever follows, that line gives uid and name back. */
  lemma MountFileRoundTrip(before: seq<string>, line: string, after: seq<string>,
                           head: string, uid: string, name: string, tail: string)
    requires Unmarked(before) && Delivered(before + [line])
    requires line == head + POD_MARK + uid + CONTAINERS_MARK + name + "/" + tail && '/' !in name
    requires forall j :: 0 <= j < |head| ==> !OccursAt(line, POD_MARK, j)
    requires forall j :: 0 <= j < |head| + |POD_MARK| + |uid| ==> !OccursAt(line, CONTAINERS_MARK, j)
    ensures MountLines(before + [line] + after)
    ensures FirstMount(before + [line] + after) == Mounted(uid, name)
  {
    hide Find, Unmarked, MountLines, Marked, Parsable, ParseMount;
    var lines, i := before + [line] + after, |before|;
    MountRoundTrip(head, uid, name, tail);
    UnmarkedGivesNone(line);
    assert lines[..i] == before && lines[i] == line;
    MountLinesUpTo(before, line, after);
    FirstMountIsLeast(lines, i);
  }

  predicate Delivered(lines: seq<string>) {
    forall i :: 0 <= i < |lines| ==> NoNul(lines[i]) && |lines[i]| < CgroupParser.LINE_BUFFER
  }

  lemma {:induction false} MountLinesUpTo(before: seq<string>, line: string, after: seq<string>)
    requires Unmarked(before) && Delivered(before + [line])
    requires Marked(line) && Parsable(line, POD_MARK, CONTAINERS_MARK)
    ensures MountLines(before + [line] + after)
  {
    hide HasMarks, NoNul;
    var lines := before + [line] + after;
    if before == [] {
      assert lines[0] == line && (before + [line])[0] == line;
    } else {
      assert lines[0] == before[0] && lines[1..] == before[1..] + [line] + after;
      assert (before + [line])[0] == before[0] && (before + [line])[1..] == before[1..] + [line];
      MountLinesUpTo(before[1..], line, after);
    }
  }

  lemma ParsePrinted(head: string, prefix: string, uid: string, end: string, name: string, tail: string)
    requires '/' !in name
    requires var line := head + prefix + uid + end + name + "/" + tail;
             && (forall j :: 0 <= j < |head| ==> !OccursAt(line, prefix, j))
             && (forall j :: 0 <= j < |head| + |prefix| + |uid| ==> !OccursAt(line, end, j))
    ensures var line := head + prefix + uid + end + name + "/" + tail;
            && Parsable(line, prefix, end)
            && ParseMount(line, prefix, end) == Mounted(uid, name)
  {
    hide Find, UpTo;
    var line := head + prefix + uid + end + name + "/" + tail;
    var i, j := |head|, |head| + |prefix| + |uid|;
    assert line[i..i + |prefix|] == prefix;
    assert line[j..j + |end|] == end;
    FindIs(line, prefix, i);
    FindIs(line, end, j);
    var rest := line[j + |end|..];
    assert rest == name + "/" + tail;
    assert line[i + |prefix|..j] == uid;
    NameEnds(name, tail);
  }

  lemma NameEnds(name: string, tail: string)
    requires '/' !in name
    ensures var rest := name + "/" + tail; '/' in rest && rest[..UpTo(rest, '/')] == name
  {
    var rest := name + "/" + tail;
    assert rest[|name|] == '/';
    assert forall k :: 0 <= k < |name| ==> rest[k] == name[k];
    assert UpTo(rest, '/') == |name|;
  }
}
