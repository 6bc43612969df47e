/** The cgroup path of a container: the printer on the node, the parser inside the container, and their round trip. */
module CgroupPath {
  import opened CString

  datatype Identity = Nothing | Found(podUid: string, containerId: string)

  // ----- the printer

  /** `filepath.Join` of two elements that cleaning leaves unchanged. */
  function Join(a: string, b: string): string {
    a + "/" + b
  }

  function ClassName(qos: string): string {
    if qos == "Guaranteed" then "guaranteed"
    else if qos == "Burstable" then "burstable"
    else if qos == "BestEffort" then "besteffort"
    else ""
  }

  function ScopeName(containerId: string): string {
    "docker-" + containerId + ".scope"
  }

  /** `getCgroupPath`: the systemd cgroup of a container, empty when the pod has no uid or no class yet. */
  function Print(podUid: string, qos: string, containerId: string): string {
    if podUid == "" || qos == "" then ""
    else
      var slice := Replace(podUid, '-', '_') + ".slice";
      var root := "kubepods.slice";
      var class_ := ClassName(qos);
      var path := if class_ == "" then root else Join(root, "kubepods-" + class_ + ".slice");
      var leaf := if class_ == "" then slice else "kubepods-" + class_ + "-pod" + slice;
      Join(Join(path, leaf), ScopeName(containerId))
  }

  // ----- the parser, on strings

  /** The token after the first token "memory", if there is one. */
  function MemoryPath(line: string): Token
    decreases |line|
  {
    match NextToken(line, ':')
    case NoToken => NoToken
    case Token(text, rest) => if text == "memory" then NextToken(rest, ':') else MemoryPath(rest)
  }

  /** A line as `fgets` delivers it; its last character is dropped unseen. */
  function Chop(line: string): string {
    if line == [] then [] else line[..|line| - 1]
  }

  function TrimContainer(s: string): Token {
    var dash := LastIndex(s, '-');
    if dash < 0 then NoToken else Token(s[dash + 1..], [])
  }

  function TrimPod(s: string): Token {
    var at := Find(s, "-pod");
    if at < 0 then NoToken else Token(Replace(s[at + 4..], '_', '-'), [])
  }

  /** The first four characters of the segment, `/pod`, are dropped whatever they are. */
  function DropPod(s: string): string {
    if |s| < 4 then [] else s[4..]
  }

  function ParsePath(path: string): Identity {
    var last := LastIndex(path, '/');
    if last < 0 then Nothing else
    var second := LastIndex(path[..last], '/');
    if second < 0 then Nothing else
    var leaf := path[last + 1..];
    var slice := path[second..last];
    if Find(leaf, ".scope") >= 0 then
      match (TrimContainer(Before(leaf, ".scope")), TrimPod(Before(slice, ".slice")))
      case (Token(id, _), Token(uid, _)) => Found(uid, id)
      case _ => Nothing
    else Found(DropPod(slice), leaf)
  }

  /** The memory path of the first line that has one. */
  function FirstMemoryPath(lines: seq<string>): Token {
    if lines == [] then NoToken
    else if MemoryPath(Chop(lines[0])).Token? then MemoryPath(Chop(lines[0]))
    else FirstMemoryPath(lines[1..])
  }

  /** `get_cgroup_data`: only the first line with a memory path counts. */
  function Parse(lines: seq<string>): Identity {
    match FirstMemoryPath(lines)
    case NoToken => Nothing
    case Token(path, _) => ParsePath(path)
  }

  // ----- round trip

  /** Free of the characters that structure a cgroup line: slash, colon and dot. */
  predicate Plain(s: string) {
    '/' !in s && ':' !in s && '.' !in s
  }

  predicate NoMemoryLine(lines: seq<string>) {
    forall i :: 0 <= i < |lines| ==> MemoryPath(Chop(lines[i])).NoToken?
  }

  lemma {:induction false} FirstMemoryPathSkips(before: seq<string>, line: string, after: seq<string>)
    requires NoMemoryLine(before) && MemoryPath(Chop(line)).Token?
    ensures FirstMemoryPath(before + [line] + after) == MemoryPath(Chop(line))
  {
    hide MemoryPath, Chop;
    var lines := before + [line] + after;
    if before == [] {
      assert lines[0] == line;
    } else {
      assert lines[0] == before[0] && lines[1..] == before[1..] + [line] + after;
      FirstMemoryPathSkips(before[1..], line, after);
    }
  }

  lemma ParseSkips(before: seq<string>, line: string, after: seq<string>)
    requires NoMemoryLine(before) && MemoryPath(Chop(line)).Token?
    ensures Parse(before + [line] + after) == ParsePath(MemoryPath(Chop(line)).text)
  {
    hide FirstMemoryPath, MemoryPath, Chop, ParsePath, NoMemoryLine;
    FirstMemoryPathSkips(before, line, after);
  }

  // ----- what the parser does, token by token

  /** Tokens joined by colons, as a cgroup line has them. */
  function Joined(ts: seq<string>): string {
    if ts == [] then "" else if |ts| == 1 then ts[0] else ts[0] + ":" + Joined(ts[1..])
  }

  predicate AreTokens(ts: seq<string>) {
    forall i :: 0 <= i < |ts| ==> ts[i] != [] && ':' !in ts[i]
  }

  /** The memory path is the token after the first token "memory", wherever that is. */
  lemma {:induction false} MemoryPathOfTokens(ts: seq<string>, i: nat)
    requires AreTokens(ts) && i < |ts| && ts[i] == "memory" && forall j :: 0 <= j < i ==> ts[j] != "memory"
    ensures var m := MemoryPath(Joined(ts));
            if i + 1 < |ts| then m.Token? && m.text == ts[i + 1] else m.NoToken?
  {
    hide NextToken;
    JoinedStarts(ts);
    NothingLeft();
    if i > 0 {
      assert forall j :: 0 <= j < |ts| - 1 ==> ts[1..][j] == ts[j + 1];
      MemoryPathOfTokens(ts[1..], i - 1);
    } else if |ts| > 1 {
      JoinedStarts(ts[1..]);
    }
  }

  lemma {:induction false} NoMemoryToken(ts: seq<string>)
    requires AreTokens(ts) && "memory" !in ts
    ensures MemoryPath(Joined(ts)).NoToken?
  {
    hide NextToken;
    NothingLeft();
    if ts != [] {
      JoinedStarts(ts);
      assert ts[0] in ts;
      assert forall j :: 0 <= j < |ts| - 1 ==> ts[1..][j] == ts[j + 1];
      NoMemoryToken(ts[1..]);
    }
  }

  lemma NothingLeft()
    ensures NextToken("", ':').NoToken?
  {
  }

  lemma JoinedStarts(ts: seq<string>)
    requires AreTokens(ts) && ts != []
    ensures NextToken(Joined(ts), ':') == Token(ts[0], if |ts| == 1 then [] else Joined(ts[1..]))
  {
    hide NextToken;
    if |ts| == 1 {
      OnlyToken(ts[0]);
    } else {
      FirstToken(ts[0], Joined(ts[1..]));
    }
  }

  /**
   * Exactly which paths give an identity: those with two slashes whose last
   * segment, if it is a scope, has a dash before `.scope`, and whose segment
   * before that has `-pod` before `.slice`.
   */
  lemma FoundIff(path: string)
    ensures ParsePath(path).Found? <==>
            var last := LastIndex(path, '/');
            && '/' in path && '/' in path[..last]
            && var leaf, slice := path[last + 1..], path[LastIndex(path[..last], '/')..last];
            (Find(leaf, ".scope") >= 0 ==> '-' in Before(leaf, ".scope") && Find(Before(slice, ".slice"), "-pod") >= 0)
  {
    hide LastIndex, Find, Before;
  }

  lemma LastFrom(s: string, c: char, i: nat)
    requires i < |s| && s[i] == c && forall j :: i < j < |s| ==> s[j] != c
    ensures LastIndex(s, c) == i
  {
    hide LastIndex;
    if LastIndex(s, c) < i {
      assert s[i] == c;
    }
  }

  lemma LastIndexIs(a: string, c: char, b: string)
    requires c !in b
    ensures LastIndex(a + [c] + b, c) == |a|
  {
    LastFrom(a + [c] + b, c, |a|);
  }

  lemma OccurrenceStarts(s: string, pat: string, j: nat)
    requires |pat| > 1
    ensures OccursAt(s, pat, j) ==> s[j] == pat[0] && s[j + 1] == pat[1]
  {
    if OccursAt(s, pat, j) {
      assert s[j..j + |pat|][0] == s[j] && s[j..j + |pat|][1] == s[j + 1];
    }
  }

  /** A pattern is found at once after a prefix free of its first character. */
  lemma FindAfter(a: string, pat: string, b: string)
    requires |pat| > 1 && pat[0] !in a
    ensures Find(a + pat + b, pat) == |a|
  {
    hide Find;
    var s := a + pat + b;
    assert s[|a|..|a| + |pat|] == pat;
    forall j | 0 <= j < |a| ensures !OccursAt(s, pat, j) {
      assert s[j] == a[j];
      OccurrenceStarts(s, pat, j);
    }
    FindIs(s, pat, |a|);
  }

  lemma BeforeIs(a: string, pat: string, b: string)
    requires |pat| > 1 && pat[0] !in a
    ensures Before(a + pat + b, pat) == a
  {
    FindAfter(a, pat, b);
  }

  lemma UpToIs(s: string, c: char, n: nat)
    requires n <= |s| && (forall i :: 0 <= i < n ==> s[i] != c) && (n < |s| ==> s[n] == c)
    ensures UpTo(s, c) == n
  {
    hide UpTo;
  }

  /** The first token starts at once when the string does not start with a separator. */
  lemma TokenIs(s: string, n: nat)
    requires s != [] && s[0] != ':' && n <= |s|
    requires (forall i :: 0 <= i < n ==> s[i] != ':') && (n < |s| ==> s[n] == ':')
    ensures NextToken(s, ':') == Token(s[..n], if n < |s| then s[n + 1..] else [])
  {
    hide UpTo, Leading;
    assert Leading(s, ':') == 0;
    assert s[0..] == s;
    UpToIs(s, ':', n);
  }

  lemma FirstToken(a: string, b: string)
    requires a != [] && ':' !in a
    ensures NextToken(a + ":" + b, ':') == Token(a, b)
  {
    hide NextToken;
    var x := a + ":";
    var s := x + b;
    assert x[..|a|] == a;
    forall i | 0 <= i < |a| ensures s[i] != ':' {
      assert s[i] == a[i];
    }
    TokenIs(s, |a|);
    assert s[..|a|] == x[..|a|];
    AppendTail(x, b, 0);
    assert b[0..] == b;
  }

  lemma OnlyToken(a: string)
    requires a != [] && ':' !in a
    ensures NextToken(a, ':') == Token(a, [])
  {
    hide NextToken;
    TokenIs(a, |a|);
    assert a[..|a|] == a;
  }

  lemma AppendAt(a: string, b: string, j: nat)
    requires j < |b|
    ensures (a + b)[|a| + j] == b[j]
  {
  }

  lemma AppendTail(a: string, b: string, j: nat)
    requires j <= |b|
    ensures (a + b)[|a| + j..] == b[j..]
  {
  }

  lemma LeadingOneMore(s: string, c: char)
    requires s != [] && s[0] == c
    ensures Leading(s, c) == 1 + Leading(s[1..], c)
  {
  }

  lemma EmptyToken(b: string)
    ensures NextToken(":" + b, ':') == NextToken(b, ':')
  {
    hide UpTo, Leading;
    var s := ":" + b;
    AppendTail(":", b, 0);
    assert s[1..] == b;
    LeadingOneMore(s, ':');
    AppendTail(":", b, Leading(b, ':'));
  }

  /** The memory path of a line `n:memory:path`. */
  lemma MemoryLine(n: string, path: string)
    requires ':' !in n && n != "memory" && path != [] && ':' !in path
    ensures MemoryPath(Chop(n + ":memory:" + path + "\n")) == Token(path, [])
  {
    hide NextToken;
    var rest := "memory" + ":" + path;
    MemoryFirst(path);
    assert Chop(n + ":memory:" + path + "\n") == n + ":" + rest;
    if n == [] {
      assert n + ":" + rest == ":" + rest;
      EmptyToken(rest);
    } else {
      FirstToken(n, rest);
    }
  }

  lemma MemoryFirst(path: string)
    requires path != [] && ':' !in path
    ensures MemoryPath("memory" + ":" + path) == Token(path, [])
  {
    hide NextToken;
    FirstToken("memory", path);
    OnlyToken(path);
  }

  /** The last two segments of a path, and what lies before them. */
  lemma SplitPath(root: string, segment: string, leaf: string)
    requires '/' !in segment && '/' !in leaf
    ensures var path := Join(Join(root, segment), leaf);
            var last := LastIndex(path, '/');
            && last >= 0 && path[last + 1..] == leaf
            && LastIndex(path[..last], '/') >= 0
            && path[LastIndex(path[..last], '/')..last] == "/" + segment
  {
    hide LastIndex;
    var dir := Join(root, segment);
    var path := Join(dir, leaf);
    LastIndexIs(dir, '/', leaf);
    assert path == dir + ['/'] + leaf;
    assert path[..|dir|] == dir && path[|dir| + 1..] == leaf;
    LastIndexIs(root, '/', segment);
    assert dir == root + ['/'] + segment;
    assert path[|root|..|dir|] == "/" + segment;
  }

  lemma ScopeOf(id: string)
    requires '.' !in id
    ensures Find(ScopeName(id), ".scope") >= 0 && Before(ScopeName(id), ".scope") == "docker-" + id
  {
    hide Find;
    var a := "docker-" + id;
    assert ScopeName(id) == a + ".scope" + [];
    FindAfter(a, ".scope", []);
    BeforeIs(a, ".scope", []);
  }

  lemma SliceOf(name: string)
    requires '.' !in name
    ensures Before("/" + (name + ".slice"), ".slice") == "/" + name
  {
    assert "/" + (name + ".slice") == ("/" + name) + ".slice" + [];
    BeforeIs("/" + name, ".slice", []);
  }

  /** What the parser makes of a systemd path with the given last two segments. */
  lemma SystemdPath(root: string, name: string, id: string)
    requires '/' !in name && '.' !in name && '/' !in id && '.' !in id
    ensures ParsePath(Join(Join(root, name + ".slice"), ScopeName(id))) ==
            match (TrimContainer("docker-" + id), TrimPod("/" + name))
            case (Token(i, _), Token(u, _)) => Found(u, i)
            case _ => Nothing
  {
    hide LastIndex, Find, Before, TrimContainer, TrimPod, Join;
    SplitPath(root, name + ".slice", ScopeName(id));
    ScopeOf(id);
    SliceOf(name);
  }

  lemma FindPod(head: string, name: string, uid: string)
    requires '-' !in head && '-' !in name && name != [] && name[0] != 'p'
    ensures Find(head + "-" + name + "-pod" + uid, "-pod") == |head| + 1 + |name|
  {
    hide Find;
    var pre := head + "-" + name;
    var s := pre + "-pod" + uid;
    assert s[|pre|..|pre| + 4] == "-pod";
    assert s[|head| + 1] == name[0];
    forall j | 0 <= j < |pre| ensures !OccursAt(s, "-pod", j) {
      OccurrenceStarts(s, "-pod", j);
      assert s[j] == pre[j];
    }
    FindIs(s, "-pod", |pre|);
  }

  lemma TrimClassed(qos: string, uid: string)
    requires ClassName(qos) != ""
    ensures TrimPod("/" + ("kubepods-" + ClassName(qos) + "-pod" + uid)) == Token(Replace(uid, '_', '-'), [])
  {
    hide Find, Replace, ClassName;
    var name := ClassName(qos);
    var head := "/kubepods";
    ClassStarts(qos);
    FindPod(head, name, uid);
    Regrouped(name, uid);
    assert (head + "-" + name + "-pod" + uid)[|head| + 1 + |name| + 4..] == uid;
  }

  lemma ClassStarts(qos: string)
    requires ClassName(qos) != ""
    ensures '-' !in ClassName(qos) && ClassName(qos)[0] != 'p'
  {
  }

  lemma Regrouped(name: string, uid: string)
    ensures "/" + ("kubepods-" + name + "-pod" + uid) == "/kubepods" + "-" + name + "-pod" + uid
  {
  }

  function Lower(c: char): char {
    if 'A' <= c <= 'Z' then c - 'A' + 'a' else c
  }

  /** The class appears in the path in lower case; there are three classes. */
  lemma ClassIsLowerCase(qos: string)
    ensures ClassName(qos) != "" <==> qos in ["Guaranteed", "Burstable", "BestEffort"]
    ensures ClassName(qos) != "" ==>
              |ClassName(qos)| == |qos| && forall i :: 0 <= i < |qos| ==> ClassName(qos)[i] == Lower(qos[i])
  {
  }

  /** The memory line a process in the container reads for a container the printer knows. */
  function MemoryLineOf(n: string, podUid: string, qos: string, containerId: string): string {
    n + ":memory:" + ("/" + Print(podUid, qos, containerId)) + "\n"
  }

  /** The pod uid as it comes back: underscores turn into dashes, as all dashes were printed as underscores. */
  function UidBack(podUid: string): string {
    Replace(podUid, '_', '-')
  }

  lemma UidSurvives(podUid: string)
    ensures Replace(Replace(podUid, '-', '_'), '_', '-') == UidBack(podUid)
    ensures UidBack(podUid) == podUid <==> '_' !in podUid
  {
    var back := UidBack(podUid);
    if '_' in podUid {
      var i :| 0 <= i < |podUid| && podUid[i] == '_';
      assert back[i] == '-';
    }
  }

  lemma PrintedUid(podUid: string)
    requires Plain(podUid)
    ensures Plain(Replace(podUid, '-', '_')) && '-' !in Replace(podUid, '-', '_')
  {
    var r := Replace(podUid, '-', '_');
    assert forall i :: 0 <= i < |r| ==> r[i] == podUid[i] || r[i] == '_';
  }

  /** Behind a separator at the end of `a`, the last separator is the last one of `b`, or else that one. */
  lemma LastOfSum(a: string, c: char, b: string)
    requires a != [] && a[|a| - 1] == c
    ensures LastIndex(a + b, c) == |a| + LastIndex(b, c)
    ensures (a + b)[LastIndex(a + b, c) + 1..] == b[LastIndex(b, c) + 1..]
  {
    hide LastIndex;
    var s, k := a + b, LastIndex(b, c);
    if k >= 0 {
      AppendAt(a, b, k);
    }
    forall j | |a| + k < j < |s| ensures s[j] != c {
      AppendAt(a, b, j - |a|);
    }
    LastFrom(s, c, |a| + k);
    AppendTail(a, b, k + 1);
  }

  lemma IdBack(id: string)
    ensures TrimContainer("docker-" + id) == Token(id[LastIndex(id, '-') + 1..], [])
  {
    hide LastIndex;
    LastOfSum("docker-", '-', id);
  }

  function Root(qos: string): string {
    if ClassName(qos) == "" then "kubepods.slice" else Join("kubepods.slice", "kubepods-" + ClassName(qos) + ".slice")
  }

  function Segment(podUid: string, qos: string): string {
    if ClassName(qos) == "" then Replace(podUid, '-', '_')
    else "kubepods-" + ClassName(qos) + "-pod" + Replace(podUid, '-', '_')
  }

  lemma ConcatAssociates(a: string, b: string, c: string)
    ensures a + (b + c) == (a + b) + c
  {
  }

  /** The line's path, split into root, pod segment and scope. */
  lemma PrintedPath(podUid: string, qos: string, id: string)
    requires podUid != "" && qos != ""
    ensures "/" + Print(podUid, qos, id) == Join(Join("/" + Root(qos), Segment(podUid, qos) + ".slice"), ScopeName(id))
  {
    hide Replace, ClassName, ScopeName;
    var r := Replace(podUid, '-', '_');
    if ClassName(qos) != "" {
      ConcatAssociates("kubepods-" + ClassName(qos) + "-pod", r, ".slice");
    }
    assert Print(podUid, qos, id) == Join(Join(Root(qos), Segment(podUid, qos) + ".slice"), ScopeName(id));
    PrefixJoin("/", Root(qos), Segment(podUid, qos) + ".slice", ScopeName(id));
  }

  lemma PrefixJoin(p: string, root: string, segment: string, leaf: string)
    ensures p + Join(Join(root, segment), leaf) == Join(Join(p + root, segment), leaf)
  {
    assert p + Join(root, segment) == Join(p + root, segment);
  }

  lemma ClassNamesPlain(qos: string)
    ensures Plain(ClassName(qos))
  {
  }

  lemma PlainTogether(a: string, b: string)
    requires Plain(a) && Plain(b)
    ensures Plain(a + b)
  {
  }

  lemma SegmentPlain(podUid: string, qos: string)
    requires Plain(podUid)
    ensures Plain(Segment(podUid, qos))
  {
    hide Replace, ClassName, Plain;
    PrintedUid(podUid);
    if ClassName(qos) != "" {
      ClassNamesPlain(qos);
      WordsPlain();
      PlainTogether("kubepods-", ClassName(qos));
      PlainTogether("kubepods-" + ClassName(qos), "-pod");
      PlainTogether("kubepods-" + ClassName(qos) + "-pod", Replace(podUid, '-', '_'));
    }
  }

  lemma WordsPlain()
    ensures Plain("kubepods-") && Plain("-pod")
  {
  }

  lemma RootHasNoColon(qos: string)
    ensures ':' !in Root(qos)
  {
    hide ClassName;
    ClassNamesPlain(qos);
  }

  lemma PathHasNoColon(root: string, segment: string, id: string)
    requires ':' !in root && ':' !in segment && ':' !in id
    ensures ':' !in Join(Join("/" + root, segment + ".slice"), ScopeName(id))
  {
  }

  lemma ParsesTo(before: seq<string>, after: seq<string>, n: string, podUid: string, qos: string, id: string)
    requires NoMemoryLine(before) && ':' !in n && n != "memory"
    requires podUid != "" && qos != "" && Plain(podUid) && Plain(id)
    ensures Parse(before + [MemoryLineOf(n, podUid, qos, id)] + after) ==
            match TrimPod("/" + Segment(podUid, qos))
            case Token(u, _) => Found(u, id[LastIndex(id, '-') + 1..])
            case NoToken => Nothing
  {
    hide Print, Parse, ParsePath, MemoryPath, Chop, TrimPod, TrimContainer, LastIndex, Segment, Root;
    hide Join, ScopeName, NoMemoryLine;
    var path := "/" + Print(podUid, qos, id);
    PrintedPath(podUid, qos, id);
    SegmentPlain(podUid, qos);
    RootHasNoColon(qos);
    PathHasNoColon(Root(qos), Segment(podUid, qos), id);
    MemoryLine(n, path);
    ParseSkips(before, MemoryLineOf(n, podUid, qos, id), after);
    SystemdPath("/" + Root(qos), Segment(podUid, qos), id);
    IdBack(id);
  }

  /**
   * Print then parse, for each of the three classes: the parser returns the
   * uid with every underscore turned into a dash, and the id after its last
   * dash, whatever lines surround the memory line.
   */
  lemma PrintThenParse(before: seq<string>, after: seq<string>, n: string, podUid: string, qos: string, id: string)
    requires NoMemoryLine(before) && ':' !in n && n != "memory"
    requires podUid != "" && ClassName(qos) != "" && Plain(podUid) && Plain(id)
    ensures Parse(before + [MemoryLineOf(n, podUid, qos, id)] + after)
         == Found(UidBack(podUid), id[LastIndex(id, '-') + 1..])
  {
    hide MemoryLineOf, Parse, TrimPod, LastIndex, Replace;
    ParsesTo(before, after, n, podUid, qos, id);
    TrimClassed(qos, Replace(podUid, '-', '_'));
    UidSurvives(podUid);
  }

  /** The round trip is the identity exactly for uids without an underscore and ids without a dash. */
  lemma RoundTripIff(before: seq<string>, after: seq<string>, n: string, podUid: string, qos: string, id: string)
    requires NoMemoryLine(before) && ':' !in n && n != "memory"
    requires podUid != "" && ClassName(qos) != "" && Plain(podUid) && Plain(id)
    ensures Parse(before + [MemoryLineOf(n, podUid, qos, id)] + after) == Found(podUid, id)
            <==> '_' !in podUid && '-' !in id
  {
    hide MemoryLineOf, Parse, UidBack, LastIndex, Plain, ClassName, NoMemoryLine;
    PrintThenParse(before, after, n, podUid, qos, id);
    UidSurvives(podUid);
    IdSurvives(id);
  }

  lemma IdSurvives(id: string)
    ensures id[LastIndex(id, '-') + 1..] == id <==> '-' !in id
  {
    hide LastIndex;
    var k := LastIndex(id, '-');
    if k >= 0 {
      assert |id[k + 1..]| < |id|;
    } else {
      assert id[0..] == id;
    }
  }

  /** A class the printer does not know leaves no `-pod` in the path, and the parser reports failure. */
  lemma UnknownClassFails(before: seq<string>, after: seq<string>, n: string, podUid: string, qos: string, id: string)
    requires NoMemoryLine(before) && ':' !in n && n != "memory"
    requires podUid != "" && qos != "" && ClassName(qos) == "" && Plain(podUid) && Plain(id)
    ensures Parse(before + [MemoryLineOf(n, podUid, qos, id)] + after) == Nothing
  {
    hide MemoryLineOf, Parse, LastIndex, Find, Replace;
    ParsesTo(before, after, n, podUid, qos, id);
    PrintedUid(podUid);
    var s := "/" + Segment(podUid, qos);
    assert '-' !in s;
    if Find(s, "-pod") >= 0 {
      OccurrenceStarts(s, "-pod", Find(s, "-pod"));
    }
  }

  /** The cgroupfs layout: the last two segments `/pod<uid>/<id>` come back as uid and id. */
  lemma CgroupfsRoundTrip(before: seq<string>, after: seq<string>, n: string, root: string, uid: string, id: string)
    requires NoMemoryLine(before) && ':' !in n && n != "memory"
    requires ':' !in root && ':' !in uid && '/' !in uid && ':' !in id && '/' !in id && Find(id, ".scope") < 0
    ensures var path := Join(Join(root, "pod" + uid), id);
            Parse(before + [n + ":memory:" + path + "\n"] + after) == Found(uid, id)
  {
    hide Parse, LastIndex, Find, MemoryPath, Chop;
    var path := Join(Join(root, "pod" + uid), id);
    MemoryLine(n, path);
    ParseSkips(before, n + ":memory:" + path + "\n", after);
    SplitPath(root, "pod" + uid, id);
    assert ("/" + ("pod" + uid))[4..] == uid;
  }
}
