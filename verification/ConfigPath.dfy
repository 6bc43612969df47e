/**
 * From the container's cgroup file to its quota file: the path the preloaded
 * library opens, seen through the mount of the pod's directory, is the path
 * the pod manager wrote.
 */
module ConfigPath {
  import opened CString
  import opened CgroupPath
  import opened CgroupParser
  import opened MountLine
  import opened GpuAccounting
  import opened Handshake

  /** The library's directory and file name. */
  const LIBRARY_DIR := "/etc/unishare/vm/"
  const LIBRARY_FILE := "vcuda.config"
  const PATH_LENGTH: nat := 512

  /** The pod manager's directory and file name. */
  const MANAGER_DIR := "/etc/unishare/vm"
  const MANAGER_FILE := "vcuda.config"

  /** The two ends of the mount the allocator makes. */
  const MOUNTED_DIR := "/etc/unishare/vm/"
  const MOUNT_POINT := "/etc/unishare/vm"

  // ----- the library's side

  /** What `snprintf` leaves in a buffer of `size`. */
  function Cut(s: string, size: nat): (r: string)
    requires size > 0
    ensures |r| < size
  {
    if |s| < size then s else s[..size - 1]
  }

  function BaseDirOf(key: string): string {
    Cut(LIBRARY_DIR + key, PATH_LENGTH)
  }

  function ConfigPathOf(key: string): string {
    Cut(BaseDirOf(key) + "/" + LIBRARY_FILE, PATH_LENGTH)
  }

  /** Appending as much of `s` as fits gives the cut of the whole. */
  lemma CutAppends(done: string, s: string, n: nat, size: nat)
    requires |done| < size && n == if |done| + |s| < size then |s| else size - 1 - |done|
    ensures done + s[..n] == Cut(done + s, size)
  {
    if n == |s| {
      assert s[..n] == s;
    }
    assert (done + s)[..|done| + n] == done + s[..n];
    if n == |s| {
      assert (done + s)[..|done| + n] == done + s;
    }
  }

  /** Append a literal as far as it fits. */
  method PutLiteral(dst: array<char>, ghost done: string, at: nat, literal: string) returns (end: nat)
    requires Holds(dst[..], 0, done) && at == |done| && NoNul(literal)
    modifies dst
    ensures Holds(dst[..], 0, Cut(done + literal, dst.Length)) && end == |Cut(done + literal, dst.Length)|
  {
    var n := if at + |literal| < dst.Length then |literal| else dst.Length - 1 - at;
    for i := 0 to n
      invariant dst[..at] == done
      invariant forall k :: 0 <= k < i ==> dst[at + k] == literal[k]
    {
      dst[at + i] := literal[i];
    }
    end := at + n;
    dst[end] := NUL;
    CutAppends(done, literal, n, dst.Length);
    assert dst[..end] == done + literal[..n];
    assert dst[..][0..end] == dst[..end];
  }

  /** Append a buffer's string as far as it fits. */
  method PutBuffer(dst: array<char>, ghost done: string, at: nat, src: array<char>, ghost s: string) returns (end: nat)
    requires dst != src && Holds(dst[..], 0, done) && at == |done| && Holds(src[..], 0, s)
    modifies dst
    ensures Holds(dst[..], 0, Cut(done + s, dst.Length)) && end == |Cut(done + s, dst.Length)|
  {
    var length := StrLen(src, 0, s);
    var n := if at + length < dst.Length then length else dst.Length - 1 - at;
    for i := 0 to n
      invariant dst[..at] == done
      invariant forall k :: 0 <= k < i ==> dst[at + k] == s[k]
    {
      HoldsAt(src[..], 0, s, i);
      dst[at + i] := src[i];
    }
    end := at + n;
    dst[end] := NUL;
    CutAppends(done, s, n, dst.Length);
    assert dst[..end] == done + s[..n];
    assert dst[..][0..end] == dst[..end];
  }

  lemma LiteralsHaveNoNul()
    ensures NoNul(LIBRARY_DIR) && NoNul("/" + LIBRARY_FILE)
  {
  }

  /** The two `snprintf` calls. */
  method PrintPaths(baseDir: array<char>, configPath: array<char>, key: array<char>, ghost s: string)
    requires baseDir != configPath && baseDir != key && configPath != key
    requires baseDir.Length == configPath.Length == PATH_LENGTH && Holds(key[..], 0, s)
    modifies baseDir, configPath
    ensures Holds(baseDir[..], 0, BaseDirOf(s)) && Holds(configPath[..], 0, ConfigPathOf(s))
  {
    hide Holds, NoNul;
    LiteralsHaveNoNul();
    ClearHolds(baseDir);
    var at := PutLiteral(baseDir, "", 0, LIBRARY_DIR);
    assert "" + LIBRARY_DIR == LIBRARY_DIR;
    at := PutBuffer(baseDir, LIBRARY_DIR, at, key, s);
    ClearHolds(configPath);
    at := PutBuffer(configPath, "", 0, baseDir, BaseDirOf(s));
    assert "" + BaseDirOf(s) == BaseDirOf(s);
    at := PutLiteral(configPath, BaseDirOf(s), at, "/" + LIBRARY_FILE);
    assert BaseDirOf(s) + ("/" + LIBRARY_FILE) == BaseDirOf(s) + "/" + LIBRARY_FILE;
  }

  method ClearHolds(a: array<char>)
    requires a.Length > 0
    modifies a
    ensures Holds(a[..], 0, "")
  {
    a[0] := NUL;
    assert a[..][0..0] == "";
  }

  /** The key found in the cgroup file: the container id under v1, the container name, or nothing, under v2. */
  function FoundKey(v2: bool, lines: seq<string>): string
    requires v2 ==> MountLines(lines)
  {
    if v2 then (match FirstMount(lines) case Mounted(_, name) => name case NoMount => "")
    else (match Parse(lines) case Found(_, id) => id case Nothing => "")
  }

  /** The file is one on which every move and pointer difference of the parsers is defined. */
  predicate Defined(v2: bool, lines: seq<string>) {
    if v2 then MountLines(lines) && Fits(FirstMount(lines), LINE_BUFFER, LINE_BUFFER)
    else
      Readable(lines)
      && (FirstMemoryPath(lines).Token? ==> PathFits(FirstMemoryPath(lines).text, LINE_BUFFER))
  }

  /** `get_path_by_cgroup`. */
  method GetPathByCgroup(v2: bool, lines: seq<string>, baseDir: array<char>, configPath: array<char>)
      returns (ret: nat)
    requires baseDir != configPath && baseDir.Length == configPath.Length == PATH_LENGTH
    requires Defined(v2, lines)
    modifies baseDir, configPath
    ensures ret == 0 <==> v2 || Parse(lines).Found?
    ensures ret == 0 ==> Holds(configPath[..], 0, ConfigPathOf(FoundKey(v2, lines)))
  {
    hide Holds, Parse, FirstMount, MountLines, Readable, PathFits, ConfigPathOf, BaseDirOf;
    var podUid, containerId, name := new char[LINE_BUFFER], new char[LINE_BUFFER], new char[LINE_BUFFER];
    ClearHolds(name);
    if v2 {
      ret := GetCgroupV2Data(lines, podUid, name);
      PrintPaths(baseDir, configPath, name, FoundKey(v2, lines));
    } else {
      ret := GetCgroupData(lines, podUid, containerId);
      if ret != 0 {
        return 1;
      }
      PrintPaths(baseDir, configPath, containerId, FoundKey(v2, lines));
    }
    return 0;
  }

  // ----- the manager's side

  /** `filepath.Join` of the directory, the pod, the key and the file name; an empty key is dropped. */
  function HostFile(pod: string, key: string): string {
    MANAGER_DIR + "/" + pod + "/" + (if key == "" then "" else key + "/") + MANAGER_FILE
  }

  predicate Named(pod: string, key: string) {
    pod != "" && '/' !in pod && '/' !in key
  }

  lemma FirstSlash(a: string, b: string)
    requires '/' !in a
    ensures UpTo(a + "/" + b, '/') == |a|
  {
    var s := a + "/" + b;
    assert s[|a|] == '/';
    assert forall i :: 0 <= i < |a| ==> s[i] == a[i];
    UpToIs(s, '/', |a|);
  }

  /** Two strings that differ only in what comes before their first slash and after it are split alike. */
  lemma SplitsAlike(a: string, b: string, a': string, b': string)
    requires '/' !in a && '/' !in a' && a + "/" + b == a' + "/" + b'
    ensures a == a' && b == b'
  {
    hide UpTo;
    FirstSlash(a, b);
    FirstSlash(a', b');
    var s := a + "/" + b;
    assert s[..|a|] == a && s[|a| + 1..] == b;
    assert (a' + "/" + b')[..|a'|] == a' && (a' + "/" + b')[|a'| + 1..] == b';
  }

  /** The directory part between the pod and the file name. */
  function KeyPart(key: string): string {
    if key == "" then "" else key + "/"
  }

  lemma KeyPartInjective(k: string, k': string)
    requires KeyPart(k) + MANAGER_FILE == KeyPart(k') + MANAGER_FILE
    ensures k == k'
  {
    assert |KeyPart(k)| == |KeyPart(k')|;
    assert KeyPart(k) == (KeyPart(k) + MANAGER_FILE)[..|KeyPart(k)|];
    assert KeyPart(k') == (KeyPart(k') + MANAGER_FILE)[..|KeyPart(k')|];
    if k != "" && k' != "" {
      assert k == KeyPart(k)[..|k|] && k' == KeyPart(k')[..|k'|];
    }
  }

  lemma HostFileSplits(pod: string, key: string)
    ensures HostFile(pod, key) == (MANAGER_DIR + "/") + (pod + "/" + (KeyPart(key) + MANAGER_FILE))
  {
  }

  lemma SamePrefix(p: string, a: string, b: string)
    requires p + a == p + b
    ensures a == b
  {
    assert (p + a)[|p|..] == a && (p + b)[|p|..] == b;
  }

  /** Different containers have different quota files. */
  lemma HostFileInjective(p: string, k: string, p': string, k': string)
    requires Named(p, k) && Named(p', k') && HostFile(p, k) == HostFile(p', k')
    ensures p == p' && k == k'
  {
    hide HostFile, KeyPart;
    HostFileSplits(p, k);
    HostFileSplits(p', k');
    SamePrefix(MANAGER_DIR + "/", p + "/" + (KeyPart(k) + MANAGER_FILE), p' + "/" + (KeyPart(k') + MANAGER_FILE));
    SplitsAlike(p, KeyPart(k) + MANAGER_FILE, p', KeyPart(k') + MANAGER_FILE);
    KeyPartInjective(k, k');
  }

  // ----- through the mount

  /** The host path behind a path of a container in which the directory of `pod` is mounted. */
  function Behind(pod: string, inside: string): string
    requires MOUNT_POINT <= inside
  {
    MOUNTED_DIR + pod + inside[|MOUNT_POINT|..]
  }

  /** What a read of the host path gives. */
  ghost predicate Reads(files: map<(string, string), Config>, path: string, config: Config) {
    exists k :: k in files && HostFile(k.0, k.1) == path && files[k] == config
  }

  ghost predicate AllNamed(files: map<(string, string), Config>) {
    forall k :: k in files ==> Named(k.0, k.1)
  }

  /** Keys whose path is not cut. */
  predicate FitsPath(key: string) {
    key != "" && |key| <= 481
  }

  lemma PathBehind(pod: string, key: string)
    requires FitsPath(key)
    ensures MOUNT_POINT <= ConfigPathOf(key) && Behind(pod, ConfigPathOf(key)) == HostFile(pod, key)
  {
    var inside := ConfigPathOf(key);
    assert inside == LIBRARY_DIR + key + "/" + LIBRARY_FILE;
    assert LIBRARY_DIR == MOUNT_POINT + "/";
    assert inside[..|MOUNT_POINT|] == MOUNT_POINT;
    assert inside[|MOUNT_POINT|..] == "/" + key + "/" + LIBRARY_FILE;
    assert Behind(pod, inside) == MOUNTED_DIR + pod + ("/" + key + "/" + LIBRARY_FILE);
    assert MOUNTED_DIR == MANAGER_DIR + "/";
  }

  /** Beyond 481 characters the path is cut to 511, and no longer names the file. */
  lemma LongKeyIsCut(key: string)
    requires |key| > 481
    ensures |ConfigPathOf(key)| == 511
    ensures ConfigPathOf(key) == (LIBRARY_DIR + key + "/" + LIBRARY_FILE)[..511]
  {
    var whole := LIBRARY_DIR + key;
    assert |LIBRARY_DIR| == 17 && |LIBRARY_FILE| == 12;
    if |whole| < PATH_LENGTH {
      assert BaseDirOf(key) == whole;
    } else {
      assert BaseDirOf(key) == whole[..511];
      assert (whole[..511] + "/" + LIBRARY_FILE)[..511] == whole[..511];
      assert (whole + "/" + LIBRARY_FILE)[..511] == whole[..511];
    }
  }

  /** A library that looks for `key` reads exactly the file of the mounted pod's container `key`. */
  lemma ReadsTheKey(files: map<(string, string), Config>, pod: string, key: string, config: Config)
    requires AllNamed(files) && Named(pod, key) && FitsPath(key)
    ensures MOUNT_POINT <= ConfigPathOf(key)
    ensures Reads(files, Behind(pod, ConfigPathOf(key)), config) <==> (pod, key) in files && files[(pod, key)] == config
  {
    hide HostFile, ConfigPathOf;
    PathBehind(pod, key);
    assert (pod, key) in files ==> HostFile((pod, key).0, (pod, key).1) == HostFile(pod, key);
    if Reads(files, HostFile(pod, key), config) {
      var k :| k in files && HostFile(k.0, k.1) == HostFile(pod, key) && files[k] == config;
      HostFileInjective(k.0, k.1, pod, key);
      assert k == (pod, key);
    }
  }

  // ----- cgroup v1: the printed file

  /** A pod and a container that survive the round trip of their cgroup path. */
  predicate Survives(pod: string, qos: string, id: string) {
    pod != "" && ClassName(qos) != "" && Plain(pod) && Plain(id) && '_' !in pod && '-' !in id
  }

  lemma PrintedMoveFits(id: string)
    requires '-' !in id && FitsPath(id)
    ensures MoveFits("docker-" + id, LINE_BUFFER)
  {
    LastOfSum("docker-", '-', id);
  }

  lemma PrintedPathFits(pod: string, qos: string, id: string)
    requires Survives(pod, qos, id) && FitsPath(id)
    ensures PathFits("/" + Print(pod, qos, id), LINE_BUFFER)
  {
    hide Print, LastIndex, Find, Before, MoveFits, Segment, Root, ScopeName, Join;
    PrintedPath(pod, qos, id);
    SegmentPlain(pod, qos);
    ScopePlain(id);
    SplitPath("/" + Root(qos), Segment(pod, qos) + ".slice", ScopeName(id));
    ScopeOf(id);
    PrintedMoveFits(id);
  }

  lemma ScopePlain(id: string)
    requires '/' !in id
    ensures '/' !in ScopeName(id)
  {
  }

  lemma PrintedMemoryPath(before: seq<string>, after: seq<string>, n: string, pod: string, qos: string, id: string)
    requires NoMemoryLine(before) && ':' !in n && n != "memory" && Survives(pod, qos, id)
    ensures FirstMemoryPath(before + [MemoryLineOf(n, pod, qos, id)] + after) == Token("/" + Print(pod, qos, id), [])
  {
    hide Print, MemoryPath, Chop, FirstMemoryPath, Segment, Root, Join, ScopeName, NoMemoryLine;
    PrintedPath(pod, qos, id);
    SegmentPlain(pod, qos);
    RootHasNoColon(qos);
    PathHasNoColon(Root(qos), Segment(pod, qos), id);
    MemoryLine(n, "/" + Print(pod, qos, id));
    FirstMemoryPathSkips(before, MemoryLineOf(n, pod, qos, id), after);
  }

  /** A file that holds the line printed for a container is one the library can parse, and it finds the container. */
  lemma PrintedFileFound(before: seq<string>, after: seq<string>, n: string, pod: string, qos: string, id: string)
    requires NoMemoryLine(before) && ':' !in n && n != "memory" && Survives(pod, qos, id) && FitsPath(id)
    requires Readable(before + [MemoryLineOf(n, pod, qos, id)] + after)
    ensures var lines := before + [MemoryLineOf(n, pod, qos, id)] + after;
            Defined(false, lines) && Parse(lines) == Found(pod, id) && FoundKey(false, lines) == id
  {
    hide Parse, Readable, PathFits, FirstMemoryPath, MemoryLineOf, Print, NoMemoryLine, Plain, ClassName;
    PrintedMemoryPath(before, after, n, pod, qos, id);
    PrintedPathFits(pod, qos, id);
    RoundTripIff(before, after, n, pod, qos, id);
  }

  /** A file with the mount line of a container is one the library can parse, and it finds the container. */
  lemma MountedFileFound(before: seq<string>, line: string, after: seq<string>,
                         head: string, pod: string, name: string, tail: string)
    requires Unmarked(before) && Delivered(before + [line])
    requires line == head + POD_MARK + pod + CONTAINERS_MARK + name + "/" + tail && '/' !in name
    requires forall j :: 0 <= j < |head| ==> !OccursAt(line, POD_MARK, j)
    requires forall j :: 0 <= j < |head| + |POD_MARK| + |pod| ==> !OccursAt(line, CONTAINERS_MARK, j)
    ensures var lines := before + [line] + after; Defined(true, lines) && FoundKey(true, lines) == name
  {
    hide Unmarked, OccursAt, MountLines, FirstMount;
    MountFileRoundTrip(before, line, after, head, pod, name, tail);
    assert (before + [line])[|before|] == line;
  }

  // ----- end to end

  /** The quota a filed container may read: its pod's full quota, or zero once the pod's entries have been deleted. */
  ghost predicate OwnQuota(c: Cluster, s: State, pod: string, config: Config) {
    config == FullConfig(c, pod) || (pod in s.gone && config == ConfigOf(0, 0))
  }

  /**
   * End to end: over every run, a container whose cgroup file leads to the key
   * under which it was filed reads, through its pod's mount, exactly the quota
   * filed for it, and that is its own.
   */
  lemma ContainerReadsItsQuota(c: Cluster, gpus: seq<GpuRecord>, es: seq<Event>, lines: seq<string>,
                               pod: string, key: string, config: Config)
    requires var files := Run(c, Initial(gpus), es).files; AllNamed(files) && (pod, key) in files
    requires Defined(c.cgroupV2, lines) && FoundKey(c.cgroupV2, lines) == key && FitsPath(key)
    ensures MOUNT_POINT <= ConfigPathOf(key)
    ensures var s := Run(c, Initial(gpus), es);
            && (Reads(s.files, Behind(pod, ConfigPathOf(FoundKey(c.cgroupV2, lines))), config)
                <==> config == s.files[(pod, key)])
            && OwnQuota(c, s, pod, s.files[(pod, key)])
  {
    hide Run, Reads, ConfigPathOf, FullConfig, ConfigOf, FoundKey, Behind, FitsPath;
    var files := Run(c, Initial(gpus), es).files;
    assert Named((pod, key).0, (pod, key).1);
    ReadsTheKey(files, pod, key, config);
    FilesCarryFullQuota(c, gpus, es, pod, key);
  }

  /**
   * The same from the printed line on, under cgroup v1: the manager files a
   * container under its id, the kernel shows the path printed for it, and the
   * library reads the file back, whatever lines surround that path.
   */
  lemma PrintedContainerReadsItsQuota(c: Cluster, gpus: seq<GpuRecord>, es: seq<Event>,
                                      before: seq<string>, after: seq<string>, n: string,
                                      pod: string, qos: string, id: string, config: Config)
    requires var files := Run(c, Initial(gpus), es).files; AllNamed(files) && (pod, id) in files
    requires !c.cgroupV2 && Survives(pod, qos, id) && FitsPath(id)
    requires NoMemoryLine(before) && ':' !in n && n != "memory"
    requires Readable(before + [MemoryLineOf(n, pod, qos, id)] + after)
    ensures var lines := before + [MemoryLineOf(n, pod, qos, id)] + after;
            Defined(false, lines) && MOUNT_POINT <= ConfigPathOf(FoundKey(false, lines))
    ensures var s := Run(c, Initial(gpus), es);
            var path := ConfigPathOf(FoundKey(false, before + [MemoryLineOf(n, pod, qos, id)] + after));
            && (Reads(s.files, Behind(pod, path), config) <==> config == s.files[(pod, id)])
            && OwnQuota(c, s, pod, s.files[(pod, id)])
  {
    hide Run, Reads, ConfigPathOf, OwnQuota, FoundKey, Behind, FitsPath, Defined, Survives, NoMemoryLine, Readable;
    PrintedFileFound(before, after, n, pod, qos, id);
    ContainerReadsItsQuota(c, gpus, es, before + [MemoryLineOf(n, pod, qos, id)] + after, pod, id, config);
  }
}
