/**
 * The request handler of `remote_open.py`: the `remote_to_local` path mapper
 * (first matching pair wins) and the processing of one connection's payload
 * in `ThreadedTCPRequestHandler.handle`.
 */
module RemoteOpenServer {
  import opened Wrappers
  import opened Text
  import opened Wire
  import opened FileSystem
  import opened Targets

  /** A `path_maps` setting: (remote prefix, local prefix) pairs in iteration order. */
  type PathMaps = seq<(string, string)>

  /** A pair applies when its slash-normalised remote prefix starts the slash-normalised path. */
  predicate Hits(path: string, pair: (string, string)) {
    StartsWith(Normalize(path), Normalize(pair.0))
  }

  /** The mapping loop over an already normalised path; it stops at the first hit. */
  function FirstMatch(p: string, pathMaps: PathMaps): (r: string)
    requires '\\' !in p
    ensures '\\' !in r
  {
    if pathMaps == [] then p
    else
      var remote := Normalize(pathMaps[0].0);
      if StartsWith(p, remote) then
        assert forall i :: 0 <= i < |p| - |remote| ==> p[|remote|..][i] == p[|remote| + i];
        Graft(Normalize(pathMaps[0].1), p[|remote|..])
      else FirstMatch(p, pathMaps[1..])
  }

  /** `remote_to_local(path)` with `path_maps` passed in. */
  function RemoteToLocal(path: string, pathMaps: PathMaps): (r: string)
    ensures '\\' !in r
  {
    FirstMatch(Normalize(path), pathMaps)
  }

  /**
   * The first pair that applies decides the result: its local prefix without
   * one trailing slash, a slash, and the rest of the path without one leading
   * slash.
   */
  lemma {:induction false} FirstMatchWins(path: string, pathMaps: PathMaps, k: nat)
    requires k < |pathMaps| && Hits(path, pathMaps[k])
    requires forall j :: 0 <= j < k ==> !Hits(path, pathMaps[j])
    ensures RemoteToLocal(path, pathMaps) ==
      Graft(Normalize(pathMaps[k].1), Normalize(path)[|Normalize(pathMaps[k].0)|..])
  {
    if k > 0 {
      assert !Hits(path, pathMaps[0]);
      FirstMatchWins(path, pathMaps[1..], k - 1);
    }
  }

  /** When no pair applies, the result is the path with its backslashes turned into slashes. */
  lemma {:induction false} NoMatchNormalizes(path: string, pathMaps: PathMaps)
    requires forall j :: 0 <= j < |pathMaps| ==> !Hits(path, pathMaps[j])
    ensures RemoteToLocal(path, pathMaps) == Normalize(path)
  {
    if pathMaps != [] {
      assert !Hits(path, pathMaps[0]);
      NoMatchNormalizes(path, pathMaps[1..]);
    }
  }

  /** Pairs after one that applies are never consulted. */
  lemma {:induction false} LaterPairsIgnored(path: string, pathMaps: PathMaps, more: PathMaps)
    requires exists j :: 0 <= j < |pathMaps| && Hits(path, pathMaps[j])
    ensures RemoteToLocal(path, pathMaps + more) == RemoteToLocal(path, pathMaps)
  {
    assert (pathMaps + more)[0] == pathMaps[0];
    if !Hits(path, pathMaps[0]) {
      assert (pathMaps + more)[1..] == pathMaps[1..] + more;
      var j :| 0 <= j < |pathMaps| && Hits(path, pathMaps[j]);
      assert Hits(path, pathMaps[1..][j - 1]);
      LaterPairsIgnored(path, pathMaps[1..], more);
    }
  }

  /** Mapping a result again changes nothing once no pair applies to it. */
  lemma TerminalIsFixed(path: string, pathMaps: PathMaps)
    requires forall j :: 0 <= j < |pathMaps| ==> !Hits(RemoteToLocal(path, pathMaps), pathMaps[j])
    ensures RemoteToLocal(RemoteToLocal(path, pathMaps), pathMaps) == RemoteToLocal(path, pathMaps)
  {
    var r := RemoteToLocal(path, pathMaps);
    NoMatchNormalizes(r, pathMaps);
    NormalizeIdentity(r);
  }

  lemma GraftExample()
    ensures Graft("/home/me/proj", "/src/a.py") == "/home/me/proj/src/a.py"
  {
  }

  /** `{"/remote/proj": "/home/me/proj"}` maps `/remote/proj/src/a.py` to `/home/me/proj/src/a.py`. */
  lemma MappingExample()
    ensures RemoteToLocal("/remote/proj/src/a.py", [("/remote/proj", "/home/me/proj")]) ==
      "/home/me/proj/src/a.py"
  {
    var p, remote, local := "/remote/proj/src/a.py", "/remote/proj", "/home/me/proj";
    NormalizeIdentity(p);
    NormalizeIdentity(remote);
    NormalizeIdentity(local);
    assert p[..12] == remote;
    assert Hits(p, (remote, local));
    FirstMatchWins(p, [(remote, local)], 0);
    assert p[12..] == "/src/a.py";
    GraftExample();
  }

  /** The settings `handle` reads; the defaults are those `get_settings` falls back to. */
  datatype Settings = Settings(
    pathMaps: PathMaps,
    dieFlag: string,
    createIfMissing: bool,
    openDirectoryContents: bool,
    openDirectoryRecursively: bool)

  const Defaults := Settings([], "__REMOTE__OPEN__DIE__", true, true, false)

  /** How one connection ends. */
  datatype Outcome =
    | Ignored                     // blank payload
    | Shutdown                    // the die flag: the server is shut down
    | Handled(events: seq<Event>) // every token processed
    | Raised(events: seq<Event>)  // an unbound `file_paths` raised after these events

  function DispatchOptions(s: Settings): Options {
    Options(!s.createIfMissing, s.openDirectoryContents, s.openDirectoryRecursively)
  }

  /**
   * The tokens after suffix extraction and mapping. `org_paths` is the same
   * list as `paths`, which is rewritten in place, so the origin reported for
   * each request is its mapped path.
   */
  function Requests(tokens: seq<string>, pathMaps: PathMaps): seq<Request> {
    seq(|tokens|, i requires 0 <= i < |tokens| =>
      var t := SplitLineSuffix(tokens[i]);
      var mapped := RemoteToLocal(t.path, pathMaps);
      Request(mapped, t.lineSuffix, mapped))
  }

  /** What `handle` does with the decoded payload `data`. */
  function HandleSpec(data: string, s: Settings, fs: Fs): Outcome {
    if IsBlank(data) then Ignored
    else if data == s.dieFlag then Shutdown
    else
      var f := Process(Requests(Split(data, CR), s.pathMaps), fs, DispatchOptions(s), None);
      if f.raised then Raised(f.events) else Handled(f.events)
  }

  /** The arrays left by the suffix and mapping loops hold exactly the requests of the tokens. */
  lemma GatherIsRequests(tokens: seq<string>, pathMaps: PathMaps, cut: seq<string>, mapped: seq<string>,
                         lineNos: seq<string>)
    requires |cut| == |mapped| == |lineNos| == |tokens|
    requires forall k :: 0 <= k < |tokens| ==>
      cut[k] == SplitLineSuffix(tokens[k]).path && lineNos[k] == SplitLineSuffix(tokens[k]).lineSuffix
    requires forall k :: 0 <= k < |tokens| ==> mapped[k] == RemoteToLocal(cut[k], pathMaps)
    ensures Gather(mapped, lineNos, mapped) == Requests(tokens, pathMaps)
  {
  }

  /** The mapping loop of `handle`: each path is replaced by its local path. */
  method MapPaths(paths: array<string>, pathMaps: PathMaps)
    modifies paths
    ensures forall k :: 0 <= k < paths.Length ==> paths[k] == RemoteToLocal(old(paths[k]), pathMaps)
  {
    var i := 0;
    while i < paths.Length
      invariant 0 <= i <= paths.Length
      invariant forall k :: 0 <= k < i ==> paths[k] == RemoteToLocal(old(paths[k]), pathMaps)
      invariant forall k :: i <= k < paths.Length ==> paths[k] == old(paths[k])
    {
      paths[i] := RemoteToLocal(paths[i], pathMaps);
      i := i + 1;
    }
  }

  /**
   * The suffix and mapping loops of `handle`, over a fresh `paths` array
   * holding the tokens: the result holds exactly the requests of the tokens.
   */
  method PreparePaths(tokens: seq<string>, pathMaps: PathMaps) returns (paths: array<string>, lineNos: seq<string>)
    ensures fresh(paths) && paths.Length == |lineNos| == |tokens|
    ensures Gather(paths[..], lineNos, paths[..]) == Requests(tokens, pathMaps)
  {
    paths := new string[|tokens|](k requires 0 <= k < |tokens| => tokens[k]);
    lineNos := ExtractLineSuffixes(paths);
    ghost var cut := paths[..];
    MapPaths(paths, pathMaps);
    GatherIsRequests(tokens, pathMaps, cut, paths[..], lineNos);
  }

  /**
   * `handle` after the payload is decoded: the blank and die-flag checks,
   * suffix extraction and mapping in place over `paths` (which `org_paths`
   * aliases), then the dispatch loop with `file_paths` initially unbound.
   */
  method Handle(data: string, s: Settings, fs: Fs) returns (outcome: Outcome)
    ensures outcome == HandleSpec(data, s, fs)
    ensures IsBlank(data) ==> outcome == Ignored
    ensures !IsBlank(data) && data == s.dieFlag ==> outcome == Shutdown
  {
    if IsBlank(data) {
      return Ignored;
    }
    if data == s.dieFlag {
      return Shutdown;
    }
    var tokens := Split(data, CR);
    var paths, lineNos := PreparePaths(tokens, s.pathMaps);
    var orgPaths := paths;
    var flow := Dispatch(paths, orgPaths, lineNos, fs, DispatchOptions(s), None);
    outcome := if flow.raised then Raised(flow.events) else Handled(flow.events);
  }

  /** The events an outcome reports, in order; none for a blank payload or a shutdown. */
  function EventsOf(outcome: Outcome): seq<Event> {
    match outcome
    case Ignored => []
    case Shutdown => []
    case Handled(events) => events
    case Raised(events) => events
  }

  /**
   * When every token names a plain file (or a missing path that is opened
   * anyway), each token is opened exactly once, in order, as its mapped path
   * followed by its line suffix.
   */
  lemma AllFilesHandled(data: string, s: Settings, fs: Fs)
    requires !IsBlank(data) && data != s.dieFlag
    requires AllOpenAsFiles(Requests(Split(data, CR), s.pathMaps), fs, DispatchOptions(s))
    ensures HandleSpec(data, s, fs) == Handled(OpenEvents(Requests(Split(data, CR), s.pathMaps)))
  {
    AllFilesOpenOnce(Requests(Split(data, CR), s.pathMaps), fs, DispatchOptions(s), None);
  }

  /** The events of a payload that is neither blank nor the die flag are those of its dispatch. */
  lemma HandleEvents(data: string, s: Settings, fs: Fs)
    requires !IsBlank(data) && data != s.dieFlag
    ensures EventsOf(HandleSpec(data, s, fs)) ==
      Process(Requests(Split(data, CR), s.pathMaps), fs, DispatchOptions(s), None).events
  {
  }

  /**
   * Because `org_paths` aliases `paths`, which is rewritten in place, a
   * "does not exist" notice names the mapped path twice, and every notice and
   * open reports the mapped path of some token as its origin, not the token
   * as it was received.
   */
  lemma OriginIsMappedPath(data: string, s: Settings, fs: Fs)
    ensures forall e :: e in EventsOf(HandleSpec(data, s, fs)) && e.NotFound? ==> e.from == e.path
    ensures var reqs := Requests(Split(data, CR), s.pathMaps);
      forall e :: e in EventsOf(HandleSpec(data, s, fs)) && !e.DirIgnored? ==>
        exists i :: 0 <= i < |reqs| && e.from == reqs[i].mapped
  {
    if !IsBlank(data) && data != s.dieFlag {
      var reqs := Requests(Split(data, CR), s.pathMaps);
      HandleEvents(data, s, fs);
      EventsComeFromRequests(reqs, fs, DispatchOptions(s), None);
      assert forall i :: 0 <= i < |reqs| ==> reqs[i].from == reqs[i].mapped;
    }
  }

  lemma ExampleSplit()
    ensures Split("/p/f:3\r/p/d", CR) == ["/p/f:3", "/p/d"]
  {
    var parts := ["/p/f:3", "/p/d"];
    assert parts[1..] == ["/p/d"];
    assert Join(parts, CR) == "/p/f:3\r/p/d";
    SplitJoin(parts, CR);
  }

  lemma ExampleRequests()
    ensures Requests(["/p/f:3", "/p/d"], []) == [Request("/p/f", ":3", "/p/f"), Request("/p/d", "", "/p/d")]
  {
    DigitTailColon("/p/f:3", 4);
    assert SplitLineSuffix("/p/f:3") == Suffixed("/p/f", ":3");
    assert LastIndexOf("/p/d", ':') == -1;
    NormalizeIdentity("/p/f");
    NormalizeIdentity("/p/d");
  }

  /**
   * The stale `file_paths`: with a plain file `/p/f`, a directory `/p/d` and
   * directory opening switched off, the payload `/p/f:3` CR `/p/d` opens the
   * file, then names the directory as ignored and opens the file again,
   * reporting the directory as its origin.
   */
  lemma StaleFilePathsReopened(data: string, s: Settings, fs: Fs)
    requires data == "/p/f:3\r/p/d"
    requires s.pathMaps == [] && !s.openDirectoryContents && s.dieFlag != data
    requires "/p/f" in fs && fs["/p/f"].File? && IsDir(fs, "/p/d")
    ensures HandleSpec(data, s, fs) ==
      Handled([Open("/p/f:3", "/p/f"), DirIgnored("/p/d"), Open("/p/f:3", "/p/d")])
  {
    assert !IsSpace(data[0]);
    StaleRequests(data, s.pathMaps);
    var reqs := [Request("/p/f", ":3", "/p/f"), Request("/p/d", "", "/p/d")];
    StaleDispatch(fs, DispatchOptions(s));
    var f := Process(reqs, fs, DispatchOptions(s), None);
    assert !f.raised && f.events == [Open("/p/f:3", "/p/f"), DirIgnored("/p/d"), Open("/p/f:3", "/p/d")];
  }

  lemma StaleRequests(data: string, pathMaps: PathMaps)
    requires data == "/p/f:3\r/p/d" && pathMaps == []
    ensures Requests(Split(data, CR), pathMaps) == [Request("/p/f", ":3", "/p/f"), Request("/p/d", "", "/p/d")]
  {
    ExampleSplit();
    ExampleRequests();
  }

  lemma StaleDispatch(fs: Fs, o: Options)
    requires !o.openContents && "/p/f" in fs && fs["/p/f"].File? && IsDir(fs, "/p/d")
    ensures Process([Request("/p/f", ":3", "/p/f"), Request("/p/d", "", "/p/d")], fs, o, None) ==
      Flow([Open("/p/f:3", "/p/f"), DirIgnored("/p/d"), Open("/p/f:3", "/p/d")], Some(["/p/f:3"]), false)
  {
    var r0, r1 := Request("/p/f", ":3", "/p/f"), Request("/p/d", "", "/p/d");
    ProcessSnoc([], r0, fs, o, None);
    StepFile(r0, fs, o, None);
    assert "/p/f" + ":3" == "/p/f:3";
    var f0 := Process([r0], fs, o, None);
    assert f0 == Flow([Open("/p/f:3", "/p/f")], Some(["/p/f:3"]), false);
    ProcessSnoc([r0], r1, fs, o, None);
    StepDirectoryDisabled(r1, fs, o, f0.filePaths);
    assert [r0] + [r1] == [r0, r1];
  }

  /**
   * With no earlier target, a directory that may not be expanded leaves
   * `file_paths` unbound and the handler raises after the notice.
   */
  lemma UnboundFilePathsRaises(s: Settings, fs: Fs)
    requires s.pathMaps == [] && !s.openDirectoryContents && s.dieFlag != "/p/d"
    requires IsDir(fs, "/p/d")
    ensures HandleSpec("/p/d", s, fs) == Raised([DirIgnored("/p/d")])
  {
    var data := "/p/d";
    assert !IsSpace(data[0]);
    assert Split(data, CR) == [data];
    assert LastIndexOf(data, ':') == -1;
    NormalizeIdentity(data);
    var r := Request(data, "", data);
    assert Requests([data], []) == [r];
    var o := DispatchOptions(s);
    assert [r][..0] == [];
    assert Step(r, fs, o, None) == Flow([DirIgnored(data)], None, true);
    assert Process([r], fs, o, None) == Flow([DirIgnored(data)], None, true);
  }

  /** A payload that is one plain path, with no mapping, is one request for that path. */
  lemma PlainToken(p: string)
    requires CR !in p && ':' !in p && '\\' !in p
    ensures Requests(Split(p, CR), []) == [Request(p, "", p)]
  {
    assert Split(p, CR) == [p];
    assert LastIndexOf(p, ':') == -1;
    NormalizeIdentity(p);
  }

  /** Under the default settings a directory is expanded without recursion. */
  lemma DefaultDirectoryExpanded(fs: Fs)
    requires IsDir(fs, "/p/d")
    ensures HandleSpec("/p/d", Defaults, fs) == Handled(Opens(FilePaths(fs, "/p/d", false), "/p/d"))
  {
    var d := "/p/d";
    var r := Request(d, "", d);
    var o := DispatchOptions(Defaults);
    assert !IsSpace(d[0]);
    PlainToken(d);
    ProcessSnoc([], r, fs, o, None);
    StepDirectory(r, fs, o, None);
  }

  /** Under the default settings `create_if_missing` holds, so a missing path is opened anyway. */
  lemma DefaultMissingOpened(fs: Fs)
    requires "/p/n" !in fs
    ensures HandleSpec("/p/n", Defaults, fs) == Handled([Open("/p/n", "/p/n")])
  {
    var n := "/p/n";
    var r := Request(n, "", n);
    var o := DispatchOptions(Defaults);
    assert !IsSpace(n[0]);
    PlainToken(n);
    ProcessSnoc([], r, fs, o, None);
    StepFile(r, fs, o, None);
    assert n + "" == n;
  }
}
