/**
 * The older listener of `RemoteOpen.py`: its `remote_to_local`, which applies
 * every matching pair in turn, and the processing of each accepted
 * connection inside `_listen`. `file_paths` is a local of `_listen`, so it
 * keeps its value from one connection to the next, and an exception there is
 * not caught, which ends the listening loop.
 */
module RemoteOpenListener {
  import opened Wrappers
  import opened Text
  import opened Wire
  import opened FileSystem
  import opened Targets
  import Server = RemoteOpenServer

  type PathMaps = seq<(string, string)>

  /** One pass of the mapping loop: a pair whose raw remote prefix starts the raw path rewrites it. */
  function ApplyPair(path: string, pair: (string, string)): string {
    if StartsWith(path, pair.0) then Graft(pair.1, Normalize(path[|pair.0|..])) else path
  }

  /** The mapping loop: every pair in order, each seeing the output of the ones before. */
  function ApplyAll(path: string, pathMaps: PathMaps): string
    decreases |pathMaps|
  {
    if pathMaps == [] then path else ApplyAll(ApplyPair(path, pathMaps[0]), pathMaps[1..])
  }

  /** `remote_to_local(path)` with `path_maps` passed in: the loop, then slash normalisation. */
  function RemoteToLocal(path: string, pathMaps: PathMaps): (r: string)
    ensures '\\' !in r
  {
    Normalize(ApplyAll(path, pathMaps))
  }

  /**
   * There is no `break`: a pair added at the end is applied to the result of
   * all the pairs before it, whether or not any of them matched.
   */
  lemma {:induction false} EveryPairApplied(path: string, pathMaps: PathMaps, pair: (string, string))
    ensures ApplyAll(path, pathMaps + [pair]) == ApplyPair(ApplyAll(path, pathMaps), pair)
    decreases |pathMaps|
  {
    if pathMaps != [] {
      assert (pathMaps + [pair])[1..] == pathMaps[1..] + [pair];
      EveryPairApplied(ApplyPair(path, pathMaps[0]), pathMaps[1..], pair);
    }
  }

  /**
   * When no raw remote prefix starts the raw path, the result is the path
   * with its backslashes turned into slashes.
   */
  lemma {:induction false} NoPairMatches(path: string, pathMaps: PathMaps)
    requires forall j :: 0 <= j < |pathMaps| ==> !StartsWith(path, pathMaps[j].0)
    ensures RemoteToLocal(path, pathMaps) == Normalize(path)
  {
    NoPairChanges(path, pathMaps);
  }

  lemma {:induction false} NoPairChanges(path: string, pathMaps: PathMaps)
    requires forall j :: 0 <= j < |pathMaps| ==> !StartsWith(path, pathMaps[j].0)
    ensures ApplyAll(path, pathMaps) == path
    decreases |pathMaps|
  {
    if pathMaps != [] {
      assert !StartsWith(path, pathMaps[0].0);
      NoPairChanges(path, pathMaps[1..]);
    }
  }

  /**
   * The two mappers differ on chained pairs: with `/a -> /b` then `/b -> /c`,
   * `/a/x` goes on to `/c/x` here but stops at `/b/x` in `remote_open.py`.
   */
  lemma ChainedPairs(path: string, pathMaps: PathMaps)
    requires path == "/a/x" && pathMaps == [("/a", "/b"), ("/b", "/c")]
    ensures RemoteToLocal(path, pathMaps) == "/c/x"
    ensures Server.RemoteToLocal(path, pathMaps) == "/b/x"
  {
    assert path[..2] == "/a";
    assert path[2..] == "/x";
    NormalizeIdentity("/x");
    assert Graft("/b", "/x") == "/b/x";
    assert ApplyPair(path, pathMaps[0]) == "/b/x";
    var mid := "/b/x";
    assert mid[..2] == "/b";
    assert mid[2..] == "/x";
    assert Graft("/c", "/x") == "/c/x";
    assert ApplyPair(mid, pathMaps[1]) == "/c/x";
    var rest := pathMaps[1..];
    assert rest[0] == pathMaps[1] && rest[1..] == [];
    assert ApplyAll(mid, rest) == ApplyAll("/c/x", []);
    assert ApplyAll(path, pathMaps) == ApplyAll(mid, rest);
    NormalizeIdentity("/c/x");
    NormalizeIdentity(path);
    NormalizeIdentity("/a");
    assert Server.Hits(path, pathMaps[0]);
    Server.FirstMatchWins(path, pathMaps, 0);
  }

  /**
   * The prefix test sees the raw path: a Windows-style path does not match a
   * slash-written remote prefix here, but does in `remote_open.py`, which
   * normalises both sides first.
   */
  lemma RawPrefixTest(path: string, pathMaps: PathMaps)
    requires path == "C:\\p\\a" && pathMaps == [("C:/p", "/m")]
    ensures RemoteToLocal(path, pathMaps) == "C:/p/a"
    ensures Server.RemoteToLocal(path, pathMaps) == "/m/a"
  {
    assert path[2] == '\\';
    assert !StartsWith(path, pathMaps[0].0);
    NoPairMatches(path, pathMaps);
    var n := Normalize(path);
    assert n == "C:/p/a";
    NormalizeIdentity("C:/p");
    NormalizeIdentity("/m");
    assert n[..4] == "C:/p";
    assert Server.Hits(path, pathMaps[0]);
    Server.FirstMatchWins(path, pathMaps, 0);
    assert n[4..] == "/a";
    assert Graft("/m", "/a") == "/m/a";
  }

  /** The settings `_listen` reads; there is no die flag and no `create_if_missing`. */
  datatype Settings = Settings(pathMaps: PathMaps, openDirectoryContents: bool, openDirectoryRecursively: bool)

  const Defaults := Settings([], true, false)

  /** A missing path is always skipped. */
  function DispatchOptions(s: Settings): Options {
    Options(true, s.openDirectoryContents, s.openDirectoryRecursively)
  }

  /** The tokens after suffix extraction and mapping; `org_paths` aliases `paths` here too. */
  function Requests(tokens: seq<string>, pathMaps: PathMaps): seq<Request> {
    seq(|tokens|, i requires 0 <= i < |tokens| =>
      var t := SplitLineSuffix(tokens[i]);
      var mapped := RemoteToLocal(t.path, pathMaps);
      Request(mapped, t.lineSuffix, mapped))
  }

  /** What one connection with payload `args` does, given the `file_paths` left by earlier connections. */
  function ConnectionSpec(args: string, s: Settings, fs: Fs, carried: Option<seq<string>>): Flow {
    Process(Requests(Split(args, CR), s.pathMaps), fs, DispatchOptions(s), carried)
  }

  /** The arrays left by the suffix and mapping loops hold exactly the requests of the tokens. */
  lemma GatherIsRequests(tokens: seq<string>, pathMaps: PathMaps, cut: seq<string>, mapped: seq<string>,
                         lineNos: seq<string>)
    requires |cut| == |mapped| == |lineNos| == |tokens|
    requires forall k :: 0 <= k < |tokens| ==>
      cut[k] == SplitLineSuffix(tokens[k]).path && lineNos[k] == SplitLineSuffix(tokens[k]).lineSuffix
    requires forall k :: 0 <= k < |tokens| ==> mapped[k] == RemoteToLocal(cut[k], pathMaps)
    ensures Gather(mapped, lineNos, mapped) == Requests(tokens, pathMaps)
  {
  }

  /** The mapping loop of `_listen`: each path is replaced by its local path. */
  method MapPaths(paths: array<string>, pathMaps: PathMaps)
    modifies paths
    ensures forall k :: 0 <= k < paths.Length ==> paths[k] == RemoteToLocal(old(paths[k]), pathMaps)
  {
    var i := 0;
    while i < paths.Length
      invariant 0 <= i <= paths.Length
      invariant forall k :: 0 <= k < i ==> paths[k] == RemoteToLocal(old(paths[k]), pathMaps)
      invariant forall k :: i <= k < paths.Length ==> paths[k] == old(paths[k])
    {
      paths[i] := RemoteToLocal(paths[i], pathMaps);
      i := i + 1;
    }
  }

  /**
   * The suffix and mapping loops of `_listen`, over a fresh `paths` array
   * holding the tokens: the result holds exactly the requests of the tokens.
   */
  method PreparePaths(tokens: seq<string>, pathMaps: PathMaps) returns (paths: array<string>, lineNos: seq<string>)
    ensures fresh(paths) && paths.Length == |lineNos| == |tokens|
    ensures Gather(paths[..], lineNos, paths[..]) == Requests(tokens, pathMaps)
  {
    paths := new string[|tokens|](k requires 0 <= k < |tokens| => tokens[k]);
    lineNos := ExtractLineSuffixes(paths);
    ghost var cut := paths[..];
    MapPaths(paths, pathMaps);
    GatherIsRequests(tokens, pathMaps, cut, paths[..], lineNos);
  }

  /**
   * The body of the `_listen` loop for one accepted connection, after the
   * payload is decoded: no blank or die-flag check, suffix extraction and
   * mapping in place, then the dispatch loop starting from `carried`.
   */
  method ProcessConnection(args: string, s: Settings, fs: Fs, carried: Option<seq<string>>)
    returns (flow: Flow)
    ensures flow == ConnectionSpec(args, s, fs, carried)
  {
    var tokens := Split(args, CR);
    var paths, lineNos := PreparePaths(tokens, s.pathMaps);
    var orgPaths := paths;
    flow := Dispatch(paths, orgPaths, lineNos, fs, DispatchOptions(s), carried);
  }

  /**
   * A listening session over the payloads of successive connections:
   * `file_paths` starts unbound and carries over, and the first exception
   * ends the session.
   */
  function SessionSpec(payloads: seq<string>, s: Settings, fs: Fs): Flow {
    if payloads == [] then Flow([], None, false)
    else
      var before := SessionSpec(payloads[..|payloads| - 1], s, fs);
      if before.raised then before
      else
        var c := ConnectionSpec(payloads[|payloads| - 1], s, fs, before.filePaths);
        Flow(before.events + c.events, c.filePaths, c.raised)
  }

  lemma {:induction false} SessionRaisedIsFinal(payloads: seq<string>, i: nat, s: Settings, fs: Fs)
    requires i <= |payloads|
    requires SessionSpec(payloads[..i], s, fs).raised
    ensures SessionSpec(payloads, s, fs) == SessionSpec(payloads[..i], s, fs)
    decreases |payloads| - i
  {
    if i < |payloads| {
      assert payloads[..|payloads| - 1][..i] == payloads[..i];
      SessionRaisedIsFinal(payloads[..|payloads| - 1], i, s, fs);
    } else {
      assert payloads[..i] == payloads;
    }
  }

  /**
   * The `while LISTEN` loop of `_listen` over the payloads it receives, one
   * connection each, with `file_paths` kept between iterations; an uncaught
   * exception ends the loop and the listening thread.
   */
  method Serve(payloads: seq<string>, s: Settings, fs: Fs) returns (session: Flow)
    ensures session == SessionSpec(payloads, s, fs)
  {
    var events: seq<Event> := [];
    var filePaths: Option<seq<string>> := None;
    var c := 0;
    while c < |payloads|
      invariant 0 <= c <= |payloads|
      invariant SessionSpec(payloads[..c], s, fs) == Flow(events, filePaths, false)
    {
      assert payloads[..c + 1][..c] == payloads[..c];
      var flow := ProcessConnection(payloads[c], s, fs, filePaths);
      events := events + flow.events;
      filePaths := flow.filePaths;
      if flow.raised {
        SessionRaisedIsFinal(payloads, c + 1, s, fs);
        return Flow(events, filePaths, true);
      }
      c := c + 1;
    }
    assert payloads[..c] == payloads;
    return Flow(events, filePaths, false);
  }

  /** The requests of all payloads, in order. */
  function AllRequests(payloads: seq<string>, pathMaps: PathMaps): seq<Request> {
    if payloads == [] then []
    else AllRequests(payloads[..|payloads| - 1], pathMaps) + Requests(Split(payloads[|payloads| - 1], CR), pathMaps)
  }

  /**
   * Because `file_paths` outlives each connection, a session behaves as one
   * request made of the tokens of all its payloads.
   */
  lemma {:induction false} SessionIsOneRequest(payloads: seq<string>, s: Settings, fs: Fs)
    ensures SessionSpec(payloads, s, fs) ==
      Process(AllRequests(payloads, s.pathMaps), fs, DispatchOptions(s), None)
  {
    if payloads != [] {
      var init := payloads[..|payloads| - 1];
      SessionIsOneRequest(init, s, fs);
      ProcessConcat(AllRequests(init, s.pathMaps), Requests(Split(payloads[|payloads| - 1], CR), s.pathMaps),
                    fs, DispatchOptions(s), None);
    }
  }

  lemma RequestsAliased(tokens: seq<string>, pathMaps: PathMaps)
    ensures var reqs := Requests(tokens, pathMaps);
      forall i :: 0 <= i < |reqs| ==> reqs[i].from == reqs[i].mapped
  {
  }

  /**
   * As in `handle`, `org_paths` aliases the rewritten `paths`: a notice for a
   * missing path names the mapped path as its origin, and every open and
   * notice reports the mapped path of some token.
   */
  lemma ConnectionOriginIsMappedPath(args: string, s: Settings, fs: Fs, carried: Option<seq<string>>)
    ensures forall e :: e in ConnectionSpec(args, s, fs, carried).events && e.NotFound? ==> e.from == e.path
  {
    var reqs := Requests(Split(args, CR), s.pathMaps);
    RequestsAliased(Split(args, CR), s.pathMaps);
    AliasedOrigins(reqs, fs, DispatchOptions(s), carried);
  }

  /** The local path each token of `args` maps to, once its line suffix is split off. */
  function MappedPaths(args: string, pathMaps: PathMaps): (r: seq<string>)
    ensures |r| == |Split(args, CR)|
  {
    var tokens := Split(args, CR);
    seq(|tokens|, i requires 0 <= i < |tokens| => RemoteToLocal(SplitLineSuffix(tokens[i]).path, pathMaps))
  }

  lemma ConnectionOriginsAreMapped(args: string, s: Settings, fs: Fs, carried: Option<seq<string>>)
    ensures forall e :: e in ConnectionSpec(args, s, fs, carried).events && !e.DirIgnored? ==>
      e.from in MappedPaths(args, s.pathMaps)
  {
    var reqs := Requests(Split(args, CR), s.pathMaps);
    var mapped := MappedPaths(args, s.pathMaps);
    EventsComeFromRequests(reqs, fs, DispatchOptions(s), carried);
    forall e | e in ConnectionSpec(args, s, fs, carried).events && !e.DirIgnored?
      ensures e.from in mapped
    {
      var i :| 0 <= i < |reqs| && e.from == reqs[i].from;
      assert e.from == mapped[i];
    }
  }

  /** A path that does not exist after mapping gets a notice and no open, whatever the settings. */
  lemma MissingAlwaysSkipped(r: Request, s: Settings, fs: Fs, prior: Option<seq<string>>)
    requires r.mapped !in fs
    ensures Step(r, fs, DispatchOptions(s), prior).events == [NotFound(r.mapped, r.from)]
  {
    StepMissing(r, fs, DispatchOptions(s), prior);
  }

  /** A payload that is one plain path, with no mapping, is one request for that path. */
  lemma PlainToken(p: string)
    requires CR !in p && ':' !in p && '\\' !in p
    ensures Requests(Split(p, CR), []) == [Request(p, "", p)]
  {
    assert Split(p, CR) == [p];
    var t := SplitLineSuffix(p);
    assert LastIndexOf(p, ':') == -1;
    assert t.path == p && t.lineSuffix == "";
    NormalizeIdentity(p);
    assert RemoteToLocal(p, []) == p;
  }

  lemma FirstConnectionOpensFile(payloads: seq<string>, s: Settings, fs: Fs)
    requires payloads == ["/p/f"]
    requires s.pathMaps == [] && "/p/f" in fs && fs["/p/f"].File?
    ensures SessionSpec(payloads, s, fs) == Flow([Open("/p/f", "/p/f")], Some(["/p/f"]), false)
  {
    FileConnectionOpensIt("/p/f", s, fs);
    assert payloads[..0] == [];
  }

  lemma FileConnectionOpensIt(f: string, s: Settings, fs: Fs)
    requires f == "/p/f" && s.pathMaps == [] && f in fs && fs[f].File?
    ensures ConnectionSpec(f, s, fs, None) == Flow([Open(f, f)], Some([f]), false)
  {
    var rf := Request(f, "", f);
    PlainToken(f);
    ProcessSnoc([], rf, fs, DispatchOptions(s), None);
    StepFile(rf, fs, DispatchOptions(s), None);
    assert f + "" == f;
  }

  /**
   * `file_paths` carries over between connections: after a connection that
   * opened `/p/f`, a connection naming a directory that may not be expanded
   * opens `/p/f` again.
   */
  lemma CarriedAcrossConnections(payloads: seq<string>, s: Settings, fs: Fs)
    requires payloads == ["/p/f", "/p/d"]
    requires s.pathMaps == [] && !s.openDirectoryContents
    requires "/p/f" in fs && fs["/p/f"].File? && IsDir(fs, "/p/d")
    ensures SessionSpec(payloads, s, fs).events ==
      [Open("/p/f", "/p/f"), DirIgnored("/p/d"), Open("/p/f", "/p/d")]
  {
    var f, d := "/p/f", "/p/d";
    assert payloads[..1] == [f];
    FirstConnectionOpensFile(payloads[..1], s, fs);
    SecondConnectionReopens(d, s, fs);
    var c := ConnectionSpec(d, s, fs, Some([f]));
    assert c.events == [DirIgnored(d), Open(f, d)];
  }

  lemma SecondConnectionReopens(d: string, s: Settings, fs: Fs)
    requires d == "/p/d" && s.pathMaps == [] && !s.openDirectoryContents && IsDir(fs, d)
    ensures ConnectionSpec(d, s, fs, Some(["/p/f"])) == Flow([DirIgnored(d), Open("/p/f", d)], Some(["/p/f"]), false)
  {
    var rd := Request(d, "", d);
    var o := DispatchOptions(s);
    PlainToken(d);
    ProcessSnoc([], rd, fs, o, Some(["/p/f"]));
    StepDirectoryDisabled(rd, fs, o, Some(["/p/f"]));
  }

  /** Under the default settings a directory is expanded without recursion and becomes `file_paths`. */
  lemma DefaultDirectoryExpanded(fs: Fs)
    requires IsDir(fs, "/p/d")
    ensures ConnectionSpec("/p/d", Defaults, fs, None) ==
      Flow(Opens(FilePaths(fs, "/p/d", false), "/p/d"), Some(FilePaths(fs, "/p/d", false)), false)
  {
    var d := "/p/d";
    var r := Request(d, "", d);
    var o := DispatchOptions(Defaults);
    PlainToken(d);
    ProcessSnoc([], r, fs, o, None);
    StepDirectory(r, fs, o, None);
  }
}
