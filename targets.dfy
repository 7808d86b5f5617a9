/**
 * What both listeners do with the requests of one payload once their paths
 * are mapped: for each request, in order, either skip it with a notice or
 * open its targets. The Python variable `file_paths` is assigned only in
 * some branches and keeps its value between iterations; it is modelled as an
 * `Option` that one request hands to the next, and reading it while still
 * unbound raises.
 */
module Targets {
  import opened Wrappers
  import opened FileSystem

  /** What the host editor is asked to do or show. */
  datatype Event =
    | Open(path: string, from: string)     // "Opening file <path> from <from>", then open_file(path)
    | NotFound(path: string, from: string) // "Path <path> from <from> does not exist"
    | DirIgnored(path: string)             // "Not configured to open directories, so <path> ignored."

  /**
   * One decoded path token: the mapped local path, its line suffix, and the
   * value the listener reports as the request's origin.
   */
  datatype Request = Request(mapped: string, lineSuffix: string, from: string)

  /** The settings that steer the dispatch. */
  datatype Options = Options(skipMissing: bool, openContents: bool, recursive: bool)

  /**
   * The state after some requests: the events so far, the value of
   * `file_paths` (None while unbound), and whether an exception was raised.
   */
  datatype Flow = Flow(events: seq<Event>, filePaths: Option<seq<string>>, raised: bool)

  /** One `Open` event per target, in order. */
  function Opens(targets: seq<string>, from: string): (r: seq<Event>)
    ensures |r| == |targets|
    ensures forall i :: 0 <= i < |r| ==> r[i] == Open(targets[i], from)
  {
    seq(|targets|, i requires 0 <= i < |targets| => Open(targets[i], from))
  }

  /** The loop body for one request, given the `file_paths` left by earlier ones. */
  function Step(r: Request, fs: Fs, o: Options, prior: Option<seq<string>>): Flow {
    if r.mapped !in fs && o.skipMissing then
      Flow([NotFound(r.mapped, r.from)], prior, false)
    else if IsDir(fs, r.mapped) then
      if o.openContents then
        var expanded := FilePaths(fs, r.mapped, o.recursive);
        Flow(Opens(expanded, r.from), Some(expanded), false)
      else
        match prior
        case None => Flow([DirIgnored(r.mapped)], None, true)
        case Some(stale) => Flow([DirIgnored(r.mapped)] + Opens(stale, r.from), prior, false)
    else
      var single := [r.mapped + r.lineSuffix];
      Flow(Opens(single, r.from), Some(single), false)
  }

  /** The requests processed in order; the first exception ends the processing. */
  function Process(reqs: seq<Request>, fs: Fs, o: Options, prior: Option<seq<string>>): Flow {
    if reqs == [] then Flow([], prior, false)
    else
      var before := Process(reqs[..|reqs| - 1], fs, o, prior);
      if before.raised then before
      else
        var last := Step(reqs[|reqs| - 1], fs, o, before.filePaths);
        Flow(before.events + last.events, last.filePaths, last.raised)
  }

  /** Processing one more request extends the processing of the ones before it. */
  lemma ProcessSnoc(reqs: seq<Request>, r: Request, fs: Fs, o: Options, prior: Option<seq<string>>)
    ensures var before := Process(reqs, fs, o, prior);
      var step := Step(r, fs, o, before.filePaths);
      Process(reqs + [r], fs, o, prior) ==
        if before.raised then before else Flow(before.events + step.events, step.filePaths, step.raised)
  {
    assert (reqs + [r])[..|reqs|] == reqs;
  }

  /**
   * Processing `a + b` is processing `a`, then `b` from the `file_paths`
   * that `a` left, unless `a` raised.
   */
  lemma ProcessConcat(a: seq<Request>, b: seq<Request>, fs: Fs, o: Options, prior: Option<seq<string>>)
    ensures var fa := Process(a, fs, o, prior);
      var fb := Process(b, fs, o, fa.filePaths);
      Process(a + b, fs, o, prior) ==
        if fa.raised then fa else Flow(fa.events + fb.events, fb.filePaths, fb.raised)
  {
    if Process(a, fs, o, prior).raised {
      assert (a + b)[..|a|] == a;
      RaisedIsFinal(a + b, |a|, fs, o, prior);
    } else {
      ProcessConcatLive(a, b, fs, o, prior);
    }
  }

  /** `Process` with the per-request step passed in, so that facts about the loop need not look into a step. */
  function Fold(reqs: seq<Request>, step: (Request, Option<seq<string>>) -> Flow, prior: Option<seq<string>>): Flow {
    if reqs == [] then Flow([], prior, false)
    else
      var before := Fold(reqs[..|reqs| - 1], step, prior);
      if before.raised then before
      else
        var last := step(reqs[|reqs| - 1], before.filePaths);
        Flow(before.events + last.events, last.filePaths, last.raised)
  }

  function StepOf(fs: Fs, o: Options): (Request, Option<seq<string>>) -> Flow {
    (r, p) => Step(r, fs, o, p)
  }

  lemma {:induction false} ProcessIsFold(reqs: seq<Request>, fs: Fs, o: Options, prior: Option<seq<string>>)
    ensures Process(reqs, fs, o, prior) == Fold(reqs, StepOf(fs, o), prior)
  {
    if reqs != [] {
      ProcessIsFold(reqs[..|reqs| - 1], fs, o, prior);
    }
  }

  lemma {:induction false} FoldConcatLive(a: seq<Request>, b: seq<Request>,
                                          step: (Request, Option<seq<string>>) -> Flow, prior: Option<seq<string>>)
    requires !Fold(a, step, prior).raised
    ensures var fa := Fold(a, step, prior);
      var fb := Fold(b, step, fa.filePaths);
      Fold(a + b, step, prior) == Flow(fa.events + fb.events, fb.filePaths, fb.raised)
    decreases |b|
  {
    var fa := Fold(a, step, prior);
    if b == [] {
      assert a + b == a;
      assert fa.events + [] == fa.events;
    } else {
      var init, last := b[..|b| - 1], b[|b| - 1];
      var fi := Fold(init, step, fa.filePaths);
      FoldConcatLive(a, init, step, prior);
      assert (a + b)[..|a + b| - 1] == a + init;
      assert b[..|b| - 1] == init;
      if !fi.raised {
        var st := step(last, fi.filePaths);
        assert (fa.events + fi.events) + st.events == fa.events + (fi.events + st.events);
      }
    }
  }

  lemma ProcessConcatLive(a: seq<Request>, b: seq<Request>, fs: Fs, o: Options, prior: Option<seq<string>>)
    requires !Process(a, fs, o, prior).raised
    ensures var fa := Process(a, fs, o, prior);
      var fb := Process(b, fs, o, fa.filePaths);
      Process(a + b, fs, o, prior) == Flow(fa.events + fb.events, fb.filePaths, fb.raised)
  {
    var fa := Process(a, fs, o, prior);
    ProcessIsFold(a, fs, o, prior);
    ProcessIsFold(b, fs, o, fa.filePaths);
    ProcessIsFold(a + b, fs, o, prior);
    FoldConcatLive(a, b, StepOf(fs, o), prior);
  }

  /** A missing path, when missing paths are skipped, yields one notice and no open. */
  lemma StepMissing(r: Request, fs: Fs, o: Options, prior: Option<seq<string>>)
    requires r.mapped !in fs && o.skipMissing
    ensures var f := Step(r, fs, o, prior);
      f.events == [NotFound(r.mapped, r.from)] && f.filePaths == prior && !f.raised
  {
  }

  /**
   * A path that is not a directory, and exists or is opened regardless, is
   * opened exactly once, with its line suffix.
   */
  lemma StepFile(r: Request, fs: Fs, o: Options, prior: Option<seq<string>>)
    requires !IsDir(fs, r.mapped) && (r.mapped in fs || !o.skipMissing)
    ensures var f := Step(r, fs, o, prior);
      f.events == [Open(r.mapped + r.lineSuffix, r.from)] &&
      f.filePaths == Some([r.mapped + r.lineSuffix]) && !f.raised
  {
  }

  /**
   * An expanded directory opens each file of the expansion once, in order,
   * and none of them carries the request's line suffix; the expansion becomes
   * the new `file_paths`.
   */
  lemma StepDirectory(r: Request, fs: Fs, o: Options, prior: Option<seq<string>>)
    requires IsDir(fs, r.mapped) && o.openContents
    ensures Step(r, fs, o, prior).events == Opens(FilePaths(fs, r.mapped, o.recursive), r.from)
    ensures Step(r, fs, o, prior).filePaths == Some(FilePaths(fs, r.mapped, o.recursive))
    ensures !Step(r, fs, o, prior).raised
  {
  }

  /**
   * A directory that may not be expanded gets a notice and leaves
   * `file_paths` as it was; the targets of an earlier request are then opened
   * again, and with no earlier targets the unbound `file_paths` raises after
   * the notice alone.
   */
  lemma StepDirectoryDisabled(r: Request, fs: Fs, o: Options, prior: Option<seq<string>>)
    requires IsDir(fs, r.mapped) && !o.openContents
    ensures Step(r, fs, o, prior).filePaths == prior
    ensures Step(r, fs, o, prior).raised == prior.None?
    ensures Step(r, fs, o, prior).events ==
      [DirIgnored(r.mapped)] + (if prior.Some? then Opens(prior.value, r.from) else [])
  {
  }

  /** Once raised, later requests change nothing. */
  lemma {:induction false} RaisedIsFinal(reqs: seq<Request>, i: nat, fs: Fs, o: Options, prior: Option<seq<string>>)
    requires i <= |reqs|
    requires Process(reqs[..i], fs, o, prior).raised
    ensures Process(reqs, fs, o, prior) == Process(reqs[..i], fs, o, prior)
    decreases |reqs| - i
  {
    if i < |reqs| {
      assert reqs[..|reqs| - 1][..i] == reqs[..i];
      RaisedIsFinal(reqs[..|reqs| - 1], i, fs, o, prior);
    } else {
      assert reqs[..i] == reqs;
    }
  }

  /**
   * Once `file_paths` is bound it stays bound, so nothing is raised: only a
   * request that finds it still unbound can raise.
   */
  lemma {:induction false} BoundNeverRaises(reqs: seq<Request>, fs: Fs, o: Options, prior: Option<seq<string>>)
    requires prior.Some?
    ensures var f := Process(reqs, fs, o, prior); !f.raised && f.filePaths.Some?
  {
    if reqs != [] {
      BoundNeverRaises(reqs[..|reqs| - 1], fs, o, prior);
    }
  }

  /** A request whose mapped path is a plain file, or is missing but opened anyway. */
  predicate OpensAsFile(r: Request, fs: Fs, o: Options) {
    !IsDir(fs, r.mapped) && (r.mapped in fs || !o.skipMissing)
  }

  /** Every request opens as a file. */
  predicate AllOpenAsFiles(reqs: seq<Request>, fs: Fs, o: Options) {
    forall i :: 0 <= i < |reqs| ==> OpensAsFile(reqs[i], fs, o)
  }

  /** One open per request, in order: its mapped path with its line suffix, from its origin. */
  function OpenEvents(reqs: seq<Request>): seq<Event> {
    seq(|reqs|, i requires 0 <= i < |reqs| => Open(reqs[i].mapped + reqs[i].lineSuffix, reqs[i].from))
  }

  /**
   * When every request names a file, each one yields exactly one open, of its
   * mapped path with its line suffix, in request order.
   */
  lemma {:induction false} AllFilesOpenOnce(reqs: seq<Request>, fs: Fs, o: Options, prior: Option<seq<string>>)
    requires AllOpenAsFiles(reqs, fs, o)
    ensures !Process(reqs, fs, o, prior).raised
    ensures Process(reqs, fs, o, prior).events == OpenEvents(reqs)
  {
    if reqs != [] {
      var init, last := reqs[..|reqs| - 1], reqs[|reqs| - 1];
      AllFilesOpenOnce(init, fs, o, prior);
      StepFile(last, fs, o, Process(init, fs, o, prior).filePaths);
      assert OpenEvents(reqs) == OpenEvents(init) + [Open(last.mapped + last.lineSuffix, last.from)];
    }
  }

  /**
   * Every notice and every open names as its origin the `from` of some
   * request, and a `NotFound` notice names the mapped path of that request.
   */
  lemma {:induction false} EventsComeFromRequests(reqs: seq<Request>, fs: Fs, o: Options, prior: Option<seq<string>>)
    ensures forall e :: e in Process(reqs, fs, o, prior).events && !e.DirIgnored? ==>
      exists i :: 0 <= i < |reqs| && e.from == reqs[i].from
    ensures forall e :: e in Process(reqs, fs, o, prior).events && e.NotFound? ==>
      exists i :: 0 <= i < |reqs| && e.path == reqs[i].mapped && e.from == reqs[i].from
  {
    if reqs != [] {
      var init := reqs[..|reqs| - 1];
      var last := reqs[|reqs| - 1];
      EventsComeFromRequests(init, fs, o, prior);
      var before := Process(init, fs, o, prior);
      if !before.raised {
        var step := Step(last, fs, o, before.filePaths);
        forall e | e in step.events && !e.DirIgnored?
          ensures e.from == last.from
          ensures e.NotFound? ==> e.path == last.mapped
        {
        }
        assert forall i :: 0 <= i < |init| ==> init[i] == reqs[i];
      } else {
        assert forall i :: 0 <= i < |init| ==> init[i] == reqs[i];
      }
    }
  }

  /**
   * When every request reports its own mapped path as its origin, a notice
   * for a missing path names that path twice, and every open and notice
   * reports the mapped path of some request.
   */
  lemma AliasedOrigins(reqs: seq<Request>, fs: Fs, o: Options, prior: Option<seq<string>>)
    requires forall i :: 0 <= i < |reqs| ==> reqs[i].from == reqs[i].mapped
    ensures forall e :: e in Process(reqs, fs, o, prior).events && e.NotFound? ==> e.from == e.path
    ensures forall e :: e in Process(reqs, fs, o, prior).events && !e.DirIgnored? ==>
      exists i :: 0 <= i < |reqs| && e.from == reqs[i].mapped
  {
    EventsComeFromRequests(reqs, fs, o, prior);
  }

  /** The requests formed from parallel lists of paths, line suffixes and origins. */
  function Gather(paths: seq<string>, lineNos: seq<string>, orgPaths: seq<string>): seq<Request>
    requires |paths| == |lineNos| == |orgPaths|
  {
    seq(|paths|, i requires 0 <= i < |paths| => Request(paths[i], lineNos[i], orgPaths[i]))
  }

  /** `for file_path in file_paths`: one open per target, in order. */
  method OpenAll(targets: seq<string>, from: string) returns (events: seq<Event>)
    ensures events == Opens(targets, from)
  {
    events := [];
    var j := 0;
    while j < |targets|
      invariant 0 <= j <= |targets|
      invariant events == Opens(targets[..j], from)
    {
      events := events + [Open(targets[j], from)];
      j := j + 1;
    }
    assert targets[..j] == targets;
  }

  /**
   * The dispatch loop shared by both listeners: for each path in order,
   * skip it, or bind `file_paths` and open every entry of it, reporting
   * `orgPaths[i]` as the origin; an unbound `file_paths` raises.
   */
  method Dispatch(paths: array<string>, orgPaths: array<string>, lineNos: seq<string>,
                  fs: Fs, o: Options, prior: Option<seq<string>>) returns (flow: Flow)
    requires paths.Length == orgPaths.Length == |lineNos|
    ensures flow == Process(Gather(paths[..], lineNos, orgPaths[..]), fs, o, prior)
  {
    ghost var reqs := Gather(paths[..], lineNos, orgPaths[..]);
    var events: seq<Event> := [];
    var filePaths := prior;
    var i := 0;
    while i < paths.Length
      invariant 0 <= i <= paths.Length
      invariant Process(reqs[..i], fs, o, prior) == Flow(events, filePaths, false)
    {
      assert reqs[..i + 1][..i] == reqs[..i];
      assert reqs[i] == Request(paths[i], lineNos[i], orgPaths[i]);
      ghost var step := Step(reqs[i], fs, o, filePaths);
      assert Process(reqs[..i + 1], fs, o, prior) == Flow(events + step.events, step.filePaths, step.raised);
      var path := paths[i];
      if path !in fs && o.skipMissing {
        events := events + [NotFound(path, orgPaths[i])];
        i := i + 1;
        continue;
      }
      if IsDir(fs, path) {
        if o.openContents {
          var expanded := GetFilePaths(fs, path, o.recursive);
          filePaths := Some(expanded);
        } else {
          events := events + [DirIgnored(path)];
        }
      } else {
        filePaths := Some([path + lineNos[i]]);
      }
      if filePaths.None? {
        RaisedIsFinal(reqs, i + 1, fs, o, prior);
        return Flow(events, None, true);
      }
      var openEvents := OpenAll(filePaths.value, orgPaths[i]);
      events := events + openEvents;
      i := i + 1;
    }
    assert reqs[..i] == reqs;
    return Flow(events, filePaths, false);
  }
}
