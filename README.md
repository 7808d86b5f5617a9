# sublime_remote_open in Dafny

This is a model of the core of the Sublime Text plugin "Remote Open". A machine that shares a filesystem with the
editor's host sends it file paths over TCP. The editor maps each remote path to a local one and opens the result.
The repository has two receivers and one sender:

- `remote_open.py` is a threaded TCP server. Its `ThreadedTCPRequestHandler.handle` processes one payload per
  connection. Its `remote_to_local` normalises slashes on both sides and stops at the first matching pair.
- `RemoteOpen.py` is an older single-threaded listener. The body of the `while LISTEN` loop in `_listen` processes
  each connection. Its `remote_to_local` tests the raw prefix, applies every matching pair in turn, and normalises
  slashes only at the end.
- `remote_machine/subl_remote_open.py` is the sender. `send_request` makes the first argument absolute in place and
  joins all arguments with a carriage return (`'\x0D'`).

## Modules

- `Wrappers`: `Option`.
- `Text`: slash normalisation, prefix and suffix tests, the prefix graft, `rfind`, and Python's `str.isdigit` and
  `str.strip` whitespace set.
- `Wire`: the payload format.
  - Splitting and joining on the carriage return.
  - Splitting a `:<digits>` line suffix off a token at its last colon.
  - The in-place loop that does that split for every token.
- `FileSystem`: an abstract directory tree, `os.walk` over it in top-down order, `os.path.join`, and
  `get_file_paths` as a method with its loop. It is proved against a specification function.
- `Targets`: the per-token dispatch loop that both receivers share.
  - Missing paths, files with their line suffix, directory expansion, and directories that may not be expanded.
  - Each step yields a list of editor events: `Open`, `NotFound` and `DirIgnored`.
  - `file_paths` is carried from one token to the next as an `Option`. `None` means the name is unbound in Python,
    and using it then raises.
- `RemoteOpenServer`: `remote_open.py`. It holds the first-match mapper, the blank-payload and die-flag checks, and
  `Handle`. `Handle` allocates the token array, aliases `org_paths` to it, rewrites it in place and dispatches.
- `RemoteOpenListener`: `RemoteOpen.py`. It holds the apply-every-pair mapper, `ProcessConnection` for one
  connection, and `Serve` for the listening loop over successive payloads. `Serve` keeps `file_paths` between
  connections and stops at the first uncaught exception.
- `SublRemoteOpen`: `send_request`. It also holds the round trip from the sender to either receiver.

## Behaviours kept exactly as the code has them

- **Aliasing.** `org_paths = paths` aliases one list. Mapping rewrites that list in place, so every notice and open
  reports the mapped path as its origin, not the token as received (`Targets.AliasedOrigins`,
  `RemoteOpenServer.OriginIsMappedPath`).
- **Stale or unbound `file_paths`.** A directory that may not be expanded leaves `file_paths` as it was. The targets
  of an earlier token are therefore opened again, this time attributed to the directory
  (`RemoteOpenServer.StaleFilePathsReopened`). If no earlier token bound `file_paths`, the name is unbound and the
  handler raises (`RemoteOpenServer.UnboundFilePathsRaises`).
  - In `RemoteOpen.py`, `file_paths` is a local of `_listen`, so the stale value outlives the connection
    (`RemoteOpenListener.CarriedAcrossConnections`).
  - The listener catches only `socket.timeout`, so the exception ends the listening loop (`RemoteOpenListener.Serve`).
- **No checks in `RemoteOpen.py`.** It has no blank-payload check and no die-flag check, and it always skips missing
  paths.

## Behaviours a reader may not expect

- The "does not exist" notice names the mapped path, not the token as received, because `org_paths` aliases
  `paths` (`RemoteOpenServer.OriginIsMappedPath`, `RemoteOpenListener.ConnectionOriginIsMappedPath`).
- A directory that may not be expanded does not end the opens for its token: the previous `file_paths` is opened
  again, or, when no earlier token bound it, the handler raises (`Targets.StepDirectoryDisabled`).
- An exception while handling a connection is caught by `socketserver` in `remote_open.py`, and the server keeps
  accepting. `RemoteOpen.py` catches only `socket.timeout`, so the exception ends its listening loop
  (`RemoteOpenListener.Serve`).

## Model

| member | source | states |
|---|---|---|
| Text.Normalize | remote_open.py:80 | every backslash becomes a slash and nothing else changes: same length, each other character kept, no backslash left |
| Text.NormalizeIdentity | remote_open.py:80 | a path with no backslash is left unchanged by the replacement |
| Text.IsBlank | remote_open.py:116 | `not data.strip()`: every character is Python whitespace; its meaning is used by `RemoteOpenServer.Handle` |
| Text.IsDigits | remote_open.py:146 | `str.isdigit` over ASCII digits: non-empty and all digits; used by `Wire.SuffixIffDigitTail` |
| Text.Graft | remote_open.py:85-90 | the local prefix without one trailing slash, a slash, and the rest without one leading slash; no backslash appears if none was given; see `RemoteOpenServer.GraftExample` |
| Text.LastIndexOf | remote_open.py:145 | `rfind`: -1 exactly when the character is absent; otherwise the index of an occurrence with none after it |
| Wire.Split | remote_open.py:138 | `split('\x0D')` yields at least one part, no part contains the delimiter, and joining the parts gives the payload back |
| Wire.Join | remote_machine/subl_remote_open.py:19 | `'\x0D'.join(args)`; its meaning is stated by `Wire.JoinCount` and `Wire.SplitJoin` |
| Wire.JoinCount | remote_machine/subl_remote_open.py:19 | joining n delimiter-free parts puts exactly n-1 delimiters in the payload |
| Wire.SplitJoin | remote_machine/subl_remote_open.py:19 | splitting a join of delimiter-free parts returns exactly those parts, one token per part |
| Wire.DecodeExample | remote_open.py:138 | `"a.py:10\rb/\rc.txt"` splits into `"a.py:10"`, `"b/"` and `"c.txt"` |
| Wire.DigitTailColon | remote_open.py:145-146 | a colon followed only by digits is the last colon of the token |
| Wire.SplitLineSuffix | remote_open.py:145-148 | the line-suffix cut at the last colon; its meaning is stated by `Wire.SplitLineSuffixParts`, `Wire.SuffixIffDigitTail` and `Wire.LastColonOnly` |
| Wire.SplitLineSuffixParts | remote_open.py:143-148 | path plus suffix is the token again, and the suffix is either empty or `:` followed by digits |
| Wire.SuffixIffDigitTail | remote_open.py:145-148 | a suffix is split off exactly when some colon in the token is followed only by digits |
| Wire.LastColonOnly | remote_open.py:145-148 | only the last colon counts (`"a:1:2"` gives `"a:1"` and `":2"`); a non-digit tail, an empty tail and no colon at all leave the token whole |
| Wire.SuffixExample | remote_open.py:146-148 | `"a.py:10"` gives path `"a.py"` and suffix `":10"` |
| Wire.ExtractLineSuffixes | remote_open.py:140-148 | the loop rewrites each token in place to its path and returns one suffix per token, in order |
| FileSystem.PathJoin | remote_open.py:102 | POSIX `os.path.join` of two parts: an absolute second part wins, otherwise one slash between them |
| FileSystem.Walk | remote_open.py:101 | top-down `os.walk` of a node; its meaning is stated by `FileSystem.WalkHead`, `FileSystem.FlattenDirWalk` and `FileSystem.WalkFiles` |
| FileSystem.WalkEach | remote_open.py:101 | the walks of a run of subdirectories, in order; stated by `FileSystem.WalkEachSnoc` and `FileSystem.WalkEachFiles` |
| FileSystem.WalkFrom | remote_open.py:101 | `os.walk` of a path: nothing for a path that is not in the filesystem |
| FileSystem.FilePaths | remote_open.py:95-105 | what `get_file_paths` returns; stated by `FileSystem.GetFilePaths`, `FileSystem.NonRecursiveIsOwnFiles` and `FileSystem.RecursiveIsAllFiles` |
| FileSystem.JoinAll | remote_open.py:102 | one joined path per file of a walk step, in order, each `os.path.join(root, name)` |
| FileSystem.FlattenConcat | remote_open.py:101-102 | extending over two runs of walk steps is extending over each in turn |
| FileSystem.WalkHead | remote_open.py:101-102 | the first step of walking a directory lists the directory itself with its own files |
| FileSystem.WalkEachSnoc | remote_open.py:101-102 | walking one more subdirectory appends its walk after the walks of the subdirectories before it |
| FileSystem.FlattenDirWalk | remote_open.py:101-102 | the walk of a directory yields its own files first, then the walks of its subdirectories in order |
| FileSystem.GetFilePaths | remote_open.py:95-105 | the loop collects every walked directory's files when recursive, and only the top directory's files otherwise |
| FileSystem.NonRecursiveIsOwnFiles | remote_open.py:103-104 | the non-recursive expansion of a directory is exactly its own files joined to it |
| FileSystem.NonRecursiveWithinRecursive | remote_open.py:101-104 | every path of the non-recursive expansion is in the recursive one |
| FileSystem.WalkFiles | remote_open.py:101-102 | a path is yielded by walking a node exactly when it names a file at some depth below it |
| FileSystem.WalkEachFiles | remote_open.py:101-102 | the same, for walking a run of subdirectories |
| FileSystem.RecursiveIsAllFiles | remote_open.py:95-105 | the recursive expansion of a directory holds exactly the paths of the files at every depth below it |
| FileSystem.ExpansionExample | remote_open.py:95-105 | a directory with `x`, `y` and `z/w` expands to `x`, `y` non-recursively and to `x`, `y`, `z/w` recursively |
| Targets.Step | remote_open.py:156-171 | the loop body for one token; its cases are stated by `Targets.StepMissing`, `Targets.StepFile`, `Targets.StepDirectory` and `Targets.StepDirectoryDisabled` |
| Targets.Process | remote_open.py:155-171 | the dispatch loop over all tokens, stopping at the first raise; stated by `Targets.ProcessSnoc`, `Targets.ProcessConcat`, `Targets.RaisedIsFinal` and `Targets.Dispatch` |
| Targets.Opens | remote_open.py:169-171 | one open per target, in order, each attributed to the token's origin |
| Targets.OpenAll | remote_open.py:169-171 | the inner loop issues exactly those opens |
| Targets.ProcessSnoc | remote_open.py:155-171 | one more token extends the events of the tokens before it, unless they raised |
| Targets.ProcessConcat | remote_open.py:155-171 | processing two runs of tokens is processing the second from the `file_paths` the first left, unless the first raised |
| Targets.StepMissing | remote_open.py:156-158 | a missing path that is skipped gives one notice naming the path and its origin, and leaves `file_paths` alone |
| Targets.StepFile | remote_open.py:167-168 | a file, or a missing path that is kept, is opened once with its line suffix and becomes the new `file_paths` |
| Targets.StepDirectory | remote_open.py:159-164 | an expandable directory opens its expansion, without the line suffix, binds `file_paths` to that expansion, and does not raise |
| Targets.StepDirectoryDisabled | remote_open.py:165-171 | a directory that may not be expanded leaves `file_paths` as it was; its events are the notice followed by the re-opened previous `file_paths`, or the notice alone followed by a raise when there are none |
| Targets.RaisedIsFinal | remote_open.py:155-171 | once a token raises, the later tokens change nothing |
| Targets.BoundNeverRaises | remote_open.py:161-168 | once `file_paths` is bound, no later token raises and it stays bound |
| Targets.AllFilesOpenOnce | remote_open.py:155-171 | when every token names a file, each is opened exactly once, in order, as its path plus suffix |
| Targets.EventsComeFromRequests | remote_open.py:155-171 | every open and notice is attributed to some token's origin, and every missing-path notice names that token's mapped path |
| Targets.AliasedOrigins | remote_open.py:139 | when each origin is the mapped path, a missing-path notice names one path twice and every event's origin is some mapped path |
| Targets.Dispatch | remote_open.py:155-171 | the loop over the aliased arrays produces exactly the specified events, `file_paths` and exception |
| RemoteOpenServer.Hits | remote_open.py:82-84 | a pair matches when the normalised path starts with its normalised remote prefix |
| RemoteOpenServer.FirstMatch | remote_open.py:81-91 | the loop over the pairs with its `break`; stated by `RemoteOpenServer.FirstMatchWins` and `RemoteOpenServer.LaterPairsIgnored` |
| RemoteOpenServer.RemoteToLocal | remote_open.py:74-92 | the mapped path never contains a backslash |
| RemoteOpenServer.FirstMatchWins | remote_open.py:81-91 | the first pair whose normalised prefix matches decides the result: its local prefix grafted onto the rest of the path |
| RemoteOpenServer.NoMatchNormalizes | remote_open.py:80-92 | with no matching pair the result is the path with its slashes normalised |
| RemoteOpenServer.LaterPairsIgnored | remote_open.py:91 | once some pair matches, pairs appended after it have no effect |
| RemoteOpenServer.TerminalIsFixed | remote_open.py:74-92 | mapping again is a no-op when the result matches no remote prefix |
| RemoteOpenServer.GraftExample | remote_open.py:85-90 | `"/home/me/proj"` grafted onto `"/src/a.py"` is `"/home/me/proj/src/a.py"`, with one slash at the joint |
| RemoteOpenServer.MappingExample | remote_open.py:74-92 | `"/remote/proj/src/a.py"` under `/remote/proj` → `/home/me/proj` maps to `"/home/me/proj/src/a.py"` |
| RemoteOpenServer.Requests | remote_open.py:138-152 | the tokens after suffix cut and mapping, each with its mapped path as origin; stated by `RemoteOpenServer.PreparePaths` |
| RemoteOpenServer.HandleSpec | remote_open.py:114-171 | what `handle` does with a payload; stated by `RemoteOpenServer.Handle`, `RemoteOpenServer.HandleEvents` and `RemoteOpenServer.AllFilesHandled` |
| RemoteOpenServer.PreparePaths | remote_open.py:138-152 | the suffix and mapping loops over a fresh array of the tokens leave exactly the requests of the tokens, each attributed to its own mapped path |
| RemoteOpenServer.MapPaths | remote_open.py:151-152 | every array element is replaced in place by its mapped path |
| RemoteOpenServer.Handle | remote_open.py:114-171 | the handler's outcome is the specified one: a blank payload is ignored, the die flag shuts down, and anything else is dispatched |
| RemoteOpenServer.HandleEvents | remote_open.py:116-171 | a payload that is neither blank nor the die flag produces exactly the dispatch events of its tokens |
| RemoteOpenServer.AllFilesHandled | remote_open.py:138-171 | when every token names a file, the handler opens each once, in order, as its mapped path plus suffix |
| RemoteOpenServer.OriginIsMappedPath | remote_open.py:139 | every missing-path notice names the mapped path as its origin, and every event's origin is a mapped path |
| RemoteOpenServer.ExampleSplit | remote_open.py:138 | `"/p/f:3\r/p/d"` splits into `"/p/f:3"` and `"/p/d"` |
| RemoteOpenServer.ExampleRequests | remote_open.py:138-152 | those tokens become requests for `/p/f` with `:3` and for `/p/d`, each attributed to its mapped path |
| RemoteOpenServer.StaleFilePathsReopened | remote_open.py:159-171 | after `/p/f:3`, a directory that may not be expanded re-opens `/p/f:3`, attributed to the directory |
| RemoteOpenServer.StaleRequests | remote_open.py:138-152 | `"/p/f:3\r/p/d"` with no pairs becomes the requests for `/p/f` with `:3` and for `/p/d` |
| RemoteOpenServer.StaleDispatch | remote_open.py:155-171 | the same, for the dispatch loop alone |
| RemoteOpenServer.PlainToken | remote_open.py:138-152 | a payload that is one plain path without colon, delimiter or backslash is one request for that path |
| RemoteOpenServer.DefaultDirectoryExpanded | remote_open.py:159-164 | under the default settings a directory opens its own files only, not those of its subdirectories |
| RemoteOpenServer.DefaultMissingOpened | remote_open.py:156-168 | under the default settings `create_if_missing` holds, so a missing path is opened anyway |
| RemoteOpenServer.UnboundFilePathsRaises | remote_open.py:165-169 | a lone directory that may not be expanded raises after its notice |
| RemoteOpenListener.RemoteToLocal | RemoteOpen.py:154-171 | the mapped path never contains a backslash, whatever backslashes the pairs' local prefixes hold |
| RemoteOpenListener.ApplyPair | RemoteOpen.py:162-169 | one pair of the loop: a raw prefix match grafts the local prefix onto the rest, otherwise the path is unchanged |
| RemoteOpenListener.ApplyAll | RemoteOpen.py:161-169 | every pair applied in turn, with no `break`; stated by `RemoteOpenListener.EveryPairApplied` and `RemoteOpenListener.NoPairChanges` |
| RemoteOpenListener.EveryPairApplied | RemoteOpen.py:161-169 | with no `break`, a pair appended at the end is applied to the output of all the pairs before it |
| RemoteOpenListener.NoPairMatches | RemoteOpen.py:161-171 | when no raw prefix matches, the result is the path with its slashes normalised |
| RemoteOpenListener.NoPairChanges | RemoteOpen.py:161-162 | when no raw prefix matches, the loop leaves the path unchanged |
| RemoteOpenListener.ChainedPairs | RemoteOpen.py:161-169 | `/a` → `/b` followed by `/b` → `/c` sends `/a/x` to `/c/x`, where the server's mapper gives `/b/x` |
| RemoteOpenListener.RawPrefixTest | RemoteOpen.py:162-170 | `C:\p\a` does not match the prefix `C:/p` and only has its slashes turned, where the server's mapper gives `/m/a` |
| RemoteOpenListener.Requests | RemoteOpen.py:107-120 | the tokens after suffix cut and mapping, each with its mapped path as origin; stated by `RemoteOpenListener.PreparePaths` and `RemoteOpenListener.RequestsAliased` |
| RemoteOpenListener.ConnectionSpec | RemoteOpen.py:107-142 | what one connection does, given the `file_paths` carried in; stated by `RemoteOpenListener.ProcessConnection` |
| RemoteOpenListener.SessionSpec | RemoteOpen.py:80-142 | the connections of a session in order, stopping at the first raise; stated by `RemoteOpenListener.Serve`, `RemoteOpenListener.SessionRaisedIsFinal` and `RemoteOpenListener.SessionIsOneRequest` |
| RemoteOpenListener.PreparePaths | RemoteOpen.py:107-120 | the suffix and mapping loops over a fresh array of the tokens leave exactly the requests of the tokens, each attributed to its own mapped path |
| RemoteOpenListener.MapPaths | RemoteOpen.py:119-120 | every array element is replaced in place by its mapped path |
| RemoteOpenListener.ProcessConnection | RemoteOpen.py:107-142 | one connection, with no blank or die-flag check, produces the specified events, starting from the `file_paths` the earlier connections left |
| RemoteOpenListener.SessionRaisedIsFinal | RemoteOpen.py:80-147 | once a connection raises, later payloads change nothing |
| RemoteOpenListener.Serve | RemoteOpen.py:79-147 | the listening loop produces the specified session: `file_paths` carried between connections, stopping at the first exception |
| RemoteOpenListener.SessionIsOneRequest | RemoteOpen.py:80-142 | a session behaves as one request made of the tokens of all its payloads in order |
| RemoteOpenListener.RequestsAliased | RemoteOpen.py:108 | every request's origin is its own mapped path |
| RemoteOpenListener.ConnectionOriginIsMappedPath | RemoteOpen.py:123-127 | every missing-path notice names the mapped path as its origin |
| RemoteOpenListener.MappedPaths | RemoteOpen.py:107-120 | one mapped path per token of the payload |
| RemoteOpenListener.ConnectionOriginsAreMapped | RemoteOpen.py:123-141 | every open and missing-path notice is attributed to the mapped path of one of the connection's tokens |
| RemoteOpenListener.MissingAlwaysSkipped | RemoteOpen.py:124-127 | a missing path gets a notice and is never opened, whatever the settings |
| RemoteOpenListener.PlainToken | RemoteOpen.py:107-120 | a payload that is one plain path without colon, delimiter or backslash is one request for that path |
| RemoteOpenListener.FirstConnectionOpensFile | RemoteOpen.py:137-142 | a first connection naming a file opens it and binds `file_paths` to it |
| RemoteOpenListener.FileConnectionOpensIt | RemoteOpen.py:137-142 | a connection naming the file `/p/f`, with nothing carried in, opens it once and binds `file_paths` to it |
| RemoteOpenListener.CarriedAcrossConnections | RemoteOpen.py:128-142 | a later connection naming a directory that may not be expanded re-opens the file of the earlier connection |
| RemoteOpenListener.SecondConnectionReopens | RemoteOpen.py:128-142 | a connection naming `/p/d`, which may not be expanded, after `file_paths` was bound to `/p/f`, gives the notice and re-opens `/p/f` attributed to `/p/d` |
| RemoteOpenListener.DefaultDirectoryExpanded | RemoteOpen.py:128-141 | under the default settings a directory opens its own files only, and that list becomes `file_paths` |
| SublRemoteOpen.Rewritten | remote_machine/subl_remote_open.py:18 | only the first argument changes, to its absolute path, and the count is kept |
| SublRemoteOpen.Payload | remote_machine/subl_remote_open.py:14-19 | nothing is sent exactly when the arguments are absent or empty |
| SublRemoteOpen.SendRequest | remote_machine/subl_remote_open.py:14-19 | returns early without arguments; otherwise rewrites `args[0]` in place and produces the joined payload |
| SublRemoteOpen.SendThenDecode | remote_machine/subl_remote_open.py:19 | the receiver's split returns the arguments as sent, one token per argument |
| SublRemoteOpen.ListenerSeesArguments | RemoteOpen.py:107 | a listener handles the payload as the requests of the arguments as sent |
| SublRemoteOpen.ServerSeesArguments | remote_open.py:138 | a server handles a payload that is neither blank nor the die flag as the requests of the arguments as sent |

## Left out

- Sockets, threads and the `socketserver` machinery are not modelled: binding, accepting, the one-second accept
  timeout, the `LISTEN` flag polled by `_listen`, and server start and stop. A payload is given as a decoded
  string, and a session as the sequence of payloads received.
- Interleavings of concurrent handlers in `remote_open.py` are not modelled. Each `Handle` is a function of its own
  payload, settings and filesystem, so one connection cannot affect another.
- The liveness probe `client`, the start and stop commands and `listen_on_startup` are not modelled. They are
  socket and editor plumbing.
- Window activation on macOS is not modelled. It is a shell call with no effect on which files are opened.
- Sublime's API is replaced by event values. `open_file` becomes `Open`, and a status message becomes `NotFound` or
  `DirIgnored`. Logging is left out.
- The filesystem is an abstract map from paths to trees, and `os.path.exists` and `os.path.isdir` are read from it.
  Symbolic links, permissions and walk errors are not modelled.
- The order in which `os.walk` lists a directory's entries is a parameter, namely the order stored in the tree.
- The receive is not modelled. That covers bytes, UTF-8 decoding and truncation at 1024 bytes. Strings are
  sequences of characters.
- Settings are one fixed `Settings` value: per call of `Handle` in `remote_open.py`, and for a whole `Serve` session
  in `RemoteOpen.py`. Both sources query the settings again for every token (`remote_open.py` through
  `get_settings`, `RemoteOpen.py` through `load_settings` in `remote_to_local` and `settings.get` for the directory
  options), so a change to `path_maps`, `create_if_missing` or the directory options made during a request, or
  between connections of a session, is not modelled.
- `path_maps` is an ordered sequence of pairs, which stands for the iteration order of the settings dictionary.
- `os.path.abspath` on the sending machine is a function parameter of `SendRequest`.
- `RemoteOpen.py`'s `get_file_paths` (RemoteOpen.py:174-180) is the same code as `remote_open.py`'s, so both
  receivers use `FileSystem.GetFilePaths`.
- Wire.SplitLineSuffixParts: `str.isdigit` is modelled as ASCII `0`-`9`, here and in `Wire.SplitLineSuffix`. Python also
  accepts other Unicode digits.
- FileSystem.PathJoin: only the POSIX `os.path.join` is modelled.
- RemoteOpenServer.RemoteToLocal: its own contract states only that no backslash survives. The mapping is stated
  by `FirstMatchWins`, `NoMatchNormalizes` and `LaterPairsIgnored`.
- RemoteOpenListener.RemoteToLocal: its own contract states only that no backslash survives. The
  consequences of the missing `break` and of the raw prefix test are stated by `EveryPairApplied`,
  `NoPairMatches`, `ChainedPairs` and `RawPrefixTest`.
