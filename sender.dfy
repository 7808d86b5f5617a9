/**
 * The sending side, `send_request` of remote_machine/subl_remote_open.py:
 * the first argument is made absolute in place and all arguments are joined
 * with carriage returns. The socket that carries the payload is not modelled;
 * `absPath` stands for `os.path.abspath` on the sending machine.
 */
module SublRemoteOpen {
  import opened Wrappers
  import opened Wire
  import Listener = RemoteOpenListener
  import Server = RemoteOpenServer
  import opened Text
  import opened FileSystem
  import opened Targets

  /** The arguments as they are sent: the first one made absolute, the rest unchanged. */
  function Rewritten(args: seq<string>, absPath: string -> string): (r: seq<string>)
    requires |args| > 0
    ensures |r| == |args| && r[0] == absPath(args[0]) && r[1..] == args[1..]
  {
    [absPath(args[0])] + args[1..]
  }

  /** The payload `send_request` sends, or `None` when it returns early. */
  function Payload(args: Option<seq<string>>, absPath: string -> string): (r: Option<string>)
    ensures r.None? <==> args.None? || args.value == []
  {
    if args.None? || args.value == [] then None
    else Some(Join(Rewritten(args.value, absPath), CR))
  }

  /**
   * `send_request`: without arguments it only complains; otherwise it
   * overwrites `args[0]` with its absolute path and returns the joined
   * payload it would send.
   */
  method SendRequest(args: array?<string>, absPath: string -> string) returns (payload: Option<string>)
    modifies args
    ensures args == null ==> payload == None
    ensures args != null ==> payload == Payload(Some(old(args[..])), absPath)
    ensures args != null && args.Length > 0 ==> args[..] == Rewritten(old(args[..]), absPath)
    ensures args != null && args.Length == 0 ==> args[..] == old(args[..])
  {
    if args == null || args.Length == 0 {
      return None;
    }
    args[0] := absPath(args[0]);
    assert args[..] == Rewritten(old(args[..]), absPath);
    payload := Some(Join(args[..], CR));
  }

  /** No argument, after the rewrite, contains the delimiter. */
  ghost predicate Clean(args: seq<string>, absPath: string -> string)
    requires |args| > 0
  {
    forall i :: 0 <= i < |args| ==> CR !in Rewritten(args, absPath)[i]
  }

  /**
   * Splitting a payload on the delimiter gives back the arguments as sent,
   * one token per argument, provided no argument contains the delimiter.
   */
  lemma SendThenDecode(args: seq<string>, absPath: string -> string)
    requires |args| > 0 && Clean(args, absPath)
    ensures Payload(Some(args), absPath).Some?
    ensures Split(Payload(Some(args), absPath).value, CR) == Rewritten(args, absPath)
    ensures |Split(Payload(Some(args), absPath).value, CR)| == |args|
  {
    SplitJoin(Rewritten(args, absPath), CR);
  }

  /**
   * A payload reaching a `RemoteOpen.py` listener is handled as the
   * requests of the arguments as sent, in order.
   */
  lemma ListenerSeesArguments(args: seq<string>, absPath: string -> string, s: Listener.Settings,
                              fs: Fs, carried: Option<seq<string>>)
    requires |args| > 0 && Clean(args, absPath)
    ensures Listener.ConnectionSpec(Payload(Some(args), absPath).value, s, fs, carried) ==
      Process(Listener.Requests(Rewritten(args, absPath), s.pathMaps), fs, Listener.DispatchOptions(s), carried)
  {
    SendThenDecode(args, absPath);
  }

  /**
   * A payload reaching a `remote_open.py` server that is neither blank nor
   * the die flag is handled as the requests of the arguments as sent.
   */
  lemma ServerSeesArguments(args: seq<string>, absPath: string -> string, s: Server.Settings, fs: Fs)
    requires |args| > 0 && Clean(args, absPath)
    requires !IsBlank(Payload(Some(args), absPath).value)
    requires Payload(Some(args), absPath).value != s.dieFlag
    ensures var f := Process(Server.Requests(Rewritten(args, absPath), s.pathMaps), fs, Server.DispatchOptions(s), None);
      Server.HandleSpec(Payload(Some(args), absPath).value, s, fs) ==
        if f.raised then Server.Raised(f.events) else Server.Handled(f.events)
  {
    SendThenDecode(args, absPath);
  }
}
