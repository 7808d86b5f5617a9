/**
 * The wire format shared by the sender and both listeners: a payload is the
 * path tokens joined by the carriage-return character, and each token may end
 * in a `:<digits>` line suffix.
 */
module Wire {
  import opened Text

  /** The field delimiter, `'\x0D'`. */
  const CR: char := '\r'

  /** Index of the first occurrence of `c` in `s`, which must occur. */
  function FirstIndexOf(s: string, c: char): (k: nat)
    requires c in s
    ensures k < |s| && s[k] == c && c !in s[..k]
  {
    if s[0] == c then 0 else 1 + FirstIndexOf(s[1..], c)
  }

  /** `sep.join(parts)`: exactly one `sep` between neighbours, none at either end. */
  function Join(parts: seq<string>, sep: char): string {
    if |parts| == 0 then ""
    else if |parts| == 1 then parts[0]
    else parts[0] + [sep] + Join(parts[1..], sep)
  }

  /** `s.split(sep)`: the maximal pieces of `s` between occurrences of `sep`. */
  function Split(s: string, sep: char): (parts: seq<string>)
    ensures |parts| >= 1
    ensures forall i :: 0 <= i < |parts| ==> sep !in parts[i]
    ensures Join(parts, sep) == s
    decreases |s|
  {
    if sep !in s then [s]
    else
      var k := FirstIndexOf(s, sep);
      var rest := Split(s[k + 1..], sep);
      assert ([s[..k]] + rest)[1..] == rest;
      assert s == s[..k] + [sep] + s[k + 1..];
      [s[..k]] + rest
  }

  /** The number of delimiters in a join is one less than the number of parts. */
  lemma {:induction false} JoinCount(parts: seq<string>, sep: char)
    requires |parts| >= 1
    requires forall i :: 0 <= i < |parts| ==> sep !in parts[i]
    ensures multiset(Join(parts, sep))[sep] == |parts| - 1
  {
    if |parts| > 1 {
      JoinCount(parts[1..], sep);
      var a, b := parts[0], Join(parts[1..], sep);
      assert multiset(a + [sep] + b) == multiset(a) + multiset([sep]) + multiset(b);
      assert multiset(a)[sep] == 0;
    } else {
      assert multiset(parts[0])[sep] == 0;
    }
  }

  /**
   * Splitting a join gives the parts back, provided there is at least one part
   * and no part contains the delimiter.
   */
  lemma {:induction false} SplitJoin(parts: seq<string>, sep: char)
    requires |parts| >= 1
    requires forall i :: 0 <= i < |parts| ==> sep !in parts[i]
    ensures Split(Join(parts, sep), sep) == parts
    ensures |Split(Join(parts, sep), sep)| == |parts|
  {
    if |parts| > 1 {
      var a, rest := parts[0], parts[1..];
      var s := Join(parts, sep);
      assert s == a + [sep] + Join(rest, sep);
      assert s[|a|] == sep;
      var k := FirstIndexOf(s, sep);
      assert k == |a|;
      assert s[..k] == a;
      assert s[k + 1..] == Join(rest, sep);
      SplitJoin(rest, sep);
      assert parts == [a] + rest;
    }
  }

  /** A path token split into its bare path and its line suffix. */
  datatype Suffixed = Suffixed(path: string, lineSuffix: string)

  /** Any colon followed only by digits up to the end is the last colon. */
  lemma DigitTailColon(token: string, k: int)
    requires 0 <= k < |token| && token[k] == ':' && IsDigits(token[k + 1..])
    ensures LastIndexOf(token, ':') == k
  {
  }

  /**
   * The line-suffix extraction of both listeners: the text after the last
   * colon is split off, colon included, when it is one or more digits;
   * otherwise the token is left whole with an empty suffix.
   */
  function SplitLineSuffix(token: string): (r: Suffixed)
  {
    var loc := LastIndexOf(token, ':');
    if loc != -1 && IsDigits(token[loc + 1..]) then
      Suffixed(token[..loc], [':'] + token[loc + 1..])
    else
      Suffixed(token, "")
  }

  /** Nothing is lost by the split, and the suffix is empty or a colon followed by digits. */
  lemma SplitLineSuffixParts(token: string)
    ensures SplitLineSuffix(token).path + SplitLineSuffix(token).lineSuffix == token
    ensures SplitLineSuffix(token).lineSuffix == "" ||
      (SplitLineSuffix(token).lineSuffix[0] == ':' && IsDigits(SplitLineSuffix(token).lineSuffix[1..]))
  {
    var loc := LastIndexOf(token, ':');
    if loc != -1 && IsDigits(token[loc + 1..]) {
      assert token[..loc] + ([':'] + token[loc + 1..]) == token;
    }
  }

  /**
   * The suffix loop of both listeners: records each token's line suffix in
   * `line_nos` and cuts it off the token in place.
   */
  method ExtractLineSuffixes(paths: array<string>) returns (lineNos: seq<string>)
    modifies paths
    ensures |lineNos| == paths.Length
    ensures forall k :: 0 <= k < paths.Length ==>
      paths[k] == SplitLineSuffix(old(paths[k])).path && lineNos[k] == SplitLineSuffix(old(paths[k])).lineSuffix
  {
    ghost var orig := paths[..];
    ghost var splits := seq(|orig|, k requires 0 <= k < |orig| => SplitLineSuffix(orig[k]));
    lineNos := [];
    var i := 0;
    while i < paths.Length
      invariant 0 <= i <= paths.Length
      invariant |lineNos| == i
      invariant forall k :: 0 <= k < i ==> paths[k] == splits[k].path && lineNos[k] == splits[k].lineSuffix
      invariant forall k :: i <= k < paths.Length ==> paths[k] == orig[k]
    {
      var split := SplitLineSuffix(paths[i]);
      assert split == splits[i];
      lineNos := lineNos + [split.lineSuffix];
      paths[i] := split.path;
      i := i + 1;
    }
  }

  /**
   * A suffix is split off exactly when the token ends in a colon followed by
   * one or more digits.
   */
  lemma SuffixIffDigitTail(token: string)
    ensures SplitLineSuffix(token).lineSuffix != "" <==>
      exists k :: 0 <= k < |token| && token[k] == ':' && IsDigits(token[k + 1..])
  {
    if exists k :: 0 <= k < |token| && token[k] == ':' && IsDigits(token[k + 1..]) {
      var k :| 0 <= k < |token| && token[k] == ':' && IsDigits(token[k + 1..]);
      DigitTailColon(token, k);
    }
  }

  /** Only the last colon counts: `"a:1:2"` keeps `"a:1"` as its path. */
  lemma LastColonOnly()
    ensures SplitLineSuffix("a:1:2") == Suffixed("a:1", ":2")
    ensures SplitLineSuffix("weird:file") == Suffixed("weird:file", "")
    ensures SplitLineSuffix("a.py:") == Suffixed("a.py:", "")
    ensures SplitLineSuffix("b/") == Suffixed("b/", "")
  {
    DigitTailColon("a:1:2", 3);
    assert LastIndexOf("weird:file", ':') == 5;
    assert LastIndexOf("a.py:", ':') == 4;
  }

  /** A three-token payload decodes into its three tokens. */
  lemma DecodeExample()
    ensures Split("a.py:10\rb/\rc.txt", CR) == ["a.py:10", "b/", "c.txt"]
  {
    var parts := ["a.py:10", "b/", "c.txt"];
    assert parts[2..] == ["c.txt"];
    assert Join(parts[2..], CR) == "c.txt";
    assert parts[1..][1..] == parts[2..];
    assert Join(parts[1..], CR) == "b/\rc.txt";
    assert Join(parts, CR) == "a.py:10\rb/\rc.txt";
    SplitJoin(parts, CR);
  }

  /** A digit suffix is split off whole, colon included. */
  lemma SuffixExample()
    ensures SplitLineSuffix("a.py:10") == Suffixed("a.py", ":10")
  {
    DigitTailColon("a.py:10", 4);
  }
}
