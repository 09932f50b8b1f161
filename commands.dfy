/**
 * The command prompt of Main: a line is trimmed and compared, case-sensitively,
 * with "exit", "quit" and "retry"; end of input ends the program.
 */
module Commands {
  import opened Wrappers

  /** .NET's char.IsWhiteSpace, which String.Trim uses. */
  predicate IsWhiteSpace(ch: char) {
    || '\U{0009}' <= ch <= '\U{000D}' || ch == '\U{0020}' || ch == '\U{0085}' || ch == '\U{00A0}'
    || ch == '\U{1680}' || '\U{2000}' <= ch <= '\U{200A}' || ch == '\U{2028}' || ch == '\U{2029}'
    || ch == '\U{202F}' || ch == '\U{205F}' || ch == '\U{3000}'
  }

  predicate AllWhiteSpace(s: string) {
    forall j :: 0 <= j < |s| ==> IsWhiteSpace(s[j])
  }

  /** r is s without its leading white space. */
  predicate StartTrimmed(s: string, r: string) {
    && |r| <= |s| && r == s[|s| - |r|..]
    && AllWhiteSpace(s[..|s| - |r|])
    && (r == [] || !IsWhiteSpace(r[0]))
  }

  /** r is s without its trailing white space. */
  predicate EndTrimmed(s: string, r: string) {
    && |r| <= |s| && r == s[..|r|]
    && AllWhiteSpace(s[|r|..])
    && (r == [] || !IsWhiteSpace(r[|r| - 1]))
  }

  /** Drops leading white space. */
  function TrimStart(s: string): (r: string)
    ensures StartTrimmed(s, r)
  {
    if s != [] && IsWhiteSpace(s[0]) then
      var r := TrimStart(s[1..]);
      StartTrimmedCons(s, r);
      r
    else s
  }

  /** Trimming a line that starts with white space is trimming the rest of it. */
  lemma StartTrimmedCons(s: string, r: string)
    requires s != [] && IsWhiteSpace(s[0]) && StartTrimmed(s[1..], r)
    ensures StartTrimmed(s, r)
  {
    var n := |s| - |r|;
    assert s[1..][n - 1..] == s[n..];
    forall j | 0 <= j < n
      ensures IsWhiteSpace(s[..n][j])
    {
      if j > 0 {
        assert s[..n][j] == s[1..][..n - 1][j - 1];
      }
    }
  }

  /** Drops trailing white space. */
  function TrimEnd(s: string): (r: string)
    ensures EndTrimmed(s, r)
  {
    if s != [] && IsWhiteSpace(s[|s| - 1]) then
      var r := TrimEnd(s[..|s| - 1]);
      EndTrimmedSnoc(s, r);
      r
    else s
  }

  /** Trimming a line that ends with white space is trimming the rest of it. */
  lemma EndTrimmedSnoc(s: string, r: string)
    requires s != [] && IsWhiteSpace(s[|s| - 1]) && EndTrimmed(s[..|s| - 1], r)
    ensures EndTrimmed(s, r)
  {
    assert s[|r|..] == s[..|s| - 1][|r|..] + [s[|s| - 1]];
  }

  /**
   * r is the slice s[a..a + |r|] of s, with only white space on either side
   * of it, and it neither starts nor ends with white space.
   */
  predicate TrimmedAt(s: string, a: nat, r: string) {
    && a + |r| <= |s| && r == s[a..a + |r|]
    && AllWhiteSpace(s[..a]) && AllWhiteSpace(s[a + |r|..])
    && (r == [] || (!IsWhiteSpace(r[0]) && !IsWhiteSpace(r[|r| - 1])))
  }

  /** String.Trim: the line without surrounding white space. */
  function Trim(s: string): string {
    TrimEnd(TrimStart(s))
  }

  /**
   * What trimming keeps: a slice of the line, starting where TrimStart
   * stopped, with only white space on either side of it and none at its ends.
   */
  lemma TrimMeans(s: string)
    ensures TrimmedAt(s, |s| - |TrimStart(s)|, Trim(s))
  {
    BothTrimmed(s, TrimStart(s), Trim(s));
  }

  /** Trimming the start and then the end leaves a slice with white space on either side only. */
  lemma BothTrimmed(s: string, t: string, r: string)
    requires StartTrimmed(s, t) && EndTrimmed(t, r)
    ensures TrimmedAt(s, |s| - |t|, r)
  {
    var a := |s| - |t|;
    assert s[a + |r|..] == t[|r|..];
    assert s[a..a + |r|] == t[..|r|];
    assert r != [] ==> r[0] == t[0];
  }

  /** A word without surrounding white space is what trimming any padding of it gives back. */
  lemma {:induction false} TrimPadded(pre: string, w: string, post: string)
    requires AllWhiteSpace(pre) && AllWhiteSpace(post)
    requires w == [] || (!IsWhiteSpace(w[0]) && !IsWhiteSpace(w[|w| - 1]))
    ensures Trim(pre + w + post) == w
  {
    assert pre + w + post == pre + (w + post);
    if w == [] {
      TrimStartPadded(pre + post, []);
      assert pre + post + [] == pre + post;
    } else {
      TrimStartPadded(pre, w + post);
      TrimEndPadded(w, post);
    }
  }

  lemma {:induction false} TrimStartPadded(pre: string, s: string)
    requires AllWhiteSpace(pre)
    requires s == [] || !IsWhiteSpace(s[0])
    ensures TrimStart(pre + s) == s
  {
    if pre != [] {
      assert (pre + s)[1..] == pre[1..] + s;
      TrimStartPadded(pre[1..], s);
    }
  }

  lemma {:induction false} TrimEndPadded(s: string, post: string)
    requires AllWhiteSpace(post)
    requires s == [] || !IsWhiteSpace(s[|s| - 1])
    ensures TrimEnd(s + post) == s
  {
    if post != [] {
      assert (s + post)[..|s + post| - 1] == s + post[..|post| - 1];
      TrimEndPadded(s, post[..|post| - 1]);
    }
  }

  /** What a line read at the command prompt asks for. */
  datatype Command =
    | Quit           // "exit", "quit" or end of input: leave the program
    | Retry          // "retry": tear the round down and start another
    | Unrecognized   // anything else: read another line

  /** Classifies one result of ReadLine (None is end of input). */
  function ParseCommand(line: Option<string>): Command {
    match line
    case None => Quit
    case Some(s) =>
      var t := Trim(s);
      if t == "exit" || t == "quit" then Quit
      else if t == "retry" then Retry
      else Unrecognized
  }

  /** Surrounding white space does not matter. */
  lemma PaddedCommands(pre: string, w: string, post: string)
    requires AllWhiteSpace(pre) && AllWhiteSpace(post)
    requires w == "retry" || w == "exit" || w == "quit"
    ensures ParseCommand(Some(pre + w + post)) == if w == "retry" then Retry else Quit
  {
    TrimPadded(pre, w, post);
  }

  /** The comparison is case-sensitive: another spelling of a command word is not a command. */
  lemma {:induction false} CaseSensitive(w: string)
    requires w != [] && !IsWhiteSpace(w[0]) && !IsWhiteSpace(w[|w| - 1])
    requires w != "exit" && w != "quit" && w != "retry"
    ensures ParseCommand(Some(w)) == Unrecognized
  {
    TrimPadded([], w, []);
    assert [] + w + [] == w;
  }

  /** The outcome of the prompt loop: the command and the number of lines read. */
  datatype Awaited = Awaited(cmd: Command, consumed: nat)

  /** The command each line asks for. */
  function Parsed(lines: seq<string>): (cmds: seq<Command>)
    ensures |cmds| == |lines|
    ensures forall j :: 0 <= j < |lines| ==> cmds[j] == ParseCommand(Some(lines[j]))
  {
    seq(|lines|, j requires 0 <= j < |lines| => ParseCommand(Some(lines[j])))
  }

  /** The first command of a stream of parsed lines and the number of lines up to it. */
  function FirstCommand(cmds: seq<Command>): (r: Awaited)
    ensures r.consumed <= |cmds|
    ensures r.cmd == Retry ==> r.consumed > 0
  {
    if cmds == [] then Awaited(Quit, 0)
    else if cmds[0] != Unrecognized then Awaited(cmds[0], 1)
    else
      var rest := FirstCommand(cmds[1..]);
      Awaited(rest.cmd, rest.consumed + 1)
  }

  /**
   * The inner loop of Main: lines are read until one is a command; end of
   * input counts as Quit.
   */
  function NextCommand(lines: seq<string>): (r: Awaited)
    ensures r.consumed <= |lines|
    ensures r.cmd == Retry ==> r.consumed > 0
  {
    FirstCommand(Parsed(lines))
  }

  /** The prompt loop reads one line, then stops at a command or goes on with the rest. */
  lemma NextCommandStep(lines: seq<string>)
    requires lines != []
    ensures var c := ParseCommand(Some(lines[0]));
      NextCommand(lines) ==
        if c != Unrecognized then Awaited(c, 1)
        else Awaited(NextCommand(lines[1..]).cmd, NextCommand(lines[1..]).consumed + 1)
  {
    assert Parsed(lines)[1..] == Parsed(lines[1..]);
  }

  /**
   * FirstCommand skips exactly the unrecognized entries before the first
   * command and counts that command's entry; without one it counts them all
   * and gives Quit.
   */
  lemma {:induction false} FirstCommandSkipsUnrecognized(cmds: seq<Command>)
    ensures var r := FirstCommand(cmds);
      && r.cmd != Unrecognized
      && (forall j :: 0 <= j < r.consumed - 1 ==> cmds[j] == Unrecognized)
      && (|| (0 < r.consumed && cmds[r.consumed - 1] == r.cmd)
          || (r.cmd == Quit && r.consumed == |cmds| && forall j :: 0 <= j < |cmds| ==> cmds[j] == Unrecognized))
  {
    if cmds != [] && cmds[0] == Unrecognized {
      FirstCommandSkipsUnrecognized(cmds[1..]);
      assert forall j :: 0 < j < |cmds| ==> cmds[j] == cmds[1..][j - 1];
    }
  }

  /**
   * The prompt loop skips exactly the unrecognized lines before the first
   * command and consumes that command's line; without one it reads to the
   * end of input and quits.
   */
  lemma NextCommandSkipsUnrecognized(lines: seq<string>)
    ensures var r := NextCommand(lines);
      && r.cmd != Unrecognized
      && (forall j :: 0 <= j < r.consumed - 1 ==> ParseCommand(Some(lines[j])) == Unrecognized)
      && (|| (0 < r.consumed && ParseCommand(Some(lines[r.consumed - 1])) == r.cmd)
          || (r.cmd == Quit && r.consumed == |lines|
              && forall j :: 0 <= j < |lines| ==> ParseCommand(Some(lines[j])) == Unrecognized))
  {
    FirstCommandSkipsUnrecognized(Parsed(lines));
  }
}
