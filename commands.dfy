/**
 * The command lines mdmfs hands to run(): argappend (mdmfs.c 283-303), which
 * grows a helper-argument buffer, and the fixed templates of the mdconfig,
 * newfs and mount invocations (mdmfs.c 333-347, 366-379, 417, 431-432, 481).
 */
module Commands {
  import opened Types
  import opened Decimal
  import opened Argv

  /** The helper programs (the _PATH_* constants of <paths.h>). */
  const PathMdconfig: string := "/sbin/mdconfig"
  const PathNewfs: string := "/sbin/newfs"
  const PathMount: string := "/sbin/mount"

  /** argappend: the old buffer, one space, then the expanded fragment. */
  function ArgAppend(dst: string, frag: string): string
  {
    dst + " " + frag
  }

  /** A helper-argument buffer: empty, or each fragment preceded by a space. */
  predicate IsBuffer(b: string) { b == "" || b[0] == ' ' }

  /** The argument words a buffer contributes once it is spliced into a command line. */
  function BufferWords(b: string): seq<string>
  {
    Tokens(b)[1..]
  }

  /** Fragments, each preceded by one space, in order. */
  function Spaced(fs: seq<string>): (r: string)
    ensures IsBuffer(r)
  {
    if fs == [] then "" else " " + fs[0] + Spaced(fs[1..])
  }

  /** The words of every fragment, in order. */
  function WordsOf(fs: seq<string>): seq<string>
  {
    if fs == [] then [] else Tokens(fs[0]) + WordsOf(fs[1..])
  }

  /** Repeated argappend from "" lays the fragments out in the order they were appended. */
  lemma {:induction false} SpacedAppend(fs: seq<string>, f: string)
    ensures Spaced(fs + [f]) == ArgAppend(Spaced(fs), f)
    decreases |fs|
  {
    if fs == [] {
      assert fs + [f] == [f];
    } else {
      assert (fs + [f])[1..] == fs[1..] + [f];
      SpacedAppend(fs[1..], f);
    }
  }

  /** argappend keeps the buffer shape: empty, or starting with a space. */
  lemma ArgAppendKeepsBuffer(b: string, frag: string)
    requires IsBuffer(b)
    ensures IsBuffer(ArgAppend(b, frag))
  {
    var r := ArgAppend(b, frag);
    if b == "" {
      assert r[0] == ' ';
    } else {
      assert r[0] == b[0];
    }
  }

  /** argappend adds exactly the fragment's words at the end of the buffer's. */
  lemma ArgAppendWords(b: string, frag: string)
    requires IsBuffer(b)
    ensures BufferWords(ArgAppend(b, frag)) == BufferWords(b) + Tokens(frag)
  {
    var t := Tokens(b);
    TokensAppend(b, frag);
    assert Tokens(ArgAppend(b, frag)) == t + Tokens(frag);
    assert (t + Tokens(frag))[1..] == t[1..] + Tokens(frag);
  }

  /** A buffer spliced after some text adds its words to the text's tokens. */
  lemma TokensThroughBuffer(x: string, b: string)
    requires IsBuffer(b)
    ensures Tokens(x + b) == Tokens(x) + BufferWords(b)
  {
    if b == "" {
      assert x + b == x;
    } else {
      var r := b[1..];
      assert b == "" + " " + r;
      assert x + b == x + " " + r;
      TokensAppend(x, r);
      TokensAppend("", r);
    }
  }

  /** The words of a buffer built from fragments are the fragments' words. */
  lemma {:induction false} SpacedWords(fs: seq<string>)
    ensures BufferWords(Spaced(fs)) == WordsOf(fs)
    decreases |fs|
  {
    if fs != [] {
      SpacedWords(fs[1..]);
      var rest := Spaced(fs[1..]);
      assert Spaced(fs) == "" + " " + (fs[0] + rest);
      TokensAppend("", fs[0] + rest);
      TokensThroughBuffer(fs[0], rest);
    }
  }

  predicate NoSpace(s: string) { forall i :: 0 <= i < |s| ==> s[i] != ' ' }

  /** "swap", "vnode" or "malloc": the type word of the -t option. */
  function TypeName(t: MdType): (r: string)
    ensures r != "" && NoSpace(r)
  {
    match t
    case Swap => "swap"
    case Vnode => "vnode"
    case Malloc => "malloc"
  }

  /** The type argument: "-t swap", "-t vnode" or "-t malloc" (mdmfs.c 333-345, 366-378). */
  function TypeArg(t: MdType): string
  {
    "-t" + " " + TypeName(t)
  }

  /** "%s%d" with mdname and the unit, e.g. "md3" (or "md-1" for the unset unit). */
  function DeviceName(unit: int): (r: string)
    ensures NoSpace(r)
  {
    IntToStringNoSpace(unit);
    MdName + IntToString(unit)
  }

  /** "/dev/%s%d". */
  function DevicePath(unit: int): (r: string)
    ensures NoSpace(r)
  {
    "/dev/" + DeviceName(unit)
  }

  lemma IntToStringNoSpace(i: int)
    ensures NoSpace(IntToString(i))
  {
    var d := NatToString(if i < 0 then -i else i);
    assert forall k :: 0 <= k < |d| ==> IsDigit(d[k]);
  }

  /*
   * The templates below spell each format string of mdmfs.c as words
   * separated by single spaces; the strings are the ones snprintf builds.
   */

  /** do_mdconfig_detach: "%s -d -u %s%d" (mdmfs.c 417). */
  function DetachCmd(unit: int): string
  {
    PathMdconfig + " " + "-d" + " " + "-u" + " " + DeviceName(unit)
  }

  /** do_mdconfig_attach_au: "%s -a %s%s", no unit (mdmfs.c 379). */
  function AttachAutoCmd(t: MdType, args: string): string
  {
    PathMdconfig + " " + "-a" + " " + TypeArg(t) + args
  }

  /** do_mdconfig_attach: "%s -a %s%s -u %s%d" (mdmfs.c 346-347). */
  function AttachCmd(t: MdType, args: string, unit: int): string
  {
    AttachAutoCmd(t, args) + " " + "-u" + " " + DeviceName(unit)
  }

  /** do_newfs: "%s%s /dev/%s%d" (mdmfs.c 481). */
  function NewfsCmd(args: string, unit: int): string
  {
    PathNewfs + args + " " + DevicePath(unit)
  }

  /** do_mount: "%s%s /dev/%s%d %s" (mdmfs.c 431-432). */
  function MountCmd(args: string, unit: int, mtpoint: string): string
  {
    PathMount + args + " " + DevicePath(unit) + " " + mtpoint
  }

  /** The fixed words of the templates contain no space. */
  lemma PathsNoSpace()
    ensures NoSpace(PathMdconfig) && NoSpace(PathNewfs) && NoSpace(PathMount)
  {
  }

  lemma FlagsNoSpace()
    ensures NoSpace("-a") && NoSpace("-d") && NoSpace("-t") && NoSpace("-u")
  {
  }

  lemma WordIsToken(w: string)
    requires NoSpace(w)
    ensures Tokens(w) == [w]
  {
    TokensNoSpace(w);
  }

  /** Words without spaces joined by single spaces tokenise back into themselves. */
  lemma TwoWords(a: string, b: string)
    requires NoSpace(a) && NoSpace(b)
    ensures Tokens(a + " " + b) == [a, b]
  {
    TokensAppend(a, b);
    WordIsToken(a);
    WordIsToken(b);
  }

  lemma FourWords(a: string, b: string, c: string, d: string)
    requires NoSpace(a) && NoSpace(b) && NoSpace(c) && NoSpace(d)
    ensures Tokens(a + " " + b + " " + c + " " + d) == [a, b, c, d]
  {
    TokensAppend(a + " " + b + " " + c, d);
    TokensAppend(a + " " + b, c);
    TwoWords(a, b);
    WordIsToken(c);
    WordIsToken(d);
  }

  /** A command line whose first token is not empty loses no token in run(). */
  lemma ArgvWordsKeepFirst(cmd: string)
    requires Tokens(cmd)[0] != ""
    ensures ArgvWords(cmd) == Tokens(cmd)
  {
  }

  /** The detach command line is exactly the four words mdconfig -d -u md<unit>. */
  lemma DetachWords(unit: int)
    ensures ArgvWords(DetachCmd(unit)) == [PathMdconfig, "-d", "-u", DeviceName(unit)]
  {
    PathsNoSpace();
    FlagsNoSpace();
    FourWords(PathMdconfig, "-d", "-u", DeviceName(unit));
    ArgvWordsKeepFirst(DetachCmd(unit));
  }

  lemma AttachPrefixWords(t: MdType)
    ensures Tokens(PathMdconfig + " " + "-a" + " " + TypeArg(t)) == [PathMdconfig, "-a", "-t", TypeName(t)]
  {
    PathsNoSpace();
    FlagsNoSpace();
    FourWords(PathMdconfig, "-a", "-t", TypeName(t));
    assert PathMdconfig + " " + "-a" + " " + TypeArg(t) == PathMdconfig + " " + "-a" + " " + "-t" + " " + TypeName(t);
  }

  /** The auto-unit attach command line carries no -u option of its own. */
  lemma AttachAutoWords(t: MdType, args: string)
    requires IsBuffer(args)
    ensures ArgvWords(AttachAutoCmd(t, args)) ==
            [PathMdconfig, "-a", "-t", TypeName(t)] + BufferWords(args)
  {
    TokensThroughBuffer(PathMdconfig + " " + "-a" + " " + TypeArg(t), args);
    AttachPrefixWords(t);
    ArgvWordsKeepFirst(AttachAutoCmd(t, args));
  }

  /**
   * The fixed-unit attach command line: mdconfig -a -t <type>, the
   * accumulated argument words, then -u md<unit>.
   */
  lemma AttachWords(t: MdType, args: string, unit: int)
    requires IsBuffer(args)
    ensures ArgvWords(AttachCmd(t, args, unit)) ==
            [PathMdconfig, "-a", "-t", TypeName(t)] + BufferWords(args) + ["-u", DeviceName(unit)]
  {
    var head := AttachAutoCmd(t, args);
    var d := DeviceName(unit);
    assert AttachCmd(t, args, unit) == head + " " + ("-u" + " " + d);
    TokensAppend(head, "-u" + " " + d);
    FlagsNoSpace();
    TwoWords("-u", d);
    TokensThroughBuffer(PathMdconfig + " " + "-a" + " " + TypeArg(t), args);
    AttachPrefixWords(t);
    ArgvWordsKeepFirst(AttachCmd(t, args, unit));
  }

  /** newfs gets the accumulated words, then the device path as its last word. */
  lemma NewfsWords(args: string, unit: int)
    requires IsBuffer(args)
    ensures ArgvWords(NewfsCmd(args, unit)) == [PathNewfs] + BufferWords(args) + [DevicePath(unit)]
  {
    var x, d := PathNewfs + args, DevicePath(unit);
    TokensAppend(x, d);
    TokensThroughBuffer(PathNewfs, args);
    PathsNoSpace();
    WordIsToken(PathNewfs);
    WordIsToken(d);
    ArgvWordsKeepFirst(NewfsCmd(args, unit));
  }

  /** A space-free word between two spaces is one token. */
  lemma TokensAroundWord(x: string, d: string, m: string)
    requires NoSpace(d)
    ensures Tokens(x + " " + d + " " + m) == Tokens(x) + [d] + Tokens(m)
  {
    TokensAppend(x + " " + d, m);
    TokensAppend(x, d);
    WordIsToken(d);
  }

  /**
   * mount gets the accumulated words, the device path, then the mountpoint
   * split at its spaces: a mountpoint with a space becomes two words.
   */
  lemma MountWords(args: string, unit: int, mtpoint: string)
    requires IsBuffer(args)
    ensures ArgvWords(MountCmd(args, unit, mtpoint)) ==
            [PathMount] + BufferWords(args) + [DevicePath(unit)] + Tokens(mtpoint)
  {
    var x, d := PathMount + args, DevicePath(unit);
    TokensAroundWord(x, d, mtpoint);
    TokensThroughBuffer(PathMount, args);
    PathsNoSpace();
    WordIsToken(PathMount);
    assert Tokens(x) == [PathMount] + BufferWords(args);
    ArgvWordsKeepFirst(MountCmd(args, unit, mtpoint));
  }

  /** A command line that starts with a program path passes run()'s assert(*argv). */
  lemma PathFirst(cmd: string)
    requires cmd != [] && cmd[0] == '/'
    ensures ArgvWords(cmd) != []
  {
    ArgvWordsOfPlainCommand(cmd);
  }

  /** Every command line mdmfs builds starts with the path of its helper program. */
  lemma DetachCmdRuns(unit: int)
    ensures ArgvWords(DetachCmd(unit)) != []
  {
    PathFirst(DetachCmd(unit));
  }

  lemma AttachAutoCmdRuns(t: MdType, args: string)
    ensures ArgvWords(AttachAutoCmd(t, args)) != []
  {
    PathFirst(AttachAutoCmd(t, args));
  }

  lemma AttachCmdRuns(t: MdType, args: string, unit: int)
    ensures ArgvWords(AttachCmd(t, args, unit)) != []
  {
    PathFirst(AttachCmd(t, args, unit));
  }

  lemma NewfsCmdRuns(args: string, unit: int)
    ensures ArgvWords(NewfsCmd(args, unit)) != []
  {
    PathFirst(NewfsCmd(args, unit));
  }

  lemma MountCmdRuns(args: string, unit: int, mtpoint: string)
    ensures ArgvWords(MountCmd(args, unit, mtpoint)) != []
  {
    PathFirst(MountCmd(args, unit, mtpoint));
  }
}
