/**
 * mdmfs as the program runs it: the process globals and main's locals as
 * the fields of one object, the getopt loop updating them option by option,
 * run() and the do_* helpers appending to the trace of what the program
 * does, and main calling them in order.  Each method is proved to agree
 * with the functions of Options and Pipeline, whose properties are proved
 * there.
 */
module Process {
  import opened Types
  import opened Decimal
  import opened Argv
  import opened Runner
  import opened Units
  import opened Ownership
  import opened Commands
  import opened Options
  import opened Pipeline

  /** The option state with one buffer replaced. */
  function WithBuffer(st: OptState, b: Buffer, s: string): OptState
  {
    match b
    case MdconfigBuf => st.(mdconfigArg := s)
    case NewfsBuf => st.(newfsArg := s)
    case MountBuf => st.(mountArg := s)
  }

  /**
   * The getopt loop (mdmfs.c 121-231) over main's variables: one pass of the
   * switch per option, stopping at the first option that ends the program.
   */
  method OptionLoop(env: Env, s0: OptState, opts: seq<Opt>) returns (st: OptState, f: Option<Failure>)
    ensures var r := Fold(env, s0, opts);
            && (r.Ok? ==> f == None && st == r.value)
            && (r.Err? ==> f == Some(r.error))
  {
    st := s0;
    var i := 0;
    while i < |opts|
      invariant 0 <= i <= |opts|
      invariant Fold(env, s0, opts[..i]) == Ok(st)
    {
      FoldPrefixStep(env, s0, opts, i, st);
      var st', fo := Switch(env, st, opts[i]);
      if fo != None {
        FoldErrSticks(env, s0, opts, i + 1);
        return st, fo;
      }
      st := st';
      i := i + 1;
    }
    assert opts[..i] == opts;
    f := None;
  }

  /** The globals of mdmfs.c 64-68, and what the program has done so far. */
  class Program {
    var debug: bool
    var loudsubs: bool
    var norun: bool
    var unit: int
    var trace: seq<Event>

    /** The run-time switches of the work phase agree with the configuration c. */
    predicate Follows(c: Config)
      reads this
    {
      debug == c.debug && loudsubs == c.loudsubs && norun == c.norun
    }

    /** Statics start zeroed. */
    constructor ()
      ensures !debug && !loudsubs && !norun
      ensures unit == 0 && trace == []
    {
      debug, loudsubs, norun, unit := false, false, false, 0;
      trace := [];
    }

    // -------------------------------------------------------------------
    // run() and the helpers of main
    // -------------------------------------------------------------------

    /**
     * run() (mdmfs.c 563-655): split the command line into argv, write the
     * debug line, and unless norun makes the child _exit(0) at once, exec
     * the program with the streams its dup2 calls set up; what the child's
     * end is comes from the outside world.  The assert(*argv) of the source
     * is the precondition.
     */
    method Run(ghost c: Config, cmd: string, capture: bool, child: ChildEnd) returns (rv: nat)
      requires Follows(c) && ArgvWords(cmd) != []
      modifies this
      ensures trace == old(trace) + RunEvents(c, cmd, capture)
      ensures rv == RunStatus(c, child)
      ensures Follows(c) && unit == old(unit)
    {
      var events;
      events, rv := Spawn(c, debug, loudsubs, norun, cmd, capture, child);
      trace := trace + events;
    }

    /** do_mdconfig_detach (mdmfs.c 412-421): a non-zero status is only reported, in debug mode. */
    method DoMdconfigDetach(ghost c: Config, w: World)
      requires Follows(c)
      modifies this
      ensures trace == old(trace) + Detach(c, unit, w)
      ensures Follows(c) && unit == old(unit)
    {
      DetachCmdRuns(unit);
      ghost var t0, r := trace, RunEvents(c, DetachCmd(unit), false);
      var rv := Run(c, DetachCmd(unit), false, w.detach);
      if rv != 0 && debug {
        trace := trace + [DetachIgnored(rv)];
        assert trace == t0 + (r + [DetachIgnored(rv)]);
      } else {
        assert r + [] == r;
      }
    }

    /** do_mdconfig_attach (mdmfs.c 327-350): a non-zero status is fatal. */
    method DoMdconfigAttach(ghost c: Config, args: string, mdtype: MdType, w: World)
      returns (f: Option<Failure>)
      requires Follows(c) && args == c.mdconfigArg && mdtype == c.mdtype
      modifies this
      ensures trace == old(trace) + AttachFixed(c, unit, w).trace
      ensures f == AttachFixed(c, unit, w).failure
      ensures Follows(c) && unit == old(unit)
    {
      AttachCmdRuns(mdtype, args, unit);
      var rv := Run(c, AttachCmd(mdtype, args, unit), false, w.attach);
      f := if rv != 0 then Some(AttachFailed(rv)) else None;
    }

    /**
     * do_mdconfig_attach_au (mdmfs.c 355-407): a non-zero status is fatal;
     * under norun the unit is set to -1, otherwise it is read from the
     * first line mdconfig printed.
     */
    method DoMdconfigAttachAu(ghost c: Config, args: string, mdtype: MdType, w: World)
      returns (f: Option<Failure>)
      requires Follows(c) && args == c.mdconfigArg && mdtype == c.mdtype
      modifies this
      ensures trace == old(trace) + AttachAuto(c, w).trace
      ensures f == AttachAuto(c, w).failure
      ensures f == None ==> unit == AttachAuto(c, w).unit
      ensures Follows(c)
    {
      AttachAutoCmdRuns(mdtype, args);
      var rv := Run(c, AttachAutoCmd(mdtype, args), true, w.attach);
      if rv != 0 {
        return Some(AttachFailed(rv));
      }
      if norun {
        unit := -1;
        return None;
      }
      var read := ParseAttachOutput(w.attachOutput);
      if read.Err? {
        return Some(read.error);
      }
      unit := read.value;
      f := None;
    }

    /** do_newfs (mdmfs.c 476-484): a non-zero status is fatal. */
    method DoNewfs(ghost c: Config, args: string, w: World) returns (f: Option<Failure>)
      requires Follows(c) && args == c.newfsArg
      modifies this
      ensures trace == old(trace) + Newfs(c, unit, w).0
      ensures f == Newfs(c, unit, w).1
      ensures Follows(c) && unit == old(unit)
    {
      NewfsCmdRuns(args, unit);
      var rv := Run(c, NewfsCmd(args, unit), false, w.newfs);
      f := if rv != 0 then Some(NewfsFailed(rv)) else None;
    }

    /** do_mount (mdmfs.c 426-435): a non-zero status is fatal. */
    method DoMount(ghost c: Config, args: string, mtpoint: string, w: World) returns (f: Option<Failure>)
      requires Follows(c) && args == c.mountArg && mtpoint == c.mtpoint
      modifies this
      ensures trace == old(trace) + Mount(c, unit, w).0
      ensures f == Mount(c, unit, w).1
      ensures Follows(c) && unit == old(unit)
    {
      MountCmdRuns(args, unit, mtpoint);
      var rv := Run(c, MountCmd(args, unit, mtpoint), false, w.mount);
      f := if rv != 0 then Some(MountFailed(rv)) else None;
    }

    /** do_mtptsetup (mdmfs.c 441-471), on the mountpoint and the record main filled in. */
    method DoMtptSetup(ghost c: Config, mtpoint: string, mip: MtptInfo, w: World) returns (f: Option<Failure>)
      requires Follows(c) && mtpoint == c.mtpoint && mip == c.mi
      modifies this
      ensures trace == old(trace) + MtptSetup(c, w).0
      ensures f == MtptSetup(c, w).1
      ensures Follows(c) && unit == old(unit)
    {
      var events;
      events, f := MtptSetupBlocks(c, debug, norun, mtpoint, mip, w);
      trace := trace + events;
    }

    // -------------------------------------------------------------------
    // main
    // -------------------------------------------------------------------

    /**
     * main (mdmfs.c 84-276) from a zeroed process: the command line, the
     * globals it sets, then the work.
     */
    method Start(env: Env, progName: string, opts: seq<Opt>, operands: seq<string>, w: World)
      returns (f: Option<Failure>)
      requires !debug && !loudsubs && !norun && unit == 0 && trace == []
      modifies this
      ensures trace == Mdmfs(env, progName, opts, operands, w).trace
      ensures f == Mdmfs(env, progName, opts, operands, w).failure
      ensures f == None ==> unit == Mdmfs(env, progName, opts, operands, w).unit
    {
      var r := ReadCommandLine(env, progName, opts, operands);
      if r.Err? {
        return Some(r.error);
      }
      f := Configure(r.value, w);
      assert [] + Work(r.value, w).trace == Work(r.value, w).trace;
    }

    /** The globals main sets from an accepted command line (mdmfs.c 243-256), then the work. */
    method Configure(c: Config, w: World) returns (f: Option<Failure>)
      modifies this
      ensures trace == old(trace) + Work(c, w).trace
      ensures f == Work(c, w).failure
      ensures f == None ==> unit == Work(c, w).unit
    {
      ghost var t0 := trace;
      debug, loudsubs, norun := c.debug, c.loudsubs, c.norun;
      var autounit := c.unit.AutoUnit?;
      unit := if autounit then -1 else c.unit.n;
      assert trace == t0;
      f := DoWork(c, c.detach, autounit, c.mdtype, c.mi, c.mdconfigArg, c.newfsArg, c.mountArg, c.mtpoint, w);
    }

    /** "Do the work" (mdmfs.c 264-273): each helper runs only when the earlier ones succeeded. */
    method DoWork(ghost c: Config, detach: bool, autounit: bool, mdtype: MdType, mi: MtptInfo,
                  mdconfigArg: string, newfsArg: string, mountArg: string, mtpoint: string, w: World)
      returns (f: Option<Failure>)
      requires Follows(c) && detach == c.detach && autounit == c.unit.AutoUnit? && mdtype == c.mdtype
      requires mi == c.mi && mdconfigArg == c.mdconfigArg && newfsArg == c.newfsArg
      requires mountArg == c.mountArg && mtpoint == c.mtpoint
      requires c.unit.FixedUnit? ==> unit == c.unit.n
      modifies this
      ensures trace == old(trace) + Work(c, w).trace
      ensures f == Work(c, w).failure
      ensures f == None ==> unit == Work(c, w).unit
    {
      WorkSteps(c, w);
      ghost var t0 := trace;
      f := DoAttached(c, detach, autounit, mdtype, mdconfigArg, w);
      if f != None {
        return;
      }
      ghost var a := Attached(c, w).trace;
      f := DoNewfs(c, newfsArg, w);
      ghost var nf := Newfs(c, unit, w).0;
      Concat3(t0, a, nf);
      if f != None {
        return;
      }
      f := DoMount(c, mountArg, mtpoint, w);
      ghost var mt := Mount(c, unit, w).0;
      Concat3(t0, a + nf, mt);
      if f != None {
        return;
      }
      f := DoMtptSetup(c, mtpoint, mi, w);
      Concat3(t0, a + nf + mt, MtptSetup(c, w).0);
    }

    /** The first two lines of the work: the detach when planned, then the attach. */
    method DoAttached(ghost c: Config, detach: bool, autounit: bool, mdtype: MdType, mdconfigArg: string,
                      w: World) returns (f: Option<Failure>)
      requires Follows(c) && detach == c.detach && autounit == c.unit.AutoUnit? && mdtype == c.mdtype
      requires mdconfigArg == c.mdconfigArg
      requires c.unit.FixedUnit? ==> unit == c.unit.n
      modifies this
      ensures trace == old(trace) + Attached(c, w).trace
      ensures f == Attached(c, w).failure
      ensures f == None ==> unit == Attached(c, w).unit
      ensures Follows(c)
    {
      ghost var t0 := trace;
      ghost var pre: seq<Event> := [];
      if detach && !autounit {
        DoMdconfigDetach(c, w);
        pre := Detach(c, unit, w);
      } else {
        assert t0 + pre == t0;
      }
      ghost var t1 := trace;
      assert t1 == t0 + pre;
      if autounit {
        f := DoMdconfigAttachAu(c, mdconfigArg, mdtype, w);
        assert Attached(c, w) == AttachAuto(c, w);
      } else {
        f := DoMdconfigAttach(c, mdconfigArg, mdtype, w);
        ghost var a := AttachFixed(c, unit, w);
        assert Attached(c, w) == Outcome(pre + a.trace, unit, a.failure);
        Concat3(t0, pre, a.trace);
      }
    }
  }

  /**
   * The whole process: statics zeroed, main, and the exit status or abort
   * that ends it.
   */
  method RunMdmfs(env: Env, progName: string, opts: seq<Opt>, operands: seq<string>, w: World)
    returns (trace: seq<Event>, t: Termination)
    ensures trace == Mdmfs(env, progName, opts, operands, w).trace
    ensures t == TerminationOf(Mdmfs(env, progName, opts, operands, w).failure)
  {
    var p := new Program();
    var f := p.Start(env, progName, opts, operands, w);
    trace, t := p.trace, TerminationOf(f);
  }

  /**
   * main up to the work (mdmfs.c 98-262): mount_mfs and mfs imply -C, the
   * getopt loop, two operands, the compat mode, the unit, the default type
   * and the soft-updates flag.
   */
  method ReadCommandLine(env: Env, progName: string, opts: seq<Opt>, operands: seq<string>)
    returns (r: Result<Config>)
    ensures r == CommandLine(env, progName, opts, operands)
  {
    var compat := IsCompatName(progName);
    var st, fo := OptionLoop(env, Init(compat), opts);
    if fo != None {
      return Err(fo.value);
    }
    if |operands| < 2 {
      return Err(Usage);
    }
    var mi := st.mi;
    if st.compat {
      mi := mi.(mode := CompatMode, haveMode := true);
    }
    var u := ParseUnit(operands[0]);
    if u.Err? {
      return Err(u.error);
    }
    var mdtype := if st.mdtype.Some? then st.mdtype.value else Swap;
    var newfsArg := st.newfsArg;
    if st.softdep {
      newfsArg := ArgAppend(newfsArg, "-U");
    }
    r := Ok(Config(st.debug, st.loudsubs, st.norun, st.detach, mdtype, mi,
                   st.mdconfigArg, newfsArg, st.mountArg, u.value, operands[1]));
  }

  /**
   * The body of run() (mdmfs.c 563-655) for the switches debug, loudsubs
   * and norun: split the command line into argv, the debug line, and unless
   * norun makes the child _exit(0) at once, the exec of the program with the
   * streams its dup2 calls set up; the child's end comes from the outside
   * world.
   */
  method Spawn(ghost c: Config, debug: bool, loudsubs: bool, norun: bool, cmd: string, capture: bool,
               child: ChildEnd) returns (events: seq<Event>, rv: nat)
    requires debug == c.debug && loudsubs == c.loudsubs && norun == c.norun
    requires ArgvWords(cmd) != []
    ensures events == RunEvents(c, cmd, capture)
    ensures rv == RunStatus(c, child)
  {
    var argv := SplitArgv(cmd);
    var words := ArgvList(argv, ArgvWords(cmd));
    events := [];
    if debug {
      events := events + [Running(words)];
    }
    var end := child;
    if norun {
      end := Exits(0);
    } else {
      var stdio := ChildStreams(capture, loudsubs);
      events := events + [Exec(words, stdio)];
    }
    rv := WExitStatus(WaitStatus(end));
  }

  /** The three blocks of do_mtptsetup: mode, then user, then group, stopping at the first failure. */
  method MtptSetupBlocks(ghost c: Config, debug: bool, norun: bool, mtpoint: string, mip: MtptInfo, w: World)
    returns (events: seq<Event>, f: Option<Failure>)
    requires debug == c.debug && norun == c.norun && mtpoint == c.mtpoint && mip == c.mi
    ensures events == MtptSetup(c, w).0
    ensures f == MtptSetup(c, w).1
  {
    MtptSetupUnfold(c, w);
    var e1, e2, e3;
    e1, f := SetupBlock(c, debug, norun, mip.haveMode, ChangingMode(mtpoint, mip.mode),
                        Chmod(mtpoint, mip.mode), w.chmodFails, ChmodFailed(mtpoint));
    events := e1;
    if f != None {
      return;
    }
    e2, f := SetupBlock(c, debug, norun, mip.haveUid, ChangingUser(mtpoint, mip.uid),
                        ChownUser(mtpoint, mip.uid), w.chownUserFails, ChownUserFailed(mtpoint, mip.uid));
    events := events + e2;
    if f != None {
      return;
    }
    e3, f := SetupBlock(c, debug, norun, mip.haveGid, ChangingGroup(mtpoint, mip.gid),
                        ChownGroup(mtpoint, mip.gid), w.chownGroupFails, ChownGroupFailed(mtpoint, mip.gid));
    events := events + e3;
  }

  /**
   * One block of do_mtptsetup: with its have-flag, the debug line, then
   * unless norun the system call, whose failure is fatal.
   */
  method SetupBlock(ghost c: Config, debug: bool, norun: bool, have: bool, note: Event, action: Event,
                    fails: bool, failure: Failure) returns (events: seq<Event>, f: Option<Failure>)
    requires debug == c.debug && norun == c.norun
    ensures events == SetupStep(c, have, note, action, fails, failure).0
    ensures f == SetupStep(c, have, note, action, fails, failure).1
  {
    events, f := [], None;
    if have {
      if debug {
        events := events + [note];              // debugprintf
      }
      if !norun {
        events := events + [action];
        if fails {
          f := Some(failure);
        }
      }
    }
  }

  /** The debug loop of run() (and execv's view of argv): the strings up to the NULL. */
  method ArgvList(argv: array<Option<string>>, ghost ws: seq<string>) returns (words: seq<string>)
    requires HoldsWords(argv[..], ws)
    ensures words == ws
  {
    words := [];
    var i := 0;
    while argv[i] != None
      invariant 0 <= i <= |ws| && words == ws[..i]
      decreases |ws| - i
    {
      words := words + [argv[i].value];
      i := i + 1;
    }
  }

  /**
   * The child's dup2 calls (mdmfs.c 625-641): the pipe onto stdout when the
   * output is captured, then, unless helpers are loud, /dev/null onto
   * stdin, onto stdout when it is not captured, and onto stderr.
   */
  method ChildStreams(capture: bool, loudsubs: bool) returns (s: Stdio)
    ensures s == ChildStdio(capture, loudsubs)
  {
    s := Stdio(Inherited, Inherited, Inherited);
    var dup2dn := !capture;
    if capture {
      s := s.(stdout := ToPipe);
    }
    if !loudsubs {
      s := s.(stdin := DevNull);
      if dup2dn {
        s := s.(stdout := DevNull);
      }
      s := s.(stderr := DevNull);
    }
  }

  // ---------------------------------------------------------------------
  // The value of OptStep for each kind of case of the switch.
  // ---------------------------------------------------------------------

  /** -l, -O, -o, -s and -v: the option only contributes its fragment. */
  lemma FragmentCase(env: Env, st: OptState, o: Opt)
    requires o.ch in {'l', 'O', 'o', 's', 'v'}
    ensures Fragment(o).Some?
    ensures var (b, frag) := Fragment(o).value;
            OptStep(env, st, o) == Ok(WithBuffer(st, b, ArgAppend(BufferOf(st, b), frag)))
  {
    assert Admissible(env, st.compat, st.mdtype.Some?, o);
  }

  /** An option newfs takes under the same letter. */
  lemma NewfsCase(env: Env, st: OptState, o: Opt)
    requires o.ch in NewfsLetters
    ensures OptStep(env, st, o) == Ok(st.(newfsArg := ArgAppend(st.newfsArg, ['-', o.ch, ' '] + o.arg)))
  {
    assert Fragment(o) == Some((NewfsBuf, ['-', o.ch, ' '] + o.arg));
    assert Admissible(env, st.compat, st.mdtype.Some?, o);
  }

  /** -C, -D, -L, -N, -S, -U and -X: one switch each. */
  lemma FlagCase(env: Env, st: OptState, o: Opt)
    requires o.ch in {'C', 'D', 'L', 'N', 'S', 'U', 'X'} && (o.ch != 'U' ==> !st.compat)
    ensures OptStep(env, st, o) ==
            Ok(st.(compat := st.compat || o.ch == 'C', debug := st.debug || o.ch == 'X',
                   loudsubs := st.loudsubs || o.ch == 'L', norun := st.norun || o.ch == 'N',
                   detach := st.detach && o.ch != 'D',
                   softdep := if o.ch == 'S' then false else if o.ch == 'U' then true else st.softdep))
  {
  }

  /** The options refused in compat mode. */
  lemma RefusedCase(env: Env, st: OptState, o: Opt)
    requires o.ch in CompatRefused && st.compat
    ensures OptStep(env, st, o) == Err(Usage)
  {
  }

  /** -F and -M: refused after a type option. */
  lemma TypeCase(env: Env, st: OptState, o: Opt)
    requires o.ch == 'F' || o.ch == 'M'
    ensures OptStep(env, st, o) ==
            if st.mdtype.Some? then Err(Usage)
            else if o.ch == 'F' then Ok(st.(mdtype := Some(Vnode), mdconfigArg := ArgAppend(st.mdconfigArg, "-f " + o.arg)))
            else Ok(st.(mdtype := Some(Malloc)))
  {
  }

  /** -p outside compat mode. */
  lemma ModeCase(env: Env, st: OptState, o: Opt)
    requires o.ch == 'p' && !st.compat
    ensures OptStep(env, st, o) ==
            if o.arg in env.modes then Ok(st.(mi := st.mi.(mode := env.modes[o.arg], haveMode := true)))
            else Err(Usage)
  {
  }

  /** -w outside compat mode. */
  lemma OwnerCase(env: Env, st: OptState, o: Opt)
    requires o.ch == 'w' && !st.compat
    ensures var r := ExtractUgid(env.users, env.groups, o.arg, st.mi);
            OptStep(env, st, o) == if r.Ok? then Ok(st.(mi := r.value)) else Err(r.error)
  {
    ExtractUgidIgnoresPrevious(env.users, env.groups, o.arg, st.mi, NoInfo);
  }

  /** -h and the letters the switch has no case for. */
  lemma UnknownCase(env: Env, st: OptState, o: Opt)
    requires o.ch !in Accepted
    ensures OptStep(env, st, o) == Err(Usage)
  {
  }

  /**
   * One pass of the switch (mdmfs.c 123-231) on the variables of the loop:
   * it agrees with Options.OptStep, the variable-by-variable account of
   * what each option does and when it is refused.
   */
  method Switch(env: Env, st: OptState, o: Opt) returns (st': OptState, f: Option<Failure>)
    ensures OptStep(env, st, o).Ok? ==> f == None && st' == OptStep(env, st, o).value
    ensures OptStep(env, st, o).Err? ==> f == Some(OptStep(env, st, o).error)
  {
    st', f := st, None;
    match o.ch
    case 'a' | 'b' | 'c' | 'd' | 'e' | 'f' | 'i' | 'm' | 'n' =>
      // each its own case in the source, all of the form argappend(&newfs_arg, "-<letter> %s", optarg)
      NewfsCase(env, st, o);
      st' := st'.(newfsArg := ArgAppend(st'.newfsArg, ['-', o.ch, ' '] + o.arg));
    case 'C' =>
      if st'.compat { RefusedCase(env, st, o); return st', Some(Usage); }
      FlagCase(env, st, o);
      st' := st'.(compat := true);
    case 'D' =>
      if st'.compat { RefusedCase(env, st, o); return st', Some(Usage); }
      FlagCase(env, st, o);
      st' := st'.(detach := false);
    case 'F' =>
      TypeCase(env, st, o);
      if st'.mdtype.Some? { return st', Some(Usage); }
      st' := st'.(mdtype := Some(Vnode));
      st' := st'.(mdconfigArg := ArgAppend(st'.mdconfigArg, "-f " + o.arg));
    case 'h' =>
      UnknownCase(env, st, o);
      f := Some(Usage);
    case 'L' =>
      if st'.compat { RefusedCase(env, st, o); return st', Some(Usage); }
      FlagCase(env, st, o);
      st' := st'.(loudsubs := true);
    case 'l' =>
      FragmentCase(env, st, o);
      st' := st'.(newfsArg := ArgAppend(st'.newfsArg, "-l"));
    case 'M' =>
      TypeCase(env, st, o);
      if st'.mdtype.Some? { return st', Some(Usage); }
      st' := st'.(mdtype := Some(Malloc));
    case 'N' =>
      if st'.compat { RefusedCase(env, st, o); return st', Some(Usage); }
      FlagCase(env, st, o);
      st' := st'.(norun := true);
    case 'O' =>
      FragmentCase(env, st, o);
      st' := st'.(newfsArg := ArgAppend(st'.newfsArg, "-o " + o.arg));
    case 'o' =>
      FragmentCase(env, st, o);
      st' := st'.(mountArg := ArgAppend(st'.mountArg, "-o " + o.arg));
    case 'p' =>
      if st'.compat { RefusedCase(env, st, o); return st', Some(Usage); }
      ModeCase(env, st, o);
      if o.arg !in env.modes { return st', Some(Usage); }     // setmode(3) failed
      st' := st'.(mi := st'.mi.(mode := env.modes[o.arg], haveMode := true));
    case 'S' =>
      if st'.compat { RefusedCase(env, st, o); return st', Some(Usage); }
      FlagCase(env, st, o);
      st' := st'.(softdep := false);
    case 's' =>
      FragmentCase(env, st, o);
      st' := st'.(mdconfigArg := ArgAppend(st'.mdconfigArg, "-s " + o.arg));
    case 'U' =>
      FlagCase(env, st, o);
      st' := st'.(softdep := true);
    case 'v' =>
      FragmentCase(env, st, o);
      st' := st'.(newfsArg := ArgAppend(st'.newfsArg, "-O " + o.arg));
    case 'w' =>
      if st'.compat { RefusedCase(env, st, o); return st', Some(Usage); }
      OwnerCase(env, st, o);
      var mi', fw := ExtractUgidInto(env.users, env.groups, o.arg, st'.mi);
      if fw != None { return st', fw; }
      st' := st'.(mi := mi');
    case 'X' =>
      if st'.compat { RefusedCase(env, st, o); return st', Some(Usage); }
      FlagCase(env, st, o);
      st' := st'.(debug := true);
    case _ =>
      UnknownCase(env, st, o);
      f := Some(Usage);
  }

  /**
   * extract_ugid (mdmfs.c 507-552) writing the fields of *mip one by one,
   * with the record passed in and handed back: it agrees with
   * Ownership.ExtractUgid, failures included.
   */
  method ExtractUgidInto(users: map<string, nat>, groups: map<string, nat>, str: string, mi: MtptInfo)
    returns (mi': MtptInfo, f: Option<Failure>)
    ensures var r := ExtractUgid(users, groups, str, mi);
            && (f == None <==> r.Ok?)
            && (r.Ok? ==> mi' == r.value)
            && (r.Err? ==> f == Some(r.error))
  {
    mi' := mi.(haveUid := false, haveGid := false);
    var split := SplitUserGroup(str);
    if split.None? || split.value.0 == "" || split.value.1 == "" {
      return mi', Some(Usage);
    }
    var user, group := split.value.0, split.value.1;
    var uid, haveUid, fu := DeriveId(user, users, InvalidUser(user));
    mi' := mi'.(uid := uid, haveUid := haveUid);
    if fu != None {
      return mi', fu;
    }
    var gid, haveGid, fg := DeriveId(group, groups, InvalidGroup(group));
    mi' := mi'.(gid := gid, haveGid := haveGid);
    if fg != None {
      return mi', fg;
    }
    if !mi'.haveUid {
      return mi', Some(AssertionFailed("mip->mi_have_uid"));
    }
    if !mi'.haveGid {
      return mi', Some(AssertionFailed("mip->mi_have_gid"));
    }
    f := None;
  }

  /**
   * The "Derive uid" and "Derive gid" blocks of extract_ugid
   * (mdmfs.c 520-541): strtoul, and a name lookup when anything but digits
   * is left; only the lookup sets the have-flag.
   */
  method DeriveId(half: string, names: map<string, nat>, unknown: Failure)
    returns (id: nat, have: bool, f: Option<Failure>)
    ensures f == None ==> ResolveHalf(half, names, unknown, false) == Ok((id, have))
    ensures f != None ==> ResolveHalf(half, names, unknown, false) == Err(unknown) && f == Some(unknown)
  {
    StrtoulWhole(half);
    var rest;
    id, rest := Strtoul(half).0, Strtoul(half).1;
    have, f := false, None;
    if rest != "" {
      if half !in names {
        return id, have, Some(unknown);
      }
      id, have := names[half], true;
    }
  }
}
