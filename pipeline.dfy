/**
 * The work phase of main (mdmfs.c 264-273) and the helpers it calls:
 * detach, attach with a fixed or an automatic unit, newfs, mount and the
 * mountpoint setup.  The outside world (the exit of each helper program,
 * what mdconfig prints, whether chmod and chown fail) is a World value, and
 * what the program does is an ordered trace of events: what debug mode
 * writes to stderr and the actions it takes on the system.
 */
module Pipeline {
  import opened Types
  import opened Decimal
  import opened Argv
  import opened Runner
  import opened Units
  import opened Commands
  import opened Options

  /** One thing mdmfs does that can be observed from outside. */
  datatype Event =
    | Running(words: seq<string>)                  // "DEBUG: running: ..." (debug only)
    | Exec(argv: seq<string>, stdio: Stdio)        // a helper program really runs
    | DetachIgnored(code: nat)                     // the detach warning (debug only)
    | ChangingMode(path: string, mode: nat)        // debugprintf before chmod
    | Chmod(path: string, mode: nat)
    | ChangingUser(path: string, uid: nat)         // debugprintf before chown(uid, -1)
    | ChownUser(path: string, uid: nat)
    | ChangingGroup(path: string, gid: nat)        // debugprintf before chown(-1, gid)
    | ChownGroup(path: string, gid: nat)

  /** The events that change the system, as opposed to debug output. */
  predicate IsAction(e: Event)
  {
    e.Exec? || e.Chmod? || e.ChownUser? || e.ChownGroup?
  }

  /**
   * What the outside world answers: how each helper program ends, what
   * mdconfig prints when it chooses the unit, and whether each of the three
   * mountpoint system calls fails.
   */
  datatype World = World(detach: ChildEnd, attach: ChildEnd, attachOutput: string,
                         newfs: ChildEnd, mount: ChildEnd,
                         chmodFails: bool, chownUserFails: bool, chownGroupFails: bool)

  /** The trace so far, the unit global, and the failure that stopped the program, if any. */
  datatype Outcome = Outcome(trace: seq<Event>, unit: int, failure: Option<Failure>)

  // ---------------------------------------------------------------------
  // run()
  // ---------------------------------------------------------------------

  /**
   * The events of one run(): the debug line with the words of the argument
   * vector, then, unless norun makes the child _exit(0) at once, the exec of
   * those words with the child's streams set up by its dup2 calls.
   */
  function RunEvents(c: Config, cmd: string, capture: bool): seq<Event>
  {
    (if c.debug then [Running(ArgvWords(cmd))] else []) +
    (if c.norun then [] else [Exec(ArgvWords(cmd), ChildStdio(capture, c.loudsubs))])
  }

  /** run()'s return value: under norun the child exits with status 0. */
  function RunStatus(c: Config, child: ChildEnd): nat
  {
    ExitStatus(if c.norun then Exits(0) else child)
  }

  // ---------------------------------------------------------------------
  // The helpers of main
  // ---------------------------------------------------------------------

  /** do_mdconfig_detach: a non-zero status is only reported, and only in debug mode. */
  function Detach(c: Config, unit: int, w: World): seq<Event>
  {
    var rv := RunStatus(c, w.detach);
    RunEvents(c, DetachCmd(unit), false) + (if rv != 0 && c.debug then [DetachIgnored(rv)] else [])
  }

  /** do_mdconfig_attach: a non-zero status is fatal. */
  function AttachFixed(c: Config, unit: int, w: World): Outcome
  {
    var rv := RunStatus(c, w.attach);
    Outcome(RunEvents(c, AttachCmd(c.mdtype, c.mdconfigArg, unit), false), unit,
            if rv != 0 then Some(AttachFailed(rv)) else None)
  }

  /**
   * do_mdconfig_attach_au: mdconfig's stdout is captured; a non-zero status
   * is fatal; under norun the unit becomes -1, otherwise it is read from the
   * first line of the output.
   */
  function AttachAuto(c: Config, w: World): Outcome
  {
    var events := RunEvents(c, AttachAutoCmd(c.mdtype, c.mdconfigArg), true);
    var rv := RunStatus(c, w.attach);
    if rv != 0 then Outcome(events, AutoUnitSentinel, Some(AttachFailed(rv)))
    else if c.norun then Outcome(events, -1, None)
    else match ParseAttachOutput(w.attachOutput)
      case Ok(n) => Outcome(events, n, None)
      case Err(f) => Outcome(events, AutoUnitSentinel, Some(f))
  }

  /** do_newfs: a non-zero status is fatal. */
  function Newfs(c: Config, unit: int, w: World): (seq<Event>, Option<Failure>)
  {
    var rv := RunStatus(c, w.newfs);
    (RunEvents(c, NewfsCmd(c.newfsArg, unit), false), if rv != 0 then Some(NewfsFailed(rv)) else None)
  }

  /** do_mount: a non-zero status is fatal. */
  function Mount(c: Config, unit: int, w: World): (seq<Event>, Option<Failure>)
  {
    var rv := RunStatus(c, w.mount);
    (RunEvents(c, MountCmd(c.mountArg, unit, c.mtpoint), false), if rv != 0 then Some(MountFailed(rv)) else None)
  }

  /**
   * One guarded step of do_mtptsetup: nothing without its have-flag;
   * otherwise the debug line, then (unless norun) the system call, whose
   * failure is fatal.
   */
  function SetupStep(c: Config, have: bool, note: Event, action: Event, fails: bool,
                     failure: Failure): (seq<Event>, Option<Failure>)
  {
    if !have then ([], None)
    else
      ((if c.debug then [note] else []) + (if c.norun then [] else [action]),
       if !c.norun && fails then Some(failure) else None)
  }

  /** do_mtptsetup: mode, then user, then group, stopping at the first failure. */
  function MtptSetup(c: Config, w: World): (seq<Event>, Option<Failure>)
  {
    var p, mi := c.mtpoint, c.mi;
    var (e1, f1) := SetupStep(c, mi.haveMode, ChangingMode(p, mi.mode), Chmod(p, mi.mode),
                              w.chmodFails, ChmodFailed(p));
    if f1.Some? then (e1, f1)
    else
      var (e2, f2) := SetupStep(c, mi.haveUid, ChangingUser(p, mi.uid), ChownUser(p, mi.uid),
                                w.chownUserFails, ChownUserFailed(p, mi.uid));
      if f2.Some? then (e1 + e2, f2)
      else
        var (e3, f3) := SetupStep(c, mi.haveGid, ChangingGroup(p, mi.gid), ChownGroup(p, mi.gid),
                                  w.chownGroupFails, ChownGroupFailed(p, mi.gid));
        (e1 + e2 + e3, f3)
  }

  /** Appends a step's events and stops once a failure has occurred. */
  function Then(o: Outcome, step: (seq<Event>, Option<Failure>)): Outcome
  {
    if o.failure.Some? then o else Outcome(o.trace + step.0, o.unit, step.1)
  }

  /** The detach, if any, and the attach: the events, the unit global and the failure. */
  function Attached(c: Config, w: World): Outcome
  {
    match c.unit
    case AutoUnit => AttachAuto(c, w)
    case FixedUnit(n) =>
      var pre := if c.detach then Detach(c, n, w) else [];
      var a := AttachFixed(c, n, w);
      Outcome(pre + a.trace, a.unit, a.failure)
  }

  /**
   * "Do the work" (mdmfs.c 264-273): detach when detach is on and the unit
   * is explicit, attach, newfs, mount, mountpoint setup; every failure but
   * the detach's ends the program.
   */
  function Work(c: Config, w: World): Outcome
  {
    var a := Attached(c, w);
    Then(Then(Then(a, Newfs(c, a.unit, w)), Mount(c, a.unit, w)), MtptSetup(c, w))
  }

  /** The whole program: the command line, then the work. */
  function Mdmfs(env: Env, progName: string, opts: seq<Opt>, operands: seq<string>, w: World): Outcome
  {
    match CommandLine(env, progName, opts, operands)
    case Err(f) => Outcome([], 0, Some(f))
    case Ok(c) => Work(c, w)
  }

  // ---------------------------------------------------------------------
  // Views of a trace
  // ---------------------------------------------------------------------

  /** The argument vectors of the helper programs that really ran, in order. */
  function Execs(t: seq<Event>): seq<seq<string>>
  {
    if t == [] then [] else (if t[0].Exec? then [t[0].argv] else []) + Execs(t[1..])
  }

  /** The system-changing events of a trace, in order. */
  function Actions(t: seq<Event>): seq<Event>
  {
    if t == [] then [] else (if IsAction(t[0]) then [t[0]] else []) + Actions(t[1..])
  }

  lemma {:induction false} ExecsAppend(a: seq<Event>, b: seq<Event>)
    ensures Execs(a + b) == Execs(a) + Execs(b)
    decreases |a|
  {
    if a == [] {
      assert a + b == b;
    } else {
      var h := if a[0].Exec? then [a[0].argv] else [];
      assert (a + b)[0] == a[0] && (a + b)[1..] == a[1..] + b;
      ExecsAppend(a[1..], b);
      assert Execs(a + b) == h + Execs(a[1..] + b);
      Concat3(h, Execs(a[1..]), Execs(b));
    }
  }

  lemma {:induction false} ActionsAppend(a: seq<Event>, b: seq<Event>)
    ensures Actions(a + b) == Actions(a) + Actions(b)
    decreases |a|
  {
    if a == [] {
      assert a + b == b;
    } else {
      var h := if IsAction(a[0]) then [a[0]] else [];
      assert (a + b)[0] == a[0] && (a + b)[1..] == a[1..] + b;
      ActionsAppend(a[1..], b);
      assert Actions(a + b) == h + Actions(a[1..] + b);
      Concat3(h, Actions(a[1..]), Actions(b));
    }
  }

  // ---------------------------------------------------------------------
  // Properties of run()
  // ---------------------------------------------------------------------

  /** Under norun, run() starts nothing and reports success. */
  lemma RunNoRun(c: Config, cmd: string, capture: bool, child: ChildEnd)
    requires c.norun
    ensures Actions(RunEvents(c, cmd, capture)) == []
    ensures Execs(RunEvents(c, cmd, capture)) == []
    ensures RunStatus(c, child) == 0
  {
  }

  /**
   * Otherwise run() executes exactly the argument vector of the command
   * line, once, with stdout on the pipe when it is captured.
   */
  lemma RunExec(c: Config, cmd: string, capture: bool, child: ChildEnd)
    requires !c.norun
    ensures Execs(RunEvents(c, cmd, capture)) == [ArgvWords(cmd)]
    ensures Actions(RunEvents(c, cmd, capture)) == [Exec(ArgvWords(cmd), ChildStdio(capture, c.loudsubs))]
    ensures capture ==> ChildStdio(capture, c.loudsubs).stdout == ToPipe
    ensures RunStatus(c, child) == ExitStatus(child)
  {
    var e := Exec(ArgvWords(cmd), ChildStdio(capture, c.loudsubs));
    var d := if c.debug then [Running(ArgvWords(cmd))] else [];
    ExecsAppend(d, [e]);
    ActionsAppend(d, [e]);
  }

  // ---------------------------------------------------------------------
  // Properties of the work phase
  // ---------------------------------------------------------------------

  /** The argument vector of the detach, if main runs one: only with detach on and an explicit unit. */
  function DetachPlan(c: Config, unit: int): seq<seq<string>>
  {
    if c.detach && c.unit.FixedUnit? then [ArgvWords(DetachCmd(unit))] else []
  }

  /** The attach command line: with -u only for an explicit unit. */
  function AttachPlan(c: Config, unit: int): string
  {
    if c.unit.AutoUnit? then AttachAutoCmd(c.mdtype, c.mdconfigArg) else AttachCmd(c.mdtype, c.mdconfigArg, unit)
  }

  /** The failures that end the program inside the attach step. */
  predicate AttachStepFailure(f: Failure)
  {
    f.AttachFailed? || f.UnexpectedAttachOutput? || f.AssertionFailed?
  }

  /** The unit global after the attach step, for every way the step can go. */
  lemma AttachUnit(c: Config, w: World)
    ensures c.unit.FixedUnit? ==> Work(c, w).unit == c.unit.n
    ensures c.unit.AutoUnit? && c.norun ==> Work(c, w).unit == AutoUnitSentinel
    ensures c.unit.AutoUnit? && !c.norun && ExitStatus(w.attach) == 0 ==>
              match ParseAttachOutput(w.attachOutput)
              case Ok(n) => Work(c, w).unit == n
              case Err(f) => Work(c, w) == Outcome(RunEvents(c, AttachAutoCmd(c.mdtype, c.mdconfigArg), true),
                                                   AutoUnitSentinel, Some(f))
  {
  }

  /** Under norun nothing is executed or changed, nothing fails, and an automatic unit stays -1. */
  lemma NoRunWork(c: Config, w: World)
    requires c.norun
    ensures Work(c, w).failure == None
    ensures Actions(Work(c, w).trace) == []
    ensures c.unit.AutoUnit? ==> Work(c, w).unit == AutoUnitSentinel
  {
    var a := Attached(c, w);
    var u := a.unit;
    assert Actions(a.trace) == [] by {
      if c.unit.FixedUnit? {
        var n := c.unit.n;
        var pre := if c.detach then Detach(c, n, w) else [];
        RunNoRun(c, DetachCmd(n), false, w.detach);
        if c.detach {
          ActionsAppend(RunEvents(c, DetachCmd(n), false), []);
        }
        RunNoRun(c, AttachCmd(c.mdtype, c.mdconfigArg, n), false, w.attach);
        ActionsAppend(pre, AttachFixed(c, n, w).trace);
      } else {
        RunNoRun(c, AttachAutoCmd(c.mdtype, c.mdconfigArg), true, w.attach);
      }
    }
    RunNoRun(c, NewfsCmd(c.newfsArg, u), false, w.newfs);
    RunNoRun(c, MountCmd(c.mountArg, u, c.mtpoint), false, w.mount);
    var nf, mt, ms := Newfs(c, u, w), Mount(c, u, w), MtptSetup(c, w);
    MtptSetupNoRun(c, w);
    ActionsAppend(a.trace, nf.0);
    ActionsAppend(a.trace + nf.0, mt.0);
    ActionsAppend(a.trace + nf.0 + mt.0, ms.0);
  }

  /**
   * The detach and attach step runs the detach, if planned, then the attach,
   * and fails exactly when mdconfig's status is non-zero or, for an
   * automatic unit, its output is not a unit line.
   */
  lemma AttachedExecs(c: Config, w: World)
    requires !c.norun
    ensures var a := Attached(c, w);
            && Execs(a.trace) == DetachPlan(c, a.unit) + [ArgvWords(AttachPlan(c, a.unit))]
            && (a.failure.Some? ==> AttachStepFailure(a.failure.value))
            && (a.failure == None <==>
                  ExitStatus(w.attach) == 0 && (c.unit.AutoUnit? ==> ParseAttachOutput(w.attachOutput).Ok?))
            && (ExitStatus(w.attach) != 0 ==> a.failure == Some(AttachFailed(ExitStatus(w.attach))))
  {
    if c.unit.AutoUnit? {
      RunExec(c, AttachAutoCmd(c.mdtype, c.mdconfigArg), true, w.attach);
    } else {
      AttachedExecsFixed(c, c.unit.n, w);
    }
  }

  lemma AttachedExecsFixed(c: Config, n: nat, w: World)
    requires !c.norun && c.unit == FixedUnit(n)
    ensures Execs(Attached(c, w).trace) == DetachPlan(c, n) + [ArgvWords(AttachPlan(c, n))]
  {
    var pre := if c.detach then Detach(c, n, w) else [];
    var at := AttachCmd(c.mdtype, c.mdconfigArg, n);
    RunExec(c, at, false, w.attach);
    ExecsAppend(pre, RunEvents(c, at, false));
    if c.detach {
      DetachExecs(c, n, w);
    }
  }

  /** The detach runs mdconfig -d once; its warning is not an action. */
  lemma DetachExecs(c: Config, n: int, w: World)
    requires !c.norun
    ensures Execs(Detach(c, n, w)) == [ArgvWords(DetachCmd(n))]
  {
    RunExec(c, DetachCmd(n), false, w.detach);
    var rv := RunStatus(c, w.detach);
    var dw := if rv != 0 && c.debug then [DetachIgnored(rv)] else [];
    ExecsAppend(RunEvents(c, DetachCmd(n), false), dw);
    NoExecs(dw);
  }

  // ---------------------------------------------------------------------
  // Properties of do_mtptsetup
  // ---------------------------------------------------------------------

  lemma SetupStepActions(c: Config, have: bool, note: Event, action: Event, fails: bool, failure: Failure)
    requires !IsAction(note) && IsAction(action)
    ensures Actions(SetupStep(c, have, note, action, fails, failure).0) ==
            (if have && !c.norun then [action] else [])
    ensures SetupStep(c, have, note, action, fails, failure).1 ==
            (if have && !c.norun && fails then Some(failure) else None)
  {
    if have {
      var d := if c.debug then [note] else [];
      var a := if c.norun then [] else [action];
      assert Actions(d) == [] by {
        if c.debug {
          assert Actions([note]) == [] + Actions([]);
        }
      }
      assert Actions(a) == (if c.norun then [] else [action]) by {
        if !c.norun {
          assert Actions([action]) == [action] + Actions([]);
        }
      }
      ActionsAppend(d, a);
    }
  }

  /** The system calls do_mtptsetup makes, each only when its have-flag is set. */
  function SetupCalls(c: Config): seq<Event>
  {
    var p, mi := c.mtpoint, c.mi;
    (if mi.haveMode then [Chmod(p, mi.mode)] else []) +
    (if mi.haveUid then [ChownUser(p, mi.uid)] else []) +
    (if mi.haveGid then [ChownGroup(p, mi.gid)] else [])
  }

  /**
   * -p and -w reach the mountpoint: after an accepted command line the
   * calls do_mtptsetup makes are the chmod to the requested mode, then the
   * chown to the requested user and the chown to the requested group.
   */
  lemma RequestedSetupCalls(env: Env, progName: string, opts: seq<Opt>, operands: seq<string>)
    requires CommandLine(env, progName, opts, operands).Ok?
    ensures var c := CommandLine(env, progName, opts, operands).value;
            var p := c.mtpoint;
            SetupCalls(c) ==
              (match RequestedMode(env, IsCompatName(progName) || 'C' in Letters(opts), opts)
               case None => []
               case Some(m) => [Chmod(p, m)]) +
              (match RequestedOwner(env, opts)
               case None => []
               case Some((u, g)) => [ChownUser(p, u), ChownGroup(p, g)])
  {
    CommandLineSettings(env, progName, opts, operands);
    var c := CommandLine(env, progName, opts, operands).value;
    if RequestedOwner(env, opts).Some? {
      var (u, g) := RequestedOwner(env, opts).value;
      assert [ChownUser(c.mtpoint, u)] + [ChownGroup(c.mtpoint, g)] == [ChownUser(c.mtpoint, u), ChownGroup(c.mtpoint, g)];
    }
  }

  /** Under norun do_mtptsetup calls nothing and cannot fail. */
  lemma MtptSetupNoRun(c: Config, w: World)
    requires c.norun
    ensures Actions(MtptSetup(c, w).0) == []
    ensures MtptSetup(c, w).1 == None
  {
    var p, mi := c.mtpoint, c.mi;
    var s1 := SetupStep(c, mi.haveMode, ChangingMode(p, mi.mode), Chmod(p, mi.mode), w.chmodFails, ChmodFailed(p));
    var s2 := SetupStep(c, mi.haveUid, ChangingUser(p, mi.uid), ChownUser(p, mi.uid),
                        w.chownUserFails, ChownUserFailed(p, mi.uid));
    var s3 := SetupStep(c, mi.haveGid, ChangingGroup(p, mi.gid), ChownGroup(p, mi.gid),
                        w.chownGroupFails, ChownGroupFailed(p, mi.gid));
    SetupStepActions(c, mi.haveMode, ChangingMode(p, mi.mode), Chmod(p, mi.mode), w.chmodFails, ChmodFailed(p));
    SetupStepActions(c, mi.haveUid, ChangingUser(p, mi.uid), ChownUser(p, mi.uid),
                     w.chownUserFails, ChownUserFailed(p, mi.uid));
    SetupStepActions(c, mi.haveGid, ChangingGroup(p, mi.gid), ChownGroup(p, mi.gid),
                     w.chownGroupFails, ChownGroupFailed(p, mi.gid));
    ActionsAppend3(s1.0, s2.0, s3.0);
    MtptSetupUnfold(c, w);
  }

  /** do_mtptsetup as its three steps. */
  lemma MtptSetupUnfold(c: Config, w: World)
    ensures var p, mi := c.mtpoint, c.mi;
            var s1 := SetupStep(c, mi.haveMode, ChangingMode(p, mi.mode), Chmod(p, mi.mode),
                                w.chmodFails, ChmodFailed(p));
            var s2 := SetupStep(c, mi.haveUid, ChangingUser(p, mi.uid), ChownUser(p, mi.uid),
                                w.chownUserFails, ChownUserFailed(p, mi.uid));
            var s3 := SetupStep(c, mi.haveGid, ChangingGroup(p, mi.gid), ChownGroup(p, mi.gid),
                                w.chownGroupFails, ChownGroupFailed(p, mi.gid));
            MtptSetup(c, w) ==
              if s1.1.Some? then s1
              else if s2.1.Some? then (s1.0 + s2.0, s2.1)
              else (s1.0 + s2.0 + s3.0, s3.1)
  {
  }

  lemma ActionsAppend3(a: seq<Event>, b: seq<Event>, d: seq<Event>)
    ensures Actions(a + b) == Actions(a) + Actions(b)
    ensures Actions(a + b + d) == Actions(a) + Actions(b) + Actions(d)
  {
    ActionsAppend(a, b);
    ActionsAppend(a + b, d);
  }

  /** The actions of the three guarded steps of do_mtptsetup, one step after another. */
  lemma MtptSetupSteps(c: Config, w: World)
    requires !c.norun
    ensures var p, mi := c.mtpoint, c.mi;
            var e1 := SetupStep(c, mi.haveMode, ChangingMode(p, mi.mode), Chmod(p, mi.mode),
                                w.chmodFails, ChmodFailed(p)).0;
            var e2 := SetupStep(c, mi.haveUid, ChangingUser(p, mi.uid), ChownUser(p, mi.uid),
                                w.chownUserFails, ChownUserFailed(p, mi.uid)).0;
            var e3 := SetupStep(c, mi.haveGid, ChangingGroup(p, mi.gid), ChownGroup(p, mi.gid),
                                w.chownGroupFails, ChownGroupFailed(p, mi.gid)).0;
            var cm := if mi.haveMode then [Chmod(p, mi.mode)] else [];
            var cu := if mi.haveUid then [ChownUser(p, mi.uid)] else [];
            var cg := if mi.haveGid then [ChownGroup(p, mi.gid)] else [];
            && Actions(e1) == cm
            && Actions(e1 + e2) == cm + cu
            && Actions(e1 + e2 + e3) == cm + cu + cg
  {
    var p, mi := c.mtpoint, c.mi;
    var s1 := SetupStep(c, mi.haveMode, ChangingMode(p, mi.mode), Chmod(p, mi.mode), w.chmodFails, ChmodFailed(p));
    var s2 := SetupStep(c, mi.haveUid, ChangingUser(p, mi.uid), ChownUser(p, mi.uid),
                        w.chownUserFails, ChownUserFailed(p, mi.uid));
    var s3 := SetupStep(c, mi.haveGid, ChangingGroup(p, mi.gid), ChownGroup(p, mi.gid),
                        w.chownGroupFails, ChownGroupFailed(p, mi.gid));
    SetupStepActions(c, mi.haveMode, ChangingMode(p, mi.mode), Chmod(p, mi.mode), w.chmodFails, ChmodFailed(p));
    SetupStepActions(c, mi.haveUid, ChangingUser(p, mi.uid), ChownUser(p, mi.uid),
                     w.chownUserFails, ChownUserFailed(p, mi.uid));
    SetupStepActions(c, mi.haveGid, ChangingGroup(p, mi.gid), ChownGroup(p, mi.gid),
                     w.chownGroupFails, ChownGroupFailed(p, mi.gid));
    ActionsAppend3(s1.0, s2.0, s3.0);
  }

  /** do_mtptsetup stops at the first step whose call fails. */
  lemma MtptSetupFirstFailure(c: Config, w: World)
    requires !c.norun
    ensures var p, mi := c.mtpoint, c.mi;
            var e1 := SetupStep(c, mi.haveMode, ChangingMode(p, mi.mode), Chmod(p, mi.mode),
                                w.chmodFails, ChmodFailed(p)).0;
            var e2 := SetupStep(c, mi.haveUid, ChangingUser(p, mi.uid), ChownUser(p, mi.uid),
                                w.chownUserFails, ChownUserFailed(p, mi.uid)).0;
            var e3 := SetupStep(c, mi.haveGid, ChangingGroup(p, mi.gid), ChownGroup(p, mi.gid),
                                w.chownGroupFails, ChownGroupFailed(p, mi.gid)).0;
            MtptSetup(c, w) ==
              if mi.haveMode && w.chmodFails then (e1, Some(ChmodFailed(p)))
              else if mi.haveUid && w.chownUserFails then (e1 + e2, Some(ChownUserFailed(p, mi.uid)))
              else (e1 + e2 + e3, if mi.haveGid && w.chownGroupFails then Some(ChownGroupFailed(p, mi.gid)) else None)
  {
    var p, mi := c.mtpoint, c.mi;
    SetupStepActions(c, mi.haveMode, ChangingMode(p, mi.mode), Chmod(p, mi.mode), w.chmodFails, ChmodFailed(p));
    SetupStepActions(c, mi.haveUid, ChangingUser(p, mi.uid), ChownUser(p, mi.uid),
                     w.chownUserFails, ChownUserFailed(p, mi.uid));
    SetupStepActions(c, mi.haveGid, ChangingGroup(p, mi.gid), ChownGroup(p, mi.gid),
                     w.chownGroupFails, ChownGroupFailed(p, mi.gid));
    MtptSetupUnfold(c, w);
  }

  /**
   * Otherwise the calls come in the order mode, user, group; the first one
   * that fails ends the program with a failure naming the mountpoint, and
   * no later call is made.
   */
  lemma MtptSetupOrder(c: Config, w: World)
    requires !c.norun
    ensures var (e, f) := MtptSetup(c, w);
            var mi, calls := c.mi, SetupCalls(c);
            var m := if mi.haveMode then 1 else 0;
            && (f == None <==>
                  !(mi.haveMode && w.chmodFails) && !(mi.haveUid && w.chownUserFails) &&
                  !(mi.haveGid && w.chownGroupFails))
            && (f == None ==> Actions(e) == calls)
            && (mi.haveMode && w.chmodFails ==>
                  f == Some(ChmodFailed(c.mtpoint)) && Actions(e) == calls[..1])
            && (!(mi.haveMode && w.chmodFails) && mi.haveUid && w.chownUserFails ==>
                  f == Some(ChownUserFailed(c.mtpoint, mi.uid)) && Actions(e) == calls[..m + 1])
            && (!(mi.haveMode && w.chmodFails) && !(mi.haveUid && w.chownUserFails) &&
                mi.haveGid && w.chownGroupFails ==>
                  f == Some(ChownGroupFailed(c.mtpoint, mi.gid)) && Actions(e) == calls)
  {
    MtptSetupSteps(c, w);
    MtptSetupFirstFailure(c, w);
    var p, mi := c.mtpoint, c.mi;
    var cm := if mi.haveMode then [Chmod(p, mi.mode)] else [];
    var cu := if mi.haveUid then [ChownUser(p, mi.uid)] else [];
    var cg := if mi.haveGid then [ChownGroup(p, mi.gid)] else [];
    assert (cm + cu + cg)[..|cm|] == cm;
    assert (cm + cu + cg)[..|cm| + |cu|] == cm + cu;
  }

  /** An owner-only -w never changes the group: no chown(-1, gid) without the group flag. */
  lemma OwnerOnlyKeepsGroup(c: Config, w: World)
    requires !c.mi.haveGid
    ensures forall e :: e in Actions(MtptSetup(c, w).0) ==> !e.ChownGroup?
  {
    if c.norun {
      MtptSetupNoRun(c, w);
    } else {
      MtptSetupOrder(c, w);
      var calls := SetupCalls(c);
      assert forall e :: e in calls ==> !e.ChownGroup?;
    }
  }

  // ---------------------------------------------------------------------
  // The order of the helper programs
  // ---------------------------------------------------------------------

  lemma SetupStepNoExecs(c: Config, have: bool, note: Event, action: Event, fails: bool, failure: Failure)
    requires !note.Exec? && !action.Exec?
    ensures Execs(SetupStep(c, have, note, action, fails, failure).0) == []
  {
    if have {
      var d := if c.debug then [note] else [];
      var a := if c.norun then [] else [action];
      NoExecs(d);
      NoExecs(a);
      ExecsAppend(d, a);
    }
  }

  /** do_mtptsetup runs no helper program. */
  lemma MtptSetupNoExecs(c: Config, w: World)
    ensures Execs(MtptSetup(c, w).0) == []
  {
    var p, mi := c.mtpoint, c.mi;
    var s1 := SetupStep(c, mi.haveMode, ChangingMode(p, mi.mode), Chmod(p, mi.mode), w.chmodFails, ChmodFailed(p));
    var s2 := SetupStep(c, mi.haveUid, ChangingUser(p, mi.uid), ChownUser(p, mi.uid),
                        w.chownUserFails, ChownUserFailed(p, mi.uid));
    var s3 := SetupStep(c, mi.haveGid, ChangingGroup(p, mi.gid), ChownGroup(p, mi.gid),
                        w.chownGroupFails, ChownGroupFailed(p, mi.gid));
    SetupStepNoExecs(c, mi.haveMode, ChangingMode(p, mi.mode), Chmod(p, mi.mode), w.chmodFails, ChmodFailed(p));
    SetupStepNoExecs(c, mi.haveUid, ChangingUser(p, mi.uid), ChownUser(p, mi.uid),
                     w.chownUserFails, ChownUserFailed(p, mi.uid));
    SetupStepNoExecs(c, mi.haveGid, ChangingGroup(p, mi.gid), ChownGroup(p, mi.gid),
                     w.chownGroupFails, ChownGroupFailed(p, mi.gid));
    ExecsAppend(s1.0, s2.0);
    ExecsAppend(s1.0 + s2.0, s3.0);
  }

  lemma {:induction false} NoExecs(t: seq<Event>)
    requires forall e :: e in t ==> !e.Exec?
    ensures Execs(t) == []
    decreases |t|
  {
    if t != [] {
      assert forall e :: e in t[1..] ==> e in t;
      NoExecs(t[1..]);
    }
  }

  /** Work, step by step: each later step only when the earlier ones succeeded. */
  lemma WorkSteps(c: Config, w: World)
    ensures var a := Attached(c, w);
            var nf, mt, ms := Newfs(c, a.unit, w), Mount(c, a.unit, w), MtptSetup(c, w);
            Work(c, w) ==
              if a.failure.Some? then a
              else if nf.1.Some? then Outcome(a.trace + nf.0, a.unit, nf.1)
              else if mt.1.Some? then Outcome(a.trace + nf.0 + mt.0, a.unit, mt.1)
              else Outcome(a.trace + nf.0 + mt.0 + ms.0, a.unit, ms.1)
  {
  }

  /**
   * Unless norun is on, the helpers run in the fixed order detach (if
   * planned), attach, newfs, mount, and the first non-zero status among
   * attach, newfs and mount ends the run: no later helper starts.
   */
  lemma AttachFailureStops(c: Config, w: World)
    requires !c.norun && Attached(c, w).failure.Some?
    ensures Work(c, w) == Attached(c, w)
    ensures Execs(Work(c, w).trace) ==
            DetachPlan(c, Work(c, w).unit) + [ArgvWords(AttachPlan(c, Work(c, w).unit))]
  {
    AttachedExecs(c, w);
    WorkSteps(c, w);
  }

  lemma NewfsFailureStops(c: Config, w: World)
    requires !c.norun && Attached(c, w).failure == None && ExitStatus(w.newfs) != 0
    ensures var o := Work(c, w);
            && o.unit == Attached(c, w).unit
            && o.failure == Some(NewfsFailed(ExitStatus(w.newfs)))
            && Execs(o.trace) == DetachPlan(c, o.unit) + [ArgvWords(AttachPlan(c, o.unit))] +
                                 [ArgvWords(NewfsCmd(c.newfsArg, o.unit))]
  {
    var a := Attached(c, w);
    AttachedExecs(c, w);
    WorkSteps(c, w);
    RunExec(c, NewfsCmd(c.newfsArg, a.unit), false, w.newfs);
    ExecsAppend(a.trace, Newfs(c, a.unit, w).0);
  }

  lemma MountFailureStops(c: Config, w: World)
    requires !c.norun && Attached(c, w).failure == None && ExitStatus(w.newfs) == 0
    requires ExitStatus(w.mount) != 0
    ensures var o := Work(c, w);
            && o.unit == Attached(c, w).unit
            && o.failure == Some(MountFailed(ExitStatus(w.mount)))
            && Execs(o.trace) == DetachPlan(c, o.unit) + [ArgvWords(AttachPlan(c, o.unit))] +
                                 [ArgvWords(NewfsCmd(c.newfsArg, o.unit))] +
                                 [ArgvWords(MountCmd(c.mountArg, o.unit, c.mtpoint))]
  {
    var a := Attached(c, w);
    var nf := Newfs(c, a.unit, w);
    AttachedExecs(c, w);
    WorkSteps(c, w);
    RunExec(c, NewfsCmd(c.newfsArg, a.unit), false, w.newfs);
    RunExec(c, MountCmd(c.mountArg, a.unit, c.mtpoint), false, w.mount);
    ExecsAppend(a.trace, nf.0);
    ExecsAppend(a.trace + nf.0, Mount(c, a.unit, w).0);
  }

  /** With attach, newfs and mount successful, all four run and the outcome is do_mtptsetup's. */
  lemma HelpersSucceed(c: Config, w: World)
    requires !c.norun && Attached(c, w).failure == None && ExitStatus(w.newfs) == 0
    requires ExitStatus(w.mount) == 0
    ensures var o := Work(c, w);
            && o.unit == Attached(c, w).unit
            && o.failure == MtptSetup(c, w).1
            && Execs(o.trace) == DetachPlan(c, o.unit) + [ArgvWords(AttachPlan(c, o.unit))] +
                                 [ArgvWords(NewfsCmd(c.newfsArg, o.unit))] +
                                 [ArgvWords(MountCmd(c.mountArg, o.unit, c.mtpoint))]
  {
    var a := Attached(c, w);
    var nf, mt := Newfs(c, a.unit, w), Mount(c, a.unit, w);
    AttachedExecs(c, w);
    WorkSteps(c, w);
    RunExec(c, NewfsCmd(c.newfsArg, a.unit), false, w.newfs);
    RunExec(c, MountCmd(c.mountArg, a.unit, c.mtpoint), false, w.mount);
    MtptSetupNoExecs(c, w);
    ExecsAppend(a.trace, nf.0);
    ExecsAppend(a.trace + nf.0, mt.0);
    ExecsAppend(a.trace + nf.0 + mt.0, MtptSetup(c, w).0);
    assert Execs(a.trace + nf.0 + mt.0 + MtptSetup(c, w).0) == Execs(a.trace + nf.0 + mt.0);
  }

  /**
   * The detach may fail: its status changes nothing but the debug warning,
   * so without debug the whole outcome is the same whatever the detach
   * does, and with debug the failure and the unit are.
   */
  lemma DetachTolerated(c: Config, w: World, d: ChildEnd)
    ensures Work(c, w).failure == Work(c, w.(detach := d)).failure
    ensures Work(c, w).unit == Work(c, w.(detach := d)).unit
    ensures !c.debug ==> Work(c, w) == Work(c, w.(detach := d))
  {
    var w' := w.(detach := d);
    AttachedIgnoresDetach(c, w, d);
    var u := Attached(c, w).unit;
    assert Newfs(c, u, w) == Newfs(c, u, w');
    assert Mount(c, u, w) == Mount(c, u, w');
    assert MtptSetup(c, w) == MtptSetup(c, w');
    WorkSteps(c, w);
    WorkSteps(c, w');
  }

  lemma AttachedIgnoresDetach(c: Config, w: World, d: ChildEnd)
    ensures Attached(c, w).unit == Attached(c, w.(detach := d)).unit
    ensures Attached(c, w).failure == Attached(c, w.(detach := d)).failure
    ensures !c.debug ==> Attached(c, w) == Attached(c, w.(detach := d))
  {
    if !c.debug && c.unit.FixedUnit? {
      assert Detach(c, c.unit.n, w) == Detach(c, c.unit.n, w.(detach := d));
    }
  }

  /** The mountpoint system calls. */
  predicate SetupCall(e: Event)
  {
    e.Chmod? || e.ChownUser? || e.ChownGroup?
  }

  /** The mountpoint system calls of a trace, in order. */
  function Touches(t: seq<Event>): seq<Event>
  {
    if t == [] then [] else (if SetupCall(t[0]) then [t[0]] else []) + Touches(t[1..])
  }

  lemma {:induction false} TouchesAppend(a: seq<Event>, b: seq<Event>)
    ensures Touches(a + b) == Touches(a) + Touches(b)
    decreases |a|
  {
    if a == [] {
      assert a + b == b;
    } else {
      var h := if SetupCall(a[0]) then [a[0]] else [];
      assert (a + b)[0] == a[0] && (a + b)[1..] == a[1..] + b;
      TouchesAppend(a[1..], b);
      assert Touches(a + b) == h + Touches(a[1..] + b);
      Concat3(h, Touches(a[1..]), Touches(b));
    }
  }

  lemma TouchesSingle(e: Event)
    requires !SetupCall(e)
    ensures Touches([e]) == []
  {
    assert [e][1..] == [];
  }

  lemma RunEventsNoSetup(c: Config, cmd: string, capture: bool)
    ensures Touches(RunEvents(c, cmd, capture)) == []
  {
    RunTraceNoSetup(c, ArgvWords(cmd), ChildStdio(capture, c.loudsubs));
  }

  /** The debug line and the exec of one run() for the words ws, with streams s. */
  lemma RunTraceNoSetup(c: Config, ws: seq<string>, s: Stdio)
    ensures Touches((if c.debug then [Running(ws)] else []) + (if c.norun then [] else [Exec(ws, s)])) == []
  {
    var d: seq<Event> := if c.debug then [Running(ws)] else [];
    var x: seq<Event> := if c.norun then [] else [Exec(ws, s)];
    if c.debug {
      TouchesSingle(Running(ws));
    }
    if !c.norun {
      TouchesSingle(Exec(ws, s));
    }
    TouchesAppend(d, x);
  }

  /** Neither the detach nor the attach touches the mountpoint. */
  lemma AttachedNoSetup(c: Config, w: World)
    ensures Touches(Attached(c, w).trace) == []
  {
    if c.unit.AutoUnit? {
      RunEventsNoSetup(c, AttachAutoCmd(c.mdtype, c.mdconfigArg), true);
    } else {
      FixedNoSetup(c, c.unit.n, w);
    }
  }

  lemma FixedNoSetup(c: Config, n: nat, w: World)
    requires c.unit == FixedUnit(n)
    ensures Touches(Attached(c, w).trace) == []
  {
    var pre := if c.detach then Detach(c, n, w) else [];
    var at := RunEvents(c, AttachCmd(c.mdtype, c.mdconfigArg, n), false);
    if c.detach {
      DetachNoSetup(c, n, w);
    }
    RunEventsNoSetup(c, AttachCmd(c.mdtype, c.mdconfigArg, n), false);
    TouchesAppend(pre, at);
  }

  lemma DetachNoSetup(c: Config, n: int, w: World)
    ensures Touches(Detach(c, n, w)) == []
  {
    RunEventsNoSetup(c, DetachCmd(n), false);
    WarningNoSetup(RunEvents(c, DetachCmd(n), false), if RunStatus(c, w.detach) != 0 && c.debug then [DetachIgnored(RunStatus(c, w.detach))] else []);
  }

  lemma WarningNoSetup(r: seq<Event>, d: seq<Event>)
    requires Touches(r) == [] && (d == [] || (|d| == 1 && d[0].DetachIgnored?))
    ensures Touches(r + d) == []
  {
    if d == [] {
      assert r + d == r;
    } else {
      assert d == [d[0]];
      TouchesSingle(d[0]);
      TouchesAppend(r, d);
    }
  }

  /** A fatal attach, newfs or mount failure comes before any chmod or chown. */
  lemma FatalBeforeSetup(c: Config, w: World)
    requires Work(c, w).failure.Some?
    requires var f := Work(c, w).failure.value;
             AttachStepFailure(f) || f.NewfsFailed? || f.MountFailed?
    ensures Touches(Work(c, w).trace) == []
  {
    var a := Attached(c, w);
    var nf, mt := Newfs(c, a.unit, w), Mount(c, a.unit, w);
    WorkSteps(c, w);
    MtptSetupFailures(c, w);
    AttachedNoSetup(c, w);
    if a.failure == None {
      RunEventsNoSetup(c, NewfsCmd(c.newfsArg, a.unit), false);
      TouchesAppend(a.trace, nf.0);
      if nf.1 == None {
        RunEventsNoSetup(c, MountCmd(c.mountArg, a.unit, c.mtpoint), false);
        TouchesAppend(a.trace + nf.0, mt.0);
      }
    }
  }

  /** do_mtptsetup fails only with the failure of one of its calls. */
  lemma MtptSetupFailures(c: Config, w: World)
    ensures MtptSetup(c, w).1.Some? ==>
              var f := MtptSetup(c, w).1.value;
              f.ChmodFailed? || f.ChownUserFailed? || f.ChownGroupFailed?
  {
  }
  // ---------------------------------------------------------------------
  // What a dry run prints
  // ---------------------------------------------------------------------

  /** The debug output of a trace: every event that is not an action, in order. */
  function Output(t: seq<Event>): seq<Event>
  {
    if t == [] then [] else (if IsAction(t[0]) then [] else [t[0]]) + Output(t[1..])
  }

  lemma {:induction false} OutputAppend(a: seq<Event>, b: seq<Event>)
    ensures Output(a + b) == Output(a) + Output(b)
    decreases |a|
  {
    if a == [] {
      assert a + b == b;
    } else {
      var h := if IsAction(a[0]) then [] else [a[0]];
      assert (a + b)[0] == a[0] && (a + b)[1..] == a[1..] + b;
      OutputAppend(a[1..], b);
      assert Output(a + b) == h + Output(a[1..] + b);
      Concat3(h, Output(a[1..]), Output(b));
    }
  }

  /** run() prints its debug line and nothing else, whether or not norun stops the exec. */
  lemma RunOutput(c: Config, cmd: string, capture: bool)
    ensures Output(RunEvents(c, cmd, capture)) == if c.debug then [Running(ArgvWords(cmd))] else []
  {
    var d := if c.debug then [Running(ArgvWords(cmd))] else [];
    var e := Exec(ArgvWords(cmd), ChildStdio(capture, c.loudsubs));
    var x := if c.norun then [] else [e];
    OutputAppend(d, x);
    OutputSingle(Running(ArgvWords(cmd)));
    OutputSingle(e);
  }

  lemma OutputSingle(e: Event)
    ensures Output([e]) == if IsAction(e) then [] else [e]
  {
    assert [e][1..] == [];
  }

  /** A world in which every helper exits with status 0 and every mountpoint call succeeds. */
  predicate AllSucceed(w: World)
  {
    && ExitStatus(w.detach) == 0 && ExitStatus(w.attach) == 0
    && ExitStatus(w.newfs) == 0 && ExitStatus(w.mount) == 0
    && !w.chmodFails && !w.chownUserFails && !w.chownGroupFails
  }

  /** The debugprintf lines do_mtptsetup writes, one before each call it makes. */
  function SetupNotes(c: Config): seq<Event>
  {
    var p, mi := c.mtpoint, c.mi;
    (if mi.haveMode then [ChangingMode(p, mi.mode)] else []) +
    (if mi.haveUid then [ChangingUser(p, mi.uid)] else []) +
    (if mi.haveGid then [ChangingGroup(p, mi.gid)] else [])
  }

  /**
   * What debug mode prints for a run with the explicit unit n that nothing
   * stops: the line of each helper main starts, then the line before each
   * mountpoint call.  None of it depends on norun.
   */
  function Echoes(c: Config, n: int): seq<Event>
  {
    if !c.debug then []
    else
      (if c.detach then [Running(ArgvWords(DetachCmd(n)))] else []) +
      [Running(ArgvWords(AttachCmd(c.mdtype, c.mdconfigArg, n))),
       Running(ArgvWords(NewfsCmd(c.newfsArg, n))),
       Running(ArgvWords(MountCmd(c.mountArg, n, c.mtpoint)))] +
      SetupNotes(c)
  }

  /** One guarded step prints its note, when it has one and debug is on, and fails only for real. */
  lemma SetupStepOutput(c: Config, have: bool, note: Event, action: Event, fails: bool, failure: Failure)
    requires !IsAction(note) && IsAction(action)
    requires c.norun || !fails
    ensures SetupStep(c, have, note, action, fails, failure).1 == None
    ensures Output(SetupStep(c, have, note, action, fails, failure).0) == if have && c.debug then [note] else []
  {
    if have {
      var d := if c.debug then [note] else [];
      var x := if c.norun then [] else [action];
      OutputAppend(d, x);
    }
  }

  /** do_mtptsetup that nothing stops prints the notes of its three steps. */
  lemma MtptSetupOutput(c: Config, w: World)
    requires c.norun || (!w.chmodFails && !w.chownUserFails && !w.chownGroupFails)
    ensures MtptSetup(c, w).1 == None
    ensures Output(MtptSetup(c, w).0) == if c.debug then SetupNotes(c) else []
  {
    var p, mi := c.mtpoint, c.mi;
    var s1 := SetupStep(c, mi.haveMode, ChangingMode(p, mi.mode), Chmod(p, mi.mode), w.chmodFails, ChmodFailed(p));
    var s2 := SetupStep(c, mi.haveUid, ChangingUser(p, mi.uid), ChownUser(p, mi.uid),
                        w.chownUserFails, ChownUserFailed(p, mi.uid));
    var s3 := SetupStep(c, mi.haveGid, ChangingGroup(p, mi.gid), ChownGroup(p, mi.gid),
                        w.chownGroupFails, ChownGroupFailed(p, mi.gid));
    SetupStepOutput(c, mi.haveMode, ChangingMode(p, mi.mode), Chmod(p, mi.mode), w.chmodFails, ChmodFailed(p));
    SetupStepOutput(c, mi.haveUid, ChangingUser(p, mi.uid), ChownUser(p, mi.uid),
                    w.chownUserFails, ChownUserFailed(p, mi.uid));
    SetupStepOutput(c, mi.haveGid, ChangingGroup(p, mi.gid), ChownGroup(p, mi.gid),
                    w.chownGroupFails, ChownGroupFailed(p, mi.gid));
    MtptSetupUnfold(c, w);
    OutputAppend(s1.0, s2.0);
    OutputAppend(s1.0 + s2.0, s3.0);
  }

  /** The detach, if planned, and the attach with an explicit unit print their lines and nothing more. */
  lemma AttachedOutput(c: Config, w: World, n: nat)
    requires c.unit == FixedUnit(n)
    requires c.norun || (ExitStatus(w.detach) == 0 && ExitStatus(w.attach) == 0)
    ensures Attached(c, w).failure == None && Attached(c, w).unit == n
    ensures Output(Attached(c, w).trace) ==
            if !c.debug then []
            else (if c.detach then [Running(ArgvWords(DetachCmd(n)))] else []) +
                 [Running(ArgvWords(AttachCmd(c.mdtype, c.mdconfigArg, n)))]
  {
    var pre := if c.detach then Detach(c, n, w) else [];
    RunOutput(c, DetachCmd(n), false);
    if c.detach {
      OutputAppend(RunEvents(c, DetachCmd(n), false), []);
    }
    RunOutput(c, AttachCmd(c.mdtype, c.mdconfigArg, n), false);
    OutputAppend(pre, AttachFixed(c, n, w).trace);
  }

  /**
   * A run with an explicit unit that nothing stops, real or dry, prints
   * exactly Echoes: the same lines, since norun only suppresses the actions.
   */
  lemma WorkOutput(c: Config, w: World, n: nat)
    requires c.unit == FixedUnit(n)
    requires c.norun || AllSucceed(w)
    ensures Work(c, w).failure == None
    ensures Output(Work(c, w).trace) == Echoes(c, n)
  {
    AttachedOutput(c, w, n);
    RunOutput(c, NewfsCmd(c.newfsArg, n), false);
    RunOutput(c, MountCmd(c.mountArg, n, c.mtpoint), false);
    MtptSetupOutput(c, w);
    var t := Attached(c, w).trace;
    WorkOutputs(c, w, t, Newfs(c, n, w).0, Mount(c, n, w).0, MtptSetup(c, w).0);
    EchoesSplit(c, n);
  }

  /** Echoes as the lines of the attach step, newfs, mount and do_mtptsetup. */
  lemma EchoesSplit(c: Config, n: int)
    ensures Echoes(c, n) ==
            (if !c.debug then []
             else (if c.detach then [Running(ArgvWords(DetachCmd(n)))] else []) +
                  [Running(ArgvWords(AttachCmd(c.mdtype, c.mdconfigArg, n)))]) +
            (if c.debug then [Running(ArgvWords(NewfsCmd(c.newfsArg, n)))] else []) +
            (if c.debug then [Running(ArgvWords(MountCmd(c.mountArg, n, c.mtpoint)))] else []) +
            (if c.debug then SetupNotes(c) else [])
  {
    if c.debug {
      var d := if c.detach then [Running(ArgvWords(DetachCmd(n)))] else [];
      var a := Running(ArgvWords(AttachCmd(c.mdtype, c.mdconfigArg, n)));
      var f := Running(ArgvWords(NewfsCmd(c.newfsArg, n)));
      var m := Running(ArgvWords(MountCmd(c.mountArg, n, c.mtpoint)));
      Regroup(d, a, f, m, SetupNotes(c));
    }
  }

  lemma Regroup(d: seq<Event>, a: Event, f: Event, m: Event, st: seq<Event>)
    ensures d + [a, f, m] + st == (d + [a]) + [f] + [m] + st
    ensures d == [] ==> [a, f, m] + st == [a] + [f] + [m] + st
  {
    assert [a, f, m] == [a] + [f] + [m];
  }

  /** Work that nothing stops: its trace is the four parts', and so is its output. */
  lemma WorkOutputs(c: Config, w: World, t: seq<Event>, nf: seq<Event>, mt: seq<Event>, ms: seq<Event>)
    requires Attached(c, w).failure == None && t == Attached(c, w).trace
    requires Newfs(c, Attached(c, w).unit, w) == (nf, None)
    requires Mount(c, Attached(c, w).unit, w) == (mt, None)
    requires MtptSetup(c, w) == (ms, None)
    ensures Work(c, w) == Outcome(t + nf + mt + ms, Attached(c, w).unit, None)
    ensures Output(Work(c, w).trace) == Output(t) + Output(nf) + Output(mt) + Output(ms)
  {
    OutputAppend(t, nf);
    OutputAppend(t + nf, mt);
    OutputAppend(t + nf + mt, ms);
  }

  /**
   * -N with -X: for an explicit unit, the dry run prints the same lines as
   * a real run in which everything succeeds, and starts nothing.
   */
  lemma DryRunEchoes(c: Config, w: World, n: nat)
    requires c.unit == FixedUnit(n) && AllSucceed(w)
    ensures Work(c.(norun := false), w).failure == None
    ensures Output(Work(c.(norun := true), w).trace) == Output(Work(c.(norun := false), w).trace)
    ensures Actions(Work(c.(norun := true), w).trace) == []
  {
    var dry, live := c.(norun := true), c.(norun := false);
    WorkOutput(dry, w, n);
    WorkOutput(live, w, n);
    assert Echoes(dry, n) == Echoes(live, n);
    NoRunWork(dry, w);
  }

  /**
   * With an automatic unit the dry run differs: the unit stays -1, so the
   * newfs and mount lines name /dev/md-1 (mdmfs.c 384-386).
   */
  lemma DryRunAutoUnit(c: Config, w: World)
    requires c.norun && c.unit.AutoUnit?
    ensures Work(c, w).failure == None && Work(c, w).unit == AutoUnitSentinel
    ensures Output(Work(c, w).trace) ==
            if !c.debug then []
            else [Running(ArgvWords(AttachAutoCmd(c.mdtype, c.mdconfigArg))),
                  Running(ArgvWords(NewfsCmd(c.newfsArg, AutoUnitSentinel))),
                  Running(ArgvWords(MountCmd(c.mountArg, AutoUnitSentinel, c.mtpoint)))] +
                 SetupNotes(c)
    ensures DevicePath(AutoUnitSentinel) == "/dev/md-1"
  {
    var a := Attached(c, w);
    var u := AutoUnitSentinel;
    RunOutput(c, AttachAutoCmd(c.mdtype, c.mdconfigArg), true);
    RunOutput(c, NewfsCmd(c.newfsArg, u), false);
    RunOutput(c, MountCmd(c.mountArg, u, c.mtpoint), false);
    MtptSetupOutput(c, w);
    WorkOutputs(c, w, a.trace, Newfs(c, u, w).0, Mount(c, u, w).0, MtptSetup(c, w).0);
    if c.debug {
      Regroup([], Running(ArgvWords(AttachAutoCmd(c.mdtype, c.mdconfigArg))),
              Running(ArgvWords(NewfsCmd(c.newfsArg, u))),
              Running(ArgvWords(MountCmd(c.mountArg, u, c.mtpoint))), SetupNotes(c));
    }
    SentinelDevice();
  }

  lemma SentinelDevice()
    ensures DevicePath(AutoUnitSentinel) == "/dev/md-1"
  {
    assert NatToString(1) == "1";
  }
}
