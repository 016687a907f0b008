/**
 * The command line of mdmfs (main, mdmfs.c 98-262): the getopt switch over
 * the options "a:b:Cc:Dd:e:F:f:hi:LlMm:Nn:O:o:p:Ss:t:Uv:w:X", the defaults
 * applied once the options are read, and the derivation of the unit.
 * getopt's own tokenising is not modelled: the options arrive as a list
 * of (letter, argument) pairs, with an empty argument for the letters that
 * take none.
 */
module Options {
  import opened Types
  import opened Decimal
  import opened Argv
  import opened Commands
  import opened Units
  import opened Ownership

  datatype Opt = Opt(ch: char, arg: string)

  /**
   * What the option loop consults outside the command line: setmode(3) and
   * getmode(3) as a map from a -p argument to the mode it denotes (an
   * argument setmode rejects is absent), and the user and group databases.
   */
  datatype Env = Env(modes: map<string, nat>, users: map<string, nat>, groups: map<string, nat>)

  /**
   * The variables the option loop updates: the globals compat, debug,
   * loudsubs and norun, and main's locals (mdtype is None while have_mdtype
   * is false).
   */
  datatype OptState = OptState(compat: bool, debug: bool, loudsubs: bool, norun: bool,
                               detach: bool, softdep: bool, mdtype: Option<MdType>,
                               mi: MtptInfo, mdconfigArg: string, newfsArg: string,
                               mountArg: string)

  /** The mountpoint record after memset(&mi, '\0', sizeof(mi)). */
  const NoInfo: MtptInfo := MtptInfo(0, false, 0, false, 0, false)

  /** mount_mfs compatibility mode forces mode 01777. */
  const CompatMode: nat := 0x3FF

  /** Started as mount_mfs or mfs, mdmfs implies -C. */
  predicate IsCompatName(progName: string)
  {
    progName == "mount_mfs" || progName == "mfs"
  }

  /** The state before the first option (mdmfs.c 99-119). */
  function Init(compat: bool): OptState
  {
    OptState(compat, false, false, false, true, true, None, NoInfo, "", "", "")
  }

  /** The whole loop: usage() and errx() end it at the first failing option. */
  function Fold(env: Env, s0: OptState, opts: seq<Opt>): Result<OptState>
    decreases |opts|
  {
    if opts == [] then Ok(s0)
    else
      var st :- Fold(env, s0, opts[..|opts| - 1]);
      OptStep(env, st, opts[|opts| - 1])
  }

  lemma FoldSnoc(env: Env, s0: OptState, opts: seq<Opt>, o: Opt)
    ensures Fold(env, s0, opts + [o]) ==
            (if Fold(env, s0, opts).Ok? then OptStep(env, Fold(env, s0, opts).value, o)
             else Fold(env, s0, opts))
  {
    assert (opts + [o])[..|opts|] == opts;
  }

  /** One more option of the list: the fold so far, then one step. */
  lemma FoldPrefixStep(env: Env, s0: OptState, opts: seq<Opt>, i: nat, st: OptState)
    requires i < |opts| && Fold(env, s0, opts[..i]) == Ok(st)
    ensures Fold(env, s0, opts[..i + 1]) == OptStep(env, st, opts[i])
  {
    assert opts[..i + 1] == opts[..i] + [opts[i]];
    FoldSnoc(env, s0, opts[..i], opts[i]);
  }

  /** The option letters, in command-line order. */
  function Letters(opts: seq<Opt>): (r: seq<char>)
    ensures |r| == |opts| && forall i :: 0 <= i < |opts| ==> r[i] == opts[i].ch
  {
    if opts == [] then [] else [opts[0].ch] + Letters(opts[1..])
  }

  lemma LettersSnoc(opts: seq<Opt>, o: Opt)
    ensures Letters(opts + [o]) == Letters(opts) + [o.ch]
  {
  }

  // ---------------------------------------------------------------------
  // A reference account of the argument buffers, independent of the switch.
  // ---------------------------------------------------------------------

  /** The options newfs takes under the same letter, each with an argument. */
  const NewfsLetters: set<char> := {'a', 'b', 'c', 'd', 'e', 'f', 'i', 'm', 'n'}

  /** The three helper-argument buffers. */
  datatype Buffer = MdconfigBuf | NewfsBuf | MountBuf

  /**
   * The fragment an option contributes and the buffer it goes to: -F and
   * -s go to mdconfig, -o to mount, every other option that mount_mfs took
   * over from newfs to newfs, with -O and -v renamed to newfs's -o and -O.
   */
  function Fragment(o: Opt): Option<(Buffer, string)>
  {
    if o.ch == 'F' || o.ch == 's' then Some((MdconfigBuf, ['-', if o.ch == 'F' then 'f' else 's', ' '] + o.arg))
    else if o.ch == 'o' then Some((MountBuf, "-o " + o.arg))
    else if o.ch == 'O' then Some((NewfsBuf, "-o " + o.arg))
    else if o.ch == 'v' then Some((NewfsBuf, "-O " + o.arg))
    else if o.ch == 'l' then Some((NewfsBuf, "-l"))
    else if o.ch in NewfsLetters then Some((NewfsBuf, ['-', o.ch, ' '] + o.arg))
    else None
  }

  /** The fragment option o adds to buffer b: none, or one. */
  function FragmentFor(o: Opt, b: Buffer): seq<string>
  {
    if Fragment(o).Some? && Fragment(o).value.0 == b then [Fragment(o).value.1] else []
  }

  /** The fragments for buffer b, in the order their options appear. */
  function Fragments(opts: seq<Opt>, b: Buffer): seq<string>
  {
    if opts == [] then [] else FragmentFor(opts[0], b) + Fragments(opts[1..], b)
  }

  lemma {:induction false} FragmentsSnoc(opts: seq<Opt>, o: Opt, b: Buffer)
    ensures Fragments(opts + [o], b) == Fragments(opts, b) + FragmentFor(o, b)
    decreases |opts|
  {
    if opts == [] {
      assert [o][1..] == [];
      assert [o][0] == o;
    } else {
      var h := FragmentFor(opts[0], b);
      assert (opts + [o])[1..] == opts[1..] + [o];
      assert (opts + [o])[0] == opts[0];
      FragmentsSnoc(opts[1..], o, b);
      Concat3(h, Fragments(opts[1..], b), FragmentFor(o, b));
    }
  }

  function BufferOf(st: OptState, b: Buffer): string
  {
    match b
    case MdconfigBuf => st.mdconfigArg
    case NewfsBuf => st.newfsArg
    case MountBuf => st.mountArg
  }

  // ---------------------------------------------------------------------
  // One pass of the switch, read variable by variable.
  // ---------------------------------------------------------------------

  /** The letters the switch has a case for: the getopt string minus h and t. */
  const Accepted: set<char> :=
    {'a', 'b', 'C', 'c', 'D', 'd', 'e', 'F', 'f', 'i', 'L', 'l', 'M', 'm', 'N', 'n', 'O', 'o',
     'p', 'S', 's', 'U', 'v', 'w', 'X'}

  /** The options refused once compat mode is on. */
  const CompatRefused: set<char> := {'C', 'D', 'L', 'N', 'p', 'S', 'w', 'X'}

  /**
   * Whether option o passes, given whether compat is on and whether a type
   * option has been seen: -h, -t and unknown letters never do, the
   * compat-restricted ones need compat off, -F and -M need no earlier type,
   * -p needs a mode setmode accepts and -w a user:group extract_ugid accepts.
   */
  predicate Admissible(env: Env, compat: bool, typed: bool, o: Opt)
  {
    && o.ch in Accepted
    && (o.ch in CompatRefused ==> !compat)
    && ((o.ch == 'F' || o.ch == 'M') ==> !typed)
    && (o.ch == 'p' ==> o.arg in env.modes)
    && (o.ch == 'w' ==> ExtractUgid(env.users, env.groups, o.arg, NoInfo).Ok?)
  }

  /** The buffer after option o: one more fragment if o contributes to it. */
  function Appended(buf: string, o: Opt, b: Buffer): string
  {
    if Fragment(o).Some? && Fragment(o).value.0 == b then ArgAppend(buf, Fragment(o).value.1) else buf
  }

  /**
   * What an admissible option does to each variable: each flag is switched
   * by its own letter, the type by -F and -M, the mountpoint record by -p
   * and -w, and each buffer grows by the option's fragment, if any.
   */
  function OptEffect(env: Env, st: OptState, o: Opt): OptState
    requires o.ch == 'p' ==> o.arg in env.modes
    requires o.ch == 'w' ==> ExtractUgid(env.users, env.groups, o.arg, NoInfo).Ok?
  {
    ExtractUgidIgnoresPrevious(env.users, env.groups, o.arg, st.mi, NoInfo);
    OptState(st.compat || o.ch == 'C',
             st.debug || o.ch == 'X',
             st.loudsubs || o.ch == 'L',
             st.norun || o.ch == 'N',
             st.detach && o.ch != 'D',
             if o.ch == 'S' then false else if o.ch == 'U' then true else st.softdep,
             if o.ch == 'F' then Some(Vnode) else if o.ch == 'M' then Some(Malloc) else st.mdtype,
             if o.ch == 'p' then st.mi.(mode := env.modes[o.arg], haveMode := true)
             else if o.ch == 'w' then ExtractUgid(env.users, env.groups, o.arg, st.mi).value
             else st.mi,
             Appended(st.mdconfigArg, o, MdconfigBuf),
             Appended(st.newfsArg, o, NewfsBuf),
             Appended(st.mountArg, o, MountBuf))
  }

  /** The failure of an option that is not admissible: extract_ugid's own, or usage. */
  function OptError(env: Env, st: OptState, o: Opt): Failure
  {
    if o.ch == 'w' && !st.compat && ExtractUgid(env.users, env.groups, o.arg, st.mi).Err?
    then ExtractUgid(env.users, env.groups, o.arg, st.mi).error
    else Usage
  }

  /**
   * One pass of the switch in the getopt loop (mdmfs.c 123-231): an
   * admissible option takes effect, anything else ends the program.
   */
  function OptStep(env: Env, st: OptState, o: Opt): Result<OptState>
  {
    if Admissible(env, st.compat, st.mdtype.Some?, o) then Ok(OptEffect(env, st, o))
    else Err(OptError(env, st, o))
  }

  /** One step adds to a buffer exactly the fragment the reference table lists. */
  lemma OptStepBuffers(env: Env, st: OptState, o: Opt, b: Buffer)
    requires OptStep(env, st, o).Ok?
    ensures BufferOf(OptStep(env, st, o).value, b) == Appended(BufferOf(st, b), o, b)
  {
  }

  /**
   * Every buffer is its initial contents followed by the fragments of the
   * accepted options, one space before each, in command-line order and
   * without deduplication.
   */
  lemma {:induction false} FoldBuffers(env: Env, s0: OptState, opts: seq<Opt>, b: Buffer)
    requires Fold(env, s0, opts).Ok?
    ensures BufferOf(Fold(env, s0, opts).value, b) == BufferOf(s0, b) + Spaced(Fragments(opts, b))
    decreases |opts|
  {
    if opts == [] {
      assert BufferOf(s0, b) + "" == BufferOf(s0, b);
    } else {
      var init, o := opts[..|opts| - 1], opts[|opts| - 1];
      LastSplit(opts);
      FoldSnoc(env, s0, init, o);
      FoldBuffers(env, s0, init, b);
      OptStepBuffers(env, Fold(env, s0, init).value, o, b);
      AppendedSpaced(BufferOf(s0, b), init, o, b);
    }
  }

  lemma AppendedSpaced(pre: string, init: seq<Opt>, o: Opt, b: Buffer)
    ensures Appended(pre + Spaced(Fragments(init, b)), o, b) == pre + Spaced(Fragments(init + [o], b))
  {
    var fs := Fragments(init, b);
    FragmentsSnoc(init, o, b);
    if Fragment(o).Some? && Fragment(o).value.0 == b {
      var f := Fragment(o).value.1;
      SpacedAppend(fs, f);
      assert ArgAppend(pre + Spaced(fs), f) == pre + ArgAppend(Spaced(fs), f);
    } else {
      assert fs + [] == fs;
    }
  }

  // ---------------------------------------------------------------------
  // Validity of an option list.
  // ---------------------------------------------------------------------

  lemma OptStepAccepts(env: Env, st: OptState, o: Opt)
    ensures OptStep(env, st, o).Ok? <==> Admissible(env, st.compat, st.mdtype.Some?, o)
    ensures OptStep(env, st, o).Ok? ==>
              var st' := OptStep(env, st, o).value;
              && st'.compat == (st.compat || o.ch == 'C')
              && st'.mdtype.Some? == (st.mdtype.Some? || (o.ch == 'F' || o.ch == 'M'))
  {
  }

  /** Whether compat is on, and whether a type was chosen, after the options in pre. */
  predicate CompatBy(s0: OptState, pre: seq<Opt>)
  {
    s0.compat || 'C' in Letters(pre)
  }

  predicate TypedBy(s0: OptState, pre: seq<Opt>)
  {
    s0.mdtype.Some? || 'F' in Letters(pre) || 'M' in Letters(pre)
  }

  /** Every option admissible in the state the options before it leave. */
  predicate AllAdmissible(env: Env, s0: OptState, opts: seq<Opt>)
    decreases |opts|
  {
    opts == [] ||
    var init := opts[..|opts| - 1];
    AllAdmissible(env, s0, init) && Admissible(env, CompatBy(s0, init), TypedBy(s0, init), opts[|opts| - 1])
  }

  lemma {:induction false} FoldAcceptsStep(env: Env, s0: OptState, opts: seq<Opt>)
    ensures Fold(env, s0, opts).Ok? <==> AllAdmissible(env, s0, opts)
    decreases |opts|
  {
    if opts != [] {
      var n := |opts| - 1;
      var init, o := opts[..n], opts[n];
      LastSplit(opts);
      FoldSnoc(env, s0, init, o);
      FoldAcceptsStep(env, s0, init);
      if Fold(env, s0, init).Ok? {
        FoldCompatTyped(env, s0, init);
        OptStepAccepts(env, Fold(env, s0, init).value, o);
      }
    }
  }

  /** After an accepted list, compat and the type choice are what CompatBy and TypedBy say. */
  lemma {:induction false} FoldCompatTyped(env: Env, s0: OptState, opts: seq<Opt>)
    requires Fold(env, s0, opts).Ok?
    ensures Fold(env, s0, opts).value.compat == CompatBy(s0, opts)
    ensures Fold(env, s0, opts).value.mdtype.Some? == TypedBy(s0, opts)
    decreases |opts|
  {
    if opts != [] {
      var n := |opts| - 1;
      var init, o := opts[..n], opts[n];
      LastSplit(opts);
      FoldSnoc(env, s0, init, o);
      FoldCompatTyped(env, s0, init);
      LettersSnoc(init, o);
      OptStepAccepts(env, Fold(env, s0, init).value, o);
    }
  }

  /** Option j is admissible in the state the options before it leave. */
  predicate AdmissibleAt(env: Env, s0: OptState, opts: seq<Opt>, j: nat)
    requires j < |opts|
  {
    Admissible(env, CompatBy(s0, opts[..j]), TypedBy(s0, opts[..j]), opts[j])
  }

  lemma AdmissibleAtPrefix(env: Env, s0: OptState, opts: seq<Opt>, n: nat, j: nat)
    requires j < n <= |opts|
    ensures AdmissibleAt(env, s0, opts[..n], j) == AdmissibleAt(env, s0, opts, j)
  {
    assert opts[..n][..j] == opts[..j];
  }

  lemma {:induction false} AllAdmissibleAt(env: Env, s0: OptState, opts: seq<Opt>)
    ensures AllAdmissible(env, s0, opts) <==> forall j :: 0 <= j < |opts| ==> AdmissibleAt(env, s0, opts, j)
    decreases |opts|
  {
    if opts != [] {
      var n := |opts| - 1;
      var init := opts[..n];
      AllAdmissibleAt(env, s0, init);
      assert AllAdmissible(env, s0, opts) <==> AllAdmissible(env, s0, init) && AdmissibleAt(env, s0, opts, n);
      forall j | 0 <= j < n
        ensures AdmissibleAt(env, s0, init, j) == AdmissibleAt(env, s0, opts, j)
      {
        AdmissibleAtPrefix(env, s0, opts, n, j);
      }
    }
  }

  /**
   * The option loop gets through the whole list exactly when every option
   * is admissible in the state the options before it leave: compat on once
   * it started on or a -C came earlier, the type taken once an -F or -M came
   * earlier.
   */
  lemma FoldAccepts(env: Env, s0: OptState, opts: seq<Opt>)
    ensures Fold(env, s0, opts).Ok? <==> forall j :: 0 <= j < |opts| ==> AdmissibleAt(env, s0, opts, j)
    ensures Fold(env, s0, opts).Ok? ==>
              && Fold(env, s0, opts).value.compat == CompatBy(s0, opts)
              && Fold(env, s0, opts).value.mdtype.Some? == TypedBy(s0, opts)
  {
    FoldAcceptsStep(env, s0, opts);
    AllAdmissibleAt(env, s0, opts);
    if Fold(env, s0, opts).Ok? {
      FoldCompatTyped(env, s0, opts);
    }
  }

  /** A second type option is a usage error: -F or -M after an -F or -M. */
  lemma TypeConflict(env: Env, s0: OptState, opts: seq<Opt>, j: nat)
    requires j < |opts| && (opts[j].ch == 'F' || opts[j].ch == 'M') && TypedBy(s0, opts[..j])
    requires Fold(env, s0, opts[..j]).Ok?
    ensures Fold(env, s0, opts[..j + 1]) == Err(Usage)
  {
    FoldCompatTyped(env, s0, opts[..j]);
    assert opts[..j + 1] == opts[..j] + [opts[j]];
    FoldSnoc(env, s0, opts[..j], opts[j]);
  }

  /** -C, -D, -L, -N, -p, -S, -w and -X are usage errors once compat is on. */
  lemma CompatRestricted(env: Env, s0: OptState, opts: seq<Opt>, j: nat)
    requires j < |opts| && opts[j].ch in CompatRefused && CompatBy(s0, opts[..j])
    requires Fold(env, s0, opts[..j]).Ok?
    ensures Fold(env, s0, opts[..j + 1]) == Err(Usage)
  {
    FoldCompatTyped(env, s0, opts[..j]);
    assert opts[..j + 1] == opts[..j] + [opts[j]];
    FoldSnoc(env, s0, opts[..j], opts[j]);
  }

  /** Once an option fails, the options after it change nothing. */
  lemma {:induction false} FoldErrSticks(env: Env, s0: OptState, opts: seq<Opt>, j: nat)
    requires j <= |opts| && Fold(env, s0, opts[..j]).Err?
    ensures Fold(env, s0, opts) == Fold(env, s0, opts[..j])
    decreases |opts| - j
  {
    if j < |opts| {
      assert opts[..j + 1] == opts[..j] + [opts[j]];
      FoldSnoc(env, s0, opts[..j], opts[j]);
      FoldErrSticks(env, s0, opts, j + 1);
    } else {
      assert opts[..j] == opts;
    }
  }

  /** Without -w, every failure of the option loop is a usage error. */
  lemma {:induction false} FoldFailsWithUsage(env: Env, s0: OptState, opts: seq<Opt>)
    requires 'w' !in Letters(opts)
    requires Fold(env, s0, opts).Err?
    ensures Fold(env, s0, opts).error == Usage
    decreases |opts|
  {
    assert opts != [];
    var n := |opts| - 1;
    var init, o := opts[..n], opts[n];
    LastSplit(opts);
    FoldSnoc(env, s0, init, o);
    LettersSnoc(init, o);
    if Fold(env, s0, init).Err? {
      FoldFailsWithUsage(env, s0, init);
    } else {
      assert o.ch != 'w';
      OptStepFailsWithUsage(env, Fold(env, s0, init).value, o);
    }
  }

  /** An option other than -w fails only as a usage error. */
  lemma OptStepFailsWithUsage(env: Env, st: OptState, o: Opt)
    requires o.ch != 'w' && OptStep(env, st, o).Err?
    ensures OptStep(env, st, o).error == Usage
  {
  }

  /**
   * The flags the loop leaves: debug, loudsubs and norun are on exactly when
   * they started on or their option (-X, -L, -N) was given; detach is off
   * when it started off or -D was given.
   */
  lemma {:induction false} FoldFlags(env: Env, s0: OptState, opts: seq<Opt>)
    requires Fold(env, s0, opts).Ok?
    ensures var st := Fold(env, s0, opts).value;
            && st.debug == (s0.debug || 'X' in Letters(opts))
            && st.loudsubs == (s0.loudsubs || 'L' in Letters(opts))
            && st.norun == (s0.norun || 'N' in Letters(opts))
            && st.detach == (s0.detach && 'D' !in Letters(opts))
    decreases |opts|
  {
    if opts != [] {
      var n := |opts| - 1;
      var init, o := opts[..n], opts[n];
      LastSplit(opts);
      FoldSnoc(env, s0, init, o);
      LettersSnoc(init, o);
      FoldFlags(env, s0, init);
    }
  }

  /** The last -S or -U decides softdep; with neither it keeps its initial value. */
  lemma {:induction false} FoldSoftdep(env: Env, s0: OptState, opts: seq<Opt>)
    requires Fold(env, s0, opts).Ok?
    ensures (forall j :: 0 <= j < |opts| ==> opts[j].ch != 'S' && opts[j].ch != 'U') ==>
              Fold(env, s0, opts).value.softdep == s0.softdep
    ensures forall j ::
              (0 <= j < |opts| && (opts[j].ch == 'S' || opts[j].ch == 'U') &&
               forall k :: j < k < |opts| ==> opts[k].ch != 'S' && opts[k].ch != 'U') ==>
              Fold(env, s0, opts).value.softdep == (opts[j].ch == 'U')
    decreases |opts|
  {
    if opts != [] {
      var n := |opts| - 1;
      var init, o := opts[..n], opts[n];
      LastSplit(opts);
      FoldSnoc(env, s0, init, o);
      FoldSoftdep(env, s0, init);
      assert forall j :: 0 <= j < n ==> init[j] == opts[j];
    }
  }

  /**
   * A type option fixes the type: -F gives vnode and -M malloc; with
   * neither the type stays as it started.
   */
  lemma {:induction false} FoldType(env: Env, s0: OptState, opts: seq<Opt>)
    requires Fold(env, s0, opts).Ok?
    ensures 'F' in Letters(opts) ==> Fold(env, s0, opts).value.mdtype == Some(Vnode)
    ensures 'M' in Letters(opts) ==> Fold(env, s0, opts).value.mdtype == Some(Malloc)
    ensures 'F' !in Letters(opts) && 'M' !in Letters(opts) ==> Fold(env, s0, opts).value.mdtype == s0.mdtype
    decreases |opts|
  {
    if opts != [] {
      var n := |opts| - 1;
      var init, o := opts[..n], opts[n];
      LastSplit(opts);
      FoldSnoc(env, s0, init, o);
      LettersSnoc(init, o);
      FoldType(env, s0, init);
    }
  }

  /** The argument of the last option with letter ch, if there is one. */
  function LastArg(opts: seq<Opt>, ch: char): (r: Option<string>)
    ensures r.None? <==> ch !in Letters(opts)
    decreases |opts|
  {
    if opts == [] then None
    else
      LettersInit(opts);
      if opts[|opts| - 1].ch == ch then Some(opts[|opts| - 1].arg)
      else LastArg(opts[..|opts| - 1], ch)
  }

  lemma LettersInit(opts: seq<Opt>)
    requires opts != []
    ensures Letters(opts) == Letters(opts[..|opts| - 1]) + [opts[|opts| - 1].ch]
  {
    LastSplit(opts);
    LettersSnoc(opts[..|opts| - 1], opts[|opts| - 1]);
  }

  /**
   * The mountpoint record after the loop: the mode of the last -p with its
   * flag, the ids and flags extract_ugid derives from the last -w, and the
   * initial fields where the option was not given.
   */
  lemma {:induction false} FoldMtptInfo(env: Env, s0: OptState, opts: seq<Opt>)
    requires Fold(env, s0, opts).Ok?
    ensures var mi := Fold(env, s0, opts).value.mi;
            match LastArg(opts, 'p')
            case None => mi.mode == s0.mi.mode && mi.haveMode == s0.mi.haveMode
            case Some(a) => a in env.modes && mi.mode == env.modes[a] && mi.haveMode
    ensures var mi := Fold(env, s0, opts).value.mi;
            match LastArg(opts, 'w')
            case None => mi.uid == s0.mi.uid && mi.haveUid == s0.mi.haveUid &&
                         mi.gid == s0.mi.gid && mi.haveGid == s0.mi.haveGid
            case Some(a) => ExtractUgid(env.users, env.groups, a, NoInfo).Ok? &&
                            var r := ExtractUgid(env.users, env.groups, a, NoInfo).value;
                            mi.uid == r.uid && mi.haveUid == r.haveUid && mi.gid == r.gid && mi.haveGid == r.haveGid
    decreases |opts|
  {
    if opts != [] {
      var n := |opts| - 1;
      var init, o := opts[..n], opts[n];
      LastSplit(opts);
      FoldSnoc(env, s0, init, o);
      FoldMtptInfo(env, s0, init);
      OptStepMtptInfo(env, Fold(env, s0, init).value, o);
    }
  }

  /** One pass of the switch on the mountpoint record: -p sets the mode, -w the ids, others nothing. */
  lemma OptStepMtptInfo(env: Env, st: OptState, o: Opt)
    requires OptStep(env, st, o).Ok?
    ensures var mi, mi' := st.mi, OptStep(env, st, o).value.mi;
            && (o.ch == 'p' ==> o.arg in env.modes && mi'.mode == env.modes[o.arg] && mi'.haveMode)
            && (o.ch != 'p' ==> mi'.mode == mi.mode && mi'.haveMode == mi.haveMode)
            && (o.ch == 'w' ==> ExtractUgid(env.users, env.groups, o.arg, NoInfo).Ok? &&
                                var r := ExtractUgid(env.users, env.groups, o.arg, NoInfo).value;
                                mi'.uid == r.uid && mi'.haveUid == r.haveUid && mi'.gid == r.gid && mi'.haveGid == r.haveGid)
            && (o.ch != 'w' ==> mi'.uid == mi.uid && mi'.haveUid == mi.haveUid &&
                                mi'.gid == mi.gid && mi'.haveGid == mi.haveGid)
  {
    ExtractUgidIgnoresPrevious(env.users, env.groups, o.arg, st.mi, NoInfo);
  }

  /** The mode the command line requests: 01777 in compat mode, otherwise the last -p's, if any. */
  function RequestedMode(env: Env, compat: bool, opts: seq<Opt>): Option<nat>
  {
    if compat then Some(CompatMode)
    else match LastArg(opts, 'p')
      case None => None
      case Some(a) => if a in env.modes then Some(env.modes[a]) else None
  }

  /** The uid and gid the command line requests: those of the names in the last -w, if any. */
  function RequestedOwner(env: Env, opts: seq<Opt>): Option<(nat, nat)>
  {
    match LastArg(opts, 'w')
    case None => None
    case Some(a) =>
      match SplitUserGroup(a)
      case None => None
      case Some((u, g)) => if u in env.users && g in env.groups then Some((env.users[u], env.groups[g])) else None
  }

  // ---------------------------------------------------------------------
  // After the loop.
  // ---------------------------------------------------------------------

  /** Everything the work phase needs, as main holds it once the unit is known. */
  datatype Config = Config(debug: bool, loudsubs: bool, norun: bool, detach: bool,
                           mdtype: MdType, mi: MtptInfo, mdconfigArg: string,
                           newfsArg: string, mountArg: string, unit: UnitSpec,
                           mtpoint: string)

  /**
   * What main makes of the loop's variables once the unit is known
   * (mdmfs.c 239-262): compat's mode 01777, swap unless a type option was
   * given, and -U appended to the newfs arguments last when softdep is on.
   */
  function Configured(st: OptState, u: UnitSpec, mtpoint: string): Config
  {
    Config(st.debug, st.loudsubs, st.norun, st.detach,
           if st.mdtype.Some? then st.mdtype.value else Swap,
           if st.compat then st.mi.(mode := CompatMode, haveMode := true) else st.mi,
           st.mdconfigArg, if st.softdep then ArgAppend(st.newfsArg, "-U") else st.newfsArg,
           st.mountArg, u, mtpoint)
  }

  /**
   * main up to "Do the work" (mdmfs.c 98-262): the option loop, at least two
   * operands, the unit from the first operand and the mountpoint from the
   * second.
   */
  function CommandLine(env: Env, progName: string, opts: seq<Opt>, operands: seq<string>): Result<Config>
  {
    var st :- Fold(env, Init(IsCompatName(progName)), opts);
    if |operands| < 2 then Err(Usage)
    else
      var u :- ParseUnit(operands[0]);
      Ok(Configured(st, u, operands[1]))
  }

  /** An accepted command line, step by step. */
  lemma CommandLineOk(env: Env, progName: string, opts: seq<Opt>, operands: seq<string>)
    requires CommandLine(env, progName, opts, operands).Ok?
    ensures Fold(env, Init(IsCompatName(progName)), opts).Ok?
    ensures |operands| >= 2 && ParseUnit(operands[0]).Ok?
    ensures CommandLine(env, progName, opts, operands).value ==
            Configured(Fold(env, Init(IsCompatName(progName)), opts).value, ParseUnit(operands[0]).value, operands[1])
  {
  }

  /** Fewer than two operands is a usage error once the options are accepted. */
  lemma TooFewOperands(env: Env, progName: string, opts: seq<Opt>, operands: seq<string>)
    requires |operands| < 2
    ensures CommandLine(env, progName, opts, operands).Err?
    ensures Fold(env, Init(IsCompatName(progName)), opts).Ok? ==>
              CommandLine(env, progName, opts, operands) == Err(Usage)
  {
  }

  /** Operands beyond the second are ignored. */
  lemma ExtraOperandsIgnored(env: Env, progName: string, opts: seq<Opt>, operands: seq<string>)
    requires |operands| >= 2
    ensures CommandLine(env, progName, opts, operands) == CommandLine(env, progName, opts, operands[..2])
  {
  }

  /** The result is accepted exactly when the options are, there are two operands and the unit parses. */
  lemma CommandLineAccepts(env: Env, progName: string, opts: seq<Opt>, operands: seq<string>)
    ensures CommandLine(env, progName, opts, operands).Ok? <==>
            && Fold(env, Init(IsCompatName(progName)), opts).Ok?
            && |operands| >= 2
            && ParseUnit(operands[0]).Ok?
  {
  }

  /**
   * What an accepted command line configures: the unit and mountpoint from
   * the operands, swap unless -F or -M was given, mode 01777 with its flag
   * in compat mode (also when -C came after a -p, and when started as
   * mount_mfs or mfs) and otherwise the last -p's mode, the owner and group
   * of the last -w, and the flags of their letters.
   */
  lemma CommandLineSettings(env: Env, progName: string, opts: seq<Opt>, operands: seq<string>)
    requires CommandLine(env, progName, opts, operands).Ok?
    ensures var c := CommandLine(env, progName, opts, operands).value;
            && c.unit == ParseUnit(operands[0]).value
            && c.mtpoint == operands[1]
            && ('F' !in Letters(opts) && 'M' !in Letters(opts) ==> c.mdtype == Swap)
            && ('F' in Letters(opts) ==> c.mdtype == Vnode)
            && ('M' in Letters(opts) ==> c.mdtype == Malloc)
            && (IsCompatName(progName) || 'C' in Letters(opts) ==> c.mi.mode == CompatMode && c.mi.haveMode)
            && c.debug == ('X' in Letters(opts))
            && c.norun == ('N' in Letters(opts))
            && c.loudsubs == ('L' in Letters(opts))
            && c.detach == ('D' !in Letters(opts))
            && (LastArg(opts, 'p').Some? ==> LastArg(opts, 'p').value in env.modes)
            && (LastArg(opts, 'w').Some? <==> RequestedOwner(env, opts).Some?)
            && var mode := RequestedMode(env, IsCompatName(progName) || 'C' in Letters(opts), opts);
               && c.mi.haveMode == mode.Some?
               && (mode.Some? ==> c.mi.mode == mode.value)
               && c.mi.haveUid == RequestedOwner(env, opts).Some?
               && c.mi.haveGid == RequestedOwner(env, opts).Some?
               && (RequestedOwner(env, opts).Some? ==> (c.mi.uid, c.mi.gid) == RequestedOwner(env, opts).value)
  {
    CommandLineOk(env, progName, opts, operands);
    var s0 := Init(IsCompatName(progName));
    FoldCompatTyped(env, s0, opts);
    FoldType(env, s0, opts);
    FoldFlags(env, s0, opts);
    FoldMtptInfo(env, s0, opts);
    if LastArg(opts, 'w').Some? {
      ExtractUgidAccepts(env.users, env.groups, LastArg(opts, 'w').value, NoInfo);
    }
  }

  /**
   * The helper arguments of an accepted command line: each buffer holds the
   * fragments of its options in order, and the newfs one ends in -U when the
   * last -S or -U was a -U, or when neither was given.
   */
  lemma CommandLineBuffers(env: Env, progName: string, opts: seq<Opt>, operands: seq<string>)
    requires CommandLine(env, progName, opts, operands).Ok?
    ensures var c := CommandLine(env, progName, opts, operands).value;
            && c.mdconfigArg == Spaced(Fragments(opts, MdconfigBuf))
            && c.mountArg == Spaced(Fragments(opts, MountBuf))
            && c.newfsArg == Spaced(Fragments(opts, NewfsBuf) + (if SoftUpdates(Letters(opts), true) then ["-U"] else []))
  {
    CommandLineOk(env, progName, opts, operands);
    var s0 := Init(IsCompatName(progName));
    var st := Fold(env, s0, opts).value;
    FoldBuffers(env, s0, opts, MdconfigBuf);
    FoldBuffers(env, s0, opts, MountBuf);
    FoldBuffers(env, s0, opts, NewfsBuf);
    FoldSoftUpdates(env, s0, opts);
    assert st.newfsArg == Spaced(Fragments(opts, NewfsBuf));
    if st.softdep {
      SpacedAppend(Fragments(opts, NewfsBuf), "-U");
    } else {
      assert Fragments(opts, NewfsBuf) + [] == Fragments(opts, NewfsBuf);
    }
  }

  /** Whether soft updates end up on: the last 'S' or 'U' decides, and with neither, dflt. */
  function SoftUpdates(ls: seq<char>, dflt: bool): bool
  {
    if ls == [] then dflt
    else if ls[|ls| - 1] == 'S' then false
    else if ls[|ls| - 1] == 'U' then true
    else SoftUpdates(ls[..|ls| - 1], dflt)
  }

  /** The loop's softdep is the one the option letters decide. */
  lemma {:induction false} FoldSoftUpdates(env: Env, s0: OptState, opts: seq<Opt>)
    requires Fold(env, s0, opts).Ok?
    ensures Fold(env, s0, opts).value.softdep == SoftUpdates(Letters(opts), s0.softdep)
    decreases |opts|
  {
    if opts != [] {
      var n := |opts| - 1;
      var init, o := opts[..n], opts[n];
      LastSplit(opts);
      FoldSnoc(env, s0, init, o);
      LettersSnoc(init, o);
      FoldSoftUpdates(env, s0, init);
      var ls := Letters(opts);
      assert ls[..|ls| - 1] == Letters(init);
    }
  }

  /** Without -S, softdep keeps its initial value. */
  lemma {:induction false} FoldSoftdepNoS(env: Env, s0: OptState, opts: seq<Opt>)
    requires Fold(env, s0, opts).Ok? && s0.softdep && 'S' !in Letters(opts)
    ensures Fold(env, s0, opts).value.softdep
    decreases |opts|
  {
    if opts != [] {
      var n := |opts| - 1;
      var init, o := opts[..n], opts[n];
      LastSplit(opts);
      FoldSnoc(env, s0, init, o);
      LettersSnoc(init, o);
      FoldSoftdepNoS(env, s0, init);
    }
  }

  /** A fixed unit and a mountpoint, with no options: swap, no arguments but newfs's -U. */
  lemma PlainInvocation(env: Env, n: nat, mtpoint: string)
    ensures CommandLine(env, "mdmfs", [], ["md" + NatToString(n), mtpoint]) ==
            Ok(Config(false, false, false, true, Swap, NoInfo, "", " -U", "", FixedUnit(n), mtpoint))
  {
    assert !IsCompatName("mdmfs");
    assert Fold(env, Init(false), []) == Ok(Init(false));
    ParseUnitOfNumber(n);
    SoftUpdatesOnly();
    assert Configured(Init(false), FixedUnit(n), mtpoint) ==
           Config(false, false, false, true, Swap, NoInfo, "", " -U", "", FixedUnit(n), mtpoint);
  }

  /** The last of -S and -U wins: "-S -U" keeps newfs's -U, "-U -S" drops it. */
  lemma SoftdepLastWins(env: Env, n: nat, mtpoint: string)
    ensures CommandLine(env, "mdmfs", [Opt('S', ""), Opt('U', "")], ["md" + NatToString(n), mtpoint]).Ok?
    ensures CommandLine(env, "mdmfs", [Opt('S', ""), Opt('U', "")], ["md" + NatToString(n), mtpoint]).value.newfsArg == " -U"
    ensures CommandLine(env, "mdmfs", [Opt('U', ""), Opt('S', "")], ["md" + NatToString(n), mtpoint]).Ok?
    ensures CommandLine(env, "mdmfs", [Opt('U', ""), Opt('S', "")], ["md" + NatToString(n), mtpoint]).value.newfsArg == ""
  {
    assert !IsCompatName("mdmfs");
    ParseUnitOfNumber(n);
    TwoSoftdepFlags(env, 'S', 'U');
    TwoSoftdepFlags(env, 'U', 'S');
    SoftUpdatesOnly();
  }

  /** Two of -S and -U from the initial state: only the softdep switch changes, to the second's. */
  lemma TwoSoftdepFlags(env: Env, a: char, b: char)
    requires (a == 'S' || a == 'U') && (b == 'S' || b == 'U')
    ensures Fold(env, Init(false), [Opt(a, ""), Opt(b, "")]) == Ok(Init(false).(softdep := b == 'U'))
  {
    var o := [Opt(a, ""), Opt(b, "")];
    assert o[..1] == [Opt(a, "")] && o[..1][..0] == [];
    assert Fold(env, Init(false), o[..1]) == Ok(Init(false).(softdep := a == 'U'));
  }

  /** An otherwise empty newfs buffer with soft updates on. */
  lemma SoftUpdatesOnly()
    ensures ArgAppend("", "-U") == " -U"
  {
  }
}
