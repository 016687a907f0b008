# mdmfs in Dafny

mdmfs configures a memory disk with mdconfig, puts a UFS file system on it
with newfs, mounts it with mount, and then applies the mode, owner and
group the user asked for to the mountpoint. Started as `mount_mfs` or `mfs`
it runs in compatibility mode (`-C`). In that mode the options that
mount_mfs did not have are refused, and the mountpoint gets mode 01777.

This project models the logic of `sbin/mdmfs/mdmfs.c`, except what is listed under "## Left out":

- **The command line.** This is the getopt switch of `main`, the
  compatibility rules, the two operands, and the unit given by the device
  name (`md3`, `/dev/md3`, `3`, or empty for an automatically chosen unit).
- **argappend.** This routine builds the argument strings for the three
  helper programs.
- **The command line each helper is run with.** These are `mdconfig -a`,
  `mdconfig -d`, `newfs` and `mount`.
- **run().** It splits the command line into an argument vector with
  `strsep`, rewires the child's standard streams with `dup2`, and turns the
  wait status into a return value.
- **The reading of the unit that mdconfig prints.** This happens when mdconfig chose the unit itself.
- **extract_ugid.** It resolves `user:group` into a uid and a gid.
- **The order of the work phase.** Detach, attach, newfs, mount, then
  chmod and chown of the mountpoint. The first failure ends the program.

The modules follow the program:

| module | models |
|---|---|
| `Types` | the failures, including failed `assert`s, and how the process ends |
| `Decimal` | `%d` printing and `strtoul` |
| `Argv` | the particular way run() splits with `strsep` |
| `Runner` | the child's side of run() and `WEXITSTATUS` |
| `Units` | the unit from the operand and from mdconfig's output |
| `Ownership` | extract_ugid |
| `Commands` | argappend and the command-line templates |
| `Options` | the option loop and the rest of main before the work |
| `Pipeline` | the work phase as a trace of events |

`Process` contains the imperative model:

- the option loop and its switch, written as loops and assignments;
- the `Program` class, which holds the globals `debug`, `loudsubs`,
  `norun` and `unit`;
- the helpers, written as methods that update the class.

Each method is proved against the functions of the other modules.

The outside world is passed in as values:

- **The `Env` value.** It holds the user and group databases
  (`getpwnam`, `getgrnam`) and the modes that `setmode` accepts, together
  with what `getmode` returns for them, all as maps.
- **The `World` value.** It holds how each helper program ends, what
  mdconfig prints, and whether chmod or chown fails.

What the program does is a sequence of events. These are the debug lines,
the executed argument vectors with their standard streams, the ignored
detach warning, and the chmod and chown calls.

The model follows mdmfs.c as written, with one exception:
Units.ParseAttachOutput implements the intended `||` test at mdmfs.c:392.
Units.ShortLineSlipsThrough models the test as written (see Findings).

## Model

| member | source | states |
|---|---|---|
| Types.TerminationOf | sbin/mdmfs/mdmfs.c:275 | the process aborts exactly when an assertion failed, exits 0 exactly when nothing failed, and exits 1 on every other failure (usage, errx, err) |
| Decimal.NatToString | sbin/mdmfs/mdmfs.c:346-347 | `%d` of a non-negative unit is a non-empty run of digits with no leading zero |
| Decimal.ValueOfNatToString | sbin/mdmfs/mdmfs.c:253 | reading back the digits `%d` printed gives the same number |
| Decimal.DigitRun | sbin/mdmfs/mdmfs.c:253 | strtoul's scan stops at the first non-digit, and everything before it is a digit |
| Decimal.StrtoulSplits | sbin/mdmfs/mdmfs.c:253 | strtoul of digits followed by a non-digit gives the digits' value and leaves the rest |
| Decimal.StrtoulWhole | sbin/mdmfs/mdmfs.c:253-255 | strtoul consumes the whole string exactly when it is all digits, and then gives its value |
| Argv.Tokens | sbin/mdmfs/mdmfs.c:585-589 | strsep on " " yields one token more than there are spaces, which is the argc the counting loop computes |
| Argv.Find | sbin/mdmfs/mdmfs.c:585 | strchr finds the first occurrence of the character at or after the start, or reports that none exists |
| Argv.DropLeadingEmpty | sbin/mdmfs/mdmfs.c:589-594 | the kept words are a suffix of the tokens, every dropped token is empty, and the first kept word is not empty |
| Argv.SpacesAppend | sbin/mdmfs/mdmfs.c:585-586 | the space count of a concatenation is the sum of the counts |
| Argv.TokensAppend | sbin/mdmfs/mdmfs.c:589 | splitting `a + " " + b` gives the tokens of a followed by the tokens of b |
| Argv.TokensNoSpace | sbin/mdmfs/mdmfs.c:589 | a string without spaces is a single token |
| Argv.TokensHaveNoSpace | sbin/mdmfs/mdmfs.c:589 | no token contains a space |
| Argv.JoinTokens | sbin/mdmfs/mdmfs.c:608-610 | joining the tokens with single spaces gives back the command line |
| Argv.TokensJoin | sbin/mdmfs/mdmfs.c:589 | splitting the space-join of space-free words gives back those words |
| Argv.ArgvWordsOfPlainCommand | sbin/mdmfs/mdmfs.c:608-610 | for a command line that does not start with a space, argv holds every token, and the debug line equals the command line |
| Argv.ArgvWordsEmpty | sbin/mdmfs/mdmfs.c:595 | argv[0] is NULL exactly when the command line is all spaces |
| Argv.Strsep | sbin/mdmfs/mdmfs.c:589 | one strsep call returns the next token and advances past its space, or reports that it was the last |
| Argv.CountArgc | sbin/mdmfs/mdmfs.c:585-586 | the strchr counting loop computes the number of spaces plus one |
| Argv.SplitArgv | sbin/mdmfs/mdmfs.c:584-595 | the vector has argc + 1 slots and holds the words of the command line followed by NULL, or has NULL in slot 0 when there are no words |
| Argv.FillArgv | sbin/mdmfs/mdmfs.c:589-594 | the strsep loop, which overwrites slot 0 while it holds an empty token, leaves the words in order followed by NULL |
| Argv.FillSlot | sbin/mdmfs/mdmfs.c:589-594 | one pass of the strsep loop keeps the filling invariant or finishes with the vector filled |
| Argv.FillInvStep | sbin/mdmfs/mdmfs.c:589-594 | storing the next token and advancing only past a non-empty slot 0 preserves the filling invariant |
| Argv.FillInvClose | sbin/mdmfs/mdmfs.c:592-595 | the terminating NULL completes the vector |
| Runner.ExitStatus | sbin/mdmfs/mdmfs.c:643-654 | the status run() returns is below 256: the exit code mod 256, 255 after a failed execv (`_exit(-1)`), and 0 for a child killed by a signal |
| Runner.ChildStdio | sbin/mdmfs/mdmfs.c:615-641 | a capture puts the pipe on stdout; unless loudsubs is set, stdin, stderr and (if nothing is captured) stdout go to /dev/null |
| Runner.ChildDupsResult | sbin/mdmfs/mdmfs.c:627-641 | applying the child's dup2 calls in their order gives exactly those streams |
| Units.ParseUnitCases | sbin/mdmfs/mdmfs.c:243-256 | after dropping "/dev/" and "md", an empty rest means an automatic unit, all digits means that unit, and anything else is "bad device unit" |
| Units.ParseUnitOfNumber | sbin/mdmfs/mdmfs.c:243-256 | `N`, `mdN` and `/dev/mdN` all name unit N |
| Units.ParseUnitAuto | sbin/mdmfs/mdmfs.c:249-251 | "", "md", "/dev/" and "/dev/md" ask for an automatic unit |
| Units.ParseUnitTrailing | sbin/mdmfs/mdmfs.c:253-255 | a unit number followed by a non-digit is refused, and the message names the rest of the operand |
| Units.ParseUnitPrefixOnce | sbin/mdmfs/mdmfs.c:247-248 | the "md" prefix is dropped only once, so "mdmd3" is refused |
| Units.LineLength | sbin/mdmfs/mdmfs.c:391 | fgetln's line ends at the first newline, which it includes, or at the end of the output |
| Units.ShortLineTests | sbin/mdmfs/mdmfs.c:392 | the test as written (`&&`) fires only at end of file; the intended test (`\|\|`) also fires for a line no longer than "md" |
| Units.ShortLineSlipsThrough | sbin/mdmfs/mdmfs.c:392-395 | the line "m\n" passes the test as written and then fails the prefix assertion; the intended test reports it as unexpected output |
| Units.ParseAttachOutput | sbin/mdmfs/mdmfs.c:391-403 | a first line no longer than "md" is unexpected output; a line without the "md" prefix fails the assertion; success requires the prefix |
| Units.UnterminatedOutputRefused | sbin/mdmfs/mdmfs.c:391-403 | output without a newline yields no unit; mdmfs.c blocks in fgetln on it instead |
| Units.AttachOutputOfUnit | sbin/mdmfs/mdmfs.c:391-403 | when mdconfig prints "mdN\n", unit N is read back, whatever follows |
| Units.AttachOutputAccepted | sbin/mdmfs/mdmfs.c:391-403 | the output gives unit n exactly when its first line is "md", digits with value n, and a newline |
| Units.AttachOutputDigits | sbin/mdmfs/mdmfs.c:399-403 | an accepted output contains the digits of the unit it gives |
| Units.AttachLineAccepted | sbin/mdmfs/mdmfs.c:399-403 | a first line of "md", digits and a newline is accepted with the digits' value |
| Ownership.SplitUserGroup | sbin/mdmfs/mdmfs.c:512-517 | strsep on ":" fails exactly when there is no colon; otherwise the user part has no colon and the parts rebuild the string |
| Ownership.SplitAtFirstColon | sbin/mdmfs/mdmfs.c:514-515 | the split happens at the first colon, so the group part may contain more colons |
| Ownership.ExtractUgidAccepts | sbin/mdmfs/mdmfs.c:507-552 | extract_ugid succeeds exactly when user and group are known, non-numeric and non-empty names, and then sets both ids and both have-flags |
| Ownership.ExtractUgidErrors | sbin/mdmfs/mdmfs.c:514-551 | a missing colon or an empty half is a usage error; an unknown user name is "invalid user"; after an accepted user, an unknown group name is "invalid group"; a named user with a numeric group fails the `mi_have_gid` assertion |
| Ownership.NumericUserRejected | sbin/mdmfs/mdmfs.c:519-551 | a numeric user with an acceptable group fails the mi_have_uid assertion |
| Ownership.NumericIdsRejected | sbin/mdmfs/mdmfs.c:519-551 | "0:0" is refused |
| Ownership.IntendedNumericIds | sbin/mdmfs/mdmfs.c:486-495 | with the have-flags set for numeric halves, "uid:gid" sets exactly those ids |
| Ownership.IntendedAgreesOnNames | sbin/mdmfs/mdmfs.c:519-541 | for user and group names, the corrected routine behaves like the one as written |
| Ownership.ExtractUgidIgnoresPrevious | sbin/mdmfs/mdmfs.c:507-552 | whether extract_ugid succeeds, and the ids and flags it sets, do not depend on what the record held before; only the mode is kept |
| Commands.Spaced | sbin/mdmfs/mdmfs.c:112-114 | a buffer built by argappend from "" is empty or starts with a space |
| Commands.SpacedAppend | sbin/mdmfs/mdmfs.c:283-303 | argappend of one more fragment is the spaced join of the fragments so far and the new one |
| Commands.ArgAppendKeepsBuffer | sbin/mdmfs/mdmfs.c:283-303 | argappend keeps a buffer empty-or-space-led |
| Commands.ArgAppendWords | sbin/mdmfs/mdmfs.c:283-303 | the words of a buffer after argappend are its old words followed by the tokens of the fragment |
| Commands.SpacedWords | sbin/mdmfs/mdmfs.c:283-303 | the words of the buffer are the tokens of all fragments in order |
| Commands.TypeName | sbin/mdmfs/mdmfs.c:333-345 | the type word is non-empty and has no space |
| Commands.DeviceName | sbin/mdmfs/mdmfs.c:346-347 | "md%d" is a single word |
| Commands.DevicePath | sbin/mdmfs/mdmfs.c:481 | "/dev/md%d" is a single word |
| Commands.DetachWords | sbin/mdmfs/mdmfs.c:417 | mdconfig detach runs with exactly the words mdconfig, -d, -u, mdN |
| Commands.AttachAutoWords | sbin/mdmfs/mdmfs.c:379 | automatic attach runs mdconfig -a -t TYPE followed by the words of the mdconfig buffer |
| Commands.AttachWords | sbin/mdmfs/mdmfs.c:346-347 | fixed attach runs mdconfig -a -t TYPE, the buffer's words, then -u mdN |
| Commands.NewfsWords | sbin/mdmfs/mdmfs.c:481 | newfs runs with the newfs buffer's words then /dev/mdN |
| Commands.MountWords | sbin/mdmfs/mdmfs.c:431-432 | mount runs with the mount buffer's words, /dev/mdN, then the words of the mountpoint |
| Commands.PathFirst | sbin/mdmfs/mdmfs.c:555-558 | a command line that starts with an absolute path has a first word |
| Commands.DetachCmdRuns | sbin/mdmfs/mdmfs.c:595 | the detach command passes run()'s assertion that argv[0] is set |
| Commands.AttachAutoCmdRuns | sbin/mdmfs/mdmfs.c:595 | the automatic attach command passes run()'s assertion |
| Commands.AttachCmdRuns | sbin/mdmfs/mdmfs.c:595 | the fixed attach command passes run()'s assertion |
| Commands.NewfsCmdRuns | sbin/mdmfs/mdmfs.c:595 | the newfs command passes run()'s assertion |
| Commands.MountCmdRuns | sbin/mdmfs/mdmfs.c:595 | the mount command passes run()'s assertion |
| Options.FoldSnoc | sbin/mdmfs/mdmfs.c:121-231 | the loop over one more option is one more pass of the switch, and nothing more after a failure |
| Options.FragmentsSnoc | sbin/mdmfs/mdmfs.c:124-217 | one more option adds exactly its fragment to the buffer it writes |
| Options.OptStepBuffers | sbin/mdmfs/mdmfs.c:123-231 | one pass of the switch appends the option's fragment to the one buffer it writes and leaves the others alone |
| Options.FoldBuffers | sbin/mdmfs/mdmfs.c:121-231 | after the loop each buffer is its initial value followed by the spaced fragments of its options, in order |
| Options.OptStepAccepts | sbin/mdmfs/mdmfs.c:123-231 | a pass fails exactly when the letter is unknown, `-C`-refused in compat mode, a second type option, or an unresolvable -p / -w; -C and types are remembered |
| Options.FoldAcceptsStep | sbin/mdmfs/mdmfs.c:121-231 | the loop succeeds exactly when every option is admissible in the state before it |
| Options.FoldCompatTyped | sbin/mdmfs/mdmfs.c:116-178 | after the loop, compat is set exactly when the program name or a -C set it, and a type is set exactly when -F or -M was given |
| Options.FoldAccepts | sbin/mdmfs/mdmfs.c:121-231 | the loop succeeds exactly when each option is admissible given the compat and type state of the options before it |
| Options.TypeConflict | sbin/mdmfs/mdmfs.c:149-178 | a second -F or -M is a usage error |
| Options.CompatRestricted | sbin/mdmfs/mdmfs.c:130-228 | in compat mode, -C, -D, -L, -N, -p, -S, -w and -X are usage errors |
| Options.FoldErrSticks | sbin/mdmfs/mdmfs.c:121-231 | once an option fails, the options after it change nothing |
| Options.OptStepFailsWithUsage | sbin/mdmfs/mdmfs.c:123-231 | every failing pass except -w ends in usage() |
| Options.FoldFailsWithUsage | sbin/mdmfs/mdmfs.c:121-231 | without -w, a failing option loop always ends in usage() |
| Options.FoldFlags | sbin/mdmfs/mdmfs.c:138-228 | debug, loudsubs and norun are set exactly when -X, -L or -N was given, and detach is cleared exactly when -D was given |
| Options.FoldSoftdep | sbin/mdmfs/mdmfs.c:205-215 | the last -S or -U decides soft updates; without either, the initial value stays |
| Options.FoldSoftdepNoS | sbin/mdmfs/mdmfs.c:205-215 | without -S, soft updates stay on |
| Options.FoldSoftUpdates | sbin/mdmfs/mdmfs.c:205-215 | after the loop, soft updates are on exactly when the last -S or -U was -U, or when neither was given and they were on before |
| Options.FoldType | sbin/mdmfs/mdmfs.c:149-178 | -F makes the type vnode, -M makes it malloc, and without either the type keeps its initial value |
| Options.LastArg | sbin/mdmfs/mdmfs.c:121-231 | there is a last argument for a letter exactly when that letter was given |
| Options.OptStepMtptInfo | sbin/mdmfs/mdmfs.c:196-223 | one pass: -p sets the mode from setmode/getmode with its flag, -w sets the ids and flags extract_ugid derives, and every other letter leaves the record alone |
| Options.FoldMtptInfo | sbin/mdmfs/mdmfs.c:196-223 | after the loop, the mode and its flag are the last -p's, the ids and their flags are what extract_ugid derives from the last -w, and each stays at its initial value without its option |
| Options.CommandLineOk | sbin/mdmfs/mdmfs.c:232-262 | an accepted command line came from a successful loop, two operands and a unit, and is configured from them |
| Options.TooFewOperands | sbin/mdmfs/mdmfs.c:232-235 | fewer than two operands is refused, with usage() when the options were fine |
| Options.ExtraOperandsIgnored | sbin/mdmfs/mdmfs.c:232-258 | operands after the mountpoint are ignored |
| Options.CommandLineAccepts | sbin/mdmfs/mdmfs.c:98-262 | a command line is accepted exactly when the options pass, there are two operands, and the device names a unit |
| Options.CommandLineSettings | sbin/mdmfs/mdmfs.c:196-262 | unit, mountpoint and type come from the operands and options (swap by default); the mode is 01777 in compat mode and otherwise the last -p's, set exactly when one was given; the uid and gid are those of the last -w's names, set exactly when -w was given |
| Options.CommandLineBuffers | sbin/mdmfs/mdmfs.c:112-262 | the three argument strings are the spaced fragments of their options; newfs gets -U last exactly when the last -S or -U was -U, or neither was given |
| Options.SoftdepLastWins | sbin/mdmfs/mdmfs.c:205-262 | `-S -U` gives newfs " -U" and `-U -S` gives it nothing: the later flag wins |
| Options.PlainInvocation | sbin/mdmfs/mdmfs.c:98-262 | `mdmfs mdN mtpt` configures swap, unit N, soft updates (" -U"), detach first, and no mode or owner |
| Pipeline.RunNoRun | sbin/mdmfs/mdmfs.c:625-626 | under -N, run() executes nothing and returns 0 |
| Pipeline.RunExec | sbin/mdmfs/mdmfs.c:615-654 | otherwise it executes exactly the argv words with the child's streams, and returns the child's exit status |
| Pipeline.AttachUnit | sbin/mdmfs/mdmfs.c:383-403 | a fixed unit is kept; under -N the automatic unit is -1; otherwise it is the unit mdconfig printed, or the program stops with that output's error |
| Pipeline.NoRunWork | sbin/mdmfs/mdmfs.c:264-273 | under -N the work phase does nothing to the system and cannot fail |
| Pipeline.AttachedExecs | sbin/mdmfs/mdmfs.c:264-270 | the attach step executes the optional detach then the attach command; it succeeds exactly when mdconfig exits 0 and, for an automatic unit, its output is accepted |
| Pipeline.AttachedExecsFixed | sbin/mdmfs/mdmfs.c:265-270 | for a fixed unit, the executed commands are the detach plan then the attach command for that unit |
| Pipeline.DetachExecs | sbin/mdmfs/mdmfs.c:417 | detach executes exactly the mdconfig -d command |
| Pipeline.SetupStepActions | sbin/mdmfs/mdmfs.c:444-450 | a mountpoint step acts only when its flag is set and -N is not, and fails only then |
| Pipeline.MtptSetupNoRun | sbin/mdmfs/mdmfs.c:441-471 | under -N the mountpoint setup changes nothing and cannot fail |
| Pipeline.MtptSetupSteps | sbin/mdmfs/mdmfs.c:441-471 | the setup's actions are those of chmod, chown-user and chown-group, in order, up to the first failure |
| Pipeline.MtptSetupFirstFailure | sbin/mdmfs/mdmfs.c:441-471 | the setup's failure is the first failing step's |
| Pipeline.RequestedSetupCalls | sbin/mdmfs/mdmfs.c:441-471 | after an accepted command line, do_mtptsetup's calls are a chmod to the requested mode, then chowns to the owner and group of the last -w, each only when requested |
| Pipeline.MtptSetupOrder | sbin/mdmfs/mdmfs.c:441-471 | the setup succeeds exactly when no requested step fails; then it makes all requested calls; otherwise it stops at the first failure |
| Pipeline.OwnerOnlyKeepsGroup | sbin/mdmfs/mdmfs.c:451-470 | without a group in the record, the group of the mountpoint is never changed |
| Pipeline.MtptSetupNoExecs | sbin/mdmfs/mdmfs.c:441-471 | the mountpoint setup runs no helper program |
| Pipeline.AttachFailureStops | sbin/mdmfs/mdmfs.c:264-270 | a failed attach ends the program before newfs |
| Pipeline.NewfsFailureStops | sbin/mdmfs/mdmfs.c:264-273 | a failing newfs is fatal with its status, and mount never runs |
| Pipeline.MountFailureStops | sbin/mdmfs/mdmfs.c:264-273 | a failing mount is fatal with its status, after exactly detach, attach, newfs and mount |
| Pipeline.HelpersSucceed | sbin/mdmfs/mdmfs.c:264-275 | when all helpers succeed, the result is the mountpoint setup's |
| Pipeline.DetachTolerated | sbin/mdmfs/mdmfs.c:417-420 | how detach ends never changes the unit or the failure; without -X it changes nothing at all |
| Pipeline.AttachedIgnoresDetach | sbin/mdmfs/mdmfs.c:417-420 | the same holds for the attach step alone |
| Pipeline.RunOutput | sbin/mdmfs/mdmfs.c:598-626 | run() prints its debug line, and only that, whether or not -N stops the exec |
| Pipeline.WorkOutput | sbin/mdmfs/mdmfs.c:264-273 | with an explicit unit, a work phase that nothing stops, dry or real, prints the running line of each helper in order and the note before each mountpoint call |
| Pipeline.DryRunEchoes | sbin/mdmfs/mdmfs.c:264-273 | with an explicit unit, `-N -X` prints the same lines as a real run in which everything succeeds, and changes nothing |
| Pipeline.DryRunAutoUnit | sbin/mdmfs/mdmfs.c:384-386 | with an automatic unit, the dry run keeps the unit at -1, so its newfs and mount lines name /dev/md-1 |
| Pipeline.FatalBeforeSetup | sbin/mdmfs/mdmfs.c:264-273 | when attach, newfs or mount fails, the mountpoint is never chmod-ed or chown-ed |
| Pipeline.MtptSetupFailures | sbin/mdmfs/mdmfs.c:441-471 | the setup fails only with a chmod or chown failure |
| Process.OptionLoop | sbin/mdmfs/mdmfs.c:121-231 | the getopt loop ends in the state of the option fold, or with its failure |
| Process.Switch | sbin/mdmfs/mdmfs.c:123-231 | one pass of the switch on main's variables computes the pass of the option fold |
| Process.FragmentCase | sbin/mdmfs/mdmfs.c:170-217 | -l, -O, -o, -s and -v append their fragment to their buffer |
| Process.NewfsCase | sbin/mdmfs/mdmfs.c:124-189 | -a, -b, -c, -d, -e, -f, -i, -m and -n append "-X arg" to the newfs buffer |
| Process.FlagCase | sbin/mdmfs/mdmfs.c:130-228 | -C, -D, -L, -N, -S, -U and -X set their one switch |
| Process.RefusedCase | sbin/mdmfs/mdmfs.c:130-228 | in compat mode the refused letters end in usage() |
| Process.TypeCase | sbin/mdmfs/mdmfs.c:149-178 | -F sets vnode and appends "-f file"; -M sets malloc; a second type is a usage error |
| Process.ModeCase | sbin/mdmfs/mdmfs.c:196-204 | -p sets the mode setmode and getmode give, or ends in usage() |
| Process.OwnerCase | sbin/mdmfs/mdmfs.c:219-223 | -w takes the record extract_ugid computes, or its failure |
| Process.UnknownCase | sbin/mdmfs/mdmfs.c:229-230 | any other letter ends in usage() |
| Process.ExtractUgidInto | sbin/mdmfs/mdmfs.c:496-552 | writing *mip field by field computes extract_ugid's result or failure |
| Process.DeriveId | sbin/mdmfs/mdmfs.c:519-541 | one half of `user:group` is resolved as strtoul and, for a non-number, a name lookup |
| Process.ReadCommandLine | sbin/mdmfs/mdmfs.c:98-262 | main up to the work computes the command-line configuration or its failure |
| Process.Spawn | sbin/mdmfs/mdmfs.c:563-655 | run() produces the debug line and exec events of the command and returns the child's status |
| Process.ArgvList | sbin/mdmfs/mdmfs.c:609-610 | walking argv up to NULL yields exactly its words |
| Process.ChildStreams | sbin/mdmfs/mdmfs.c:615-641 | the child's dup2 calls produce its streams |
| Process.MtptSetupBlocks | sbin/mdmfs/mdmfs.c:441-471 | the three if-blocks of do_mtptsetup compute the setup's events and failure |
| Process.SetupBlock | sbin/mdmfs/mdmfs.c:444-450 | one block computes its step |
| Process.RunMdmfs | sbin/mdmfs/mdmfs.c:84-276 | the whole program produces mdmfs's trace and ends as its failure dictates |
| Process.Program.constructor | sbin/mdmfs/mdmfs.c:64-68 | the globals start out zero |
| Process.Program.Run | sbin/mdmfs/mdmfs.c:563-655 | run() adds its events to the trace, returns the child's status, and leaves the globals alone |
| Process.Program.DoMdconfigDetach | sbin/mdmfs/mdmfs.c:412-421 | do_mdconfig_detach adds the detach events |
| Process.Program.DoMdconfigAttach | sbin/mdmfs/mdmfs.c:327-350 | do_mdconfig_attach adds the attach events and fails as the fixed attach step does |
| Process.Program.DoMdconfigAttachAu | sbin/mdmfs/mdmfs.c:355-407 | do_mdconfig_attach_au adds the attach events and, on success, sets the unit global to the unit read |
| Process.Program.DoNewfs | sbin/mdmfs/mdmfs.c:476-484 | do_newfs adds the newfs events and fails on a non-zero status |
| Process.Program.DoMount | sbin/mdmfs/mdmfs.c:426-435 | do_mount adds the mount events and fails on a non-zero status |
| Process.Program.DoMtptSetup | sbin/mdmfs/mdmfs.c:441-471 | do_mtptsetup adds the setup events and fails as the setup does |
| Process.Program.DoAttached | sbin/mdmfs/mdmfs.c:265-270 | the detach-and-attach part of the work phase |
| Process.Program.DoWork | sbin/mdmfs/mdmfs.c:264-273 | the work phase on the globals computes the work outcome |
| Process.Program.Configure | sbin/mdmfs/mdmfs.c:243-273 | main stores the switches and the unit in the globals, then does the work |
| Process.Program.Start | sbin/mdmfs/mdmfs.c:84-276 | main from zeroed globals produces mdmfs's trace, failure and unit |

## Left out

- getopt itself: options arrive already split into (letter, argument) pairs, in order, with the operands after them. Its own error messages and its handling of `--` are not modelled.
- Allocation failures, each of which ends the program: of `strdup`, `vasprintf`/`asprintf` in argappend and run(), of `malloc` for argv and the line buffer, and of `pipe`, `fork` and `fdopen`.
- Failures of `open` and `dup2` in the child (mdmfs.c:627-640) are not separate events. The child then calls `err(1)` and exits with status 1. The model covers this as a helper that ends with `Exits(1)`, which is fatal for attach, newfs and mount and ignored for detach.
- Units.ParseAttachOutput: implements the intended `||` test. For mdconfig output "m\n", the code as written aborts at the assertion at mdmfs.c:395 instead. Units.ShortLineSlipsThrough models that behaviour.
- Units.ParseAttachOutput: output whose first line has no newline ("" or "md3", say) is reported as an error: unexpected output, or the failed prefix assertion. mdmfs.c instead blocks for ever in fgetln at mdmfs.c:391. The parent never closes the write end of the pipe it created at mdmfs.c:615-619, so end of file never arrives. The hang is not modelled as an outcome; Units.UnterminatedOutputRefused states where the two part. For the same reason, the `linep == NULL` half of the test at mdmfs.c:392 is reachable only on a read error.
- The text written to stderr: usage(), errx, warnx and debugprintf appear only as events and failures, not as formatted text. The debug line of run() is kept as its list of words.
- The user and group databases, and setmode/getmode: they are maps in `Env`. getmode's masking with the permission bits is folded into the map's values.
- strtoul's leniencies: leading white space and a sign are not accepted. For example, C reads the operand "md 3" as unit 3, and the model refuses it. The `ULONG_MAX` overflow sentinel at mdmfs.c:254, 402, 521 and 533 is absent, as is the truncation of the result to `int`, `uid_t` or `gid_t`; numbers are unbounded.
- The line buffer in do_mdconfig_attach_au (mdmfs.c:396-400) is not modelled; only the bytes of the first line are read. As written, it is overrun. `malloc(linelen - mdnamelen + 1)` allocates linelen - 1 bytes. `strncpy(linebuf, linep + mdnamelen, linelen)` always writes linelen bytes, because strncpy pads with NULs. `linebuf[linelen] = '\0'` writes one byte further still. The model has no memory, so it cannot show this overrun (not executed).
- Process.Program.Run: the `assert(*argv)` at mdmfs.c:595 is a precondition. Commands.DetachCmdRuns and the other `*CmdRuns` lemmas prove that every command mdmfs builds meets it.
- Runner.ExitStatus: a child killed by a signal gives 0. This is what `WEXITSTATUS` extracts from such a status. Core dumps and stopped children are not distinguished.
- Process.Program.DoMdconfigAttachAu: after a fatal error in the output of mdconfig, the unit global is not updated, whereas C has already stored strtoul's value. The process exits at once, so this difference cannot be observed.
- Process.Program.Configure: the switches are stored in the globals after the option loop rather than during it. Nothing reads them in between.
- Process.Switch: compat is a field of the loop state rather than a global. usage() reads it only to choose its message, which is not modelled.
- Options.OptStepAccepts: the nine letters that only append to the newfs buffer are one case in the model, rather than nine separate cases.
- Options and Pipeline use extract_ugid as written, including the failed assertion on numeric ids. Ownership.ExtractUgidIntended exists only to state and prove the corrected behaviour; see Findings.
- The `abort()` default of the type switches (mdmfs.c:343-344, 376-377) cannot be reached, since the type is a three-valued datatype.
- Commands.ArgAppend: it has no contract of its own. Its meaning is stated by Commands.ArgAppendWords and Commands.ArgAppendKeepsBuffer.
- `mdname` is the constant "md" (MD_NAME).
- Closing the pipe and the file descriptors, and freeing memory, are not modelled.

## Findings

| source | as written | input that shows it | evidently intended | confidence | as-written member | corrected member |
|---|---|---|---|---|---|---|
| sbin/mdmfs/mdmfs.c:519-541 | a numeric user or group gets its id from strtoul but never sets `mi_have_uid`/`mi_have_gid`, so the assertions at 550-551 abort | `-w 0:0` | the comment at 486-491 says a [ug]id or a name is accepted; a numeric half should set its have-flag | not executed | Ownership.NumericIdsRejected | Ownership.IntendedNumericIds |
| sbin/mdmfs/mdmfs.c:392 | `linep == NULL && linelen < mdnamelen + 1` joins the two tests with `&&`, so a short line that is not at end of file is let through to the assertion at 395 instead of being reported | mdconfig printing "m\n" | `\|\|`: a line no longer than "md" is "unexpected output from mdconfig (attach)"; the missing-line half is only reachable on a read error, since the pipe never reaches end of file | not executed | Units.ShortLineSlipsThrough | Units.ParseAttachOutput |
