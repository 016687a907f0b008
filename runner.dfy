/**
 * The process side of run(): what the parent reads back from waitpid(2), and
 * where the child's standard streams point after its dup2(2) calls.
 */
module Runner {

  /** How a helper program's child process ends. */
  datatype ChildEnd =
    | Exits(code: int)          // the program calls exit(code)
    | ExecFails                 // execv(2) fails and the child calls _exit(-1)
    | Signalled(signal: nat)    // the program is killed by a signal

  /** The raw status waitpid(2) stores: exit code in bits 8-15, signal in bits 0-6. */
  function WaitStatus(c: ChildEnd): nat
  {
    match c
    case Exits(code) => (code % 256) * 256
    case ExecFails => ((-1) % 256) * 256
    case Signalled(sig) => sig % 128
  }

  /** WEXITSTATUS(status). */
  function WExitStatus(status: nat): nat
  {
    (status / 256) % 256
  }

  /**
   * What run() returns for a child that really ran: the low eight bits of its
   * exit code, 255 when the program could not be executed, and 0 when it was
   * killed by a signal (WEXITSTATUS of a signalled status is 0).
   */
  function ExitStatus(c: ChildEnd): (rv: nat)
    ensures rv < 256
    ensures c.Exits? ==> rv == c.code % 256
    ensures c.ExecFails? ==> rv == 255
    ensures c.Signalled? ==> rv == 0
  {
    WExitStatus(WaitStatus(c))
  }

  /** Where one of the child's standard streams points. */
  datatype Stream = Inherited | ToPipe | DevNull

  datatype Stdio = Stdio(stdin: Stream, stdout: Stream, stderr: Stream)

  /** One dup2(2) call in the child: make descriptor fd refer to 'target'. */
  datatype Dup = Dup(fd: nat, target: Stream)

  /**
   * The dup2 calls the child makes, in order (mdmfs.c 627-641): the pipe onto
   * stdout when output is captured, then, unless helpers are loud, /dev/null
   * onto stdin, onto stdout when nothing is captured, and onto stderr.
   */
  function ChildDups(capture: bool, loudsubs: bool): seq<Dup>
  {
    (if capture then [Dup(1, ToPipe)] else []) +
    (if loudsubs then []
     else [Dup(0, DevNull)] + (if capture then [] else [Dup(1, DevNull)]) + [Dup(2, DevNull)])
  }

  function ApplyDup(s: Stdio, d: Dup): Stdio
  {
    if d.fd == 0 then s.(stdin := d.target)
    else if d.fd == 1 then s.(stdout := d.target)
    else if d.fd == 2 then s.(stderr := d.target)
    else s
  }

  function ApplyDups(s: Stdio, ds: seq<Dup>): Stdio
    decreases |ds|
  {
    if ds == [] then s else ApplyDups(ApplyDup(s, ds[0]), ds[1..])
  }

  /**
   * The child's streams when it execs its program.  A captured stdout goes
   * to the pipe and never to /dev/null; otherwise each stream is discarded
   * unless helpers are loud.
   */
  function ChildStdio(capture: bool, loudsubs: bool): (r: Stdio)
    ensures capture ==> r.stdout == ToPipe
    ensures r.stdout == DevNull <==> !capture && !loudsubs
    ensures r.stdout == Inherited <==> !capture && loudsubs
    ensures r.stdin == (if loudsubs then Inherited else DevNull)
    ensures r.stderr == (if loudsubs then Inherited else DevNull)
  {
    ChildDupsResult(capture, loudsubs);
    ApplyDups(Stdio(Inherited, Inherited, Inherited), ChildDups(capture, loudsubs))
  }

  lemma ChildDupsResult(capture: bool, loudsubs: bool)
    ensures ApplyDups(Stdio(Inherited, Inherited, Inherited), ChildDups(capture, loudsubs)) ==
            Stdio(if loudsubs then Inherited else DevNull,
                  if capture then ToPipe else if loudsubs then Inherited else DevNull,
                  if loudsubs then Inherited else DevNull)
  {
    var s := Stdio(Inherited, Inherited, Inherited);
    var ds := ChildDups(capture, loudsubs);
    if capture && loudsubs {
      assert ds == [Dup(1, ToPipe)];
      ApplyDupsCons(s, Dup(1, ToPipe), []);
    } else if capture {
      assert ds == [Dup(1, ToPipe)] + ([Dup(0, DevNull)] + [Dup(2, DevNull)]);
      ApplyDupsCons(s, Dup(1, ToPipe), [Dup(0, DevNull)] + [Dup(2, DevNull)]);
      ApplyDupsCons(Stdio(Inherited, ToPipe, Inherited), Dup(0, DevNull), [Dup(2, DevNull)]);
      ApplyDupsCons(Stdio(DevNull, ToPipe, Inherited), Dup(2, DevNull), []);
    } else if loudsubs {
      assert ds == [];
    } else {
      assert ds == [Dup(0, DevNull)] + ([Dup(1, DevNull)] + [Dup(2, DevNull)]);
      ApplyDupsCons(s, Dup(0, DevNull), [Dup(1, DevNull)] + [Dup(2, DevNull)]);
      ApplyDupsCons(Stdio(DevNull, Inherited, Inherited), Dup(1, DevNull), [Dup(2, DevNull)]);
      ApplyDupsCons(Stdio(DevNull, DevNull, Inherited), Dup(2, DevNull), []);
    }
  }

  lemma ApplyDupsCons(s: Stdio, d: Dup, ds: seq<Dup>)
    ensures ApplyDups(s, [d] + ds) == ApplyDups(ApplyDup(s, d), ds)
  {
    assert ([d] + ds)[1..] == ds;
  }
}
