/**
 * Values shared by every part of the mdmfs model: the failure-compatible
 * Option and Result wrappers, the ways the program can fail, the memory-disk
 * types and the mountpoint information record (struct mtpt_info).
 */
module Types {

  datatype Option<+T> = None | Some(value: T)

  /** A computation that either yields a value or stops the process with a failure. */
  datatype Result<+T> = Ok(value: T) | Err(error: Failure) {
    predicate IsFailure() { Err? }

    function PropagateFailure<U>(): Result<U>
      requires Err?
    {
      Err(error)
    }

    function Extract(): T
      requires Ok?
    {
      value
    }
  }

  /**
   * Every way mdmfs stops early.  All of them end the process with exit
   * status 1 (usage() or err/errx), except AssertionFailed, which is a failed
   * assert(3) and ends it with abort(3).
   */
  datatype Failure =
    | Usage
    | BadDeviceUnit(unitstr: string)
    | AttachFailed(code: int)
    | UnexpectedAttachOutput
    | NewfsFailed(code: int)
    | MountFailed(code: int)
    | ChmodFailed(path: string)
    | ChownUserFailed(path: string, uid: nat)
    | ChownGroupFailed(path: string, gid: nat)
    | InvalidUser(name: string)
    | InvalidGroup(name: string)
    | AssertionFailed(condition: string)

  /** How the process ends. */
  datatype Termination = Exited(status: int) | Aborted

  function TerminationOf(f: Option<Failure>): (t: Termination)
    ensures t == Aborted <==> f.Some? && f.value.AssertionFailed?
    ensures t.Exited? ==> (t.status == 0 <==> f.None?)
    ensures f.Some? && !f.value.AssertionFailed? ==> t == Exited(1)
  {
    match f
    case None => Exited(0)
    case Some(AssertionFailed(_)) => Aborted
    case Some(_) => Exited(1)
  }

  /** Appending sequences is associative. */
  lemma Concat3<T>(a: seq<T>, b: seq<T>, d: seq<T>)
    ensures a + b + d == a + (b + d)
  {
  }

  /** A non-empty sequence is its front followed by its last element. */
  lemma LastSplit<T>(s: seq<T>)
    requires s != []
    ensures s == s[..|s| - 1] + [s[|s| - 1]]
  {
  }

  /** The backing store of the memory disk (enum md_types). */
  datatype MdType = Swap | Vnode | Malloc

  /** The unit named on the command line: a number, or "let mdconfig choose". */
  datatype UnitSpec = AutoUnit | FixedUnit(n: nat)

  /** struct mtpt_info: owner, group and mode, each with its own "have" flag. */
  datatype MtptInfo = MtptInfo(uid: nat, haveUid: bool, gid: nat, haveGid: bool,
                               mode: nat, haveMode: bool)

  /** The memory disk base name, MD_NAME. */
  const MdName: string := "md"

  /** The value of the unit global before anything writes it. */
  const AutoUnitSentinel: int := -1
}
