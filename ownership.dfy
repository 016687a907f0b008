/**
 * extract_ugid (mdmfs.c 496-552): deriving the owner and group of the
 * mountpoint from the "user:group" argument of -w.  The identity database
 * (getpwnam(3), getgrnam(3)) is a pair of partial maps from names to ids.
 */
module Ownership {
  import opened Types
  import opened Decimal

  /** strsep(&group, ":") on the argument: user and group around the first colon, None if there is none. */
  function SplitUserGroup(str: string): (r: Option<(string, string)>)
    ensures r.None? <==> ':' !in str
    ensures r.Some? ==> str == r.value.0 + ":" + r.value.1 && ':' !in r.value.0
    decreases |str|
  {
    if str == [] then None
    else if str[0] == ':' then Some(([], str[1..]))
    else match SplitUserGroup(str[1..])
      case None => None
      case Some((u, g)) => Some(([str[0]] + u, g))
  }

  /** The split is at the first colon: the group keeps any later ones. */
  lemma {:induction false} SplitAtFirstColon(user: string, group: string)
    requires ':' !in user
    ensures SplitUserGroup(user + ":" + group) == Some((user, group))
    decreases |user|
  {
    if user == [] {
      assert user + ":" + group == [':'] + group;
    } else {
      assert (user + ":" + group)[1..] == user[1..] + ":" + group;
      SplitAtFirstColon(user[1..], group);
      assert [user[0]] + user[1..] == user;
    }
  }

  /**
   * One half of the argument: a string of digits is taken as the id itself,
   * anything else is looked up by name.  The boolean is the half's "have"
   * flag; 'numericSetsFlag' says whether the numeric branch sets it, which
   * mdmfs.c 520-529 and 532-541 do not.
   */
  function ResolveHalf(half: string, names: map<string, nat>, unknown: Failure,
                       numericSetsFlag: bool): Result<(nat, bool)>
  {
    if AllDigits(half) then Ok((Value(half), numericSetsFlag))
    else if half in names then Ok((names[half], true))
    else Err(unknown)
  }

  function Extract(users: map<string, nat>, groups: map<string, nat>, str: string, mi: MtptInfo,
                   numericSetsFlag: bool): Result<MtptInfo>
  {
    var cleared := mi.(haveUid := false, haveGid := false);
    match SplitUserGroup(str)
    case None => Err(Usage)
    case Some((user, group)) =>
      if user == "" || group == "" then Err(Usage)
      else
        var (uid, haveUid) :- ResolveHalf(user, users, InvalidUser(user), numericSetsFlag);
        var (gid, haveGid) :- ResolveHalf(group, groups, InvalidGroup(group), numericSetsFlag);
        var info := cleared.(uid := uid, haveUid := haveUid, gid := gid, haveGid := haveGid);
        if !info.haveUid then Err(AssertionFailed("mip->mi_have_uid"))
        else if !info.haveGid then Err(AssertionFailed("mip->mi_have_gid"))
        else Ok(info)
  }

  /** extract_ugid as written: a numeric half is stored but its flag stays false. */
  function ExtractUgid(users: map<string, nat>, groups: map<string, nat>, str: string,
                       mi: MtptInfo): Result<MtptInfo>
  {
    Extract(users, groups, str, mi, false)
  }

  /** extract_ugid as its comment describes it: a numeric half is an id and sets the flag. */
  function ExtractUgidIntended(users: map<string, nat>, groups: map<string, nat>, str: string,
                               mi: MtptInfo): Result<MtptInfo>
  {
    Extract(users, groups, str, mi, true)
  }

  /**
   * As written, extract_ugid succeeds exactly when both halves are non-empty
   * names that the identity database knows; it then sets both ids and both
   * flags and leaves the mode alone.
   */
  lemma ExtractUgidAccepts(users: map<string, nat>, groups: map<string, nat>, str: string,
                           mi: MtptInfo)
    ensures ExtractUgid(users, groups, str, mi).Ok? <==>
            && SplitUserGroup(str).Some?
            && var (u, g) := SplitUserGroup(str).value;
               u != "" && g != "" && !AllDigits(u) && !AllDigits(g) && u in users && g in groups
    ensures ExtractUgid(users, groups, str, mi).Ok? ==>
            var (u, g) := SplitUserGroup(str).value;
            ExtractUgid(users, groups, str, mi).value ==
              mi.(uid := users[u], haveUid := true, gid := groups[g], haveGid := true)
  {
  }

  /**
   * The usage and lookup errors, in the order extract_ugid detects them, and
   * the failed assertion on the group flag that a numeric group reaches
   * after a known user name.
   */
  lemma ExtractUgidErrors(users: map<string, nat>, groups: map<string, nat>, str: string,
                          mi: MtptInfo)
    ensures ':' !in str ==> ExtractUgid(users, groups, str, mi) == Err(Usage)
    ensures forall u, g :: ':' !in u && str == u + ":" + g && (u == "" || g == "") ==>
              ExtractUgid(users, groups, str, mi) == Err(Usage)
    ensures forall u, g ::
              (':' !in u && str == u + ":" + g && u != "" && g != "" && !AllDigits(u) && u !in users) ==>
              ExtractUgid(users, groups, str, mi) == Err(InvalidUser(u))
    ensures forall u, g ::
              (':' !in u && str == u + ":" + g && u != "" && g != "" && (!AllDigits(u) ==> u in users) &&
               !AllDigits(g) && g !in groups) ==>
              ExtractUgid(users, groups, str, mi) == Err(InvalidGroup(g))
    ensures forall u, g ::
              (':' !in u && str == u + ":" + g && u != "" && g != "" && !AllDigits(u) && u in users &&
               AllDigits(g)) ==>
              ExtractUgid(users, groups, str, mi) == Err(AssertionFailed("mip->mi_have_gid"))
  {
    forall u, g | ':' !in u && str == u + ":" + g {
      SplitAtFirstColon(u, g);
    }
  }

  /**
   * As written, a numeric user half always ends in the failed assertion on
   * the user flag unless the group half is an unknown name.
   */
  lemma NumericUserRejected(users: map<string, nat>, groups: map<string, nat>,
                            user: string, group: string, mi: MtptInfo)
    requires ':' !in user && user != "" && group != "" && AllDigits(user)
    requires AllDigits(group) || group in groups
    ensures ExtractUgid(users, groups, user + ":" + group, mi) == Err(AssertionFailed("mip->mi_have_uid"))
  {
    SplitAtFirstColon(user, group);
  }

  /** As written, "0:0" is rejected whatever the identity database holds. */
  lemma NumericIdsRejected(users: map<string, nat>, groups: map<string, nat>, mi: MtptInfo)
    ensures ExtractUgid(users, groups, "0:0", mi).Err?
  {
    NumericUserRejected(users, groups, "0", "0", mi);
  }

  /**
   * As intended, numeric halves are taken verbatim without consulting the
   * identity database.
   */
  lemma IntendedNumericIds(users: map<string, nat>, groups: map<string, nat>,
                           user: string, group: string, mi: MtptInfo)
    requires ':' !in user && user != "" && group != "" && AllDigits(user) && AllDigits(group)
    ensures ExtractUgidIntended(users, groups, user + ":" + group, mi) ==
            Ok(mi.(uid := Value(user), haveUid := true, gid := Value(group), haveGid := true))
  {
    SplitAtFirstColon(user, group);
  }

  /** The intended and the written version agree whenever both halves are names. */
  lemma IntendedAgreesOnNames(users: map<string, nat>, groups: map<string, nat>,
                              user: string, group: string, mi: MtptInfo)
    requires ':' !in user && !AllDigits(user) && !AllDigits(group)
    ensures ExtractUgidIntended(users, groups, user + ":" + group, mi) ==
            ExtractUgid(users, groups, user + ":" + group, mi)
  {
    SplitAtFirstColon(user, group);
  }

  /**
   * Whether -w succeeds does not depend on what the mountpoint record held
   * before, and the ids and flags it sets do not either: only the mode is
   * carried over.
   */
  lemma ExtractUgidIgnoresPrevious(users: map<string, nat>, groups: map<string, nat>, str: string,
                                   mi: MtptInfo, mi': MtptInfo)
    ensures ExtractUgid(users, groups, str, mi).Ok? == ExtractUgid(users, groups, str, mi').Ok?
    ensures ExtractUgid(users, groups, str, mi).Ok? ==>
              ExtractUgid(users, groups, str, mi).value ==
              ExtractUgid(users, groups, str, mi').value.(mode := mi.mode, haveMode := mi.haveMode)
  {
  }
}
