/**
 * How run() turns a formatted command line into the argument vector it
 * hands to execv(2): it counts the spaces to size the vector, then calls
 * strsep(&p, " ") until it has a NULL-terminated vector.
 */
module Argv {
  import opened Types

  /** The number of space characters in s. */
  function Spaces(s: string): nat
  {
    if s == [] then 0 else (if s[0] == ' ' then 1 else 0) + Spaces(s[1..])
  }

  /**
   * The successive strings strsep(&p, " ") returns for s: every space ends a
   * token, so adjacent spaces give empty tokens, and there is always one more
   * token than there are spaces.
   */
  function Tokens(s: string): (r: seq<string>)
    ensures |r| == Spaces(s) + 1
    decreases |s|
  {
    if s == [] then [""]
    else if s[0] == ' ' then [""] + Tokens(s[1..])
    else var t := Tokens(s[1..]); [[s[0]] + t[0]] + t[1..]
  }

  /** The tokens joined back with single spaces. */
  function Join(ts: seq<string>): string
    requires ts != []
  {
    if |ts| == 1 then ts[0] else ts[0] + " " + Join(ts[1..])
  }

  /** strchr(3) from index 'from': the first position of c at or after it. */
  function Find(s: string, c: char, from: nat): (r: Option<nat>)
    requires from <= |s|
    ensures r.None? ==> forall i :: from <= i < |s| ==> s[i] != c
    ensures r.Some? ==> from <= r.value < |s| && s[r.value] == c
    ensures r.Some? ==> forall i :: from <= i < r.value ==> s[i] != c
    decreases |s| - from
  {
    if from == |s| then None else if s[from] == c then Some(from) else Find(s, c, from + 1)
  }

  /** The tokens from the first non-empty one on: every token dropped is empty. */
  function DropLeadingEmpty(ts: seq<string>): (r: seq<string>)
    ensures r != [] ==> r[0] != ""
    ensures |r| <= |ts| && r == ts[|ts| - |r|..]
    ensures forall i :: 0 <= i < |ts| - |r| ==> ts[i] == ""
  {
    if ts == [] then [] else if ts[0] == "" then DropLeadingEmpty(ts[1..]) else ts
  }

  /**
   * The words run() actually passes to execv(2).  Because its loop tests the
   * first slot (**argv) rather than the slot just written (**argvp), empty
   * tokens before the first non-empty one are overwritten and dropped, while
   * every token after it, empty or not, is kept.
   */
  function ArgvWords(cmd: string): seq<string>
  {
    DropLeadingEmpty(Tokens(cmd))
  }

  lemma {:induction false} SpacesAppend(a: string, b: string)
    ensures Spaces(a + b) == Spaces(a) + Spaces(b)
  {
    if a != [] {
      assert (a + b)[1..] == a[1..] + b;
      SpacesAppend(a[1..], b);
    } else {
      assert a + b == b;
    }
  }

  lemma {:induction false} SpacesNone(a: string)
    requires forall i :: 0 <= i < |a| ==> a[i] != ' '
    ensures Spaces(a) == 0
  {
    if a != [] {
      SpacesNone(a[1..]);
    }
  }

  /** Splitting at a space splits the token list. */
  lemma {:induction false} TokensAppend(a: string, b: string)
    ensures Tokens(a + " " + b) == Tokens(a) + Tokens(b)
    decreases |a|
  {
    if a == [] {
      assert a + " " + b == [' '] + b;
      assert ([' '] + b)[1..] == b;
    } else {
      assert (a + " " + b)[1..] == a[1..] + " " + b;
      TokensAppend(a[1..], b);
    }
  }

  /** A string without spaces is one token. */
  lemma {:induction false} TokensNoSpace(a: string)
    requires forall i :: 0 <= i < |a| ==> a[i] != ' '
    ensures Tokens(a) == [a]
    decreases |a|
  {
    if a != [] {
      TokensNoSpace(a[1..]);
      assert [a[0]] + a[1..] == a;
    }
  }

  /** No token contains a space. */
  lemma {:induction false} TokensHaveNoSpace(s: string)
    ensures forall k, i :: 0 <= k < |Tokens(s)| && 0 <= i < |Tokens(s)[k]| ==> Tokens(s)[k][i] != ' '
    decreases |s|
  {
    if s != [] {
      TokensHaveNoSpace(s[1..]);
    }
  }

  /** Joining the tokens gives back the command line. */
  lemma {:induction false} JoinTokens(s: string)
    ensures Join(Tokens(s)) == s
    decreases |s|
  {
    if s != [] {
      var t := Tokens(s[1..]);
      JoinTokens(s[1..]);
      if s[0] == ' ' {
        assert s == [' '] + s[1..];
      } else if |t| == 1 {
        assert s == [s[0]] + s[1..];
      } else {
        JoinCons(s[0], t);
        assert s == [s[0]] + s[1..];
      }
    }
  }

  /** Prefixing a character to the first token prefixes it to the join. */
  lemma JoinCons(c: char, t: seq<string>)
    requires |t| > 1
    ensures Join([[c] + t[0]] + t[1..]) == [c] + Join(t)
  {
    var u := [[c] + t[0]] + t[1..];
    assert u[1..] == t[1..];
    assert Join(u) == [c] + t[0] + " " + Join(t[1..]);
    assert Join(t) == t[0] + " " + Join(t[1..]);
    Concat3([c], t[0], " " + Join(t[1..]));
    Concat3([c] + t[0], " ", Join(t[1..]));
    Concat3(t[0], " ", Join(t[1..]));
  }

  /** Words without spaces joined with spaces split back into the same words. */
  lemma {:induction false} TokensJoin(ws: seq<string>)
    requires ws != []
    requires forall k, i :: 0 <= k < |ws| && 0 <= i < |ws[k]| ==> ws[k][i] != ' '
    ensures Tokens(Join(ws)) == ws
    decreases |ws|
  {
    TokensNoSpace(ws[0]);
    if |ws| > 1 {
      TokensJoin(ws[1..]);
      TokensAppend(ws[0], Join(ws[1..]));
      assert [ws[0]] + ws[1..] == ws;
    }
  }

  /** A command line that starts with a non-space character loses no token. */
  lemma ArgvWordsOfPlainCommand(cmd: string)
    requires cmd != [] && cmd[0] != ' '
    ensures ArgvWords(cmd) == Tokens(cmd)
    ensures Join(ArgvWords(cmd)) == cmd
  {
    assert Tokens(cmd)[0] != "";
    JoinTokens(cmd);
  }

  /** run()'s assert(*argv) holds exactly when the command line has a non-space character. */
  lemma {:induction false} ArgvWordsEmpty(cmd: string)
    ensures ArgvWords(cmd) == [] <==> forall i :: 0 <= i < |cmd| ==> cmd[i] == ' '
    decreases |cmd|
  {
    if cmd != [] {
      ArgvWordsEmpty(cmd[1..]);
      AllSpacesCons(cmd);
      ArgvWordsCons(cmd);
    }
  }

  /** A leading space is dropped with the empty token it ends; anything else starts a word. */
  lemma ArgvWordsCons(cmd: string)
    requires cmd != []
    ensures cmd[0] == ' ' ==> ArgvWords(cmd) == ArgvWords(cmd[1..])
    ensures cmd[0] != ' ' ==> ArgvWords(cmd) != []
  {
    if cmd[0] == ' ' {
      assert Tokens(cmd) == [""] + Tokens(cmd[1..]);
      assert Tokens(cmd)[1..] == Tokens(cmd[1..]);
    } else {
      assert Tokens(cmd)[0] != "";
    }
  }

  lemma AllSpacesCons(cmd: string)
    requires cmd != []
    ensures (forall i :: 0 <= i < |cmd| ==> cmd[i] == ' ') <==>
            cmd[0] == ' ' && (forall i :: 0 <= i < |cmd[1..]| ==> cmd[1..][i] == ' ')
  {
    forall i | 0 < i < |cmd| ensures cmd[i] == cmd[1..][i - 1] { }
  }

  /** The "DEBUG: running:" output and exec's argument list are the words of the command. */
  ghost predicate HoldsWords(argv: seq<Option<string>>, ws: seq<string>)
  {
    && |ws| < |argv|
    && (forall i :: 0 <= i < |ws| ==> argv[i] == Some(ws[i]))
    && argv[|ws|] == None
  }

  lemma {:induction false} TokensSuffix(cmd: string, pos: nat, j: nat)
    requires pos <= j < |cmd| && cmd[j] == ' '
    requires forall i :: pos <= i < j ==> cmd[i] != ' '
    ensures Tokens(cmd[pos..]) == [cmd[pos..j]] + Tokens(cmd[j + 1..])
  {
    assert cmd[pos..] == cmd[pos..j] + " " + cmd[j + 1..];
    TokensAppend(cmd[pos..j], cmd[j + 1..]);
    TokensNoSpace(cmd[pos..j]);
  }

  lemma {:induction false} TokensLast(cmd: string, pos: nat)
    requires pos <= |cmd|
    requires forall i :: pos <= i < |cmd| ==> cmd[i] != ' '
    ensures Tokens(cmd[pos..]) == [cmd[pos..]]
  {
    TokensNoSpace(cmd[pos..]);
  }

  /** The first kept token is not empty. */
  lemma FirstKept(ts: seq<string>)
    ensures |ts| - |DropLeadingEmpty(ts)| < |ts| ==> ts[|ts| - |DropLeadingEmpty(ts)|] != ""
  {
    var r := DropLeadingEmpty(ts);
    if r != [] {
      assert ts[|ts| - |r|] == r[0];
    }
  }

  /** One call of strsep(&p, " ") with p non-NULL: the token it returns and the new p. */
  function Strsep(cmd: string, p: nat): (r: (string, Option<nat>))
    requires p <= |cmd|
    ensures r.1.Some? ==> p < r.1.value <= |cmd|
    ensures Tokens(cmd[p..]) == [r.0] + (if r.1.Some? then Tokens(cmd[r.1.value..]) else [])
  {
    var f := Find(cmd, ' ', p);
    var r: (string, Option<nat>) := if f.None? then (cmd[p..], None) else (cmd[p..f.value], Some(f.value + 1));
    FindTokens(cmd, p, f, r);
    r
  }

  /** What strchr's answer says about the tokens from p on. */
  lemma FindTokens(cmd: string, p: nat, f: Option<nat>, r: (string, Option<nat>))
    requires p <= |cmd| && f == Find(cmd, ' ', p)
    requires f.None? ==> r == (cmd[p..], None)
    requires f.Some? ==> r == (cmd[p..f.value], Some(f.value + 1))
    ensures Tokens(cmd[p..]) == [r.0] + (if r.1.Some? then Tokens(cmd[r.1.value..]) else [])
  {
    if f.None? {
      TokensLast(cmd, p);
      assert [cmd[p..]] + [] == [cmd[p..]];
    } else {
      TokensSuffix(cmd, p, f.value);
    }
  }

  /** run()'s 'argc' generation loop: one more than the number of spaces. */
  method CountArgc(cmd: string) returns (argc: nat)
    ensures argc == Spaces(cmd) + 1
  {
    argc := 1;
    var q := 0;
    while Find(cmd, ' ', q).Some?
      invariant q <= |cmd|
      invariant argc == 1 + Spaces(cmd[..q])
      decreases |cmd| - q
    {
      var j := Find(cmd, ' ', q).value;
      assert cmd[..j + 1] == cmd[..q] + cmd[q..j] + " ";
      SpacesAppend(cmd[..q] + cmd[q..j], " ");
      SpacesAppend(cmd[..q], cmd[q..j]);
      SpacesNone(cmd[q..j]);
      argc := argc + 1;
      q := j + 1;
    }
    assert cmd == cmd[..q] + cmd[q..];
    SpacesAppend(cmd[..q], cmd[q..]);
    SpacesNone(cmd[q..]);
  }

  /**
   * run()'s splitting (mdmfs.c 585-595): a vector of argc + 1 slots filled by
   * strsep, where the next slot is taken only while the first slot holds a
   * non-empty string, and a NULL is written after the argc-th word.
   */
  method SplitArgv(cmd: string) returns (argv: array<Option<string>>)
    ensures argv.Length == Spaces(cmd) + 2
    ensures ArgvWords(cmd) != [] ==> HoldsWords(argv[..], ArgvWords(cmd))
    ensures ArgvWords(cmd) == [] ==> argv[0] == None
  {
    var argc := CountArgc(cmd);
    argv := new Option<string>[argc + 1](_ => None);
    FillArgv(cmd, argv);
  }

  /**
   * What the strsep loop has written after n tokens: while only leading empty
   * tokens have been seen it keeps overwriting slot 0; after that slot i holds
   * token L + i.
   */
  ghost predicate Filled(a: seq<Option<string>>, T: seq<string>, L: nat, n: nat, k: nat)
  {
    && (n <= L ==> k == 0)
    && (n > L ==> k == n - L && k <= |a| && n <= |T| && forall i :: 0 <= i < k ==> a[i] == Some(T[L + i]))
  }

  /** The number of leading empty tokens, which run() skips. */
  ghost function Leading(T: seq<string>): nat
  {
    |T| - |DropLeadingEmpty(T)|
  }

  /** The state of the strsep loop: p (None is NULL), n tokens returned so far, argvp at slot k. */
  ghost predicate FillInv(cmd: string, T: seq<string>, a: seq<Option<string>>, p: Option<nat>, n: nat, k: nat)
  {
    && T == Tokens(cmd)
    && |a| == |T| + 1 && n <= |T| && k < |T|
    && (p.Some? ==> p.value <= |cmd| && Tokens(cmd[p.value..]) == T[n..])
    && (p.None? ==> n == |T|)
    && Filled(a, T, Leading(T), n, k)
  }

  /** strsep returns the next token, and p moves past it. */
  lemma StrsepNext(cmd: string, T: seq<string>, p: nat, n: nat)
    requires p <= |cmd| && n <= |T| && Tokens(cmd[p..]) == T[n..]
    ensures n < |T| && Strsep(cmd, p).0 == T[n]
    ensures Strsep(cmd, p).1.Some? ==> Tokens(cmd[Strsep(cmd, p).1.value..]) == T[n + 1..]
    ensures Strsep(cmd, p).1.None? ==> n + 1 == |T|
  {
    assert T[n..][1..] == T[n + 1..];
  }

  /** Storing token n at argvp and then testing slot 0 keeps the picture of Filled. */
  lemma FilledStep(a: seq<Option<string>>, T: seq<string>, L: nat, n: nat, k: nat)
    requires |a| == |T| + 1 && n < |T| && k < |T| && L <= |T|
    requires Filled(a, T, L, n, k)
    requires n < L ==> T[n] == ""
    requires L < |T| ==> T[L] != ""
    ensures var a' := a[k := Some(T[n])];
            Filled(a', T, L, n + 1, if a'[0] != Some("") then k + 1 else k)
  {
  }

  /** Once argvp reaches the last slot, every token has been read. */
  lemma FilledFull(a: seq<Option<string>>, T: seq<string>, L: nat, n: nat, k: nat)
    requires Filled(a, T, L, n, k) && n <= |T| && 0 < |T| <= k
    ensures n == |T| && k == |T|
  {
  }

  /** One call of strsep and the slot test that follows it. */
  lemma FillInvStep(cmd: string, T: seq<string>, a: seq<Option<string>>, p: nat, n: nat, k: nat)
    requires FillInv(cmd, T, a, Some(p), n, k)
    ensures var r := Strsep(cmd, p);
            var a' := a[k := Some(r.0)];
            var k' := if a'[0] != Some("") then k + 1 else k;
            && (k' < |T| ==> FillInv(cmd, T, a', r.1, n + 1, k'))
            && (k' >= |T| ==> k' == |T| && Filled(a', T, Leading(T), |T|, k'))
  {
    StrsepNext(cmd, T, p, n);
    if n < Leading(T) {
      assert T[n] == "";
    }
    FirstKept(T);
    FilledStep(a, T, Leading(T), n, k);
    var a' := a[k := Some(T[n])];
    var k' := if a'[0] != Some("") then k + 1 else k;
    if k' >= |T| {
      FilledFull(a', T, Leading(T), n + 1, k');
    }
  }

  /** Writing the terminating NULL after k words completes the vector. */
  lemma FillInvClose(cmd: string, T: seq<string>, a: seq<Option<string>>, k: nat)
    requires T == Tokens(cmd) && |a| == |T| + 1 && k < |a|
    requires Filled(a, T, Leading(T), |T|, k)
    ensures ArgvWords(cmd) != [] ==> HoldsWords(a[k := None], ArgvWords(cmd))
    ensures ArgvWords(cmd) == [] ==> a[k := None][0] == None
  {
  }

  /**
   * One turn of the strsep loop: store the next token at argvp, advance
   * argvp unless slot 0 still holds an empty token, and write the final
   * NULL once argvp reaches the last of the argc slots.
   */
  method FillSlot(cmd: string, ghost T: seq<string>, argv: array<Option<string>>, p: nat,
                  ghost n: nat, k: nat) returns (p': Option<nat>, k': nat, done: bool)
    requires FillInv(cmd, T, argv[..], Some(p), n, k)
    modifies argv
    ensures done ==> ArgvWords(cmd) != [] ==> HoldsWords(argv[..], ArgvWords(cmd))
    ensures done ==> ArgvWords(cmd) == [] ==> argv[0] == None
    ensures !done ==> FillInv(cmd, T, argv[..], p', n + 1, k')
    ensures !done && p'.Some? ==> p < p'.value
  {
    var r := Strsep(cmd, p);
    ghost var a := argv[..];
    FillInvStep(cmd, T, a, p, n, k);
    argv[k] := Some(r.0);
    assert argv[..] == a[k := Some(r.0)];
    p', k', done := r.1, k, false;
    if argv[0] != Some("") {           // **argv != '\0'
      k' := k + 1;
      if k' >= argv.Length - 1 {
        FillInvClose(cmd, T, argv[..], k');
        argv[k'] := None;
        done := true;
      }
    }
  }

  /** The strsep loop of run(), writing into a vector of Spaces(cmd) + 2 slots. */
  method FillArgv(cmd: string, argv: array<Option<string>>)
    requires argv.Length == Spaces(cmd) + 2
    modifies argv
    ensures ArgvWords(cmd) != [] ==> HoldsWords(argv[..], ArgvWords(cmd))
    ensures ArgvWords(cmd) == [] ==> argv[0] == None
  {
    ghost var T := Tokens(cmd);
    var p: Option<nat> := Some(0);      // strsep's *p; None is NULL
    var k: nat := 0;                    // argvp - argv
    ghost var n := 0;                   // tokens strsep has returned
    assert cmd[0..] == cmd;
    while true
      invariant FillInv(cmd, T, argv[..], p, n, k)
      decreases if p.Some? then |cmd| - p.value + 2 else 1
    {
      if p.None? {
        FillInvClose(cmd, T, argv[..], k);
        argv[k] := None;                // strsep returned NULL
        break;
      }
      var done;
      p, k, done := FillSlot(cmd, T, argv, p.value, n, k);
      n := n + 1;
      if done {
        break;
      }
    }
  }
}
