/**
 * Resolving the memory-disk unit: from the device operand on the command
 * line (main, mdmfs.c 243-256), or from the first line mdconfig prints when it
 * chose the unit itself (do_mdconfig_attach_au, mdmfs.c 383-403).
 */
module Units {
  import opened Types
  import opened Decimal

  predicate HasPrefix(s: string, p: string) { |p| <= |s| && s[..|p|] == p }

  /** strncmp(s, p, |p|) == 0 ? s + |p| : s */
  function StripPrefix(s: string, p: string): string
  {
    if HasPrefix(s, p) then s[|p|..] else s
  }

  /** What is left of the device operand once "/dev/" and then "md" are skipped. */
  function UnitText(dev: string): string
  {
    StripPrefix(StripPrefix(dev, "/dev/"), MdName)
  }

  /**
   * The unit the device operand names: nothing left means "auto", otherwise
   * strtoul must consume every remaining character.
   */
  function ParseUnit(dev: string): Result<UnitSpec>
  {
    var text := UnitText(dev);
    if text == "" then Ok(AutoUnit)
    else
      var (n, end) := Strtoul(text);
      if end != "" then Err(BadDeviceUnit(text)) else Ok(FixedUnit(n))
  }

  /** The three outcomes of ParseUnit, each stated in terms of the operand's remainder. */
  lemma ParseUnitCases(dev: string)
    ensures ParseUnit(dev) == Ok(AutoUnit) <==> UnitText(dev) == ""
    ensures UnitText(dev) != "" && AllDigits(UnitText(dev)) ==>
              ParseUnit(dev) == Ok(FixedUnit(Value(UnitText(dev))))
    ensures !AllDigits(UnitText(dev)) ==> ParseUnit(dev) == Err(BadDeviceUnit(UnitText(dev)))
  {
    StrtoulWhole(UnitText(dev));
  }

  /** "N", "mdN" and "/dev/mdN" all name unit N. */
  lemma ParseUnitOfNumber(n: nat)
    ensures ParseUnit(NatToString(n)) == Ok(FixedUnit(n))
    ensures ParseUnit(MdName + NatToString(n)) == Ok(FixedUnit(n))
    ensures ParseUnit("/dev/" + MdName + NatToString(n)) == Ok(FixedUnit(n))
  {
    var d := NatToString(n);
    ValueOfNatToString(n);
    UnitTextBare(d);
    UnitTextMd(d);
    UnitTextDev(d);
    ParseUnitCases(d);
    ParseUnitCases(MdName + d);
    ParseUnitCases("/dev/" + MdName + d);
  }

  lemma UnitTextBare(d: string)
    requires d != "" && AllDigits(d)
    ensures UnitText(d) == d
  {
    assert IsDigit(d[0]);
    assert !HasPrefix(d, "/dev/") && !HasPrefix(d, MdName);
  }

  lemma UnitTextMd(d: string)
    requires d != "" && AllDigits(d)
    ensures UnitText(MdName + d) == d
  {
    assert (MdName + d)[0] == 'm';
    assert !HasPrefix(MdName + d, "/dev/");
    assert (MdName + d)[..|MdName|] == MdName;
    assert (MdName + d)[|MdName|..] == d;
  }

  lemma UnitTextDev(d: string)
    requires d != "" && AllDigits(d)
    ensures UnitText("/dev/" + MdName + d) == d
  {
    var s := "/dev/" + MdName + d;
    assert s[..5] == "/dev/";
    assert s[5..] == MdName + d;
    UnitTextMd(d);
  }


  /** An empty remainder, with or without the prefixes, selects auto-unit. */
  lemma ParseUnitAuto()
    ensures ParseUnit("") == Ok(AutoUnit)
    ensures ParseUnit(MdName) == Ok(AutoUnit)
    ensures ParseUnit("/dev/") == Ok(AutoUnit)
    ensures ParseUnit("/dev/" + MdName) == Ok(AutoUnit)
  {
    assert UnitText("/dev/" + MdName) == "";
  }

  /** A number followed by anything else, as in "md3x", is a bad device unit. */
  lemma {:induction false} ParseUnitTrailing(n: nat, junk: string)
    requires junk != [] && !IsDigit(junk[0])
    ensures ParseUnit(MdName + NatToString(n) + junk) == Err(BadDeviceUnit(NatToString(n) + junk))
  {
    var d := NatToString(n);
    var dev := MdName + d + junk;
    assert IsDigit(d[0]);
    assert dev[0] == 'm' && !HasPrefix(dev, "/dev/");
    assert dev[..|MdName|] == MdName && dev[|MdName|..] == d + junk;
    assert UnitText(dev) == d + junk;
    StrtoulSplits(d, junk);
  }

  /** Only one "md" is skipped: "mdmd3" is a bad unit. */
  lemma ParseUnitPrefixOnce()
    ensures ParseUnit("mdmd3").Err?
  {
    assert "mdmd3"[0] == 'm' && !HasPrefix("mdmd3", "/dev/");
    assert UnitText("mdmd3") == "md3";
    ParseUnitCases("mdmd3");
    assert !IsDigit("md3"[0]);
  }

  /** The length of the line fgetln(3) returns: up to and including the first newline. */
  function LineLength(out: string): (k: nat)
    ensures 0 < |out| ==> 0 < k
    ensures k <= |out|
    ensures forall i :: 0 <= i < k - 1 ==> out[i] != '\n'
    ensures k < |out| ==> out[k - 1] == '\n'
    decreases |out|
  {
    if out == [] then 0 else if out[0] == '\n' then 1 else 1 + LineLength(out[1..])
  }

  /** fgetln(3) on the captured output: None at end of file. */
  function FirstLine(out: string): Option<string>
  {
    if out == [] then None else Some(out[..LineLength(out)])
  }

  /** The length fgetln(3) reports: 0 when it returns NULL at end of file. */
  function FgetlnLength(line: Option<string>): nat
  {
    if line.None? then 0 else |line.value|
  }

  /**
   * The short-line test of mdmfs.c 392 as written: it joins its two
   * conditions with &&, so it fires only when there is no line at all, and a
   * line shorter than "md" plus one character goes on to the assert.
   */
  predicate ShortLineAsWritten(line: Option<string>)
  {
    line.None? && FgetlnLength(line) < |MdName| + 1
  }

  /** The short-line test as evidently intended: no line, or one too short to hold a unit. */
  predicate ShortLine(line: Option<string>)
  {
    line.None? || FgetlnLength(line) < |MdName| + 1
  }

  /** As written, the test is only the NULL test; as intended, it also catches short lines. */
  lemma ShortLineTests(line: Option<string>)
    ensures ShortLineAsWritten(line) <==> line.None?
    ensures ShortLine(line) <==> line.None? || |line.value| <= |MdName|
  {
  }

  /**
   * The output "m\n" slips through the test as written and reaches the
   * assert on the "md" prefix, which aborts; the intended test reports it
   * as unexpected output.
   */
  lemma ShortLineSlipsThrough()
    ensures FirstLine("m\n") == Some("m\n")
    ensures !ShortLineAsWritten(FirstLine("m\n")) && !HasPrefix("m\n", MdName)
    ensures ShortLine(FirstLine("m\n"))
    ensures ParseAttachOutput("m\n") == Err(UnexpectedAttachOutput)
  {
    assert LineLength("m\n") == 2 by {
      LineAt("m\n", 2);
    }
    assert "m\n"[..2] == "m\n";
  }

  /**
   * Reading the unit mdconfig chose (mdmfs.c 391-403), with the short-line
   * test as intended: a line that is missing or no longer than "md" is
   * unexpected output; a line not starting with "md" fails the assert;
   * otherwise strtoul must stop at the newline.  As with strtoul, "md\n"
   * reads as unit 0.  A missing line and a line without a newline end the
   * program here, where mdmfs.c waits forever (UnterminatedOutputRefused).
   */
  function ParseAttachOutput(out: string): (r: Result<nat>)
    ensures ShortLine(FirstLine(out)) ==> r == Err(UnexpectedAttachOutput)
    ensures r.Ok? ==> FirstLine(out).Some? && HasPrefix(FirstLine(out).value, MdName)
    ensures (!ShortLine(FirstLine(out)) && !HasPrefix(FirstLine(out).value, MdName)) ==>
              r.Err? && r.error.AssertionFailed?
  {
    var line := FirstLine(out);
    if ShortLine(line) then Err(UnexpectedAttachOutput)
    else if line.value[..|MdName|] != MdName then Err(AssertionFailed("strncmp(linep, mdname, mdnamelen) == 0"))
    else
      var (n, end) := Strtoul(line.value[|MdName|..]);
      if end == [] || end[0] != '\n' then Err(UnexpectedAttachOutput) else Ok(n)
  }

  /**
   * Output with no newline is where the model and mdmfs.c part.  The parent
   * keeps the write end of the pipe open, so fgetln(3) at mdmfs.c 391 waits
   * for a newline that never comes and the program hangs; the model reads
   * no unit from such output and reports an error.
   */
  lemma UnterminatedOutputRefused(out: string)
    requires '\n' !in out
    ensures ParseAttachOutput(out).Err?
  {
    if out != [] {
      var k := LineLength(out);
      assert k == |out|;
      var line := out[..k];
      if !ShortLine(FirstLine(out)) && line[..|MdName|] == MdName {
        var rest := line[|MdName|..];
        var k2 := DigitRun(rest);
        var end := rest[k2..];
        assert end == [] || end[0] == out[|MdName| + k2];
      }
    }
  }

  /** "mdN\n" followed by anything yields unit N. */
  lemma {:induction false} AttachOutputOfUnit(n: nat, more: string)
    ensures ParseAttachOutput(MdName + NatToString(n) + "\n" + more) == Ok(n)
  {
    var d := NatToString(n);
    var out := MdName + d + "\n" + more;
    var k := |MdName| + |d| + 1;
    assert forall i :: 0 <= i < k - 1 ==> out[i] != '\n' by {
      forall i | 0 <= i < k - 1 ensures out[i] != '\n' {
        if i >= |MdName| { assert out[i] == d[i - |MdName|] && IsDigit(d[i - |MdName|]); }
      }
    }
    LineAt(out, k);
    var line := out[..k];
    assert line == MdName + d + "\n";
    assert line[|MdName|..] == d + "\n";
    StrtoulSplits(d, "\n");
    ValueOfNatToString(n);
  }

  lemma {:induction false} LineAt(out: string, k: nat)
    requires 0 < k <= |out| && out[k - 1] == '\n'
    requires forall i :: 0 <= i < k - 1 ==> out[i] != '\n'
    ensures LineLength(out) == k
    decreases k
  {
    if k > 1 {
      LineAt(out[1..], k - 1);
    }
  }

  /**
   * The unit is accepted exactly when the first line is "md", a run of
   * digits and a newline; the unit is the value of the digits.
   */
  lemma AttachOutputAccepted(out: string, n: nat)
    ensures ParseAttachOutput(out) == Ok(n) <==>
            exists d :: AllDigits(d) && Value(d) == n
                        && FirstLine(out) == Some(MdName + d + "\n")
  {
    if ParseAttachOutput(out) == Ok(n) {
      var d := AttachOutputDigits(out, n);
    }
    if exists d :: AllDigits(d) && Value(d) == n && FirstLine(out) == Some(MdName + d + "\n") {
      var d :| AllDigits(d) && Value(d) == n && FirstLine(out) == Some(MdName + d + "\n");
      AttachLineAccepted(out, d);
    }
  }

  /** An accepted first line is "md", the digits of the unit and a newline. */
  lemma AttachOutputDigits(out: string, n: nat) returns (d: string)
    requires ParseAttachOutput(out) == Ok(n)
    ensures AllDigits(d) && Value(d) == n && FirstLine(out) == Some(MdName + d + "\n")
  {
    var line := FirstLine(out).value;
    var tail := line[|MdName|..];
    var k := DigitRun(tail);
    d := tail[..k];
    assert Strtoul(tail) == (n, tail[k..]);
    assert tail[k..][0] == '\n';
    assert line == out[..LineLength(out)];
    assert line[|MdName| + k] == '\n';
    assert |line| == |MdName| + k + 1;
    assert line == line[..|MdName|] + tail;
    assert tail == d + "\n";
    assert line[..|MdName|] == MdName;
    Concat3(MdName, d, "\n");
  }

  /** A first line of "md", digits and a newline is accepted with their value. */
  lemma AttachLineAccepted(out: string, d: string)
    requires AllDigits(d) && FirstLine(out) == Some(MdName + d + "\n")
    ensures ParseAttachOutput(out) == Ok(Value(d))
  {
    var line := MdName + d + "\n";
    assert line[..|MdName|] == MdName;
    assert line[|MdName|..] == d + "\n";
    StrtoulSplits(d, "\n");
  }
}
