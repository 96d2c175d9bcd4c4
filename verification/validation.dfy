/**
 * What the main controller of U-Measure checks before a collection starts:
 * required text fields must not be blank, and the two instrument addresses
 * must read as IPv4 addresses by splitting on "." and calling `int()` on each
 * section. The checks share one "input check passed" flag that they can only
 * clear, and the sequence stops at the first check that leaves it false or
 * that raises.
 */
module Validation {
  import opened Wrappers
  import opened Text
  import opened PyInt

  /** How far the section loop of the IPv4 check got. */
  datatype SectionScan = SectionScan(inRange: bool, raised: bool)

  /** `int()` of every section. */
  function ParseAll(sections: seq<string>): (values: seq<Option<int>>)
    ensures |values| == |sections|
  {
    if sections == [] then []
    else ParseAll(sections[..|sections| - 1]) + [ParseInt(sections[|sections| - 1])]
  }

  /** Each value is `int()` of the section in the same place. */
  lemma {:induction false} ParseAllAt(sections: seq<string>)
    ensures forall i :: 0 <= i < |sections| ==> ParseAll(sections)[i] == ParseInt(sections[i])
  {
    if sections != [] {
      ParseAllAt(sections[..|sections| - 1]);
    }
  }

  /**
   * The loop over the sections, front to back: `raised` when `int()` rejects
   * a section (the loop stops there), `inRange` when every section read so
   * far lies in 0..255.
   */
  function ScanSections(values: seq<Option<int>>): SectionScan {
    if values == [] then SectionScan(true, false)
    else
      var pre := ScanSections(values[..|values| - 1]);
      if pre.raised then pre
      else match values[|values| - 1]
        case None => SectionScan(pre.inRange, true)
        case Some(v) => SectionScan(pre.inRange && 0 <= v <= 255, false)
  }

  /** A section value `int()` produced and that lies in 0..255. */
  predicate Octet(value: Option<int>) {
    value.Some? && 0 <= value.value <= 255
  }

  /** The loop raises exactly when some section is not an integer; otherwise it is in range exactly when all are. */
  lemma {:induction false} ScanSectionsIff(values: seq<Option<int>>)
    ensures ScanSections(values).raised <==> exists i :: 0 <= i < |values| && values[i].None?
    ensures !ScanSections(values).raised ==>
      (ScanSections(values).inRange <==> forall i :: 0 <= i < |values| ==> Octet(values[i]))
  {
    if values != [] {
      var init := values[..|values| - 1];
      ScanSectionsIff(init);
      assert forall i :: 0 <= i < |init| ==> init[i] == values[i];
    }
  }

  /** One more section read by the loop. */
  lemma ScanStep(values: seq<Option<int>>, i: nat)
    requires i < |values| && !ScanSections(values[..i]).raised
    ensures values[i].None? ==> ScanSections(values[..i + 1]) == SectionScan(ScanSections(values[..i]).inRange, true)
    ensures values[i].Some? ==>
              ScanSections(values[..i + 1]) == SectionScan(ScanSections(values[..i]).inRange && 0 <= values[i].value <= 255, false)
  {
    assert values[..i + 1][..i] == values[..i];
  }

  /** Once a section raises, the later sections are never read. */
  lemma {:induction false} ScanStopsAtRaise(values: seq<Option<int>>, n: nat)
    requires n <= |values| && ScanSections(values[..n]).raised
    ensures ScanSections(values) == ScanSections(values[..n])
  {
    if n < |values| {
      var init := values[..|values| - 1];
      assert init[..n] == values[..n];
      ScanStopsAtRaise(init, n);
    } else {
      assert values[..n] == values;
    }
  }

  /** `_check_for_valid_ip` on a passing flag: `None` when it raises, otherwise whether the address passes. */
  function IpVerdict(ip: string): Option<bool> {
    var sections := Split(ip, '.');
    var scan := ScanSections(ParseAll(sections));
    if scan.raised then None else Some(|sections| == 4 && scan.inRange)
  }

  /** An address passes exactly when it has four sections, each an integer in 0..255. */
  lemma IpVerdictIff(ip: string)
    ensures IpVerdict(ip) == Some(true) <==>
      |Split(ip, '.')| == 4 && forall i :: 0 <= i < 4 ==> Octet(ParseInt(Split(ip, '.')[i]))
    ensures IpVerdict(ip) == None <==> exists i :: 0 <= i < |Split(ip, '.')| && ParseInt(Split(ip, '.')[i]).None?
  {
    ParseAllAt(Split(ip, '.'));
    ScanSectionsIff(ParseAll(Split(ip, '.')));
  }

  /** The canonical text of an address, `f"{a}.{b}.{c}.{d}"`. */
  function DottedQuad(a: nat, b: nat, c: nat, d: nat): string {
    Join([Show(a), Show(b), Show(c), Show(d)], '.')
  }

  /** A canonical dotted quad passes exactly when every number is at most 255. */
  lemma DottedQuadVerdict(a: nat, b: nat, c: nat, d: nat)
    ensures IpVerdict(DottedQuad(a, b, c, d)) == Some(a <= 255 && b <= 255 && c <= 255 && d <= 255)
  {
    QuadSplits(a, b, c, d);
    QuadParses(a, b, c, d);
    QuadScans(a, b, c, d);
  }

  lemma QuadSplits(a: nat, b: nat, c: nat, d: nat)
    ensures Split(DottedQuad(a, b, c, d), '.') == [Show(a), Show(b), Show(c), Show(d)]
  {
    NoDot(a);
    NoDot(b);
    NoDot(c);
    NoDot(d);
    SplitJoin([Show(a), Show(b), Show(c), Show(d)], '.');
  }

  lemma QuadParses(a: nat, b: nat, c: nat, d: nat)
    ensures ParseAll([Show(a), Show(b), Show(c), Show(d)]) == [Some(a as int), Some(b as int), Some(c as int), Some(d as int)]
  {
    ShowParses(a);
    ShowParses(b);
    ShowParses(c);
    ShowParses(d);
    ParseFour(Show(a), Show(b), Show(c), Show(d));
  }

  /** Four sections parse together to their four parses. */
  lemma ParseFour(s1: string, s2: string, s3: string, s4: string)
    ensures ParseAll([s1, s2, s3, s4]) == [ParseInt(s1), ParseInt(s2), ParseInt(s3), ParseInt(s4)]
  {
    var sections := [s1, s2, s3, s4];
    ParseAllAt(sections);
    assert ParseAll(sections)[0] == ParseInt(s1) && ParseAll(sections)[1] == ParseInt(s2);
    assert ParseAll(sections)[2] == ParseInt(s3) && ParseAll(sections)[3] == ParseInt(s4);
  }

  lemma QuadScans(a: nat, b: nat, c: nat, d: nat)
    ensures ScanSections([Some(a as int), Some(b as int), Some(c as int), Some(d as int)])
         == SectionScan(a <= 255 && b <= 255 && c <= 255 && d <= 255, false)
  {
    var values := [Some(a as int), Some(b as int), Some(c as int), Some(d as int)];
    ScanSectionsIff(values);
    assert values[0] == Some(a as int) && values[1] == Some(b as int) && values[2] == Some(c as int) && values[3] == Some(d as int);
    assert forall i :: 0 <= i < 4 ==> values[i].Some?;
  }

  /** Decimal text holds no dot. */
  lemma NoDot(n: nat)
    ensures '.' !in Show(n)
  {
    var s := Show(n);
    assert forall k :: 0 <= k < |s| ==> IsDigit(s[k]);
  }

  /** An address cut short after a dot, such as "192.168.0.", makes the check raise instead of failing. */
  lemma TrailingDotRaises(prefix: string)
    ensures IpVerdict(prefix + ".") == None
  {
    assert prefix + "." == prefix + ['.'] + [];
    SplitAround(prefix, [], '.');
    var sections := Split(prefix + ".", '.');
    assert sections[|sections| - 1] == [];
    assert ParseInt([]) == None;
    ParseAllAt(sections);
    ScanSectionsIff(ParseAll(sections));
  }

  /** The input fields, named as in the messages the checks show. */
  datatype Field = Mso | Afg | Cycle | RunNumber | Threshold | Scan

  /** The lines the main controller adds to its feedback view. */
  datatype Notice = EmptyField(field: Field) | InvalidIp(field: Field) | StartingCollection

  /** The pass flag after a check, the notices it added, and whether it raised. */
  datatype Checked = Checked(passed: bool, notices: seq<Notice>, raised: bool)

  /** `_check_for_empty_txt_boxes`: a blank text clears the flag and adds a notice; otherwise the flag is kept. */
  function BlankCheck(passed: bool, field: Field, text: string): (c: Checked)
    ensures !c.raised
    ensures c.passed <==> passed && !IsBlank(text)
    ensures c.notices == if IsBlank(text) then [EmptyField(field)] else []
  {
    if IsBlank(text) then Checked(false, [EmptyField(field)], false) else Checked(passed, [], false)
  }

  /**
   * `_check_for_valid_ip`: the flag is cleared by a wrong number of sections
   * or a section out of range; a failure adds a notice; `int()` on a section
   * that is not an integer raises before any notice is added.
   */
  function IpCheck(passed: bool, field: Field, ip: string): Checked {
    var sections := Split(ip, '.');
    IpOutcome(passed, field, |sections|, ScanSections(ParseAll(sections)))
  }

  /**
   * What `_check_for_valid_ip` leaves, from the number of sections and how
   * far the section loop got: the flag survives a count of four and sections
   * in range; a raise stops before the report.
   */
  function IpOutcome(passed: bool, field: Field, count: nat, scan: SectionScan): Checked {
    var p := passed && count == 4 && scan.inRange;
    if scan.raised then Checked(p, [], true)
    else Checked(p, if p then [] else [InvalidIp(field)], false)
  }

  /**
   * The flag survives the address check only when it was set and the address
   * passes; the check raises exactly when `int()` rejects a section, and it
   * reports only a failure that did not raise.
   */
  lemma IpCheckSpec(passed: bool, field: Field, ip: string)
    ensures IpCheck(passed, field, ip).passed ==> passed
    ensures IpCheck(passed, field, ip).raised <==> IpVerdict(ip).None?
    ensures !IpCheck(passed, field, ip).raised ==> (IpCheck(passed, field, ip).passed <==> passed && IpVerdict(ip) == Some(true))
    ensures IpCheck(passed, field, ip).notices
         == if IpCheck(passed, field, ip).raised || IpCheck(passed, field, ip).passed then [] else [InvalidIp(field)]
  {
  }

  /** A check that kept the flag set and did not raise. */
  predicate Clean(c: Checked) {
    c.passed && !c.raised
  }

  /**
   * Checks run in order from a passing flag, each one seeing a passing flag
   * because the sequence returns at the first check that is not clean; that
   * check's result is the result of the sequence.
   */
  function Sequence(outcomes: seq<Checked>): Checked {
    if outcomes == [] then Checked(true, [], false)
    else if Clean(outcomes[0]) then Sequence(outcomes[1..])
    else outcomes[0]
  }

  /** The sequence passes exactly when every check passes. */
  lemma {:induction false} SequencePassesIff(outcomes: seq<Checked>)
    ensures Clean(Sequence(outcomes)) <==> forall i :: 0 <= i < |outcomes| ==> Clean(outcomes[i])
    ensures Clean(Sequence(outcomes)) ==> Sequence(outcomes) == Checked(true, [], false)
  {
    if outcomes != [] {
      SequencePassesIff(outcomes[1..]);
      assert forall i :: 1 <= i < |outcomes| ==> outcomes[1..][i - 1] == outcomes[i];
    }
  }

  /** A clean sequence reports nothing. */
  lemma CleanSequence(outcomes: seq<Checked>)
    ensures Clean(Sequence(outcomes)) ==> Sequence(outcomes) == Checked(true, [], false)
  {
    SequencePassesIff(outcomes);
  }

  /** The first check that is not clean decides the outcome, notices included. */
  lemma {:induction false} FirstFailure(outcomes: seq<Checked>, k: nat)
    requires k < |outcomes|
    requires forall i :: 0 <= i < k ==> Clean(outcomes[i])
    requires !Clean(outcomes[k])
    ensures Sequence(outcomes) == outcomes[k]
  {
    if k > 0 {
      assert forall i :: 0 <= i < k - 1 ==> outcomes[1..][i] == outcomes[i + 1];
      FirstFailure(outcomes[1..], k - 1);
    }
  }

  /** Running two groups of checks one after the other. */
  lemma {:induction false} SequenceAppend(a: seq<Checked>, b: seq<Checked>)
    ensures (forall i :: 0 <= i < |a| ==> Clean(a[i])) ==> Sequence(a + b) == Sequence(b)
    ensures !Clean(Sequence(a)) ==> Sequence(a + b) == Sequence(a)
  {
    if a == [] {
      assert a + b == b;
    } else {
      assert (a + b)[1..] == a[1..] + b;
      assert forall i :: 1 <= i < |a| ==> a[1..][i - 1] == a[i];
      SequenceAppend(a[1..], b);
    }
  }

  /** What the checks read from the setup and experiment models. */
  datatype Inputs = Inputs(mso: string, afg: string, cycle: string, runNumber: string, threshold: string, repetitions: int, scan: string)

  /**
   * The blank checks of `_check_input_before_collection` on a passing flag,
   * in their fixed order; `threshold` is the text `str()` gives for the
   * threshold; Scan is checked only for more than one repetition.
   */
  function BlankOutcomes(inp: Inputs): seq<Checked> {
    [BlankCheck(true, Mso, inp.mso), BlankCheck(true, Afg, inp.afg), BlankCheck(true, Cycle, inp.cycle),
     BlankCheck(true, RunNumber, inp.runNumber), BlankCheck(true, Threshold, inp.threshold)]
    + (if inp.repetitions > 1 then [BlankCheck(true, Scan, inp.scan)] else [])
  }

  /** All the checks of `_check_input_before_collection`: the blank checks, then both addresses. */
  function Outcomes(inp: Inputs): seq<Checked> {
    BlankOutcomes(inp) + [IpCheck(true, Mso, inp.mso), IpCheck(true, Afg, inp.afg)]
  }

  /** The blank checks one by one: the five fields, then Scan's for more than one repetition. */
  lemma BlankOutcomesAt(inp: Inputs)
    ensures var outs := BlankOutcomes(inp);
            |outs| == (if inp.repetitions > 1 then 6 else 5)
            && outs[0] == BlankCheck(true, Mso, inp.mso) && outs[1] == BlankCheck(true, Afg, inp.afg)
            && outs[2] == BlankCheck(true, Cycle, inp.cycle) && outs[3] == BlankCheck(true, RunNumber, inp.runNumber)
            && outs[4] == BlankCheck(true, Threshold, inp.threshold)
            && (inp.repetitions > 1 ==> outs[5] == BlankCheck(true, Scan, inp.scan))
  {
  }

  /**
   * The checks as `_check_input_before_collection` runs them from a passing
   * flag: the blank checks, then, when every one of them is clean, the two
   * addresses.
   */
  function InputCheck(inp: Inputs): Checked {
    var blanks := Sequence(BlankOutcomes(inp));
    if Clean(blanks) then Sequence([IpCheck(true, Mso, inp.mso), IpCheck(true, Afg, inp.afg)]) else blanks
  }

  /** Running the blank checks and then the address checks is running all the checks in order. */
  lemma InputCheckIsSequence(inp: Inputs)
    ensures InputCheck(inp) == Sequence(Outcomes(inp))
  {
    var addresses := [IpCheck(true, Mso, inp.mso), IpCheck(true, Afg, inp.afg)];
    SequencePassesIff(BlankOutcomes(inp));
    SequenceAppend(BlankOutcomes(inp), addresses);
  }

  /** The required fields are filled in. */
  predicate Filled(inp: Inputs) {
    && !IsBlank(inp.mso) && !IsBlank(inp.afg) && !IsBlank(inp.cycle) && !IsBlank(inp.runNumber) && !IsBlank(inp.threshold)
    && (inp.repetitions > 1 ==> !IsBlank(inp.scan))
  }

  /** The inputs are acceptable: required fields filled in and both addresses valid. */
  predicate Acceptable(inp: Inputs) {
    Filled(inp) && IpVerdict(inp.mso) == Some(true) && IpVerdict(inp.afg) == Some(true)
  }

  /** The blank checks are all clean exactly when the fields are filled in; none of them raises or adds more than one notice. */
  lemma BlankOutcomesIff(inp: Inputs)
    ensures (forall i :: 0 <= i < |BlankOutcomes(inp)| ==> Clean(BlankOutcomes(inp)[i])) <==> Filled(inp)
    ensures forall i :: 0 <= i < |BlankOutcomes(inp)| ==>
      !BlankOutcomes(inp)[i].raised && |BlankOutcomes(inp)[i].notices| <= 1
  {
    var outs := BlankOutcomes(inp);
    var c0, c1 := BlankCheck(true, Mso, inp.mso), BlankCheck(true, Afg, inp.afg);
    var c2, c3 := BlankCheck(true, Cycle, inp.cycle), BlankCheck(true, RunNumber, inp.runNumber);
    var c4 := BlankCheck(true, Threshold, inp.threshold);
    if inp.repetitions > 1 {
      var c5 := BlankCheck(true, Scan, inp.scan);
      assert outs == [c0, c1, c2, c3, c4, c5];
      assert outs[0] == c0 && outs[1] == c1 && outs[2] == c2 && outs[3] == c3 && outs[4] == c4 && outs[5] == c5;
    } else {
      assert outs == [c0, c1, c2, c3, c4];
      assert outs[0] == c0 && outs[1] == c1 && outs[2] == c2 && outs[3] == c3 && outs[4] == c4;
    }
  }

  /** The address checks pass exactly when both addresses are valid, and report at most one notice. */
  lemma AddressesIff(mso: string, afg: string)
    ensures Sequence([IpCheck(true, Mso, mso), IpCheck(true, Afg, afg)]) == Checked(true, [], false)
      <==> IpVerdict(mso) == Some(true) && IpVerdict(afg) == Some(true)
    ensures |Sequence([IpCheck(true, Mso, mso), IpCheck(true, Afg, afg)]).notices| <= 1
  {
    var outs := [IpCheck(true, Mso, mso), IpCheck(true, Afg, afg)];
    IpCheckSpec(true, Mso, mso);
    IpCheckSpec(true, Afg, afg);
    SequencePassesIff(outs);
    assert outs[1..] == [IpCheck(true, Afg, afg)];
  }

  /** A sequence of checks that each add at most one notice reports at most one. */
  lemma {:induction false} SequenceNotices(outcomes: seq<Checked>)
    requires forall i :: 0 <= i < |outcomes| ==> |outcomes[i].notices| <= 1
    ensures |Sequence(outcomes).notices| <= 1
  {
    if outcomes != [] {
      assert forall i :: 1 <= i < |outcomes| ==> outcomes[1..][i - 1] == outcomes[i];
      SequenceNotices(outcomes[1..]);
    }
  }

  /** The checks pass, without raising, exactly when the inputs are acceptable; a run reports at most one notice. */
  lemma ChecksPassIff(inp: Inputs)
    ensures Sequence(Outcomes(inp)) == Checked(true, [], false) <==> Acceptable(inp)
    ensures |Sequence(Outcomes(inp)).notices| <= 1
  {
    var blanks := BlankOutcomes(inp);
    var addresses := [IpCheck(true, Mso, inp.mso), IpCheck(true, Afg, inp.afg)];
    BlankOutcomesIff(inp);
    AddressesIff(inp.mso, inp.afg);
    SequenceAppend(blanks, addresses);
    SequencePassesIff(blanks);
    SequenceNotices(blanks);
  }

  /** The checks as the controller runs them pass exactly when the inputs are acceptable. */
  lemma InputCheckPassIff(inp: Inputs)
    ensures Clean(InputCheck(inp)) <==> Acceptable(inp)
    ensures Clean(InputCheck(inp)) ==> InputCheck(inp).notices == []
  {
    InputCheckIsSequence(inp);
    ChecksPassIff(inp);
    CleanSequence(Outcomes(inp));
  }

  /** A blank MSO address is the first thing reported, whatever the other fields hold. */
  lemma BlankMsoFirst(inp: Inputs)
    requires IsBlank(inp.mso)
    ensures Sequence(Outcomes(inp)) == Checked(false, [EmptyField(Mso)], false)
  {
    FirstFailure(Outcomes(inp), 0);
  }

  /** With at most one repetition the Scan field does not matter. */
  lemma ScanIgnoredForSingleRun(inp: Inputs, scan: string)
    requires inp.repetitions <= 1
    ensures Outcomes(inp) == Outcomes(inp.(scan := scan))
  {
  }

  /** Text ending in a dot is not blank. */
  lemma DotEndedNotBlank(prefix: string)
    ensures !IsBlank(prefix + ".")
  {
    BlankIffAllSpace(prefix + ".");
    assert (prefix + ".")[|prefix|] == '.';
    assert !IsSpace('.');
  }

  /** An otherwise filled-in form whose MSO address ends in a dot makes the check raise instead of reporting. */
  lemma TruncatedMsoRaises(inp: Inputs, prefix: string)
    requires inp.mso == prefix + "."
    requires !IsBlank(inp.afg) && !IsBlank(inp.cycle) && !IsBlank(inp.runNumber) && !IsBlank(inp.threshold)
    requires inp.repetitions > 1 ==> !IsBlank(inp.scan)
    ensures Sequence(Outcomes(inp)).raised && Sequence(Outcomes(inp)).notices == []
  {
    DotEndedNotBlank(prefix);
    TrailingDotRaises(prefix);
    BlankOutcomesIff(inp);
    var addresses := [IpCheck(true, Mso, inp.mso), IpCheck(true, Afg, inp.afg)];
    SequenceAppend(BlankOutcomes(inp), addresses);
    FirstFailure(addresses, 0);
  }
}
