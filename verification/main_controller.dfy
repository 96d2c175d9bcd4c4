/**
 * The main controller of U-Measure: the checks run before a collection, the
 * collect/abort button, the collecting and aborting flags, and one pass of
 * the worker loop that drives the acquisition controller. The confirmation
 * dialog's answer and Python's `str()` of the threshold are parameters.
 */
module UMeasureMain {
  import opened Wrappers
  import opened Text
  import opened PyInt
  import opened Validation
  import opened Models
  import opened Instruments
  import opened Visa

  /** The repetition label: the current repetition over the planned number. */
  datatype RepetitionStatus = RepetitionStatus(current: int, total: int)

  class MainController {
    /** The acquisition controller; its setup and experiment models are the ones the checks read. */
    const visa: VisaController
    var collecting: bool
    var aborting: bool
    var inputCheckPassed: bool
    /** The lines added to the feedback view, oldest first. */
    var feedback: seq<Notice>
    var statusLabel: string
    var buttonLabel: string
    var widgetsEnabled: bool
    var repetitionVisible: bool
    var repetitionStatus: RepetitionStatus
    var timerRunning: bool

    /** What the checks read, with `show` standing for `str()` of the threshold. */
    function InputsOf(show: real -> string): Inputs
      reads visa, visa.setup, visa.experiment
    {
      Inputs(visa.setup.mso, visa.setup.afg, visa.setup.cycle, visa.setup.runNumber,
             show(visa.experiment.threshold), visa.experiment.repetitions, visa.experiment.scan)
    }

    /** A new controller is idle, with a passing flag. */
    constructor (visa: VisaController)
      ensures this.visa == visa
      ensures !collecting && !aborting && inputCheckPassed && feedback == []
    {
      this.visa := visa;
      collecting, aborting, inputCheckPassed := false, false, true;
      feedback := [];
      statusLabel, buttonLabel := "Idle", "Collect";
      widgetsEnabled, repetitionVisible, timerRunning := true, false, false;
      repetitionStatus := RepetitionStatus(0, 0);
    }

    /** `_change_to_collecting`: lock the form, announce the start, offer "Abort". */
    method ChangeToCollecting()
      modifies this
      ensures feedback == old(feedback) + [StartingCollection]
      ensures !widgetsEnabled && statusLabel == "Collecting" && buttonLabel == "Abort" && repetitionVisible
      ensures collecting == old(collecting) && aborting == old(aborting) && inputCheckPassed == old(inputCheckPassed)
      ensures timerRunning == old(timerRunning) && repetitionStatus == old(repetitionStatus)
    {
      widgetsEnabled := false;
      feedback := feedback + [StartingCollection];
      statusLabel := "Collecting";
      buttonLabel := "Abort";
      repetitionVisible := true;
    }

    /** `_change_to_idle`: both flags cleared, the form unlocked, the timer stopped. */
    method ChangeToIdle()
      modifies this
      ensures !collecting && !aborting
      ensures widgetsEnabled && statusLabel == "Idle" && buttonLabel == "Collect" && !repetitionVisible && !timerRunning
      ensures feedback == old(feedback) && inputCheckPassed == old(inputCheckPassed) && repetitionStatus == old(repetitionStatus)
    {
      widgetsEnabled := true;
      aborting := false;
      collecting := false;
      statusLabel := "Idle";
      buttonLabel := "Collect";
      repetitionVisible := false;
      timerRunning := false;
    }

    /** `_change_to_aborting`: only the aborting flag and the status label change. */
    method ChangeToAborting()
      modifies this
      ensures aborting && statusLabel == "Aborting"
      ensures collecting == old(collecting) && feedback == old(feedback) && inputCheckPassed == old(inputCheckPassed)
      ensures widgetsEnabled == old(widgetsEnabled) && buttonLabel == old(buttonLabel)
      ensures repetitionVisible == old(repetitionVisible) && repetitionStatus == old(repetitionStatus) && timerRunning == old(timerRunning)
    {
      statusLabel := "Aborting";
      aborting := true;
    }

    /** `_change_current_repetition`: show the repetition that starts over the planned count. */
    method ChangeCurrentRepetition(repetition: int)
      modifies this
      ensures repetitionStatus == RepetitionStatus(repetition, visa.experiment.repetitions)
      ensures collecting == old(collecting) && aborting == old(aborting) && feedback == old(feedback)
      ensures inputCheckPassed == old(inputCheckPassed)
    {
      repetitionStatus := RepetitionStatus(repetition, visa.experiment.repetitions);
    }

    /** `_check_for_empty_txt_boxes`: a blank text clears the flag and is reported; the flag is returned. */
    method CheckForEmptyTxtBoxes(field: Field, text: string) returns (passed: bool)
      modifies this
      ensures passed == inputCheckPassed == BlankCheck(old(inputCheckPassed), field, text).passed
      ensures feedback == old(feedback) + BlankCheck(old(inputCheckPassed), field, text).notices
      ensures inputCheckPassed ==> old(inputCheckPassed)
      ensures collecting == old(collecting) && aborting == old(aborting)
    {
      if IsBlank(text) {
        feedback := feedback + [EmptyField(field)];
        inputCheckPassed := false;
      }
      passed := inputCheckPassed;
    }

    /**
     * `_check_for_valid_ip`: split on ".", clear the flag for a count other
     * than four and for each section outside 0..255, and report a failure.
     * `raised` is set when `int()` rejects a section: the check stops there,
     * before any report.
     */
    method CheckForValidIp(field: Field, ip: string) returns (passed: bool, raised: bool)
      modifies this
      ensures var c := IpCheck(old(inputCheckPassed), field, ip);
              raised == c.raised && inputCheckPassed == c.passed && feedback == old(feedback) + c.notices
      ensures !raised ==> passed == inputCheckPassed
      ensures collecting == old(collecting) && aborting == old(aborting)
    {
      var sections := Split(ip, '.');
      // `int()` of each section, read by the loop in order
      var values := ParseAll(sections);
      if |sections| != 4 {
        inputCheckPassed := false;
      }
      raised := false;
      var i := 0;
      while i < |sections|
        invariant 0 <= i <= |sections|
        invariant !ScanSections(values[..i]).raised
        invariant inputCheckPassed == (old(inputCheckPassed) && |sections| == 4 && ScanSections(values[..i]).inRange)
        invariant feedback == old(feedback) && collecting == old(collecting) && aborting == old(aborting)
      {
        var value := values[i];
        ScanStep(values, i);
        if value.None? {
          ScanStopsAtRaise(values, i + 1);
          raised, passed := true, inputCheckPassed;
          assert feedback == old(feedback) + [];
          return;
        }
        if value.value < 0 || value.value > 255 {
          inputCheckPassed := false;
        }
        i := i + 1;
      }
      assert values[..i] == values;
      if !inputCheckPassed {
        feedback := feedback + [InvalidIp(field)];
      } else {
        assert feedback == old(feedback) + [];
      }
      passed := inputCheckPassed;
    }

    /** The blank checks of `_check_input_before_collection`, returning at the first that fails. */
    method CheckRequiredFields(show: real -> string) returns (ok: bool)
      modifies this
      ensures var c := if old(inputCheckPassed) then Sequence(BlankOutcomes(InputsOf(show)))
                       else BlankCheck(false, Mso, visa.setup.mso);
              inputCheckPassed == ok == c.passed && !c.raised && feedback == old(feedback) + c.notices
      ensures collecting == old(collecting) && aborting == old(aborting)
    {
      var inp := InputsOf(show);
      ghost var outs := BlankOutcomes(inp);
      ghost var flag := old(inputCheckPassed);
      BlankOutcomesAt(inp);
      ok := CheckForEmptyTxtBoxes(Mso, inp.mso);
      if !ok {
        if flag { FirstFailure(outs, 0); }
        return;
      }
      assert feedback == old(feedback);
      ok := CheckForEmptyTxtBoxes(Afg, inp.afg);
      if !ok {
        FirstFailure(outs, 1);
        return;
      }
      assert feedback == old(feedback);
      ok := CheckForEmptyTxtBoxes(Cycle, inp.cycle);
      if !ok {
        FirstFailure(outs, 2);
        return;
      }
      assert feedback == old(feedback);
      ok := CheckForEmptyTxtBoxes(RunNumber, inp.runNumber);
      if !ok {
        FirstFailure(outs, 3);
        return;
      }
      assert feedback == old(feedback);
      ok := CheckForEmptyTxtBoxes(Threshold, inp.threshold);
      if !ok {
        FirstFailure(outs, 4);
        return;
      }
      assert feedback == old(feedback);
      if inp.repetitions > 1 {
        ok := CheckForEmptyTxtBoxes(Scan, inp.scan);
        if !ok {
          FirstFailure(outs, 5);
          return;
        }
      }
      SequencePassesIff(outs);
    }

    /** The address checks of `_check_input_before_collection`, from a passing flag, returning at the first that fails. */
    method CheckAddresses() returns (raised: bool)
      requires inputCheckPassed
      modifies this
      ensures var c := Sequence([IpCheck(true, Mso, visa.setup.mso), IpCheck(true, Afg, visa.setup.afg)]);
              inputCheckPassed == c.passed && raised == c.raised && feedback == old(feedback) + c.notices
      ensures collecting == old(collecting) && aborting == old(aborting)
    {
      ghost var addresses := [IpCheck(true, Mso, visa.setup.mso), IpCheck(true, Afg, visa.setup.afg)];
      var ok;
      ok, raised := CheckForValidIp(Mso, visa.setup.mso);
      if raised || !ok {
        FirstFailure(addresses, 0);
        return;
      }
      ok, raised := CheckForValidIp(Afg, visa.setup.afg);
      if raised || !ok {
        FirstFailure(addresses, 1);
        return;
      }
      SequencePassesIff(addresses);
    }

    /**
     * `_check_input_before_collection`: the checks in their fixed order,
     * returning at the first that fails. From a passing flag the result is
     * that of the whole sequence of checks; from a failing one the first
     * check ends it.
     */
    method CheckInputBeforeCollection(show: real -> string) returns (raised: bool)
      modifies this
      ensures var c := if old(inputCheckPassed) then InputCheck(InputsOf(show))
                       else BlankCheck(false, Mso, visa.setup.mso);
              inputCheckPassed == c.passed && raised == c.raised && feedback == old(feedback) + c.notices
      ensures collecting == old(collecting) && aborting == old(aborting)
    {
      raised := false;
      ghost var inp := InputsOf(show);
      CleanSequence(BlankOutcomes(inp));
      var ok := CheckRequiredFields(show);
      if ok {
        assert feedback == old(feedback);
        raised := CheckAddresses();
      }
    }

    /**
     * `_btn_collection_clicked`: while collecting it only asks to abort;
     * otherwise it resets the flag, runs the checks, and starts collecting
     * when they pass and the confirmation is answered Yes.
     */
    method ButtonClicked(confirmed: bool, show: real -> string) returns (raised: bool)
      modifies this
      ensures old(collecting) ==> collecting && aborting && !raised
      ensures old(collecting) ==> feedback == old(feedback) && inputCheckPassed == old(inputCheckPassed)
      ensures !old(collecting) ==> (collecting <==> Acceptable(InputsOf(show)) && confirmed)
      ensures !old(collecting) ==> raised == InputCheck(InputsOf(show)).raised
      ensures !old(collecting) && collecting ==> feedback == old(feedback) + [StartingCollection] && timerRunning
      ensures !old(collecting) && !collecting ==> feedback == old(feedback) + InputCheck(InputsOf(show)).notices
      ensures !old(collecting) ==> aborting == old(aborting)
    {
      raised := false;
      if collecting {
        ChangeToAborting();
        return;
      }
      ghost var inp := InputsOf(show);
      InputCheckPassIff(inp);
      inputCheckPassed := true;
      raised := CheckInputBeforeCollection(show);
      assert InputsOf(show) == inp;
      if raised {
        return;
      }
      if !inputCheckPassed {
        return;
      }
      if !confirmed {
        return;
      }
      ChangeToCollecting();
      timerRunning := true;
      collecting := true;
    }

    /**
     * One pass of `_worker_process`: when collecting, connect, collect with
     * the aborting flag as it is now, and go idle; then, every pass, restore
     * the instrument defaults. `hung` is true when the digitizer's answers
     * ran out mid-capture, where the worker would wait for ever.
     */
    method WorkerIteration(opening: Opening) returns (hung: bool)
      modifies this, visa
      ensures old(collecting) ==>
                var start := Connected(old(visa.Snapshot()), opening);
                var run := Replay(Run(start, false), Schedule(opening.Opened?, old(aborting), visa.experiment.repetitions, visa.experiment.fileNumber),
                                  old(aborting), visa.basedir, visa.setup.Values(), visa.experiment.Values());
                visa.connected == opening.Opened? && hung == run.hung
                && visa.Snapshot() == (if hung then run.log else Restore(run.log, opening.Opened?, visa.experiment.resetFrequency))
      ensures !old(collecting) ==>
                visa.connected == old(visa.connected)
                && visa.Snapshot() == Restore(old(visa.Snapshot()), old(visa.connected), visa.experiment.resetFrequency)
      ensures !old(collecting) ==> !hung && collecting == old(collecting) && aborting == old(aborting)
      ensures old(collecting) && !hung ==> !collecting && !aborting
      ensures visa.basedir == old(visa.basedir) && feedback == old(feedback)
    {
      hung := false;
      if collecting {
        visa.Connect(opening);
        hung := visa.CollectData(aborting);
        if hung {
          return;
        }
        ChangeToIdle();
      }
      visa.RestoreDefaults();
    }
  }
}
