/**
 * The acquisition controller of Measure, `VisaController`: it holds the
 * connection flag and the base directory, writes commands to the signal
 * generator and the digitizer, and reports feedback. Every method is proved
 * to change the instrument log exactly as the matching function of the
 * `Instruments` module says.
 */
module Visa {
  import opened Models
  import opened Instruments

  class VisaController {
    const setup: SetupModel
    const experiment: ExperimentModel
    var basedir: string
    var connected: bool
    /** Commands written to the signal generator, oldest first. */
    var afg: seq<AfgCommand>
    /** Commands written to the digitizer, oldest first. */
    var mso: seq<MsoCommand>
    /** Feedback messages and repetition indices emitted, oldest first. */
    var events: seq<Event>
    /** The digitizer's coming answers to ":acquire:state?" (true = running). */
    var states: seq<bool>
    /** Seconds slept so far. */
    var clock: nat

    function Snapshot(): Log
      reads this
    {
      Log(afg, mso, events, states, clock)
    }

    /** A controller starts disconnected, with nothing written. */
    constructor (setup: SetupModel, experiment: ExperimentModel, basedir: string, states: seq<bool>)
      ensures this.setup == setup && this.experiment == experiment && this.basedir == basedir
      ensures !connected && Snapshot() == Log([], [], [], states, 0)
    {
      this.setup := setup;
      this.experiment := experiment;
      this.basedir := basedir;
      connected := false;
      afg, mso, events := [], [], [];
      this.states := states;
      clock := 0;
    }

    /** `_update_base_dir`: the directory announced by the setup controller replaces the old one. */
    method UpdateBaseDir(dir: string)
      modifies this
      ensures basedir == dir && connected == old(connected) && Snapshot() == old(Snapshot())
    {
      basedir := dir;
    }

    /**
     * `connect`: connected exactly when both resources open; a failure
     * reports one error message, a success the two identity answers, digitizer first.
     */
    method Connect(opening: Opening)
      modifies this
      ensures connected <==> opening.Opened?
      ensures opening.Failed? ==> events == old(events) + [Feedback(VisaError(opening.description, opening.code))]
      ensures opening.Opened? ==> events == old(events) + [Feedback(Identity(opening.msoIdentity)), Feedback(Identity(opening.afgIdentity))]
      ensures Snapshot() == Connected(old(Snapshot()), opening) && basedir == old(basedir)
    {
      match opening
      case Failed(description, code) =>
        connected := false;
        events := events + [Feedback(VisaError(description, code))];
      case Opened(msoIdentity, afgIdentity) =>
        connected := true;
        events := events + [Feedback(Identity(msoIdentity))];
        events := events + [Feedback(Identity(afgIdentity))];
    }

    /** `_send_signal`. */
    method SendSignal(frequency: real, cycles: int)
      modifies this
      ensures Snapshot() == Send(old(Snapshot()), frequency, cycles, setup.vpp)
      ensures connected == old(connected) && basedir == old(basedir)
    {
      var vpp := setup.vpp;
      var shape, hz := Sin, frequency * 1000000.0;
      if cycles == 2 {
        shape, hz := User1, frequency * 1000000.0 / 2.0;
      }
      afg := afg + [OutputOff, BurstCycles(1), SetShape(shape), SetFrequency(hz),
                    SetVoltage(vpp), SetPhase(0.0), SetOffset(0.0), OutputOn];
      events := events + [Feedback(Sending(cycles, frequency, vpp))];
    }

    /**
     * The poll loop of `_acquire_signal`: ask ":acquire:state?" until the
     * digitizer reports idle, sleeping a second per running answer; return
     * at once on a running answer under the abort snapshot.
     */
    method WaitForIdle(abortStatus: bool) returns (outcome: Poll)
      modifies this
      ensures outcome == PollOutcome(old(states), abortStatus)
      ensures outcome.Idle? ==> states == old(states)[outcome.polls + 1..] && clock == old(clock) + outcome.polls
      ensures outcome.Aborted? ==> states == old(states)[1..] && clock == old(clock)
      ensures outcome.Hung? ==> states == [] && clock == old(clock) + |old(states)|
      ensures afg == old(afg) && mso == old(mso) && events == old(events)
      ensures connected == old(connected) && basedir == old(basedir)
    {
      var polls: nat := 0;
      while true
        invariant polls <= |old(states)| && states == old(states)[polls..]
        invariant clock == old(clock) + polls
        invariant forall i :: 0 <= i < polls ==> old(states)[i]
        invariant abortStatus ==> polls == 0
        invariant afg == old(afg) && mso == old(mso) && events == old(events)
        invariant connected == old(connected) && basedir == old(basedir)
        decreases |states|
      {
        if states == [] {
          PollHung(old(states), abortStatus);
          return Hung;
        }
        var running := states[0];
        states := states[1..];
        if !running {
          PollIdleAt(old(states), abortStatus, polls);
          return Idle(polls);
        }
        if abortStatus {
          return Aborted;
        }
        clock := clock + 1;
        polls := polls + 1;
      }
    }

    /** The filename part of `_acquire_signal`, stamped with the current clock. */
    method BuildFileName(frequency: real, step: int) returns (name: seq<Piece>)
      ensures name == FileName(basedir, setup.Values(), experiment.Values(), frequency, step, clock)
    {
      var stamp: seq<Piece> := [];
      if experiment.repetitions == 1 {
        stamp := [Text("_"), Stamp(clock)];
      }
      name := [Text(basedir), Text(setup.runNumber), Text("_"), Number(experiment.load), Text("ton_"),
               Number(experiment.temperature), Text("K_"), Number(frequency), Text("MHz")] + stamp;
      if experiment.repetitions > 1 {
        name := name + [Text("_"), Text(experiment.scan), Count(step)];
      }
      name := name + [Text(".csv")];
    }

    /**
     * `_acquire_signal`: arm, wait for the capture, then settle, save under
     * the stamped name and report. `hung` is true when the digitizer's
     * answers run out while it still runs.
     */
    method AcquireSignal(frequency: real, abortStatus: bool, step: int) returns (hung: bool)
      modifies this
      ensures Run(Snapshot(), hung) == Acquire(old(Snapshot()), frequency, abortStatus, step, basedir, setup.Values(), experiment.Values())
      ensures connected == old(connected) && basedir == old(basedir)
    {
      ghost var s := Snapshot();
      mso := mso + [AcquireStop];
      mso := mso + [StopAfter(SingleSequence)];
      mso := mso + [AcquireRun];
      assert mso == s.mso + Arm();
      var outcome := WaitForIdle(abortStatus);
      if !outcome.Idle? {
        hung := outcome.Hung?;
        return;
      }
      hung := false;
      clock := clock + 2;
      mso := mso + [SaveFormatAuto];
      var name := BuildFileName(frequency, step);
      mso := mso + [SaveWaveform(name)];
      events := events + [Feedback(Saved(frequency, name))];
      clock := clock + 2;
      AcquireCaptured(s, frequency, abortStatus, step, basedir, setup.Values(), experiment.Values(), outcome.polls);
      assert afg == s.afg && states == s.states[outcome.polls + 1..];
      assert mso == s.mso + Arm() + [SaveFormatAuto] + [SaveWaveform(name)];
      assert clock == s.clock + outcome.polls + 4;
    }

    /** The body of `_collection_process`'s loop: the cycle count from the threshold, the signal, the capture. */
    method CollectFrequency(frequency: real, abortStatus: bool, step: int) returns (hung: bool)
      modifies this
      ensures Run(Snapshot(), hung) == Acquire(Send(old(Snapshot()), frequency, CycleCount(frequency, experiment.threshold), setup.vpp),
                                               frequency, abortStatus, step, basedir, setup.Values(), experiment.Values())
      ensures connected == old(connected) && basedir == old(basedir)
    {
      var cycles;
      if frequency > experiment.threshold {
        cycles := 2;
      } else {
        cycles := 1;
      }
      SendSignal(frequency, cycles);
      hung := AcquireSignal(frequency, abortStatus, step);
    }

    /** `_collection_process`: every frequency in order, with the cycle count its threshold comparison gives. */
    method CollectionProcess(abortStatus: bool, step: int) returns (hung: bool)
      modifies this
      ensures Run(Snapshot(), hung) == Process(Run(old(Snapshot()), false), experiment.frequencies, abortStatus, step,
                                          basedir, setup.Values(), experiment.Values())
      ensures connected == old(connected) && basedir == old(basedir)
    {
      var frequencies := experiment.frequencies;
      ghost var start, sv, ev := Run(Snapshot(), false), setup.Values(), experiment.Values();
      hung := false;
      var i := 0;
      while i < |frequencies|
        invariant 0 <= i <= |frequencies|
        invariant Run(Snapshot(), false) == Process(start, frequencies[..i], abortStatus, step, basedir, sv, ev)
        invariant connected == old(connected) && basedir == old(basedir) && !hung
      {
        var frequency := frequencies[i];
        hung := CollectFrequency(frequency, abortStatus, step);
        ProcessNext(start, frequencies, i, abortStatus, step, basedir, sv, ev);
        if hung {
          ProcessPrefixHung(start, frequencies, i + 1, abortStatus, step, basedir, sv, ev);
          return;
        }
        i := i + 1;
      }
      assert frequencies[..i] == frequencies;
    }

    /**
     * `collect_data`: when connected and not aborting, one round per
     * repetition, announcing its index from 1 and using the file number
     * that grows by one per round; nothing otherwise.
     */
    method CollectData(abortStatus: bool) returns (hung: bool)
      modifies this
      ensures Run(Snapshot(), hung) == Replay(Run(old(Snapshot()), false),
                                         Schedule(connected, abortStatus, experiment.repetitions, experiment.fileNumber),
                                         abortStatus, basedir, setup.Values(), experiment.Values())
      ensures connected == old(connected) && basedir == old(basedir)
    {
      hung := false;
      if connected {
        var repetitions := experiment.repetitions;
        var currentIndex := 0;
        var fileNumber := experiment.fileNumber;
        while repetitions > 0
          invariant 0 <= currentIndex && (experiment.repetitions > 0 ==> currentIndex <= experiment.repetitions)
          invariant experiment.repetitions <= 0 ==> currentIndex == 0
          invariant repetitions == experiment.repetitions - currentIndex
          invariant fileNumber == experiment.fileNumber + currentIndex
          invariant Run(Snapshot(), false) == Replay(Run(old(Snapshot()), false), Rounds(currentIndex, experiment.fileNumber),
                                                abortStatus, basedir, setup.Values(), experiment.Values())
          invariant connected == old(connected) && basedir == old(basedir) && !hung
          invariant abortStatus ==> currentIndex == 0
        {
          if abortStatus {
            return;
          }
          currentIndex := currentIndex + 1;
          events := events + [Repetition(currentIndex)];
          hung := CollectionProcess(abortStatus, fileNumber);
          assert Rounds(currentIndex, experiment.fileNumber)
              == Rounds(currentIndex - 1, experiment.fileNumber) + [Round(currentIndex, fileNumber)];
          ReplaySnoc(Run(old(Snapshot()), false), Rounds(currentIndex - 1, experiment.fileNumber), Round(currentIndex, fileNumber),
                     abortStatus, basedir, setup.Values(), experiment.Values());
          if hung {
            RoundsPrefix(experiment.repetitions, currentIndex, experiment.fileNumber);
            ReplayPrefixHung(Run(old(Snapshot()), false), Rounds(experiment.repetitions, experiment.fileNumber), currentIndex,
                             abortStatus, basedir, setup.Values(), experiment.Values());
            return;
          }
          repetitions := repetitions - 1;
          fileNumber := fileNumber + 1;
        }
      }
    }

    /** `restore_defaults`. */
    method RestoreDefaults()
      modifies this
      ensures Snapshot() == Restore(old(Snapshot()), connected, experiment.resetFrequency)
      ensures connected == old(connected) && basedir == old(basedir)
    {
      var resetFrequency := experiment.resetFrequency;
      if connected {
        afg := afg + [BurstCycles(1)];
        afg := afg + [SetShape(User1)];
        afg := afg + [SetFrequency(resetFrequency * 1000000.0 / 2.0)];
        afg := afg + [OutputOn];
        mso := mso + [StopAfter(RunStop)];
        mso := mso + [AcquireRun];
      }
    }
  }
}
