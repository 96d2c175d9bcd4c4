/**
 * What the acquisition controller does to the two instruments, as functions
 * over a log: the signal generator (AFG) and the digitizer (MSO) are
 * append-only logs of the commands written to them, the digitizer's answers
 * to ":acquire:state?" are a finite sequence of booleans (true = still
 * running), and `clock` counts the seconds slept. Frequencies are reals in
 * MHz; filenames are sequences of pieces so that numbers are never rendered
 * here; `Render` takes the renderers as parameters.
 */
module Instruments {
  import opened Models
  import opened PyInt

  datatype Shape = Sin | User1

  /** Generator commands; `SetFrequency` is in Hz. */
  datatype AfgCommand =
    | OutputOff
    | BurstCycles(n: int)
    | SetShape(shape: Shape)
    | SetFrequency(hz: real)
    | SetVoltage(vpp: real)
    | SetPhase(phase: real)
    | SetOffset(offset: real)
    | OutputOn

  datatype StopMode = SingleSequence | RunStop

  /** Digitizer commands. */
  datatype MsoCommand =
    | AcquireStop
    | StopAfter(mode: StopMode)
    | AcquireRun
    | SaveFormatAuto
    | SaveWaveform(name: seq<Piece>)

  /** A piece of a filename: literal text, a real number, an integer, or the timestamp taken at second `t`. */
  datatype Piece = Text(s: string) | Number(x: real) | Count(n: int) | Stamp(t: nat)

  /** The feedback messages. */
  datatype Message =
    | VisaError(description: string, code: int)
    | Identity(answer: string)
    | Sending(cycles: int, frequency: real, vpp: real)
    | Saved(frequency: real, name: seq<Piece>)

  /** What the controller emits: a feedback message or the index of the repetition that starts. */
  datatype Event = Feedback(message: Message) | Repetition(index: int)

  /** Everything the controller's instrument methods change. */
  datatype Log = Log(afg: seq<AfgCommand>, mso: seq<MsoCommand>, events: seq<Event>, states: seq<bool>, clock: nat)

  /**
   * A log and whether the digitizer was left polling: its answers ran out
   * while it still reported running, where the controller would wait for ever.
   */
  datatype Run = Run(log: Log, hung: bool)

  /** What opening the two resources gives: an error, or the identity answers of both instruments. */
  datatype Opening = Failed(description: string, code: int) | Opened(msoIdentity: string, afgIdentity: string)

  /** The feedback `connect` emits: the error on failure, the two identity answers, digitizer first, on success. */
  function ConnectEvents(opening: Opening): (events: seq<Event>)
    ensures |events| == if opening.Opened? then 2 else 1
    ensures forall i :: 0 <= i < |events| ==> events[i].Feedback?
    ensures opening.Failed? ==> events[0].Feedback? && events[0].message.VisaError?
    ensures opening.Opened? ==> events[0].Feedback? && events[0].message == Identity(opening.msoIdentity)
  {
    match opening
    case Failed(description, code) => [Feedback(VisaError(description, code))]
    case Opened(msoIdentity, afgIdentity) => [Feedback(Identity(msoIdentity)), Feedback(Identity(afgIdentity))]
  }

  /** `connect`'s effect on the log: only feedback; queries are not logged. */
  function Connected(s: Log, opening: Opening): Log {
    s.(events := s.events + ConnectEvents(opening))
  }

  // ---------------------------------------------------------------- signal

  /** Two cycles above the threshold, one otherwise. */
  function CycleCount(frequency: real, threshold: real): (n: int)
    ensures n == 1 || n == 2
    ensures n == 2 <==> frequency > threshold
  {
    if frequency > threshold then 2 else 1
  }

  /** The number of signal cycles one period of a waveform shape holds: `user1` is the stored two-cycle burst. */
  function CyclesIn(shape: Shape): real {
    if shape == User1 then 2.0 else 1.0
  }

  /** The eight generator commands that set up and start one burst. */
  function SignalCommands(frequency: real, cycles: int, vpp: real): (cmds: seq<AfgCommand>)
    ensures |cmds| == 8 && cmds[0] == OutputOff && cmds[7] == OutputOn
    ensures forall i :: 0 <= i < 7 ==> cmds[i] != OutputOn
    ensures forall i :: 0 <= i < |cmds| && cmds[i].BurstCycles? ==> cmds[i].n == 1
    ensures SetVoltage(vpp) in cmds
  {
    [OutputOff, BurstCycles(1),
     SetShape(if cycles == 2 then User1 else Sin),
     SetFrequency(if cycles == 2 then frequency * 1000000.0 / 2.0 else frequency * 1000000.0),
     SetVoltage(vpp), SetPhase(0.0), SetOffset(0.0), OutputOn]
  }

  /**
   * For the cycle count the controller derives, the shape is `user1` exactly
   * above the threshold, and the generator frequency times the cycles in
   * that shape is the requested frequency in Hz.
   */
  lemma SignalMatchesFrequency(frequency: real, threshold: real, vpp: real)
    ensures SignalCommands(frequency, CycleCount(frequency, threshold), vpp)[2] == SetShape(User1) <==> frequency > threshold
    ensures SignalCommands(frequency, CycleCount(frequency, threshold), vpp)[3].SetFrequency?
    ensures var cmds := SignalCommands(frequency, CycleCount(frequency, threshold), vpp);
            cmds[3].hz * CyclesIn(cmds[2].shape) == frequency * 1000000.0
  {
  }

  /** A frequency equal to the threshold is sent as a single `sin` cycle. */
  lemma ThresholdIsSingleCycle(threshold: real, vpp: real)
    ensures CycleCount(threshold, threshold) == 1
    ensures SignalCommands(threshold, CycleCount(threshold, threshold), vpp)[2] == SetShape(Sin)
  {
  }

  /** `_send_signal`: the eight commands and the "Sending" message. */
  function Send(s: Log, frequency: real, cycles: int, vpp: real): Log {
    s.(afg := s.afg + SignalCommands(frequency, cycles, vpp),
       events := s.events + [Feedback(Sending(cycles, frequency, vpp))])
  }

  // ---------------------------------------------------------------- filename

  /** Python's `str()` of an integer. */
  function Decimal(n: int): string {
    if n < 0 then "-" + Show(-n) else Show(n)
  }

  lemma DecimalInjective(a: int, b: int)
    requires Decimal(a) == Decimal(b)
    ensures a == b
  {
    assert !IsDigit('-');
    assert Decimal(a)[0] == '-' <==> a < 0;
    assert Decimal(b)[0] == '-' <==> b < 0;
    if a < 0 {
      assert Show(-a) == Decimal(a)[1..] == Decimal(b)[1..] == Show(-b);
      ShowValue(-a);
      ShowValue(-b);
    } else {
      ShowValue(a);
      ShowValue(b);
    }
  }

  /**
   * The file the digitizer saves to: base directory, run number, load,
   * temperature and frequency; then the timestamp for a single repetition,
   * or `_<scan><step>` for more than one; then ".csv".
   */
  function FileName(basedir: string, setup: SetupValues, exp: ExperimentValues, frequency: real, step: int, stamp: nat): seq<Piece> {
    [Text(basedir), Text(setup.runNumber), Text("_"), Number(exp.load), Text("ton_"),
     Number(exp.temperature), Text("K_"), Number(frequency), Text("MHz")]
    + (if exp.repetitions == 1 then [Text("_"), Stamp(stamp)] else [])
    + (if exp.repetitions > 1 then [Text("_"), Text(exp.scan), Count(step)] else [])
    + [Text(".csv")]
  }

  function RenderPiece(p: Piece, showReal: real -> string, showStamp: nat -> string): string {
    match p
    case Text(s) => s
    case Number(x) => showReal(x)
    case Count(n) => Decimal(n)
    case Stamp(t) => showStamp(t)
  }

  /** The filename as text, given `str()` for reals and the timestamp format. */
  function Render(name: seq<Piece>, showReal: real -> string, showStamp: nat -> string): string {
    if name == [] then "" else RenderPiece(name[0], showReal, showStamp) + Render(name[1..], showReal, showStamp)
  }

  lemma {:induction false} RenderAppend(a: seq<Piece>, b: seq<Piece>, showReal: real -> string, showStamp: nat -> string)
    ensures Render(a + b, showReal, showStamp) == Render(a, showReal, showStamp) + Render(b, showReal, showStamp)
  {
    if a == [] {
      assert a + b == b;
    } else {
      assert (a + b)[1..] == a[1..] + b;
      RenderAppend(a[1..], b, showReal, showStamp);
    }
  }

  /** The name holds the timestamp exactly for a single repetition and the step exactly for several. */
  lemma FileNamePieces(basedir: string, setup: SetupValues, exp: ExperimentValues, frequency: real, step: int, stamp: nat)
    ensures var name := FileName(basedir, setup, exp, frequency, step, stamp);
            (Stamp(stamp) in name <==> exp.repetitions == 1)
            && (Count(step) in name <==> exp.repetitions > 1)
            && (forall i :: 0 <= i < |name| ==> name[i] == Stamp(stamp) || !name[i].Stamp?)
            && (forall i :: 0 <= i < |name| ==> name[i] == Count(step) || !name[i].Count?)
  {
  }

  /** The rendered name starts with the base directory and ends with ".csv". */
  lemma FileNameShape(basedir: string, setup: SetupValues, exp: ExperimentValues, frequency: real, step: int, stamp: nat,
                      showReal: real -> string, showStamp: nat -> string)
    ensures var text := Render(FileName(basedir, setup, exp, frequency, step, stamp), showReal, showStamp);
            |text| >= |basedir| + 4 && text[..|basedir|] == basedir && text[|text| - 4..] == ".csv"
  {
    var name := FileName(basedir, setup, exp, frequency, step, stamp);
    var middle := name[1..|name| - 1];
    assert name == [Text(basedir)] + middle + [Text(".csv")];
    RenderAppend([Text(basedir)] + middle, [Text(".csv")], showReal, showStamp);
    RenderAppend([Text(basedir)], middle, showReal, showStamp);
    assert Render([Text(".csv")], showReal, showStamp) == ".csv";
    assert Render([Text(basedir)], showReal, showStamp) == basedir;
  }

  /** With several repetitions, two steps that differ name two different files, whatever the clock says. */
  lemma StepsNameDistinctFiles(basedir: string, setup: SetupValues, exp: ExperimentValues, frequency: real,
                               step1: int, stamp1: nat, step2: int, stamp2: nat,
                               showReal: real -> string, showStamp: nat -> string)
    requires exp.repetitions > 1 && step1 != step2
    ensures Render(FileName(basedir, setup, exp, frequency, step1, stamp1), showReal, showStamp)
         != Render(FileName(basedir, setup, exp, frequency, step2, stamp2), showReal, showStamp)
  {
    var n1 := FileName(basedir, setup, exp, frequency, step1, stamp1);
    var n2 := FileName(basedir, setup, exp, frequency, step2, stamp2);
    var head := n1[..|n1| - 2];
    assert n1 == head + [Count(step1)] + [Text(".csv")];
    assert n2 == head + [Count(step2)] + [Text(".csv")];
    RenderAppend(head + [Count(step1)], [Text(".csv")], showReal, showStamp);
    RenderAppend(head, [Count(step1)], showReal, showStamp);
    RenderAppend(head + [Count(step2)], [Text(".csv")], showReal, showStamp);
    RenderAppend(head, [Count(step2)], showReal, showStamp);
    var h := Render(head, showReal, showStamp);
    var r1 := Render(n1, showReal, showStamp);
    var r2 := Render(n2, showReal, showStamp);
    assert r1 == h + Decimal(step1) + ".csv";
    assert r2 == h + Decimal(step2) + ".csv";
    if r1 == r2 {
      assert |Decimal(step1)| == |Decimal(step2)|;
      assert Decimal(step1) == r1[|h|..|r1| - 4];
      assert Decimal(step2) == r2[|h|..|r2| - 4];
      DecimalInjective(step1, step2);
    }
  }

  // ---------------------------------------------------------------- capture

  /** The three commands that arm a single-sequence capture. */
  function Arm(): seq<MsoCommand> {
    [AcquireStop, StopAfter(SingleSequence), AcquireRun]
  }

  /** How the poll of ":acquire:state?" ends. */
  datatype Poll = Idle(polls: nat) | Aborted | Hung

  /**
   * The poll loop: `Idle(k)` when the first k answers say running and the
   * next says idle; `Aborted` when the abort snapshot is set and the first
   * answer says running; `Hung` when the answers run out first.
   */
  function PollOutcome(states: seq<bool>, abortStatus: bool): (p: Poll)
    ensures p.Idle? ==> p.polls < |states| && !states[p.polls] && forall i :: 0 <= i < p.polls ==> states[i]
    ensures p.Aborted? <==> abortStatus && states != [] && states[0]
  {
    if states == [] then Hung
    else if !states[0] then Idle(0)
    else if abortStatus then Aborted
    else
      var rest := PollOutcome(states[1..], false);
      if rest.Idle? then Idle(rest.polls + 1) else rest
  }

  /** The poll ends idle exactly when some answer says idle and no abort cuts the poll short before it. */
  lemma {:induction false} PollIdleIff(states: seq<bool>, abortStatus: bool)
    ensures PollOutcome(states, abortStatus).Idle? <==> exists k :: 0 <= k < |states| && !states[k] && (abortStatus ==> k == 0)
  {
    if states != [] && states[0] && !abortStatus {
      PollIdleIff(states[1..], false);
      if k :| 0 <= k < |states| && !states[k] {
        assert states[1..][k - 1] == states[k];
      }
    }
  }

  /** The poll ends idle at the first idle answer, when no abort cut it short. */
  lemma {:induction false} PollIdleAt(states: seq<bool>, abortStatus: bool, k: nat)
    requires k < |states| && !states[k] && (forall i :: 0 <= i < k ==> states[i]) && (abortStatus ==> k == 0)
    ensures PollOutcome(states, abortStatus) == Idle(k)
  {
    if k > 0 {
      assert states[0];
      PollIdleAt(states[1..], false, k - 1);
    }
  }

  /** The poll is left waiting when every answer says running and no abort cuts it short. */
  lemma PollHung(states: seq<bool>, abortStatus: bool)
    requires (forall i :: 0 <= i < |states| ==> states[i]) && (abortStatus ==> states == [])
    ensures PollOutcome(states, abortStatus) == Hung
  {
  }

  /**
   * `_acquire_signal`: arm, poll (a second per running answer), settle two
   * seconds, save under the name stamped with the clock at that moment,
   * report, and wait two more seconds.
   */
  function Acquire(s: Log, frequency: real, abortStatus: bool, step: int,
                   basedir: string, setup: SetupValues, exp: ExperimentValues): Run {
    var armed := s.(mso := s.mso + Arm());
    match PollOutcome(s.states, abortStatus)
    case Aborted => Run(armed.(states := s.states[1..]), false)
    case Hung => Run(armed.(states := [], clock := s.clock + |s.states|), true)
    case Idle(k) =>
      var t := s.clock + k + 2;
      var name := FileName(basedir, setup, exp, frequency, step, t);
      Run(armed.(mso := armed.mso + [SaveFormatAuto, SaveWaveform(name)],
                 events := s.events + [Feedback(Saved(frequency, name))],
                 states := s.states[k + 1..], clock := t + 2), false)
  }

  /** The log after a capture that ends after k running answers. */
  lemma AcquireCaptured(s: Log, frequency: real, abortStatus: bool, step: int,
                        basedir: string, setup: SetupValues, exp: ExperimentValues, k: nat)
    requires PollOutcome(s.states, abortStatus) == Idle(k)
    ensures var name := FileName(basedir, setup, exp, frequency, step, s.clock + k + 2);
            Acquire(s, frequency, abortStatus, step, basedir, setup, exp)
            == Run(Log(s.afg, s.mso + Arm() + [SaveFormatAuto] + [SaveWaveform(name)],
                       s.events + [Feedback(Saved(frequency, name))], s.states[k + 1..], s.clock + k + 4), false)
  {
  }

  /** Abort while the digitizer runs: only the three arm commands, no save and no message. */
  lemma AbortedAcquireOnlyArms(s: Log, frequency: real, step: int, basedir: string, setup: SetupValues, exp: ExperimentValues)
    requires s.states != [] && s.states[0]
    ensures var r := Acquire(s, frequency, true, step, basedir, setup, exp);
            !r.hung && r.log.mso == s.mso + Arm() && r.log.events == s.events
            && r.log.afg == s.afg && r.log.clock == s.clock
  {
  }

  /** A capture that ends saves exactly once, to a name starting with the base directory and stamped after the poll. */
  lemma CapturedAcquireSaves(s: Log, frequency: real, abortStatus: bool, step: int,
                             basedir: string, setup: SetupValues, exp: ExperimentValues)
    requires PollOutcome(s.states, abortStatus).Idle?
    ensures var r := Acquire(s, frequency, abortStatus, step, basedir, setup, exp);
            !r.hung && |r.log.mso| == |s.mso| + 5
            && r.log.mso[|s.mso| + 4].SaveWaveform? && r.log.mso[|s.mso| + 4].name[0] == Text(basedir)
            && r.log.clock >= s.clock + 4
  {
  }

  // ---------------------------------------------------------------- collection

  /**
   * `_collection_process`: for each frequency in order, send the signal with
   * its cycle count, then acquire; nothing more once the digitizer is left
   * polling.
   */
  function Process(r: Run, frequencies: seq<real>, abortStatus: bool, step: int,
                   basedir: string, setup: SetupValues, exp: ExperimentValues): Run
  {
    if frequencies == [] then r
    else
      var before := Process(r, frequencies[..|frequencies| - 1], abortStatus, step, basedir, setup, exp);
      var f := frequencies[|frequencies| - 1];
      if before.hung then before
      else Acquire(Send(before.log, f, CycleCount(f, exp.threshold), setup.vpp), f, abortStatus, step, basedir, setup, exp)
  }

  /** The process over the first i + 1 frequencies: the first i, then the next one's send and acquire. */
  lemma ProcessNext(r: Run, frequencies: seq<real>, i: nat, abortStatus: bool, step: int,
                    basedir: string, setup: SetupValues, exp: ExperimentValues)
    requires i < |frequencies| && !Process(r, frequencies[..i], abortStatus, step, basedir, setup, exp).hung
    ensures Process(r, frequencies[..i + 1], abortStatus, step, basedir, setup, exp)
         == Acquire(Send(Process(r, frequencies[..i], abortStatus, step, basedir, setup, exp).log, frequencies[i],
                         CycleCount(frequencies[i], exp.threshold), setup.vpp),
                    frequencies[i], abortStatus, step, basedir, setup, exp)
  {
    assert frequencies[..i + 1][..i] == frequencies[..i];
  }

  /** One repetition of `collect_data`: its index (from 1) and the file number its files carry. */
  datatype Round = Round(index: int, step: int)

  /** `count` rounds, numbered from 1, with steps from `fileNumber` on. */
  function Rounds(count: nat, fileNumber: int): (rounds: seq<Round>)
    ensures |rounds| == count
    ensures forall k :: 0 <= k < count ==> rounds[k] == Round(k + 1, fileNumber + k)
  {
    if count == 0 then [] else Rounds(count - 1, fileNumber) + [Round(count, fileNumber + count - 1)]
  }

  /** The first rounds of a longer schedule are the shorter schedule. */
  lemma RoundsPrefix(count: nat, m: nat, fileNumber: int)
    requires m <= count
    ensures Rounds(count, fileNumber)[..m] == Rounds(m, fileNumber)
  {
    assert forall k :: 0 <= k < m ==> Rounds(count, fileNumber)[..m][k] == Rounds(m, fileNumber)[k];
  }

  /**
   * The repetitions `collect_data` attempts: none when the controller is not
   * connected or the abort snapshot is set, otherwise one per repetition.
   */
  function Schedule(connected: bool, abortStatus: bool, repetitions: int, fileNumber: int): (rounds: seq<Round>)
    ensures |rounds| == if connected && !abortStatus && repetitions > 0 then repetitions else 0
    ensures forall k :: 0 <= k < |rounds| ==> rounds[k] == Round(k + 1, fileNumber + k)
  {
    if !connected || abortStatus || repetitions <= 0 then [] else Rounds(repetitions, fileNumber)
  }

  /** Carrying out the rounds in order: announce the repetition, then run every frequency with its step. */
  function Replay(r: Run, rounds: seq<Round>, abortStatus: bool,
                  basedir: string, setup: SetupValues, exp: ExperimentValues): Run
  {
    if rounds == [] then r
    else
      var before := Replay(r, rounds[..|rounds| - 1], abortStatus, basedir, setup, exp);
      var round := rounds[|rounds| - 1];
      if before.hung then before
      else Process(Run(before.log.(events := before.log.events + [Repetition(round.index)]), false),
                   exp.frequencies, abortStatus, round.step, basedir, setup, exp)
  }

  /** One more round: the rounds so far, the announcement, then the frequencies. */
  lemma ReplaySnoc(r: Run, rounds: seq<Round>, round: Round, abortStatus: bool,
                   basedir: string, setup: SetupValues, exp: ExperimentValues)
    requires !Replay(r, rounds, abortStatus, basedir, setup, exp).hung
    ensures var before := Replay(r, rounds, abortStatus, basedir, setup, exp);
            (Replay(r, rounds + [round], abortStatus, basedir, setup, exp)
             == Process(Run(before.log.(events := before.log.events + [Repetition(round.index)]), false),
                        exp.frequencies, abortStatus, round.step, basedir, setup, exp))
  {
    assert (rounds + [round])[..|rounds|] == rounds;
  }

  /** Once a frequency leaves the digitizer polling, the later frequencies change nothing. */
  lemma {:induction false} ProcessPrefixHung(r: Run, frequencies: seq<real>, n: nat, abortStatus: bool, step: int,
                                             basedir: string, setup: SetupValues, exp: ExperimentValues)
    requires n <= |frequencies| && Process(r, frequencies[..n], abortStatus, step, basedir, setup, exp).hung
    ensures Process(r, frequencies, abortStatus, step, basedir, setup, exp)
         == Process(r, frequencies[..n], abortStatus, step, basedir, setup, exp)
  {
    if n == |frequencies| {
      assert frequencies[..n] == frequencies;
    } else {
      var init := frequencies[..|frequencies| - 1];
      assert init[..n] == frequencies[..n];
      ProcessPrefixHung(r, init, n, abortStatus, step, basedir, setup, exp);
    }
  }

  /** Once a round leaves the digitizer polling, the later rounds change nothing. */
  lemma {:induction false} ReplayPrefixHung(r: Run, rounds: seq<Round>, n: nat, abortStatus: bool,
                                            basedir: string, setup: SetupValues, exp: ExperimentValues)
    requires n <= |rounds| && Replay(r, rounds[..n], abortStatus, basedir, setup, exp).hung
    ensures Replay(r, rounds, abortStatus, basedir, setup, exp) == Replay(r, rounds[..n], abortStatus, basedir, setup, exp)
  {
    if n == |rounds| {
      assert rounds[..n] == rounds;
    } else {
      var init := rounds[..|rounds| - 1];
      assert init[..n] == rounds[..n];
      ReplayPrefixHung(r, init, n, abortStatus, basedir, setup, exp);
    }
  }

  /** The repetition indices among some events, in order. */
  function Repetitions(events: seq<Event>): seq<int> {
    if events == [] then []
    else Repetitions(events[..|events| - 1]) + (if events[|events| - 1].Repetition? then [events[|events| - 1].index] else [])
  }

  function Indices(rounds: seq<Round>): seq<int> {
    if rounds == [] then [] else Indices(rounds[..|rounds| - 1]) + [rounds[|rounds| - 1].index]
  }

  lemma {:induction false} RepetitionsAppend(a: seq<Event>, b: seq<Event>)
    ensures Repetitions(a + b) == Repetitions(a) + Repetitions(b)
  {
    if b != [] {
      assert (a + b)[..|a + b| - 1] == a + b[..|b| - 1];
      RepetitionsAppend(a, b[..|b| - 1]);
    } else {
      assert a + b == a;
    }
  }

  /** Sending and acquiring report only feedback, never a repetition. */
  lemma {:induction false} ProcessKeepsRepetitions(r: Run, frequencies: seq<real>, abortStatus: bool, step: int,
                                                   basedir: string, setup: SetupValues, exp: ExperimentValues)
    ensures var p := Process(r, frequencies, abortStatus, step, basedir, setup, exp);
            |p.log.events| >= |r.log.events| && p.log.events[..|r.log.events|] == r.log.events
            && Repetitions(p.log.events) == Repetitions(r.log.events)
  {
    if frequencies != [] {
      var before := Process(r, frequencies[..|frequencies| - 1], abortStatus, step, basedir, setup, exp);
      ProcessKeepsRepetitions(r, frequencies[..|frequencies| - 1], abortStatus, step, basedir, setup, exp);
      if !before.hung {
        var f := frequencies[|frequencies| - 1];
        var sent := Send(before.log, f, CycleCount(f, exp.threshold), setup.vpp);
        RepetitionsAppend(before.log.events, [Feedback(Sending(CycleCount(f, exp.threshold), f, setup.vpp))]);
        assert Repetitions([Feedback(Sending(CycleCount(f, exp.threshold), f, setup.vpp))]) == [];
        var a := Acquire(sent, f, abortStatus, step, basedir, setup, exp);
        if a.log.events != sent.events {
          var name := a.log.events[|a.log.events| - 1].message.name;
          assert a.log.events == sent.events + [Feedback(Saved(f, name))];
          RepetitionsAppend(sent.events, [Feedback(Saved(f, name))]);
          assert Repetitions([Feedback(Saved(f, name))]) == [];
        }
      }
    }
  }

  /** Unless the digitizer is left polling, the repetitions announced are exactly the rounds' indices, in order. */
  lemma {:induction false} ReplayAnnouncesRounds(r: Run, rounds: seq<Round>, abortStatus: bool,
                                                 basedir: string, setup: SetupValues, exp: ExperimentValues)
    requires !Replay(r, rounds, abortStatus, basedir, setup, exp).hung
    ensures Repetitions(Replay(r, rounds, abortStatus, basedir, setup, exp).log.events)
         == Repetitions(r.log.events) + Indices(rounds)
  {
    if rounds != [] {
      var before := Replay(r, rounds[..|rounds| - 1], abortStatus, basedir, setup, exp);
      assert !before.hung;
      {
        ReplayAnnouncesRounds(r, rounds[..|rounds| - 1], abortStatus, basedir, setup, exp);
        var round := rounds[|rounds| - 1];
        var announced := Run(before.log.(events := before.log.events + [Repetition(round.index)]), false);
        RepetitionsAppend(before.log.events, [Repetition(round.index)]);
        assert Repetitions([Repetition(round.index)]) == [round.index];
        ProcessKeepsRepetitions(announced, exp.frequencies, abortStatus, round.step, basedir, setup, exp);
      }
    }
  }

  /** The rounds of a schedule announce 1, 2, ..., N. */
  lemma {:induction false} IndicesOfRounds(count: nat, fileNumber: int)
    ensures |Indices(Rounds(count, fileNumber))| == count
    ensures forall k :: 0 <= k < count ==> Indices(Rounds(count, fileNumber))[k] == k + 1
  {
    if count > 0 {
      IndicesOfRounds(count - 1, fileNumber);
      assert Rounds(count, fileNumber)[..count - 1] == Rounds(count - 1, fileNumber);
    }
  }

  /**
   * Every frequency that completes adds its eight generator commands: when no
   * acquisition is left polling, a repetition of F frequencies writes 8 F
   * generator commands.
   */
  lemma {:induction false} ProcessAfgCount(r: Run, frequencies: seq<real>, abortStatus: bool, step: int,
                                           basedir: string, setup: SetupValues, exp: ExperimentValues)
    requires !r.hung && !Process(r, frequencies, abortStatus, step, basedir, setup, exp).hung
    ensures |Process(r, frequencies, abortStatus, step, basedir, setup, exp).log.afg| == |r.log.afg| + 8 * |frequencies|
  {
    if frequencies != [] {
      ProcessAfgCount(r, frequencies[..|frequencies| - 1], abortStatus, step, basedir, setup, exp);
    }
  }

  /** The number of saves among digitizer commands. */
  function Saves(mso: seq<MsoCommand>): nat {
    if mso == [] then 0 else Saves(mso[..|mso| - 1]) + (if mso[|mso| - 1].SaveWaveform? then 1 else 0)
  }

  lemma {:induction false} SavesAppend(a: seq<MsoCommand>, b: seq<MsoCommand>)
    ensures Saves(a + b) == Saves(a) + Saves(b)
  {
    if b != [] {
      assert (a + b)[..|a + b| - 1] == a + b[..|b| - 1];
      SavesAppend(a, b[..|b| - 1]);
    } else {
      assert a + b == a;
    }
  }

  lemma {:induction false} SavesNone(mso: seq<MsoCommand>)
    requires forall i :: 0 <= i < |mso| ==> !mso[i].SaveWaveform?
    ensures Saves(mso) == 0
  {
    if mso != [] {
      SavesNone(mso[..|mso| - 1]);
    }
  }

  /** An acquisition without the abort snapshot that is not left polling saves exactly one file. */
  lemma AcquireSavesOnce(s: Log, frequency: real, step: int, basedir: string, setup: SetupValues, exp: ExperimentValues)
    requires !Acquire(s, frequency, false, step, basedir, setup, exp).hung
    ensures Saves(Acquire(s, frequency, false, step, basedir, setup, exp).log.mso) == Saves(s.mso) + 1
  {
    var k := PollOutcome(s.states, false).polls;
    var name := FileName(basedir, setup, exp, frequency, step, s.clock + k + 2);
    var tail := Arm() + [SaveFormatAuto, SaveWaveform(name)];
    assert s.mso + Arm() + [SaveFormatAuto, SaveWaveform(name)] == s.mso + tail;
    assert tail[..4] == [AcquireStop, StopAfter(SingleSequence), AcquireRun, SaveFormatAuto];
    SavesNone(tail[..4]);
    assert tail == tail[..4] + [SaveWaveform(name)];
    SavesAppend(tail[..4], [SaveWaveform(name)]);
    SavesAppend(s.mso, tail);
  }

  /** Without the abort snapshot and unless the digitizer is left polling, every frequency saves exactly one file. */
  lemma {:induction false} ProcessSavesEach(r: Run, frequencies: seq<real>, step: int,
                                            basedir: string, setup: SetupValues, exp: ExperimentValues)
    requires !r.hung && !Process(r, frequencies, false, step, basedir, setup, exp).hung
    ensures Saves(Process(r, frequencies, false, step, basedir, setup, exp).log.mso) == Saves(r.log.mso) + |frequencies|
  {
    if frequencies != [] {
      var before := Process(r, frequencies[..|frequencies| - 1], false, step, basedir, setup, exp);
      ProcessSavesEach(r, frequencies[..|frequencies| - 1], step, basedir, setup, exp);
      var f := frequencies[|frequencies| - 1];
      AcquireSavesOnce(Send(before.log, f, CycleCount(f, exp.threshold), setup.vpp), f, step, basedir, setup, exp);
    }
  }

  // ---------------------------------------------------------------- defaults

  /** The generator commands of `restore_defaults`: one `user1` cycle at half the reset frequency, output on. */
  function RestoreAfg(resetFrequency: real): (cmds: seq<AfgCommand>)
    ensures |cmds| == 4 && cmds[3] == OutputOn
  {
    [BurstCycles(1), SetShape(User1), SetFrequency(resetFrequency * 1000000.0 / 2.0), OutputOn]
  }

  /** The digitizer commands of `restore_defaults`: back to free-running acquisition. */
  function RestoreMso(): seq<MsoCommand> {
    [StopAfter(RunStop), AcquireRun]
  }

  /** `restore_defaults` writes nothing unless connected. */
  function Restore(s: Log, connected: bool, resetFrequency: real): (r: Log)
    ensures !connected ==> r == s
    ensures r.events == s.events && r.states == s.states && r.clock == s.clock
  {
    if connected then s.(afg := s.afg + RestoreAfg(resetFrequency), mso := s.mso + RestoreMso()) else s
  }

  /** After the defaults the generator plays the reset frequency's two-cycle burst with its output on. */
  lemma RestoreLeavesResetSignal(s: Log, resetFrequency: real)
    ensures var a := Restore(s, true, resetFrequency).afg;
            a[|a| - 1] == OutputOn && a[|a| - 3] == SetShape(User1)
            && a[|a| - 2].hz * CyclesIn(a[|a| - 3].shape) == resetFrequency * 1000000.0
  {
  }
}
