# U-Measure / Measure controllers in Dafny

This project models the controller layer of the GSECARS ultrasound measurement
programs, Measure and its successor U-Measure, and proves properties of it:

- **`Visa.VisaController`** models the acquisition controller of Measure.
  - It connects to the signal generator (AFG) and the digitizer (MSO).
  - For every planned frequency, it sends the eight AFG commands, arms the MSO, polls it until the capture ends, and saves the waveform under a file name built from the setup and the plan.
  - It repeats the frequency sweep once per repetition, with a growing file number.
  - Afterwards it restores the instruments' defaults.
  - The instruments are modelled as logs of the commands written to them, plus a queue holding the MSO's coming answers to `:acquire:state?`. Feedback messages and repetition indices are a log of events, and `time.sleep` advances a second counter.
  - The pure module `Instruments` defines what each operation does to that state. Every method is proved to change the state exactly as its function says. The properties are lemmas about those functions: the cycle count and signal shape follow the threshold, one save per captured frequency, announced repetitions 1..N, names that differ per step, and so on.
- **`UMeasureMain.MainController`** models U-Measure's main controller:
  - the collecting and aborting flags and the idle, collecting and aborting transitions;
  - the input checks run before a collection: blank fields, then IPv4 addresses checked with `str.split` and `int()`;
  - the collect/abort button;
  - one pass of the worker loop.

  The `Validation` module gives the checks a reference meaning. The button starts a collection exactly when the required fields are filled, both addresses are valid dotted quads and the user confirms. An address whose `int()` fails makes the handler raise `ValueError`.
- **`MeasureSetup` and `UMeasureSetup`** model the two setup controllers, which keep the setup model in step with the text boxes and recompute the data directory:
  - Measure skips blank segments (`C:/Data/[hutch/][cycle/][institution/][run/]`).
  - U-Measure uses a fixed shape (`C:/Data/13BMD/<cycle>/GSECARS/<run>/`).
- **`MeasureExperiment` and `UMeasureExperiment`** model the two experiment controllers: the frequency list is printed as `"f1, f2, …"` and parsed back by `strip`, `split(",")`, `strip` and `float`, and the remaining handlers write one plan field each.
- **`Text`** and **`PyInt`** give the Python built-ins the controllers rely on:
  - `str.strip()` with Python's whitespace set;
  - `str.split(sep)`;
  - `int()` on strings: surrounding whitespace, a sign, ASCII digits with single underscores between them, and `ValueError` as `None`.
- **`Models`** holds the setup and experiment models as classes shared by reference between the controllers.

`float()` and `str()` on floats are parameters (`toFloat`, `show`). The user's answer to the confirmation box is a parameter (`confirmed`). The outcome of opening the VISA resources is a parameter (`Opening`).

## Model

| member | source | states |
|---|---|---|
| Visa.VisaController.constructor | measure/controller/visa_controller.py:37-56 | A new controller keeps the given models and directory, is disconnected and has written nothing |
| Visa.VisaController.UpdateBaseDir | measure/controller/visa_controller.py:58-60 | The announced directory replaces the old one; the connection and instrument logs are untouched |
| Visa.VisaController.Connect | measure/controller/visa_controller.py:62-78 | Connected exactly when both resources open; a failure reports one `VisaIOError` message with description and code; a success reports the MSO's identity, then the AFG's |
| Instruments.ConnectEvents | measure/controller/visa_controller.py:71-78 | Two feedback events on success, one error event on failure, MSO identity first |
| Visa.VisaController.SendSignal | measure/controller/visa_controller.py:129-150 | The AFG log grows by exactly the `Send` commands for the frequency, the cycle count and the setup's Vpp, and one "Sending" message is reported |
| Instruments.SignalCommands | measure/controller/visa_controller.py:133-146 | Eight commands: output off first, output on last and nowhere before, burst count always 1, the setup voltage among them |
| Instruments.CycleCount | measure/controller/visa_controller.py:189-192 | Two cycles exactly when the frequency is above the threshold, otherwise one |
| Instruments.SignalMatchesFrequency | measure/controller/visa_controller.py:136-141 | The `user1` shape is chosen exactly above the threshold, and the programmed frequency times the cycles per period equals the frequency in Hz |
| Instruments.ThresholdIsSingleCycle | measure/controller/visa_controller.py:189 | A frequency equal to the threshold is sent as one `sin` cycle (strict comparison) |
| Visa.VisaController.WaitForIdle | measure/controller/visa_controller.py:92-98 | The poll loop returns the `PollOutcome` of the MSO's answers: idle after k running answers with k seconds slept, an immediate return on a running answer under abort, or `Hung` when the answers run out |
| Instruments.PollOutcome | measure/controller/visa_controller.py:92-98 | An idle outcome sits at the first non-running answer, after only running answers; the outcome is an abort exactly when aborting and the first answer is running |
| Instruments.PollIdleIff | measure/controller/visa_controller.py:92-98 | The poll ends idle exactly when some answer is not running (the first one, under abort) |
| Visa.VisaController.BuildFileName | measure/controller/visa_controller.py:103-119 | The name is `FileName` of the directory, setup, plan, frequency, step and current clock |
| Instruments.FileNamePieces | measure/controller/visa_controller.py:107-119 | The timestamp appears exactly for a single repetition and the scan/step suffix exactly for several, each at most once |
| Instruments.FileNameShape | measure/controller/visa_controller.py:111-119 | The rendered name starts with the base directory and ends with ".csv" |
| Instruments.StepsNameDistinctFiles | measure/controller/visa_controller.py:115-119 | With several repetitions, two different steps give two different file names whatever the clock |
| Instruments.DecimalInjective | measure/controller/visa_controller.py:117 | The decimal rendering of the step is injective |
| Instruments.RenderAppend | measure/controller/visa_controller.py:111-119 | Rendering a name distributes over concatenation of its pieces |
| Visa.VisaController.AcquireSignal | measure/controller/visa_controller.py:80-127 | The whole state after arming, polling, settling, saving and reporting is `Acquire` of the state before |
| Instruments.AbortedAcquireOnlyArms | measure/controller/visa_controller.py:88-97 | Aborting while the MSO runs writes only the three arm commands: no save, no message, no sleep |
| Instruments.CapturedAcquireSaves | measure/controller/visa_controller.py:99-127 | A capture that ends adds five MSO commands, the last a waveform save to a name under the base directory, and at least four seconds of sleep |
| Instruments.AcquireSavesOnce | measure/controller/visa_controller.py:121 | A completed acquisition saves exactly one waveform |
| Visa.VisaController.CollectFrequency | measure/controller/visa_controller.py:189-197 | One loop step is `Send` with the threshold's cycle count followed by `Acquire` |
| Visa.VisaController.CollectionProcess | measure/controller/visa_controller.py:184-197 | The state after the sweep is `Process` of the plan's frequencies, in order |
| Instruments.ProcessNext | measure/controller/visa_controller.py:187-197 | Processing one more frequency is its `Send` then `Acquire` after the earlier ones |
| Instruments.ProcessPrefixHung | measure/controller/visa_controller.py:184-197 | Once the MSO is left polling, later frequencies change nothing |
| Instruments.ProcessAfgCount | measure/controller/visa_controller.py:133-146 | A completed sweep writes exactly eight AFG commands per frequency |
| Instruments.ProcessSavesEach | measure/controller/visa_controller.py:184-197 | A completed sweep without abort saves exactly one waveform per frequency |
| Instruments.ProcessKeepsRepetitions | measure/controller/visa_controller.py:184-197 | A sweep only appends events and announces no repetition |
| Visa.VisaController.CollectData | measure/controller/visa_controller.py:152-170 | The state after collecting is `Replay` of the `Schedule`: one sweep per repetition when connected and not aborting, nothing otherwise |
| Instruments.Rounds | measure/controller/visa_controller.py:157-170 | Round k announces index k+1 and uses file number start+k |
| Instruments.RoundsPrefix | measure/controller/visa_controller.py:161-170 | The first m of n rounds are the rounds of an m-round run |
| Instruments.Schedule | measure/controller/visa_controller.py:155-170 | There are as many rounds as repetitions when connected, not aborting and repetitions are positive, else none; steps start at the plan's file number and grow by one |
| Instruments.ReplaySnoc | measure/controller/visa_controller.py:166-168 | One more round announces its index and then runs a sweep with its step |
| Instruments.ReplayPrefixHung | measure/controller/visa_controller.py:161-170 | Once a round leaves the MSO polling, later rounds change nothing |
| Instruments.ReplayAnnouncesRounds | measure/controller/visa_controller.py:166-167 | The repetition indices announced are exactly the rounds' indices, in order |
| Instruments.IndicesOfRounds | measure/controller/visa_controller.py:157-167 | The indices announced over n rounds are 1, 2, …, n |
| Visa.VisaController.RestoreDefaults | measure/controller/visa_controller.py:172-182 | The state after restoring is `Restore` of the state before |
| Instruments.Restore | measure/controller/visa_controller.py:172-182 | Nothing is written when disconnected; events, answers and clock are never touched |
| Instruments.RestoreAfg | measure/controller/visa_controller.py:176-179 | Four AFG commands ending with output on |
| Instruments.RestoreLeavesResetSignal | measure/controller/visa_controller.py:176-179 | After restoring, the AFG is on with shape `user1` at the reset frequency (in Hz, per period of two cycles) |
| UMeasureMain.MainController.constructor | umeasure/controller/main_controller.py:74-76 | A new controller is idle, not aborting, with the check flag set and no feedback |
| UMeasureMain.MainController.ChangeToCollecting | umeasure/controller/main_controller.py:127-140 | Widgets disabled, labels "Collecting"/"Abort", repetition status shown, one "starting" feedback; flags unchanged |
| UMeasureMain.MainController.ChangeToIdle | umeasure/controller/main_controller.py:142-157 | Both flags cleared, widgets enabled, labels "Idle"/"Collect", repetition status hidden, timer stopped; feedback unchanged |
| UMeasureMain.MainController.ChangeToAborting | umeasure/controller/main_controller.py:159-162 | Aborting set and the status label reads "Aborting"; everything else unchanged |
| UMeasureMain.MainController.ChangeCurrentRepetition | umeasure/controller/main_controller.py:164-168 | The repetition label shows the given index over the planned repetitions; the flags are unchanged |
| UMeasureMain.MainController.CheckForEmptyTxtBoxes | umeasure/controller/main_controller.py:170-179 | The check flag is cleared and one notice added exactly when the text strips to empty; the flag is never set |
| Validation.BlankCheck | umeasure/controller/main_controller.py:170-179 | Passes exactly when the incoming flag is set and the text is not blank; adds a notice exactly when blank; never raises |
| UMeasureMain.MainController.CheckForValidIp | umeasure/controller/main_controller.py:181-200 | Flag, raise and feedback are those of `IpCheck` on the flag before the call |
| Validation.IpCheckSpec | umeasure/controller/main_controller.py:181-200 | The check raises exactly when some section's `int()` fails; otherwise it passes exactly when the flag was set and the address is a valid dotted quad; it never sets a cleared flag; a notice is added exactly when it neither raises nor passes |
| Validation.IpVerdictIff | umeasure/controller/main_controller.py:183-193 | An address is valid exactly when it splits into four sections whose `int()` is in 0..255; the check raises exactly when some section fails `int()` |
| Validation.ScanSectionsIff | umeasure/controller/main_controller.py:188-193 | The section loop raises exactly when some value is missing; otherwise it finds every section in range exactly when all are octets |
| Validation.ScanStopsAtRaise | umeasure/controller/main_controller.py:188-193 | Sections after the one that raises are never looked at |
| Validation.ParseAllAt | umeasure/controller/main_controller.py:188-193 | Each section's value is `int()` of that section |
| Validation.DottedQuadVerdict | umeasure/controller/main_controller.py:181-200 | A rendered dotted quad `a.b.c.d` is valid exactly when every part is at most 255 |
| Validation.QuadSplits | umeasure/controller/main_controller.py:183 | Splitting a rendered dotted quad on "." gives back its four decimal parts |
| Validation.TrailingDotRaises | umeasure/controller/main_controller.py:183-193 | An address ending in "." has an empty last section, so `int("")` raises |
| UMeasureMain.MainController.CheckRequiredFields | umeasure/controller/main_controller.py:205-235 | The blank checks in order (MSO, AFG, cycle, run, threshold, then scan only for several repetitions), stopping at the first blank field; never raises |
| UMeasureMain.MainController.CheckAddresses | umeasure/controller/main_controller.py:237-245 | The MSO address check, then the AFG one only if the first passed |
| UMeasureMain.MainController.CheckInputBeforeCollection | umeasure/controller/main_controller.py:202-245 | Flag, raise and feedback are those of `InputCheck` of the current inputs when the flag starts set |
| Validation.InputCheckIsSequence | umeasure/controller/main_controller.py:202-245 | The full check is the ordered sequence of blank checks followed by the two address checks |
| Validation.SequencePassesIff | umeasure/controller/main_controller.py:205-245 | A sequence of checks is clean exactly when each check is, and then adds no notice |
| Validation.FirstFailure | umeasure/controller/main_controller.py:205-245 | The outcome of the sequence is that of its first failing check |
| Validation.SequenceAppend | umeasure/controller/main_controller.py:205-245 | Clean checks in front change nothing; a failed prefix hides the rest |
| Validation.SequenceNotices | umeasure/controller/main_controller.py:205-245 | Checks adding at most one notice each add at most one together |
| Validation.BlankOutcomesAt | umeasure/controller/main_controller.py:205-235 | The blank checks are MSO, AFG, cycle, run, threshold, and scan only for several repetitions |
| Validation.BlankOutcomesIff | umeasure/controller/main_controller.py:205-235 | The blank checks are all clean exactly when the required fields are filled |
| Validation.AddressesIff | umeasure/controller/main_controller.py:237-245 | The address checks pass exactly when both addresses are valid, with at most one notice |
| Validation.ChecksPassIff | umeasure/controller/main_controller.py:202-245 | The full check passes exactly when the inputs are acceptable, and never reports more than one notice |
| Validation.InputCheckPassIff | umeasure/controller/main_controller.py:202-245 | The input check is clean exactly when the inputs are acceptable |
| Validation.BlankMsoFirst | umeasure/controller/main_controller.py:205-208 | A blank MSO address is the only notice, whatever else is wrong |
| Validation.ScanIgnoredForSingleRun | umeasure/controller/main_controller.py:231-235 | With at most one repetition the scan text does not affect the checks |
| Validation.TruncatedMsoRaises | umeasure/controller/main_controller.py:237-240 | An MSO address ending in "." passes the blank checks and then raises, with no notice |
| UMeasureMain.MainController.ButtonClicked | umeasure/controller/main_controller.py:247-274 | While collecting, a click only aborts; otherwise collection starts exactly when the inputs are acceptable and the user confirms; otherwise the check's notices are reported, and the handler raises exactly when the check does |
| UMeasureMain.MainController.WorkerIteration | umeasure/controller/main_controller.py:276-284 | While collecting: connect, then `Replay` of the `Schedule` under the abort flag, then (unless the MSO is left polling) restore and go idle; otherwise only restore |
| MeasureSetup.BaseDirIsFilteredPath | measure/controller/setup_controller.py:47-66 | The directory is the root followed by every non-blank segment with its "/", in order |
| MeasureSetup.NonBlank | measure/controller/setup_controller.py:50-64 | The kept segments are all non-blank |
| MeasureSetup.BaseDirShape | measure/controller/setup_controller.py:66 | The directory starts with `C:/Data/` and ends with "/" |
| MeasureSetup.AllBlankIsRoot | measure/controller/setup_controller.py:50-66 | With every segment blank the directory is `C:/Data/` |
| MeasureSetup.SetupController.constructor | measure/controller/setup_controller.py:13-20 | The directory is computed from the model, shown and announced once |
| MeasureSetup.SetupController.UpdateBaseDir | measure/controller/setup_controller.py:47-68 | The directory becomes `BaseDir` of the model, is shown and is announced once more |
| MeasureSetup.SetupController.MsoTextChanged | measure/controller/setup_controller.py:70-72 | Only the MSO address changes |
| MeasureSetup.SetupController.AfgTextChanged | measure/controller/setup_controller.py:74-76 | Only the AFG address changes |
| MeasureSetup.SetupController.HutchTextChanged | measure/controller/setup_controller.py:78-81 | Only the hutch changes, and the directory is recomputed and announced |
| MeasureSetup.SetupController.CycleTextChanged | measure/controller/setup_controller.py:83-86 | Only the cycle changes, and the directory is recomputed and announced |
| MeasureSetup.SetupController.InstitutionTextChanged | measure/controller/setup_controller.py:88-91 | Only the institution changes, and the directory is recomputed and announced |
| MeasureSetup.SetupController.RunNumberTextChanged | measure/controller/setup_controller.py:93-96 | Only the run number changes, and the directory is recomputed and announced |
| MeasureSetup.SetupController.VppValueChanged | measure/controller/setup_controller.py:98-100 | Only the voltage changes |
| UMeasureSetup.BaseDirShape | umeasure/controller/setup_controller.py:68-72 | The directory starts with `C:/Data/13BMD/`, ends with "/" and has the length of its parts |
| UMeasureSetup.BaseDirRecovers | umeasure/controller/setup_controller.py:70-72 | The cycle and run number can be read back from their places in the directory |
| UMeasureSetup.BaseDirInjective | umeasure/controller/setup_controller.py:70-72 | For cycles of equal length, equal directories mean equal cycle and run number |
| UMeasureSetup.EmptyCycleKept | umeasure/controller/setup_controller.py:70-72 | An empty cycle leaves an empty segment (`13BMD//GSECARS`) instead of being skipped |
| UMeasureSetup.SetupController.constructor | umeasure/controller/setup_controller.py:41-47 | The directory is computed from the model and shown |
| UMeasureSetup.SetupController.UpdateBaseDir | umeasure/controller/setup_controller.py:68-73 | The directory becomes `BaseDir` of cycle and run number and is shown |
| UMeasureSetup.SetupController.MsoTextChanged | umeasure/controller/setup_controller.py:75-77 | Only the MSO address changes |
| UMeasureSetup.SetupController.AfgTextChanged | umeasure/controller/setup_controller.py:79-81 | Only the AFG address changes |
| UMeasureSetup.SetupController.CycleTextChanged | umeasure/controller/setup_controller.py:83-86 | Only the cycle changes, and the directory is recomputed |
| UMeasureSetup.SetupController.RunNumberTextChanged | umeasure/controller/setup_controller.py:88-91 | Only the run number changes, and the directory is recomputed |
| UMeasureSetup.SetupController.VppValueChanged | umeasure/controller/setup_controller.py:93-95 | Only the voltage changes |
| FrequencyText.ParseFrequencies | measure/controller/experiment_controller.py:77-89 | The loop yields `Convert` of the non-blank stripped pieces, or `None` when `float()` rejects one |
| FrequencyText.ConvertNoneIff | measure/controller/experiment_controller.py:83-86 | Parsing fails exactly when some token is rejected by `float()` |
| FrequencyText.Convert | measure/controller/experiment_controller.py:83-86 | A successful conversion has one number per token |
| FrequencyText.Kept | measure/controller/experiment_controller.py:83-85 | Blank pieces are dropped, so no more tokens than pieces |
| FrequencyText.KeptAppend | measure/controller/experiment_controller.py:83-85 | Filtering pieces distributes over concatenation |
| FrequencyText.ConvertAppendNone | measure/controller/experiment_controller.py:83-86 | A rejected token makes the whole parse fail, whatever follows |
| FrequencyText.BlankParsesEmpty | measure/controller/experiment_controller.py:80-89 | A blank text parses to the empty list |
| FrequencyText.SeparatorsParseEmpty | measure/controller/experiment_controller.py:80-89 | A text of only commas and spaces parses to the empty list |
| FrequencyText.TokensBound | measure/controller/experiment_controller.py:80-85 | There are at most one more tokens than commas |
| FrequencyText.JoinFrequencies | measure/controller/experiment_controller.py:66-75 | The loop builds `Joined` of the items, of length their sum plus two per separator |
| FrequencyText.JoinedLength | measure/controller/experiment_controller.py:69-73 | The joined text has the items' total length plus two per ", " |
| FrequencyText.Rendered | measure/controller/experiment_controller.py:71 | One rendered string per frequency |
| FrequencyText.SplitJoined | measure/controller/experiment_controller.py:80 | Splitting the joined text on "," gives the items, each after the first with its leading space |
| FrequencyText.KeptSpaced | measure/controller/experiment_controller.py:84-85 | Stripping drops the leading spaces the join added |
| FrequencyText.KeptTokens | measure/controller/experiment_controller.py:84-85 | Items that are already tokens are kept unchanged |
| FrequencyText.JoinedEnds | measure/controller/experiment_controller.py:66-73 | The joined text starts with the first item's first character and ends with the last item's last |
| FrequencyText.JoinedStripped | measure/controller/experiment_controller.py:80 | The outer `strip()` leaves a join of tokens unchanged |
| FrequencyText.TokensOfJoined | measure/controller/experiment_controller.py:66-89 | Tokenising the printed list gives back the printed items |
| FrequencyText.FrequenciesRoundTrip | measure/controller/experiment_controller.py:66-89 | Printing the frequency list and parsing the text back returns the same list, when `str()` and `float()` round-trip each number |
| FrequencyText.ConvertRendered | measure/controller/experiment_controller.py:71-86 | Converting the rendered numbers gives the numbers back |
| MeasureExperiment.ExperimentController.constructor | measure/controller/experiment_controller.py:30-35 | The controller keeps the plan and the view it is given |
| MeasureExperiment.ExperimentController.UpdateExperimentValuesAsWritten | measure/controller/experiment_controller.py:56-64 | The four spin boxes and the threshold box are filled, then the lookup of `txt_reset`, which the widget lacks, raises; the reset, scan and frequency boxes keep their text |
| MeasureExperiment.ExperimentController.UpdateExperimentValues | measure/controller/experiment_controller.py:56-75 | With a reset box present, every box shows its plan value; the frequency box gets the joined list, and is left as it was when the list is empty |
| MeasureExperiment.ExperimentController.FrequenciesTextChanged | measure/controller/experiment_controller.py:77-89 | The handler raises exactly when `float()` rejects a token; otherwise only the plan's frequencies change, to the parsed list |
| MeasureExperiment.ExperimentController.ThresholdTextChanged | measure/controller/experiment_controller.py:91-93 | Raises exactly when `float()` rejects the text; otherwise only the threshold changes |
| MeasureExperiment.ExperimentController.ResetTextChangedAsWritten | measure/controller/experiment_controller.py:95-97 | Raises for every text, because the widget has no `txt_reset`; the plan is untouched |
| MeasureExperiment.ExperimentController.ResetTextChanged | measure/controller/experiment_controller.py:95-97 | With a reset box present, raises exactly when `float()` rejects the text; otherwise only the reset frequency changes |
| MeasureExperiment.ExperimentController.CheckRepeatedChangedAsWritten | measure/controller/experiment_controller.py:99-104 | The assignment raises for every state, because `repeat` is not an attribute of the slotted plan (the handler is never connected to a widget, lines 37-54) |
| MeasureExperiment.ExperimentController.CheckRepeatedChanged | measure/controller/experiment_controller.py:99-104 | State 0 clears `repeat`, any other state sets it; nothing else changes |
| MeasureExperiment.ExperimentController.ScanTextChanged | measure/controller/experiment_controller.py:106-108 | Only the scan changes |
| MeasureExperiment.ExperimentController.RepetitionsValueChanged | measure/controller/experiment_controller.py:110-112 | Only the repetitions change |
| MeasureExperiment.ExperimentController.FileNumberValueChanged | measure/controller/experiment_controller.py:114-116 | Only the file number changes |
| MeasureExperiment.ExperimentController.LoadValueChanged | measure/controller/experiment_controller.py:118-120 | Only the load changes |
| MeasureExperiment.ExperimentController.TemperatureValueChanged | measure/controller/experiment_controller.py:122-124 | Only the temperature changes |
| UMeasureExperiment.ExperimentController.constructor | umeasure/controller/experiment_controller.py:37-44 | The controller keeps the plan and the view it is given |
| UMeasureExperiment.ExperimentController.UpdateExperimentValuesAsWritten | umeasure/controller/experiment_controller.py:66-84 | The six boxes before the voltage line are filled, then the voltage line raises: the experiment widget has no `spin_vpp` (looked up first) and the plan has no `vpp`; the frequency box is never written |
| UMeasureExperiment.ExperimentController.UpdateExperimentValues | umeasure/controller/experiment_controller.py:66-84 | Without the voltage line, every box shows its plan value and the frequency box the joined list (left as it was for an empty list) |
| UMeasureExperiment.ExperimentController.FrequenciesTextChanged | umeasure/controller/experiment_controller.py:86-98 | The handler raises exactly when `float()` rejects a token; otherwise only the frequencies change, to the parsed list |
| UMeasureExperiment.ExperimentController.ThresholdTextChanged | umeasure/controller/experiment_controller.py:100-102 | Raises exactly when `float()` rejects the spin box's text; otherwise only the threshold changes |
| UMeasureExperiment.ExperimentController.CheckRepeatedChanged | umeasure/controller/experiment_controller.py:104-109 | State 0 clears `repeat`, any other state sets it; nothing else changes (the handler is never connected to a widget, lines 46-64) |
| UMeasureExperiment.ExperimentController.ScanTextChanged | umeasure/controller/experiment_controller.py:111-113 | Only the scan changes |
| UMeasureExperiment.ExperimentController.RepetitionsValueChanged | umeasure/controller/experiment_controller.py:115-117 | Only the repetitions change |
| UMeasureExperiment.ExperimentController.FileNumberValueChanged | umeasure/controller/experiment_controller.py:119-121 | Only the file number changes |
| UMeasureExperiment.ExperimentController.LoadValueChanged | umeasure/controller/experiment_controller.py:123-125 | Only the load changes |
| UMeasureExperiment.ExperimentController.TemperatureValueChanged | umeasure/controller/experiment_controller.py:127-129 | Only the temperature changes |
| Models.SetupModel.constructor | measure/model/setup_model.py:25-55 | The model holds exactly the loaded setup values |
| Models.ExperimentModel.constructor | measure/model/experiment_model.py:25-42 | The model holds exactly the loaded plan values |
| Text.TrimLeftSpec | umeasure/controller/main_controller.py:172 | Left trimming removes exactly a whitespace prefix and stops at a non-space character |
| Text.TrimRightSpec | umeasure/controller/main_controller.py:172 | Right trimming removes exactly a whitespace suffix and stops at a non-space character |
| Text.StripEnds | umeasure/controller/main_controller.py:172 | A stripped non-empty string starts and ends with non-space characters |
| Text.BlankIffAllSpace | umeasure/controller/main_controller.py:172 | A text strips to empty exactly when it is all whitespace |
| Text.BlankIffStripEmpty | measure/controller/setup_controller.py:51 | The blank test is `strip() == ""` |
| Text.StripSlice | measure/controller/experiment_controller.py:84 | The stripped text is a contiguous slice of the original |
| Text.CountAppend | umeasure/controller/main_controller.py:183 | Separator counts add over concatenation |
| Text.CountStrip | measure/controller/experiment_controller.py:80 | Stripping never adds separators |
| Text.Split | umeasure/controller/main_controller.py:183 | `split` gives one more part than separators, and no part contains the separator |
| Text.SplitJoin | umeasure/controller/main_controller.py:183 | Splitting the join of separator-free parts gives the parts back |
| Text.JoinSplit | umeasure/controller/main_controller.py:183 | Joining the parts of a split gives the text back |
| Text.SplitAround | umeasure/controller/main_controller.py:183 | Splitting around one separator splits each side independently |
| Text.SplitCons | umeasure/controller/main_controller.py:183 | A separator-free head is the first part |
| Text.SplitSingle | umeasure/controller/main_controller.py:183 | A separator-free text is a single part |
| PyInt.ParseInt | umeasure/controller/main_controller.py:188-193 | `int()` of a blank string fails |
| PyInt.ShowParses | umeasure/controller/main_controller.py:188-193 | `int()` reads back every decimal numeral |
| PyInt.ShowValue | umeasure/controller/main_controller.py:188-193 | The decimal numeral of n has the value n |
| PyInt.ParseDigitRun | umeasure/controller/main_controller.py:188-193 | A digit run with surrounding whitespace parses to its value |
| PyInt.EmptyRaises | umeasure/controller/main_controller.py:188-193 | `int("")` raises |
| PyInt.SignedZero | umeasure/controller/main_controller.py:188-193 | `int("-0")` is 0, so it passes the range test |
| PyInt.SingleUnderscore | umeasure/controller/main_controller.py:188-193 | `int("2_5")` is 25 |
| PyInt.DoubleUnderscore | umeasure/controller/main_controller.py:188-193 | `int("2__5")` raises |

## Left out

- The Qt widgets, message boxes and signal wiring. Widget contents are plain fields. The confirmation box is the `confirmed` parameter. The signals `collect_triggered`, `abort_triggered` and `finished` are modelled as the calls they lead to.
- Loading and saving QSettings, the defaults functions (`set_setup_defaults`, `set_experiment_defaults`) and the reset button handlers. The models' constructors take the loaded values.
- The model setters' `isinstance` guards. The handlers always pass values of the right type, so the guards never reject.
- `_update_setup_values`. It only copies the model into widgets.
- The experiment controllers' constructors take the view as given rather than filling it from the plan. `UpdateExperimentValues` models that step.
- Threads, timers, `_timer_ticks` and the elapsed-time label.
- The worker's `while not terminated` loop. `WorkerIteration` models one pass of its body.
- PyVISA I/O.
  - Writes are appended to command logs.
  - The MSO's answers to `:acquire:state?` are an input queue.
  - `*IDN?` answers and `VisaIOError` are the `Opening` parameter.
  - An I/O error other than one raised while opening is not modelled.
- Visa.VisaController.WaitForIdle: when the MSO's answer queue runs out while it still reports running, the source would poll forever; the model stops with `Hung`, and everything after it is skipped.
- `time.sleep` is a second counter. The `datetime.now()` timestamp in file names is the `Stamp(clock)` piece, and its exact `%m.%d.%Y_%H.%M.%S` text is not rendered.
- `float()` and `str()` on floats. They are the parameters `toFloat` and `show`. Their round trip is a precondition of `FrequencyText.FrequenciesRoundTrip`.
- The forwarding of the `VisaController`'s signals. Its feedback messages and repetition indices stay in its own event log. They are not copied into the main controller's feedback or into `ChangeCurrentRepetition` calls.
- The timestamp prefix `_append_feedback` adds, and the exact wording of the messages. Messages are constructors carrying their data.
- The `print` in `_update_base_dir`.
- The `VisaController` of U-Measure is not part of this model. The model assumes that U-Measure's main controller drives a controller that exposes the setup and the plan and behaves like Measure's `VisaController`. The Measure controller stands in for it. The source does not bear this assumption out:
  - umeasure/controller/main_controller.py:67-71 constructs it with three arguments. Measure's constructor takes four, including `base_dir_changed`.
  - U-Measure's plan has no `reset_frequency`, which Measure's `restore_defaults` reads. The model's shared plan carries one.
  - U-Measure's setup settings model has no `vpp`, which Measure's `_send_signal` reads. The model's shared setup carries one.
  - umeasure/controller/main_controller.py:63 passes `settings=` to an `ExperimentController` whose parameter is `model`.
  - The main controller reads `_experiment_controller.model`, but that controller stores its plan as `_model`. The model's main controller reads the plan directly.
- PyInt.ParseInt: accepts only the ASCII digits `0`-`9`. Python's `int()` also accepts every other Unicode decimal digit (Arabic-Indic, full-width and so on), so for an address written with such digits the model's address check raises where the source accepts the section.
- UMeasureMain.MainController.CheckInputBeforeCollection: the source calls `int(section)` up to three times per section; the model evaluates it once, since each call returns the same value or raises the same error.
- UMeasureMain.MainController.CheckRequiredFields and UMeasureMain.MainController.CheckAddresses are two halves of `_check_input_before_collection`, split for the proof.
- UMeasureMain.MainController.WorkerIteration: the abort flag is read once, when the pass starts, just as `collect_data` receives it by value; an abort clicked mid-pass is not seen until the next pass, as in the source.
- The threshold blank check receives the rendered threshold through `show`, as `str(threshold)` does.

## Findings

| source | as written | input that shows it | evidently intended | confidence | as-written member | corrected member |
|---|---|---|---|---|---|---|
| measure/controller/experiment_controller.py:99-104 | `_check_repeated_changed` assigns `self.model.repeat`, but the plan is a `slots=True` dataclass without a `repeat` field, so the assignment raises `AttributeError`; the handler is also never connected (lines 37-54), so the error is dormant | any check box state, e.g. state 2 | the plan records whether the repeat box is checked | not executed | MeasureExperiment.ExperimentController.CheckRepeatedChangedAsWritten | MeasureExperiment.ExperimentController.CheckRepeatedChanged |
| umeasure/controller/experiment_controller.py:74 | `_update_experiment_values` looks up `self._widget.spin_vpp`, which the experiment widget does not define (the voltage box is on the setup widget), and would then read `self._model.vpp`, which the experiment settings model does not define either; it raises before the frequency box is written, and so the constructor (line 43) raises before connecting the handlers | any call, e.g. at construction with frequencies [1.0] | the voltage belongs to the setup section; the frequency box shows the joined list | not executed | UMeasureExperiment.ExperimentController.UpdateExperimentValuesAsWritten | UMeasureExperiment.ExperimentController.UpdateExperimentValues |
| measure/controller/experiment_controller.py:56-64 | `_update_experiment_values` sets `self._widget.txt_reset`, but Measure's experiment widget defines no reset box, so it raises `AttributeError` at line 63 after filling the spin boxes and the threshold box; the constructor (line 34) therefore raises before connecting any handler | any call, e.g. at construction | the widget has a reset frequency box showing the plan's reset frequency, and every box is filled | not executed | MeasureExperiment.ExperimentController.UpdateExperimentValuesAsWritten | MeasureExperiment.ExperimentController.UpdateExperimentValues |
| measure/controller/experiment_controller.py:95-97 | `_txt_reset_text_changed` reads `self._widget.txt_reset`, which the widget does not define (and line 43 connects it to that missing box), so it raises `AttributeError` whatever the text | any text, e.g. "1.5" | the reset frequency becomes `float()` of the reset box's text | not executed | MeasureExperiment.ExperimentController.ResetTextChangedAsWritten | MeasureExperiment.ExperimentController.ResetTextChanged |
