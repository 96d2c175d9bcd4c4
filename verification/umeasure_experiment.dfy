/**
 * The experiment controller of U-Measure: the same frequency parser and
 * printer as Measure, a threshold spin box instead of a text box, and no
 * reset frequency. The plan is a plain dataclass, so any attribute can be
 * assigned, but only its declared fields can be read.
 */
module UMeasureExperiment {
  import opened Wrappers
  import opened Models
  import opened FrequencyText

  /** The attributes the plan defines, and so the only ones that can be read from it. */
  const PlanAttributes: set<string> := {
    "settings", "_frequencies", "_threshold", "_repetitions", "_file_number", "_scan", "_load",
    "_temperature", "frequencies", "threshold", "repetitions", "file_number", "scan", "load", "temperature"}

  /** The boxes U-Measure's experiment widget defines; the voltage box belongs to the setup widget. */
  const WidgetBoxes: set<string> := {
    "txt_frequencies", "txt_scan", "spin_repetitions", "spin_file_number", "spin_load", "spin_temperature",
    "spin_threshold"}

  /** What the experiment section shows. */
  datatype ExperimentView = ExperimentView(
    frequencies: string, threshold: real, scan: string,
    repetitions: int, fileNumber: int, load: real, temperature: real)

  class ExperimentController {
    const model: ExperimentModel
    var view: ExperimentView

    constructor (model: ExperimentModel, view: ExperimentView)
      ensures this.model == model && this.view == view
    {
      this.model := model;
      this.view := view;
    }

    /**
     * `_update_experiment_values` as written: the six boxes before the voltage
     * line are filled, then the voltage line raises `AttributeError`: the
     * experiment widget has no `spin_vpp` (looked up first) and the plan has
     * no `vpp`. The frequency box is never written.
     */
    method UpdateExperimentValuesAsWritten() returns (raised: bool)
      modifies this
      ensures raised <==> "spin_vpp" !in WidgetBoxes || "vpp" !in PlanAttributes
      ensures raised && view.frequencies == old(view.frequencies)
      ensures view == old(view).(
        threshold := model.threshold, scan := model.scan, repetitions := model.repetitions,
        fileNumber := model.fileNumber, load := model.load, temperature := model.temperature)
    {
      view := view.(repetitions := model.repetitions, fileNumber := model.fileNumber,
                    load := model.load, temperature := model.temperature,
                    threshold := model.threshold, scan := model.scan);
      raised := "spin_vpp" !in WidgetBoxes || "vpp" !in PlanAttributes;
    }

    /**
     * `_update_experiment_values` without the voltage line: every box shows
     * its plan value; the frequency box gets the joined list, and is left as
     * it was when the list is empty.
     */
    method UpdateExperimentValues(show: real -> string)
      modifies this
      ensures view.frequencies == if model.frequencies == [] then old(view.frequencies)
                                  else Joined(Rendered(model.frequencies, show))
      ensures view == old(view).(
        frequencies := view.frequencies,
        threshold := model.threshold, scan := model.scan, repetitions := model.repetitions,
        fileNumber := model.fileNumber, load := model.load, temperature := model.temperature)
    {
      view := view.(repetitions := model.repetitions, fileNumber := model.fileNumber,
                    load := model.load, temperature := model.temperature,
                    threshold := model.threshold, scan := model.scan);
      if model.frequencies != [] {
        var text := JoinFrequencies(Rendered(model.frequencies, show));
        view := view.(frequencies := text);
      }
    }

    /**
     * `_txt_frequencies_text_changed`: the parsed list replaces the plan's
     * frequencies; when `float()` rejects a token the handler raises and the
     * plan keeps its list.
     */
    method FrequenciesTextChanged(text: string, toFloat: string -> Option<real>) returns (raised: bool)
      modifies model
      ensures raised <==> Convert(Tokens(text), toFloat).None?
      ensures !raised ==> model.Values() == old(model.Values()).(frequencies := Convert(Tokens(text), toFloat).value)
      ensures raised ==> model.Values() == old(model.Values())
    {
      var parsed := ParseFrequencies(text, toFloat);
      raised := parsed.None?;
      if !raised {
        model.frequencies := parsed.value;
      }
    }

    /** `_spin_threshold_text_changed`: the threshold becomes `float()` of the spin box's text, or the handler raises and nothing changes. */
    method ThresholdTextChanged(spinText: string, toFloat: string -> Option<real>) returns (raised: bool)
      modifies model
      ensures raised <==> toFloat(spinText).None?
      ensures !raised ==> model.Values() == old(model.Values()).(threshold := toFloat(spinText).value)
      ensures raised ==> model.Values() == old(model.Values())
    {
      var value := toFloat(spinText);
      raised := value.None?;
      if !raised {
        model.threshold := value.value;
      }
    }

    /** `_check_repeated_changed` (never connected to a widget by the controller): state 0 clears `repeat`, any other state sets it. */
    method CheckRepeatedChanged(state: int)
      modifies model
      ensures model.Values() == old(model.Values()).(repeat := state != 0)
    {
      if state == 0 {
        model.repeat := false;
      } else {
        model.repeat := true;
      }
    }

    /** `_txt_scan_text_changed`. */
    method ScanTextChanged(text: string)
      modifies model
      ensures model.Values() == old(model.Values()).(scan := text)
    {
      model.scan := text;
    }

    /** `_spin_repetitions_value_changed`. */
    method RepetitionsValueChanged(value: int)
      modifies model
      ensures model.Values() == old(model.Values()).(repetitions := value)
    {
      model.repetitions := value;
    }

    /** `_spin_file_number_value_changed`. */
    method FileNumberValueChanged(value: int)
      modifies model
      ensures model.Values() == old(model.Values()).(fileNumber := value)
    {
      model.fileNumber := value;
    }

    /** `_spin_load_value_changed`. */
    method LoadValueChanged(value: real)
      modifies model
      ensures model.Values() == old(model.Values()).(load := value)
    {
      model.load := value;
    }

    /** `_spin_temperature_value_changed`. */
    method TemperatureValueChanged(value: real)
      modifies model
      ensures model.Values() == old(model.Values()).(temperature := value)
    {
      model.temperature := value;
    }
  }
}
