/**
 * The experiment controller of Measure: it shows the experiment plan in its
 * text boxes and spin boxes and writes every edit back into the plan. The
 * number conversions `float()` and `str()` are parameters.
 */
module MeasureExperiment {
  import opened Wrappers
  import opened Models
  import opened FrequencyText

  /**
   * The attributes an instance of the slotted plan dataclass accepts: its
   * declared fields and the properties that have setters.
   */
  const PlanAttributes: set<string> := {
    "settings", "_frequencies", "_threshold", "_reset_frequency", "_repetitions", "_file_number",
    "_scan", "_load", "_temperature", "frequencies", "threshold", "reset_frequency", "repetitions",
    "file_number", "scan", "load", "temperature"}

  /**
   * The boxes Measure's experiment widget defines. It has no reset frequency
   * box, although the controller reads and connects `txt_reset`.
   */
  const WidgetBoxes: set<string> := {
    "txt_frequencies", "txt_threshold", "txt_scan", "spin_repetitions", "spin_file_number", "spin_load",
    "spin_temperature"}

  /** What the experiment section shows, with the reset frequency box the controller expects. */
  datatype ExperimentView = ExperimentView(
    frequencies: string, threshold: string, reset: string, scan: string,
    repetitions: int, fileNumber: int, load: real, temperature: real)

  class ExperimentController {
    const model: ExperimentModel
    var view: ExperimentView

    constructor (model: ExperimentModel, view: ExperimentView)
      ensures this.model == model && this.view == view
    {
      this.model := model;
      this.view := view;
    }

    /**
     * `_update_experiment_values` as written: the four spin boxes and the
     * threshold box are filled, then looking up `txt_reset`, which the widget
     * does not define, raises `AttributeError`; the reset, scan and frequency
     * boxes keep what they showed.
     */
    method UpdateExperimentValuesAsWritten(show: real -> string) returns (raised: bool)
      modifies this
      ensures raised <==> "txt_reset" !in WidgetBoxes
      ensures raised && view.reset == old(view.reset) && view.scan == old(view.scan)
      ensures view.frequencies == old(view.frequencies)
      ensures view == old(view).(
        threshold := show(model.threshold), repetitions := model.repetitions, fileNumber := model.fileNumber,
        load := model.load, temperature := model.temperature)
    {
      view := view.(repetitions := model.repetitions, fileNumber := model.fileNumber,
                    load := model.load, temperature := model.temperature,
                    threshold := show(model.threshold));
      raised := "txt_reset" !in WidgetBoxes;
    }

    /**
     * `_update_experiment_values` with a reset frequency box: every box shows its plan value; the
     * frequency box gets the joined list, and is left as it was when the
     * list is empty.
     */
    method UpdateExperimentValues(show: real -> string)
      modifies this
      ensures view.frequencies == if model.frequencies == [] then old(view.frequencies)
                                  else Joined(Rendered(model.frequencies, show))
      ensures view == old(view).(
        frequencies := view.frequencies,
        threshold := show(model.threshold), reset := show(model.resetFrequency), scan := model.scan,
        repetitions := model.repetitions, fileNumber := model.fileNumber,
        load := model.load, temperature := model.temperature)
    {
      view := view.(repetitions := model.repetitions, fileNumber := model.fileNumber,
                    load := model.load, temperature := model.temperature,
                    threshold := show(model.threshold), reset := show(model.resetFrequency), scan := model.scan);
      if model.frequencies != [] {
        var text := JoinFrequencies(Rendered(model.frequencies, show));
        view := view.(frequencies := text);
      }
    }

    /**
     * `_txt_frequencies_text_changed`: the parsed list replaces the plan's
     * frequencies; when `float()` rejects a token the handler raises and the
     * plan keeps its list.
     */
    method FrequenciesTextChanged(text: string, toFloat: string -> Option<real>) returns (raised: bool)
      modifies model
      ensures raised <==> Convert(Tokens(text), toFloat).None?
      ensures !raised ==> model.Values() == old(model.Values()).(frequencies := Convert(Tokens(text), toFloat).value)
      ensures raised ==> model.Values() == old(model.Values())
    {
      var parsed := ParseFrequencies(text, toFloat);
      raised := parsed.None?;
      if !raised {
        model.frequencies := parsed.value;
      }
    }

    /** `_txt_threshold_text_changed`: the threshold becomes `float(text)`, or the handler raises and nothing changes. */
    method ThresholdTextChanged(text: string, toFloat: string -> Option<real>) returns (raised: bool)
      modifies model
      ensures raised <==> toFloat(text).None?
      ensures !raised ==> model.Values() == old(model.Values()).(threshold := toFloat(text).value)
      ensures raised ==> model.Values() == old(model.Values())
    {
      var value := toFloat(text);
      raised := value.None?;
      if !raised {
        model.threshold := value.value;
      }
    }

    /**
     * `_txt_reset_text_changed` as written: reading the text of `txt_reset`,
     * which the widget does not define, raises `AttributeError` whatever the
     * text, and the plan keeps its reset frequency.
     */
    method ResetTextChangedAsWritten(text: string) returns (raised: bool)
      ensures raised <==> "txt_reset" !in WidgetBoxes
      ensures raised
    {
      raised := "txt_reset" !in WidgetBoxes;
    }

    /** `_txt_reset_text_changed` with a reset frequency box: the reset frequency becomes `float(text)`, or the handler raises and nothing changes. */
    method ResetTextChanged(text: string, toFloat: string -> Option<real>) returns (raised: bool)
      modifies model
      ensures raised <==> toFloat(text).None?
      ensures !raised ==> model.Values() == old(model.Values()).(resetFrequency := toFloat(text).value)
      ensures raised ==> model.Values() == old(model.Values())
    {
      var value := toFloat(text);
      raised := value.None?;
      if !raised {
        model.resetFrequency := value.value;
      }
    }

    /**
     * `_check_repeated_changed` as written: the plan is a slotted dataclass
     * and `repeat` is not among its attributes, so the assignment raises
     * `AttributeError`, whatever the state, before anything changes. The
     * controller never connects this handler to a widget.
     */
    method CheckRepeatedChangedAsWritten(state: int) returns (raised: bool)
      ensures raised <==> "repeat" !in PlanAttributes
      ensures raised
    {
      raised := "repeat" !in PlanAttributes;
    }

    /** `_check_repeated_changed` as intended: state 0 clears `repeat`, any other state sets it. */
    method CheckRepeatedChanged(state: int)
      modifies model
      ensures model.Values() == old(model.Values()).(repeat := state != 0)
    {
      if state == 0 {
        model.repeat := false;
      } else {
        model.repeat := true;
      }
    }

    /** `_txt_scan_text_changed`. */
    method ScanTextChanged(text: string)
      modifies model
      ensures model.Values() == old(model.Values()).(scan := text)
    {
      model.scan := text;
    }

    /** `_spin_repetitions_value_changed`. */
    method RepetitionsValueChanged(value: int)
      modifies model
      ensures model.Values() == old(model.Values()).(repetitions := value)
    {
      model.repetitions := value;
    }

    /** `_spin_file_number_value_changed`. */
    method FileNumberValueChanged(value: int)
      modifies model
      ensures model.Values() == old(model.Values()).(fileNumber := value)
    {
      model.fileNumber := value;
    }

    /** `_spin_load_value_changed`. */
    method LoadValueChanged(value: real)
      modifies model
      ensures model.Values() == old(model.Values()).(load := value)
    {
      model.load := value;
    }

    /** `_spin_temperature_value_changed`. */
    method TemperatureValueChanged(value: real)
      modifies model
      ensures model.Values() == old(model.Values()).(temperature := value)
    {
      model.temperature := value;
    }
  }
}
