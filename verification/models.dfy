/**
 * The two data models the controllers share by reference: the setup section
 * (instrument addresses, path segments, peak-to-peak voltage) and the
 * experiment plan. Loading from and saving to the settings store is not part
 * of the model; a constructor takes the values the store would have loaded.
 */
module Models {

  /** Every field of the setup section. The U-Measure variant uses all but `hutch` and `institution`. */
  datatype SetupValues = SetupValues(
    mso: string, afg: string, hutch: string, cycle: string, institution: string, runNumber: string, vpp: real)

  class SetupModel {
    var mso: string
    var afg: string
    var hutch: string
    var cycle: string
    var institution: string
    var runNumber: string
    var vpp: real

    function Values(): SetupValues
      reads this
    {
      SetupValues(mso, afg, hutch, cycle, institution, runNumber, vpp)
    }

    constructor (v: SetupValues)
      ensures Values() == v
    {
      mso, afg, hutch, cycle := v.mso, v.afg, v.hutch, v.cycle;
      institution, runNumber, vpp := v.institution, v.runNumber, v.vpp;
    }
  }

  /**
   * Every field of the experiment plan. Frequencies are in MHz; `repeat` is the
   * attribute the repeat check box handler assigns.
   */
  datatype ExperimentValues = ExperimentValues(
    frequencies: seq<real>, threshold: real, resetFrequency: real, repetitions: int, fileNumber: int,
    scan: string, load: real, temperature: real, repeat: bool)

  class ExperimentModel {
    var frequencies: seq<real>
    var threshold: real
    var resetFrequency: real
    var repetitions: int
    var fileNumber: int
    var scan: string
    var load: real
    var temperature: real
    var repeat: bool

    function Values(): ExperimentValues
      reads this
    {
      ExperimentValues(frequencies, threshold, resetFrequency, repetitions, fileNumber, scan, load, temperature, repeat)
    }

    constructor (v: ExperimentValues)
      ensures Values() == v
    {
      frequencies, threshold, resetFrequency := v.frequencies, v.threshold, v.resetFrequency;
      repetitions, fileNumber, scan := v.repetitions, v.fileNumber, v.scan;
      load, temperature, repeat := v.load, v.temperature, v.repeat;
    }
  }
}
