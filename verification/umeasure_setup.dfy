/**
 * The setup controller of U-Measure: the base directory has a fixed shape,
 * `C:/Data/13BMD/<cycle>/GSECARS/<run number>/`, with no blank-skipping.
 */
module UMeasureSetup {
  import opened Models

  const DataRoot: string := "C:/Data/13BMD/"
  const Institution: string := "/GSECARS/"

  /** The base directory for a cycle and a run number. */
  function BaseDir(cycle: string, runNumber: string): string {
    DataRoot + cycle + Institution + runNumber + "/"
  }

  /** The base directory starts with the hutch root and ends with "/", whatever the fields hold. */
  lemma BaseDirShape(cycle: string, runNumber: string)
    ensures |BaseDir(cycle, runNumber)| == |DataRoot| + |cycle| + |Institution| + |runNumber| + 1
    ensures BaseDir(cycle, runNumber)[..|DataRoot|] == DataRoot
    ensures BaseDir(cycle, runNumber)[|BaseDir(cycle, runNumber)| - 1] == '/'
  {
    var d := BaseDir(cycle, runNumber);
    assert d == DataRoot + (cycle + Institution + runNumber + "/");
  }

  /** The cycle and the run number can be read back from their places in the directory. */
  lemma BaseDirRecovers(cycle: string, runNumber: string)
    ensures BaseDir(cycle, runNumber)[|DataRoot|..|DataRoot| + |cycle|] == cycle
    ensures BaseDir(cycle, runNumber)[|DataRoot| + |cycle|..|DataRoot| + |cycle| + |Institution|] == Institution
    ensures BaseDir(cycle, runNumber)[|BaseDir(cycle, runNumber)| - 1 - |runNumber|..|BaseDir(cycle, runNumber)| - 1] == runNumber
  {
    var d := BaseDir(cycle, runNumber);
    var a := DataRoot + cycle;
    var b := a + Institution;
    var c := b + runNumber;
    assert d == c + "/";
    assert d[..|c|] == c;
    assert c[..|b|] == b;
    assert b[..|a|] == a;
    assert d[|DataRoot|..|a|] == a[|DataRoot|..];
    assert d[|a|..|b|] == b[|a|..];
    assert d[|b|..|c|] == c[|b|..];
  }

  /** Two directories for cycles of the same length are equal only when both fields are. */
  lemma BaseDirInjective(c1: string, r1: string, c2: string, r2: string)
    requires |c1| == |c2|
    requires BaseDir(c1, r1) == BaseDir(c2, r2)
    ensures c1 == c2 && r1 == r2
  {
    BaseDirRecovers(c1, r1);
    BaseDirRecovers(c2, r2);
    BaseDirShape(c1, r1);
    BaseDirShape(c2, r2);
  }

  /** An empty cycle is not skipped: it leaves an empty path segment. */
  lemma EmptyCycleKept(runNumber: string)
    ensures BaseDir("", runNumber) == "C:/Data/13BMD//GSECARS/" + runNumber + "/"
  {
    assert DataRoot + "" + Institution == "C:/Data/13BMD//GSECARS/";
  }

  /** The setup controller: the model it edits, the base directory and the path label. */
  class SetupController {
    const model: SetupModel
    var basedir: string
    var pathLabel: string

    constructor (model: SetupModel)
      ensures this.model == model
      ensures basedir == BaseDir(model.cycle, model.runNumber) && pathLabel == basedir
    {
      this.model := model;
      basedir := BaseDir(model.cycle, model.runNumber);
      pathLabel := basedir;
    }

    /** `_update_basedir`: recompute the directory and show it. */
    method UpdateBaseDir()
      modifies this
      ensures basedir == BaseDir(model.cycle, model.runNumber) && pathLabel == basedir
    {
      basedir := DataRoot + model.cycle + Institution + model.runNumber + "/";
      pathLabel := basedir;
    }

    /** `_txt_mso_text_changed`: only the MSO address changes; the directory stays. */
    method MsoTextChanged(text: string)
      modifies model
      ensures model.Values() == old(model.Values()).(mso := text)
    {
      model.mso := text;
    }

    /** `_txt_afg_text_changed`: only the AFG address changes; the directory stays. */
    method AfgTextChanged(text: string)
      modifies model
      ensures model.Values() == old(model.Values()).(afg := text)
    {
      model.afg := text;
    }

    /** `_txt_cycle_text_changed`: store the cycle, then recompute the directory. */
    method CycleTextChanged(text: string)
      modifies this, model
      ensures model.Values() == old(model.Values()).(cycle := text)
      ensures basedir == BaseDir(text, model.runNumber) && pathLabel == basedir
    {
      model.cycle := text;
      UpdateBaseDir();
    }

    /** `_txt_run_number_text_changed`: store the run number, then recompute the directory. */
    method RunNumberTextChanged(text: string)
      modifies this, model
      ensures model.Values() == old(model.Values()).(runNumber := text)
      ensures basedir == BaseDir(model.cycle, text) && pathLabel == basedir
    {
      model.runNumber := text;
      UpdateBaseDir();
    }

    /** `_spin_vpp_value_changed`: only the voltage changes; the directory stays. */
    method VppValueChanged(value: real)
      modifies model
      ensures model.Values() == old(model.Values()).(vpp := value)
    {
      model.vpp := value;
    }
  }
}
