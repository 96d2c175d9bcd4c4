/**
 * The setup controller of Measure: it keeps the setup model in step with the
 * text boxes and recomputes the base directory, `C:/Data/` followed by the
 * hutch, cycle, institution and run number, each with a trailing "/" and
 * each left out when it is blank.
 */
module MeasureSetup {
  import opened Text
  import opened Models

  const DataRoot: string := "C:/Data/"

  /** One optional path segment: nothing when the value is blank, otherwise the raw value and "/". */
  function Segment(value: string): string {
    if IsBlank(value) then "" else value + "/"
  }

  /** The base directory for the four optional segments, in their fixed order. */
  function BaseDir(hutch: string, cycle: string, institution: string, runNumber: string): string {
    DataRoot + Segment(hutch) + Segment(cycle) + Segment(institution) + Segment(runNumber)
  }

  /** The values that are not blank, in order. */
  function NonBlank(values: seq<string>): (kept: seq<string>)
    ensures forall i :: 0 <= i < |kept| ==> !IsBlank(kept[i])
  {
    if values == [] then []
    else
      var last := values[|values| - 1];
      NonBlank(values[..|values| - 1]) + (if IsBlank(last) then [] else [last])
  }

  /** Every value followed by "/". */
  function Terminated(values: seq<string>): string {
    if values == [] then "" else Terminated(values[..|values| - 1]) + values[|values| - 1] + "/"
  }

  /** Reference definition: the root, then every non-blank segment with its "/", in order. */
  lemma BaseDirIsFilteredPath(hutch: string, cycle: string, institution: string, runNumber: string)
    ensures BaseDir(hutch, cycle, institution, runNumber)
         == DataRoot + Terminated(NonBlank([hutch, cycle, institution, runNumber]))
  {
    var x, y, z, w := Segment(hutch), Segment(cycle), Segment(institution), Segment(runNumber);
    var p1 := [hutch];
    var p2 := p1 + [cycle];
    var p3 := p2 + [institution];
    var p4 := p3 + [runNumber];
    SegmentTerminated([], hutch);
    assert [] + [hutch] == p1;
    SegmentTerminated(p1, cycle);
    SegmentTerminated(p2, institution);
    SegmentTerminated(p3, runNumber);
    assert Terminated(NonBlank(p4)) == x + y + z + w;
    assert p4 == [hutch, cycle, institution, runNumber];
    Reassociate(DataRoot, x, y, z, w);
  }

  lemma Reassociate(a: string, x: string, y: string, z: string, w: string)
    ensures a + (x + y + z + w) == a + x + y + z + w
  {
  }

  /** One more value: the filtered path grows by that value's segment. */
  lemma SegmentTerminated(init: seq<string>, v: string)
    ensures Terminated(NonBlank(init + [v])) == Terminated(NonBlank(init)) + Segment(v)
  {
    assert (init + [v])[..|init|] == init;
    var kept := NonBlank(init);
    if !IsBlank(v) {
      assert (kept + [v])[..|kept|] == kept;
    } else {
      assert kept + [] == kept;
    }
  }

  /** A segment keeps a trailing "/" and a leading root in place. */
  lemma SegmentKeepsShape(s: string, v: string)
    requires |s| >= |DataRoot| && s[..|DataRoot|] == DataRoot && s[|s| - 1] == '/'
    ensures |s + Segment(v)| >= |DataRoot| && (s + Segment(v))[..|DataRoot|] == DataRoot
    ensures (s + Segment(v))[|s + Segment(v)| - 1] == '/'
  {
    assert (s + Segment(v))[..|DataRoot|] == s[..|DataRoot|];
  }

  /** The base directory always starts with `C:/Data/` and ends with "/". */
  lemma BaseDirShape(hutch: string, cycle: string, institution: string, runNumber: string)
    ensures |BaseDir(hutch, cycle, institution, runNumber)| >= |DataRoot|
    ensures BaseDir(hutch, cycle, institution, runNumber)[..|DataRoot|] == DataRoot
    ensures BaseDir(hutch, cycle, institution, runNumber)[|BaseDir(hutch, cycle, institution, runNumber)| - 1] == '/'
  {
    assert DataRoot[..|DataRoot|] == DataRoot;
    SegmentKeepsShape(DataRoot, hutch);
    SegmentKeepsShape(DataRoot + Segment(hutch), cycle);
    SegmentKeepsShape(DataRoot + Segment(hutch) + Segment(cycle), institution);
    SegmentKeepsShape(DataRoot + Segment(hutch) + Segment(cycle) + Segment(institution), runNumber);
  }

  /** With every field blank the base directory is exactly the root. */
  lemma AllBlankIsRoot(hutch: string, cycle: string, institution: string, runNumber: string)
    requires IsBlank(hutch) && IsBlank(cycle) && IsBlank(institution) && IsBlank(runNumber)
    ensures BaseDir(hutch, cycle, institution, runNumber) == DataRoot
  {
  }

  /** The setup controller: the model it edits, the base directory, the path label and the directories announced on `base_dir_changed`. */
  class SetupController {
    const model: SetupModel
    var basedir: string
    var pathLabel: string
    var announced: seq<string>

    constructor (model: SetupModel)
      ensures this.model == model
      ensures basedir == BaseDir(model.hutch, model.cycle, model.institution, model.runNumber)
      ensures pathLabel == basedir && announced == [basedir]
    {
      this.model := model;
      var dir := BaseDir(model.hutch, model.cycle, model.institution, model.runNumber);
      basedir, pathLabel, announced := dir, dir, [dir];
    }

    /** `_update_basedir`: recompute the directory, announce it and show it. */
    method UpdateBaseDir()
      modifies this
      ensures basedir == BaseDir(model.hutch, model.cycle, model.institution, model.runNumber)
      ensures pathLabel == basedir && announced == old(announced) + [basedir]
    {
      var hutch := "";
      if !IsBlank(model.hutch) {
        hutch := model.hutch + "/";
      }
      var cycle := "";
      if !IsBlank(model.cycle) {
        cycle := model.cycle + "/";
      }
      var institution := "";
      if !IsBlank(model.institution) {
        institution := model.institution + "/";
      }
      var runNumber := "";
      if !IsBlank(model.runNumber) {
        runNumber := model.runNumber + "/";
      }
      basedir := DataRoot + hutch + cycle + institution + runNumber;
      announced := announced + [basedir];
      pathLabel := basedir;
    }

    /** `_txt_mso_text_changed`: only the MSO address changes. */
    method MsoTextChanged(text: string)
      modifies model
      ensures model.Values() == old(model.Values()).(mso := text)
    {
      model.mso := text;
    }

    /** `_txt_afg_text_changed`: only the AFG address changes. */
    method AfgTextChanged(text: string)
      modifies model
      ensures model.Values() == old(model.Values()).(afg := text)
    {
      model.afg := text;
    }

    /** `_txt_hutch_text_changed`: store the hutch, then recompute the directory. */
    method HutchTextChanged(text: string)
      modifies this, model
      ensures model.Values() == old(model.Values()).(hutch := text)
      ensures basedir == BaseDir(text, model.cycle, model.institution, model.runNumber)
      ensures pathLabel == basedir && announced == old(announced) + [basedir]
    {
      model.hutch := text;
      UpdateBaseDir();
    }

    /** `_txt_cycle_text_changed`: store the cycle, then recompute the directory. */
    method CycleTextChanged(text: string)
      modifies this, model
      ensures model.Values() == old(model.Values()).(cycle := text)
      ensures basedir == BaseDir(model.hutch, text, model.institution, model.runNumber)
      ensures pathLabel == basedir && announced == old(announced) + [basedir]
    {
      model.cycle := text;
      UpdateBaseDir();
    }

    /** `_txt_institution_text_changed`: store the institution, then recompute the directory. */
    method InstitutionTextChanged(text: string)
      modifies this, model
      ensures model.Values() == old(model.Values()).(institution := text)
      ensures basedir == BaseDir(model.hutch, model.cycle, text, model.runNumber)
      ensures pathLabel == basedir && announced == old(announced) + [basedir]
    {
      model.institution := text;
      UpdateBaseDir();
    }

    /** `_txt_run_number_text_changed`: store the run number, then recompute the directory. */
    method RunNumberTextChanged(text: string)
      modifies this, model
      ensures model.Values() == old(model.Values()).(runNumber := text)
      ensures basedir == BaseDir(model.hutch, model.cycle, model.institution, text)
      ensures pathLabel == basedir && announced == old(announced) + [basedir]
    {
      model.runNumber := text;
      UpdateBaseDir();
    }

    /** `_spin_vpp_value_changed`: only the voltage changes. */
    method VppValueChanged(value: real)
      modifies model
      ensures model.Values() == old(model.Values()).(vpp := value)
    {
      model.vpp := value;
    }
  }
}
