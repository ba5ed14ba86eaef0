/** The clinical patient record: range validation with the BMI fill-in, the
    demographic, FISH-risk and staging classifiers, and the per-group export of
    analysis variables. */
module PatientModel {
  import opened Wrappers

  /** A column value that is not None: a float column, a boolean column or a
      string column. */
  datatype Val = Num(x: real) | Flag(b: bool) | Str(s: string)

  /** Python truthiness of a column value; None (an absent column) is false. */
  predicate Truthy(v: Option<Val>) {
    v.Some? && match v.value
               case Num(x) => x != 0.0
               case Flag(b) => b
               case Str(s) => s != ""
  }

  const HighRiskMarkers: seq<string> := ["del_17p", "t_4_14", "t_14_16", "t_14_20", "gain_1q"]
  const IntermediateRiskMarkers: seq<string> := ["del_13q", "monosomy_13", "t_11_14"]

  /** The survival columns `get_analysis_variables` reads before the groups. */
  const SurvivalColumns: seq<string> := ["duration_pfs", "pfs_status", "duration_survival", "death_status"]
  /** The same list without the undeclared `duration_survival`, which reads as absent. */
  const DeclaredSurvivalColumns: seq<string> := ["duration_pfs", "pfs_status", "death_status"]

  const Demographics: seq<string> := ["age", "gender", "race", "ethnicity", "bmi", "smoking_status"]
  const DiseaseCharacteristics: seq<string> :=
    ["igg", "iga", "biclonal", "lightchain", "igh_rearrangement", "iss", "riss", "imwg_hr", "functional_hr"]
  const FishIndicators: seq<string> :=
    ["monosomy_3", "gain_3", "gain_5", "gain_7", "monosomy_9", "gain_9", "monosomy_11", "gain_11",
     "monosomy_13", "gain_15", "monosomy_17", "gain_19", "gain_21", "del_13q", "t_11_14", "t_4_14",
     "t_14_16", "t_14_20", "gain_1q", "del_1p32", "del_17p", "abnorm_6q21", "t_12_22"]
  const LaboratoryValues: seq<string> :=
    ["beta2microglobulin", "creatinine", "albumin", "ldh", "hemoglobin", "platelet_count",
     "neutrophil_count", "lymphocyte_count"]

  const DefaultGroups: seq<string> := ["demographics", "disease_characteristics", "fish_indicators", "laboratory_values"]

  /** The columns of one variable group; an unknown group name has none. */
  function GroupColumns(group: string): seq<string> {
    if group == "demographics" then Demographics
    else if group == "disease_characteristics" then DiseaseCharacteristics
    else if group == "fish_indicators" then FishIndicators
    else if group == "laboratory_values" then LaboratoryValues
    else []
  }

  /** The columns the model declares. `duration_survival` is not one of them:
      its declaration sits inside a comment, so the mapped class has no such
      attribute. */
  predicate Declared(name: string) {
    || name in ["patient_id", "duration_pfs", "pfs_status", "death_status", "height_m", "weight_kg"]
    || name in Demographics || name in DiseaseCharacteristics || name in FishIndicators || name in LaboratoryValues
  }

  /** `not variable_groups`: None and [] both select the four default groups. */
  function RequestedGroups(groups: Option<seq<string>>): (r: seq<string>)
    ensures groups.None? || groups.value == [] ==> r == DefaultGroups
    ensures groups.Some? && groups.value != [] ==> r == groups.value
  {
    if groups.None? || groups.value == [] then DefaultGroups else groups.value
  }

  /** The column lists `get_analysis_variables` works from: the survival
      columns it always reads, then the columns of each of the four groups. */
  datatype GroupTable = GroupTable(survival: seq<string>, demographics: seq<string>, disease: seq<string>,
                                   fish: seq<string>, laboratory: seq<string>)

  /** The method's own lists, with `duration_survival` left out of the
      survival columns because it reads as absent. */
  const VariableGroups: GroupTable :=
    GroupTable(DeclaredSurvivalColumns, Demographics, DiseaseCharacteristics, FishIndicators, LaboratoryValues)

  /** The group columns a request selects: those of each known group name the
      request holds (an unknown name selects nothing). */
  predicate Selected(t: GroupTable, groups: Option<seq<string>>, c: string) {
    var requested := RequestedGroups(groups);
    || ("demographics" in requested && c in t.demographics)
    || ("disease_characteristics" in requested && c in t.disease)
    || ("fish_indicators" in requested && c in t.fish)
    || ("laboratory_values" in requested && c in t.laboratory)
  }

  /** The first failed range check of `validate_data`, in its order. */
  function RangeError(age: Option<real>, creatinine: Option<real>, albumin: Option<real>,
                      beta2: Option<real>): (r: Option<string>)
    ensures r.None? <==> (age.Some? ==> 0.0 <= age.value <= 120.0)
                         && (creatinine.Some? ==> 0.1 <= creatinine.value <= 20.0)
                         && (albumin.Some? ==> 1.0 <= albumin.value <= 6.0)
                         && (beta2.Some? ==> 0.5 <= beta2.value <= 50.0)
  {
    if age.Some? && (age.value < 0.0 || age.value > 120.0) then Some("Age must be between 0 and 120")
    else if creatinine.Some? && (creatinine.value < 0.1 || creatinine.value > 20.0) then Some("Creatinine value out of valid range")
    else if albumin.Some? && (albumin.value < 1.0 || albumin.value > 6.0) then Some("Albumin value out of valid range")
    else if beta2.Some? && (beta2.value < 0.5 || beta2.value > 50.0) then Some("Beta-2 microglobulin value out of valid range")
    else None
  }

  function AgeGroup(age: real): (r: string)
    ensures r in {"age_under_65", "age_65_75", "age_over_75"}
  {
    if age < 65.0 then "age_under_65" else if age <= 75.0 then "age_65_75" else "age_over_75"
  }

  function BmiGroup(bmi: real): (r: string)
    ensures r in {"underweight", "normal_weight", "overweight", "obese"}
  {
    if bmi < 18.5 then "underweight" else if bmi < 25.0 then "normal_weight"
    else if bmi < 30.0 then "overweight" else "obese"
  }

  /** `any(...)` over nullable boolean markers: some marker is True. */
  function AnyTrue(flags: seq<Option<Val>>): (r: bool)
    ensures r <==> exists k :: 0 <= k < |flags| && Truthy(flags[k])
  {
    if flags == [] then false
    else
      assert forall k :: 0 < k < |flags| ==> flags[k] == flags[1..][k - 1];
      Truthy(flags[0]) || AnyTrue(flags[1..])
  }

  /** The non-None columns of a patient row, by name. */
  type Columns = map<string, Val>

  function Get(cols: Columns, name: string): (r: Option<Val>)
    ensures r.Some? <==> name in cols
    ensures r.Some? ==> r.value == cols[name]
  {
    if name in cols then Some(cols[name]) else None
  }

  /** A float column read as a number; a value of another kind reads as None. */
  function Real(cols: Columns, name: string): (r: Option<real>)
    ensures r.Some? <==> name in cols && cols[name].Num?
    ensures r.Some? ==> cols[name] == Num(r.value)
  {
    if name in cols && cols[name].Num? then Some(cols[name].x) else None
  }

  /** A string column's text; a value of another kind reads as None. */
  function Text(cols: Columns, name: string): (r: Option<string>)
    ensures r.Some? <==> name in cols && cols[name].Str?
    ensures r.Some? ==> cols[name] == Str(r.value)
  {
    if name in cols && cols[name].Str? then Some(cols[name].s) else None
  }

  /** Truthiness of a float column: set and non-zero. */
  predicate NonZero(cols: Columns, name: string) {
    Real(cols, name).Some? && Real(cols, name).value != 0.0
  }

  /** `self.height_m and self.weight_kg and not self.bmi`. */
  predicate BmiFillApplies(cols: Columns) {
    NonZero(cols, "height_m") && NonZero(cols, "weight_kg") && !NonZero(cols, "bmi")
  }

  /** The BMI fill-in: when it applies, bmi becomes weight / height²; no other
      column ever changes. */
  function FillBmi(cols: Columns): (r: Columns)
    ensures BmiFillApplies(cols) ==> (r.Keys == cols.Keys + {"bmi"}
      && r["bmi"] == Num(Real(cols, "weight_kg").value / (Real(cols, "height_m").value * Real(cols, "height_m").value)))
    ensures !BmiFillApplies(cols) ==> r == cols
    ensures forall c :: c in cols && c != "bmi" ==> c in r && r[c] == cols[c]
  {
    if BmiFillApplies(cols) then
      cols["bmi" := Num(Real(cols, "weight_kg").value / (Real(cols, "height_m").value * Real(cols, "height_m").value))]
    else cols
  }

  predicate AgeOutOfRange(cols: Columns) {
    Real(cols, "age").Some? && (Real(cols, "age").value < 0.0 || Real(cols, "age").value > 120.0)
  }

  /** The error `validate_data` raises on a row, if any. */
  function ValidationError(cols: Columns): (r: Option<string>)
    ensures AgeOutOfRange(cols) <==> r == Some("Age must be between 0 and 120")
  {
    RangeError(Real(cols, "age"), Real(cols, "creatinine"), Real(cols, "albumin"), Real(cols, "beta2microglobulin"))
  }

  /** The BMI fill-in changes no laboratory value, so the laboratory checks see
      the same values before and after it. */
  lemma FillKeepsLabValues(cols: Columns)
    ensures ValidationError(FillBmi(cols)) == ValidationError(cols)
  {
    assert Real(FillBmi(cols), "creatinine") == Real(cols, "creatinine");
    assert Real(FillBmi(cols), "albumin") == Real(cols, "albumin");
    assert Real(FillBmi(cols), "beta2microglobulin") == Real(cols, "beta2microglobulin");
    assert Real(FillBmi(cols), "age") == Real(cols, "age");
  }

  /** The values of `names`, None where the column is None. */
  function Read(cols: Columns, names: seq<string>): (r: map<string, Option<Val>>)
    ensures forall c :: c in r <==> c in names
    ensures forall c :: c in r ==> r[c] == Get(cols, c)
  {
    map c | c in names :: Get(cols, c)
  }

  /** Attribute access: an undeclared name raises AttributeError (None). */
  function Attr(cols: Columns, name: string): (r: Option<Option<Val>>)
    ensures r.Some? <==> Declared(name)
  {
    if Declared(name) then Some(Get(cols, name)) else None
  }

  /** The survival columns read as attributes, failing at the first undeclared one. */
  function ReadAttrs(cols: Columns, names: seq<string>): (r: Option<map<string, Option<Val>>>)
    ensures r.None? <==> exists k :: 0 <= k < |names| && !Declared(names[k])
  {
    if names == [] then Some(map[])
    else
      var first := Attr(cols, names[0]);
      var rest := ReadAttrs(cols, names[1..]);
      assert forall k :: 0 < k < |names| ==> names[k] == names[1..][k - 1];
      if first.None? || rest.None? then None else Some(rest.value[names[0] := first.value])
  }

  /** The dictionary `get_analysis_variables` builds before dropping None
      values, with `duration_survival` read as absent: patient_id and the
      survival columns, then one update per requested group in a fixed order. */
  function Collected(t: GroupTable, patientId: string, cols: Columns, groups: Option<seq<string>>): map<string, Option<Val>> {
    var requested := RequestedGroups(groups);
    var d0 := map["patient_id" := Some(Str(patientId))] + Read(cols, t.survival);
    var d1 := Update(d0, requested, "demographics", cols, t.demographics);
    var d2 := Update(d1, requested, "disease_characteristics", cols, t.disease);
    var d3 := Update(d2, requested, "fish_indicators", cols, t.fish);
    Update(d3, requested, "laboratory_values", cols, t.laboratory)
  }

  /** `if group in variable_groups: data.update(...)`. */
  function Update(data: map<string, Option<Val>>, requested: seq<string>, group: string, cols: Columns,
                  names: seq<string>): (r: map<string, Option<Val>>)
    ensures forall c :: c in r <==> c in data || (group in requested && c in names)
    ensures forall c :: c in r ==> r[c] == if group in requested && c in names then Get(cols, c) else data[c]
  {
    if group in requested then data + Read(cols, names) else data
  }

  /** The exported analysis variables: the collected entries that are not None. */
  function Variables(t: GroupTable, patientId: string, cols: Columns, groups: Option<seq<string>>): map<string, Val> {
    var data := Collected(t, patientId, cols, groups);
    map c | c in data && data[c].Some? :: data[c].value
  }

  class Patient {
    var patientId: string
    /** The columns that are not None, by name. */
    var columns: Columns

    /** The SQLAlchemy base initialiser: stores the keyword arguments. */
    constructor (patientId: string, columns: Columns)
      ensures this.patientId == patientId && this.columns == columns
    {
      this.patientId := patientId;
      this.columns := columns;
    }

    /** `validate_data`: an out-of-range age raises before anything changes;
        otherwise bmi is filled in and then the laboratory ranges are checked,
        so a laboratory error leaves the filled bmi behind. None is success. */
    method ValidateData() returns (err: Option<string>)
      modifies this
      ensures err == ValidationError(old(columns))
      ensures patientId == old(patientId)
      ensures columns == (if AgeOutOfRange(old(columns)) then old(columns) else FillBmi(old(columns)))
    {
      var age := Real(columns, "age");
      if age.Some? && (age.value < 0.0 || age.value > 120.0) {
        return Some("Age must be between 0 and 120");
      }
      FillKeepsLabValues(columns);
      columns := FillBmi(columns);
      var creatinine := Real(columns, "creatinine");
      if creatinine.Some? && (creatinine.value < 0.1 || creatinine.value > 20.0) {
        return Some("Creatinine value out of valid range");
      }
      var albumin := Real(columns, "albumin");
      if albumin.Some? && (albumin.value < 1.0 || albumin.value > 6.0) {
        return Some("Albumin value out of valid range");
      }
      var beta2 := Real(columns, "beta2microglobulin");
      if beta2.Some? && (beta2.value < 0.5 || beta2.value > 50.0) {
        return Some("Beta-2 microglobulin value out of valid range");
      }
      return None;
    }

    /** `get_demographics_group`: at most one age group, then at most one BMI group. */
    method DemographicsGroup() returns (groups: seq<string>)
      ensures |groups| == (if Real(columns, "age").Some? then 1 else 0) + (if Real(columns, "bmi").Some? then 1 else 0)
      ensures Real(columns, "age").Some? ==> groups[0] == AgeGroup(Real(columns, "age").value)
      ensures Real(columns, "bmi").Some? ==> groups[|groups| - 1] == BmiGroup(Real(columns, "bmi").value)
    {
      groups := [];
      var age := Real(columns, "age");
      if age.Some? {
        groups := groups + [AgeGroup(age.value)];
      }
      var bmi := Real(columns, "bmi");
      if bmi.Some? {
        groups := groups + [BmiGroup(bmi.value)];
      }
    }

    function Markers(names: seq<string>): (r: seq<Option<Val>>)
      reads this
      ensures |r| == |names| && forall k :: 0 <= k < |names| ==> r[k] == Get(columns, names[k])
    {
      seq(|names|, k requires 0 <= k < |names| reads this => Get(columns, names[k]))
    }

    /** `get_fish_risk_group`: any high-risk marker wins, then any intermediate one. */
    function FishRiskGroup(): (r: string)
      reads this
      ensures r == "high_risk" <==> exists k :: 0 <= k < |HighRiskMarkers| && Truthy(Get(columns, HighRiskMarkers[k]))
      ensures r == "intermediate_risk" <==>
                (forall k :: 0 <= k < |HighRiskMarkers| ==> !Truthy(Get(columns, HighRiskMarkers[k])))
                && exists k :: 0 <= k < |IntermediateRiskMarkers| && Truthy(Get(columns, IntermediateRiskMarkers[k]))
      ensures r in {"high_risk", "intermediate_risk", "standard_risk"}
    {
      var high := Markers(HighRiskMarkers);
      var intermediate := Markers(IntermediateRiskMarkers);
      if AnyTrue(high) then "high_risk"
      else if AnyTrue(intermediate) then "intermediate_risk"
      else "standard_risk"
    }

    /** `get_disease_stage_group`: a non-empty R-ISS wins over ISS, and the
        stage can be read back from the group name. */
    function DiseaseStageGroup(): (r: string)
      reads this
      ensures Text(columns, "riss").Some? && Text(columns, "riss").value != ""
              ==> r == "riss_" + Text(columns, "riss").value
      ensures (Text(columns, "riss").None? || Text(columns, "riss").value == "")
              && Text(columns, "iss").Some? && Text(columns, "iss").value != ""
              ==> r == "iss_" + Text(columns, "iss").value
      ensures r == "unknown_stage" <==>
                (Text(columns, "riss").None? || Text(columns, "riss").value == "")
                && (Text(columns, "iss").None? || Text(columns, "iss").value == "")
    {
      var riss := Text(columns, "riss");
      var iss := Text(columns, "iss");
      if riss.Some? && riss.value != "" then
        assert ("riss_" + riss.value)[0] == 'r';
        "riss_" + riss.value
      else if iss.Some? && iss.value != "" then
        assert ("iss_" + iss.value)[0] == 'i';
        "iss_" + iss.value
      else "unknown_stage"
    }

    /** `has_complete_survival_data`. */
    predicate HasCompleteSurvivalData(): (r: bool)
      reads this
      ensures r <==> "duration_pfs" in columns && columns["duration_pfs"].Num? && columns["duration_pfs"].x > 0.0
                     && "pfs_status" in columns
    {
      Real(columns, "duration_pfs").Some? && Get(columns, "pfs_status").Some? && Real(columns, "duration_pfs").value > 0.0
    }

    /** `get_analysis_variables` with the undeclared column read as absent:
        the dictionary grows by one update per requested group, and the None
        values are dropped at the end. */
    method AnalysisVariables(groups: Option<seq<string>>) returns (r: map<string, Val>)
      ensures r == Variables(VariableGroups, patientId, columns, groups)
    {
      var data := CollectVariables(VariableGroups, groups);
      r := map c | c in data && data[c].Some? :: data[c].value;
    }

    /** The dictionary before the None values are dropped, built from the
        column lists `t`: patient_id and the survival columns, then one update
        per requested group. */
    method CollectVariables(t: GroupTable, groups: Option<seq<string>>) returns (data: map<string, Option<Val>>)
      ensures data == Collected(t, patientId, columns, groups)
    {
      var requested := RequestedGroups(groups);
      data := map["patient_id" := Some(Str(patientId))];
      data := data + Read(columns, t.survival);
      ghost var d := data;
      if "demographics" in requested {
        data := data + Read(columns, t.demographics);
      }
      assert data == Update(d, requested, "demographics", columns, t.demographics);
      d := data;
      if "disease_characteristics" in requested {
        data := data + Read(columns, t.disease);
      }
      assert data == Update(d, requested, "disease_characteristics", columns, t.disease);
      d := data;
      if "fish_indicators" in requested {
        data := data + Read(columns, t.fish);
      }
      assert data == Update(d, requested, "fish_indicators", columns, t.fish);
      d := data;
      if "laboratory_values" in requested {
        data := data + Read(columns, t.laboratory);
      }
    }

    /** `get_analysis_variables` as written: the read of `duration_survival`
        raises AttributeError for every patient and every request, so the
        method never returns a dictionary (None is the exception). */
    function AnalysisVariablesAsWritten(groups: Option<seq<string>>): (r: Option<map<string, Val>>)
      reads this
      ensures r.None? <==> exists k :: 0 <= k < |SurvivalColumns| && !Declared(SurvivalColumns[k])
      ensures r.Some? ==> r.value == Variables(VariableGroups, patientId, columns, groups)
    {
      var survival := ReadAttrs(columns, SurvivalColumns);
      if survival.None? then None else Some(Variables(VariableGroups, patientId, columns, groups))
    }
  }

  /** The age groups never go down as the age goes up. */
  lemma AgeGroupMonotone(a: real, b: real)
    requires a <= b
    ensures AgeRank(AgeGroup(a)) <= AgeRank(AgeGroup(b))
  {
  }

  /** The BMI groups never go down as the BMI goes up. */
  lemma BmiGroupMonotone(a: real, b: real)
    requires a <= b
    ensures BmiRank(BmiGroup(a)) <= BmiRank(BmiGroup(b))
  {
  }

  function AgeRank(g: string): nat {
    if g == "age_under_65" then 0 else if g == "age_65_75" then 1 else 2
  }

  function BmiRank(g: string): nat {
    if g == "underweight" then 0 else if g == "normal_weight" then 1 else if g == "overweight" then 2 else 3
  }

  /** `has_complete_survival_data` holds exactly when the PFS duration is a
      positive number and the PFS status is present. */
  lemma CompleteSurvivalIff(p: Patient)
    ensures p.HasCompleteSurvivalData() <==>
              "duration_pfs" in p.columns && p.columns["duration_pfs"].Num? && p.columns["duration_pfs"].x > 0.0
              && "pfs_status" in p.columns
  {
  }

  /** The export holds patient_id, the non-None survival columns and the
      non-None columns of the requested groups, and nothing else; each value is
      the column's own. */
  lemma VariablesSelectOnlyRequested(t: GroupTable, patientId: string, cols: Columns, groups: Option<seq<string>>, c: string)
    requires NoPatientId(t)
    ensures c in Variables(t, patientId, cols, groups) <==>
              c == "patient_id" || (c in cols && (c in t.survival || Selected(t, groups, c)))
    ensures c in Variables(t, patientId, cols, groups) && c != "patient_id" ==> Variables(t, patientId, cols, groups)[c] == cols[c]
    ensures "patient_id" in Variables(t, patientId, cols, groups)
            && Variables(t, patientId, cols, groups)["patient_id"] == Str(patientId)
  {
    var data := Collected(t, patientId, cols, groups);
    assert c in data <==> c == "patient_id" || c in t.survival || Selected(t, groups, c);
    assert "patient_id" in data && data["patient_id"] == Some(Str(patientId));
    assert c in data && c != "patient_id" ==> data[c] == Get(cols, c);
  }

  /** No column list of the table holds `patient_id`. */
  predicate NoPatientId(t: GroupTable) {
    && "patient_id" !in t.survival && "patient_id" !in t.demographics && "patient_id" !in t.disease
    && "patient_id" !in t.fish && "patient_id" !in t.laboratory
  }

  /** With no request (or an empty one) every group column that is not None is exported. */
  lemma DefaultExportsAllGroups(t: GroupTable, patientId: string, cols: Columns, c: string)
    requires NoPatientId(t) && c in cols
    requires c in t.demographics || c in t.disease || c in t.fish || c in t.laboratory
    ensures c in Variables(t, patientId, cols, None) && Variables(t, patientId, cols, None)[c] == cols[c]
  {
    VariablesSelectOnlyRequested(t, patientId, cols, None, c);
  }

  /** The method's own lists never hold `patient_id`, so the lemmas above
      apply to it. */
  lemma VariableGroupsNoPatientId()
    ensures NoPatientId(VariableGroups)
  {
    assert "patient_id" !in DeclaredSurvivalColumns;
    assert "patient_id" !in Demographics;
    assert "patient_id" !in DiseaseCharacteristics;
    assert "patient_id" !in FishIndicators;
    assert "patient_id" !in LaboratoryValues;
  }

  lemma DurationSurvivalUndeclared()
    ensures !Declared("duration_survival")
  {
  }

  /** As written, `get_analysis_variables` raises for every patient and request. */
  lemma AnalysisVariablesAlwaysRaises(p: Patient, groups: Option<seq<string>>)
    ensures p.AnalysisVariablesAsWritten(groups).None?
  {
    DurationSurvivalUndeclared();
    assert SurvivalColumns[2] == "duration_survival";
  }
}
