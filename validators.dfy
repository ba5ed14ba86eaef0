/** The error-list validators: each check appends at most one message and an
    empty list means the input is valid. */
module Validators {
  import opened Wrappers
  import opened Text
  import opened DataMapping

  /** The conversions the validators call: `int(v)`, `float(v)` and the ISO
      date parser; None is the ValueError/TypeError they catch. */
  datatype Conversions = Conversions(toInt: Value -> Option<int>, toReal: Value -> Option<real>,
                                     isIsoDate: string -> bool)

  /** Python truthiness of a looked-up value: absent, None, "" and 0 are false. */
  predicate Truthy(v: Option<Value>) {
    v.Some? && match v.value
               case Null => false
               case Text(s) => s != ""
               case Number(r) => r != 0.0
  }

  function Lookup(data: map<string, Value>, key: string): Option<Value> {
    if key in data then Some(data[key]) else None
  }

  /** `key in data and data[key] is not None`. */
  predicate Given(data: map<string, Value>, key: string) {
    key in data && data[key] != Null
  }

  function Check(failed: bool, message: string): (r: seq<string>)
    ensures r == [] <==> !failed
  {
    if failed then [message] else []
  }

  // ---------------------------------------------------------------------------
  // validate_patient_data
  // ---------------------------------------------------------------------------

  const SexValues: seq<string> := ["M", "F", "Male", "Female", "male", "female", "Other"]

  function PatientIdErrors(data: map<string, Value>): (r: seq<string>)
    ensures |r| <= 1
    ensures r == [] <==> "patient_id" in data && data["patient_id"].Text? && Trim(data["patient_id"].s) != ""
  {
    var id := Lookup(data, "patient_id");
    if !Truthy(id) then ["Patient ID is required"]
    else if !id.value.Text? || Trim(id.value.s) == "" then ["Patient ID must be a non-empty string"]
    else []
  }

  predicate AgeValid(data: map<string, Value>, conv: Conversions) {
    Given(data, "age") ==> conv.toInt(data["age"]).Some? && 0 <= conv.toInt(data["age"]).value <= 120
  }

  function AgeErrors(data: map<string, Value>, conv: Conversions): (r: seq<string>)
    ensures |r| <= 1
    ensures r == [] <==> AgeValid(data, conv)
  {
    if !Given(data, "age") then []
    else
      var age := conv.toInt(data["age"]);
      if age.None? then ["Age must be a valid integer"]
      else Check(age.value < 0 || age.value > 120, "Age must be between 0 and 120")
  }

  predicate SexValid(data: map<string, Value>) {
    Given(data, "sex") ==> data["sex"].Text? && data["sex"].s in SexValues
  }

  function SexErrors(data: map<string, Value>): (r: seq<string>)
    ensures |r| <= 1
    ensures r == [] <==> SexValid(data)
  {
    if !Given(data, "sex") then []
    else Check(!(data["sex"].Text? && data["sex"].s in SexValues), "Sex must be one of: M, F, Male, Female, Other")
  }

  predicate StatusValid(data: map<string, Value>, conv: Conversions) {
    Given(data, "survival_status") ==> conv.toInt(data["survival_status"]) in {Some(0), Some(1)}
  }

  function StatusErrors(data: map<string, Value>, conv: Conversions): (r: seq<string>)
    ensures |r| <= 1
    ensures r == [] <==> StatusValid(data, conv)
  {
    if !Given(data, "survival_status") then []
    else
      var st := conv.toInt(data["survival_status"]);
      if st.None? then ["Survival status must be 0 or 1"]
      else Check(st.value != 0 && st.value != 1, "Survival status must be 0 (alive) or 1 (dead)")
  }

  predicate MonthsValid(data: map<string, Value>, conv: Conversions) {
    Given(data, "survival_months") ==>
      conv.toReal(data["survival_months"]).Some? && conv.toReal(data["survival_months"]).value >= 0.0
  }

  function MonthsErrors(data: map<string, Value>, conv: Conversions): (r: seq<string>)
    ensures |r| <= 1
    ensures r == [] <==> MonthsValid(data, conv)
  {
    if !Given(data, "survival_months") then []
    else
      var m := conv.toReal(data["survival_months"]);
      if m.None? then ["Survival months must be a valid number"]
      else Check(m.value < 0.0, "Survival months cannot be negative")
  }

  predicate DateValid(data: map<string, Value>, conv: Conversions) {
    Given(data, "diagnosis_date") && data["diagnosis_date"].Text? ==> conv.isIsoDate(data["diagnosis_date"].s)
  }

  function DateErrors(data: map<string, Value>, conv: Conversions): (r: seq<string>)
    ensures |r| <= 1
    ensures r == [] <==> DateValid(data, conv)
  {
    if Given(data, "diagnosis_date") && data["diagnosis_date"].Text? then
      Check(!conv.isIsoDate(data["diagnosis_date"].s), "Diagnosis date must be a valid ISO format date")
    else []
  }

  /** The messages of `validate_patient_data`: the checks in order. */
  function PatientErrors(data: map<string, Value>, conv: Conversions): seq<string> {
    PatientIdErrors(data) + AgeErrors(data, conv) + SexErrors(data) + StatusErrors(data, conv)
    + MonthsErrors(data, conv) + DateErrors(data, conv)
  }

  /** `validate_patient_data`: each check appends its message to the list. */
  method ValidatePatientData(data: map<string, Value>, conv: Conversions) returns (errors: seq<string>)
    ensures errors == PatientErrors(data, conv)
    ensures errors == [] <==> PatientValid(data, conv)
  {
    errors := CheckPatientId(data);
    var age := CheckAge(data, conv);
    errors := errors + age;
    var sex := CheckSex(data);
    errors := errors + sex;
    var status := CheckStatus(data, conv);
    errors := errors + status;
    var months := CheckMonths(data, conv);
    errors := errors + months;
    var date := CheckDate(data, conv);
    errors := errors + date;
    PatientErrorsIffInvalid(data, conv);
  }

  /** The id check: a falsy id, then a non-string or blank one. */
  method CheckPatientId(data: map<string, Value>) returns (errors: seq<string>)
    ensures errors == PatientIdErrors(data)
  {
    errors := [];
    var id := Lookup(data, "patient_id");
    if !Truthy(id) {
      errors := ["Patient ID is required"];
    } else if !id.value.Text? || Trim(id.value.s) == "" {
      errors := ["Patient ID must be a non-empty string"];
    }
  }

  /** The age check: `int(age)` fails, or lies outside 0..120. */
  method CheckAge(data: map<string, Value>, conv: Conversions) returns (errors: seq<string>)
    ensures errors == AgeErrors(data, conv)
  {
    errors := [];
    if Given(data, "age") {
      var n := conv.toInt(data["age"]);
      if n.None? {
        errors := ["Age must be a valid integer"];
      } else if n.value < 0 || n.value > 120 {
        errors := ["Age must be between 0 and 120"];
      }
    }
  }

  /** The sex check against the fixed list. */
  method CheckSex(data: map<string, Value>) returns (errors: seq<string>)
    ensures errors == SexErrors(data)
  {
    errors := [];
    if Given(data, "sex") && !(data["sex"].Text? && data["sex"].s in SexValues) {
      errors := ["Sex must be one of: M, F, Male, Female, Other"];
    }
  }

  /** The survival status check: `int(status)` fails, or is neither 0 nor 1. */
  method CheckStatus(data: map<string, Value>, conv: Conversions) returns (errors: seq<string>)
    ensures errors == StatusErrors(data, conv)
  {
    errors := [];
    if Given(data, "survival_status") {
      var st := conv.toInt(data["survival_status"]);
      if st.None? {
        errors := ["Survival status must be 0 or 1"];
      } else if st.value != 0 && st.value != 1 {
        errors := ["Survival status must be 0 (alive) or 1 (dead)"];
      }
    }
  }

  /** The survival months check: `float(months)` fails, or is negative. */
  method CheckMonths(data: map<string, Value>, conv: Conversions) returns (errors: seq<string>)
    ensures errors == MonthsErrors(data, conv)
  {
    errors := [];
    if Given(data, "survival_months") {
      var m := conv.toReal(data["survival_months"]);
      if m.None? {
        errors := ["Survival months must be a valid number"];
      } else if m.value < 0.0 {
        errors := ["Survival months cannot be negative"];
      }
    }
  }

  /** The diagnosis date check, on text values only. */
  method CheckDate(data: map<string, Value>, conv: Conversions) returns (errors: seq<string>)
    ensures errors == DateErrors(data, conv)
  {
    errors := [];
    if Given(data, "diagnosis_date") && data["diagnosis_date"].Text? && !conv.isIsoDate(data["diagnosis_date"].s) {
      errors := ["Diagnosis date must be a valid ISO format date"];
    }
  }

  /** What a valid patient row is, stated field by field. */
  predicate PatientValid(data: map<string, Value>, conv: Conversions) {
    && "patient_id" in data && data["patient_id"].Text? && Trim(data["patient_id"].s) != ""
    && AgeValid(data, conv) && SexValid(data) && StatusValid(data, conv) && MonthsValid(data, conv)
    && DateValid(data, conv)
  }

  /** No error exactly when the row is valid. */
  lemma PatientErrorsIffInvalid(data: map<string, Value>, conv: Conversions)
    ensures PatientErrors(data, conv) == [] <==> PatientValid(data, conv)
  {
  }

  /** A falsy, non-text or blank id gives exactly one id message, first. */
  lemma OneIdError(data: map<string, Value>, conv: Conversions)
    requires !("patient_id" in data && data["patient_id"].Text? && Trim(data["patient_id"].s) != "")
    ensures |PatientIdErrors(data)| == 1 && PatientErrors(data, conv)[0] == PatientIdErrors(data)[0]
  {
  }

  // ---------------------------------------------------------------------------
  // validate_taxonomy_data
  // ---------------------------------------------------------------------------

  const AbundanceFields: seq<string> := ["total_abundance", "max_abundance", "min_abundance", "mean_abundance"]

  /** The message for one abundance field, if any. */
  function AbundanceError(data: map<string, Value>, field: string, conv: Conversions): (r: seq<string>)
    ensures |r| <= 1
  {
    if !Given(data, field) then []
    else
      var v := conv.toReal(data[field]);
      if v.None? then [field + " must be a valid number"]
      else Check(v.value < 0.0, field + " cannot be negative")
  }

  function AbundanceErrors(data: map<string, Value>, fields: seq<string>, conv: Conversions): (r: seq<string>)
    ensures |r| <= |fields|
  {
    if fields == [] then []
    else AbundanceErrors(data, fields[..|fields| - 1], conv) + AbundanceError(data, fields[|fields| - 1], conv)
  }

  predicate Fraction(data: map<string, Value>, field: string, conv: Conversions) {
    Given(data, field) ==> conv.toReal(data[field]).Some? && 0.0 <= conv.toReal(data[field]).value <= 1.0
  }

  function FractionError(data: map<string, Value>, field: string, invalid: string, outOfRange: string, conv: Conversions): (r: seq<string>)
    ensures |r| <= 1
    ensures r == [] <==> Fraction(data, field, conv)
  {
    if !Given(data, field) then []
    else
      var v := conv.toReal(data[field]);
      if v.None? then [invalid] else Check(v.value < 0.0 || v.value > 1.0, outOfRange)
  }

  function FractionErrors(data: map<string, Value>, conv: Conversions): (r: seq<string>)
    ensures r == [] <==> Fraction(data, "prevalence", conv) && Fraction(data, "classification_confidence", conv)
  {
    FractionError(data, "prevalence", "Prevalence must be a valid number between 0 and 1",
                  "Prevalence must be between 0 and 1", conv)
    + FractionError(data, "classification_confidence", "Classification confidence must be a valid number",
                    "Classification confidence must be between 0 and 1", conv)
  }

  /** The loop over the abundance fields, one message at most per field. */
  method CheckAbundances(data: map<string, Value>, fields: seq<string>, conv: Conversions) returns (errors: seq<string>)
    ensures errors == AbundanceErrors(data, fields, conv)
  {
    errors := [];
    var i := 0;
    while i < |fields|
      invariant 0 <= i <= |fields|
      invariant errors == AbundanceErrors(data, fields[..i], conv)
    {
      assert fields[..i + 1][..i] == fields[..i];
      errors := errors + AbundanceError(data, fields[i], conv);
      i := i + 1;
    }
    assert fields[..i] == fields;
  }

  /** `validate_taxonomy_data`: the id check, the four abundance fields, then
      prevalence and confidence. */
  method ValidateTaxonomyData(data: map<string, Value>, conv: Conversions) returns (errors: seq<string>)
    ensures errors == TaxonomyErrors(data, conv)
  {
    errors := [];
    if !Truthy(Lookup(data, "taxonomy_id")) {
      errors := errors + ["Taxonomy ID is required"];
    }
    var abundance := CheckAbundances(data, AbundanceFields, conv);
    errors := errors + abundance + FractionErrors(data, conv);
  }

  function TaxonomyErrors(data: map<string, Value>, conv: Conversions): seq<string> {
    (if Truthy(Lookup(data, "taxonomy_id")) then [] else ["Taxonomy ID is required"])
    + AbundanceErrors(data, AbundanceFields, conv) + FractionErrors(data, conv)
  }

  /** No error exactly when the taxonomy row is valid. */
  lemma TaxonomyErrorsIffInvalid(data: map<string, Value>, conv: Conversions)
    ensures TaxonomyErrors(data, conv) == [] <==> TaxonomyValid(data, conv)
  {
    AbundanceErrorsIff(data, AbundanceFields, conv);
  }

  predicate NonNegative(data: map<string, Value>, field: string, conv: Conversions) {
    Given(data, field) ==> conv.toReal(data[field]).Some? && conv.toReal(data[field]).value >= 0.0
  }

  lemma {:induction false} AbundanceErrorsIff(data: map<string, Value>, fields: seq<string>, conv: Conversions)
    ensures AbundanceErrors(data, fields, conv) == [] <==> forall k :: 0 <= k < |fields| ==> NonNegative(data, fields[k], conv)
  {
    if fields != [] {
      AbundanceErrorsIff(data, fields[..|fields| - 1], conv);
      assert forall k :: 0 <= k < |fields| - 1 ==> fields[..|fields| - 1][k] == fields[k];
    }
  }

  /** A valid taxonomy row: an id, non-negative abundances, fractions in [0, 1]. */
  predicate TaxonomyValid(data: map<string, Value>, conv: Conversions) {
    && Truthy(Lookup(data, "taxonomy_id"))
    && (forall k :: 0 <= k < |AbundanceFields| ==> NonNegative(data, AbundanceFields[k], conv))
    && Fraction(data, "prevalence", conv) && Fraction(data, "classification_confidence", conv)
  }

  // ---------------------------------------------------------------------------
  // validate_analysis_config
  // ---------------------------------------------------------------------------

  const CorrelationMethods: seq<string> := ["pearson", "spearman", "kendall"]

  /** Alpha is absent, or converts to a number strictly between 0 and 1. */
  predicate AlphaOk(config: map<string, Value>, conv: Conversions) {
    "alpha" in config ==> conv.toReal(config["alpha"]).Some? && 0.0 < conv.toReal(config["alpha"]).value < 1.0
  }

  /** The penalizer is absent, or converts to a non-negative number. */
  predicate PenalizerOk(config: map<string, Value>, conv: Conversions) {
    "penalizer" in config ==> conv.toReal(config["penalizer"]).Some? && conv.toReal(config["penalizer"]).value >= 0.0
  }

  /** The Cox-regression checks: one message for a bad alpha, then one for a bad penalizer. */
  function CoxErrors(config: map<string, Value>, conv: Conversions): (r: seq<string>)
    ensures |r| == (if AlphaOk(config, conv) then 0 else 1) + (if PenalizerOk(config, conv) then 0 else 1)
    ensures r == [] <==> AlphaOk(config, conv) && PenalizerOk(config, conv)
  {
    var alpha :=
      if "alpha" !in config then []
      else
        var a := conv.toReal(config["alpha"]);
        if a.None? then ["Alpha must be a valid number"] else Check(a.value <= 0.0 || a.value >= 1.0, "Alpha must be between 0 and 1");
    var penalizer :=
      if "penalizer" !in config then []
      else
        var p := conv.toReal(config["penalizer"]);
        if p.None? then ["Penalizer must be a valid number"] else Check(p.value < 0.0, "Penalizer must be non-negative");
    alpha + penalizer
  }

  function SurvivalConfigErrors(config: map<string, Value>): (r: seq<string>)
    ensures |r| == (if Truthy(Lookup(config, "time_column")) then 0 else 1)
                   + (if Truthy(Lookup(config, "event_column")) then 0 else 1)
  {
    Check(!Truthy(Lookup(config, "time_column")), "Time column is required for survival analysis")
    + Check(!Truthy(Lookup(config, "event_column")), "Event column is required for survival analysis")
  }

  function CorrelationErrors(config: map<string, Value>): (r: seq<string>)
    ensures r == [] <==> "method" !in config || (config["method"].Text? && config["method"].s in CorrelationMethods)
  {
    Check("method" in config && !(config["method"].Text? && config["method"].s in CorrelationMethods),
          "Correlation method must be one of: " + Join(", ", CorrelationMethods))
  }

  /** `validate_analysis_config`: type-specific checks; other types have none. */
  function ValidateAnalysisConfig(analysisType: string, config: map<string, Value>, conv: Conversions): (r: seq<string>)
    ensures analysisType !in {"cox_regression", "survival", "correlation"} ==> r == []
    ensures analysisType == "cox_regression" ==> (r == [] <==> AlphaOk(config, conv) && PenalizerOk(config, conv))
    ensures analysisType == "survival" ==>
              (r == [] <==> Truthy(Lookup(config, "time_column")) && Truthy(Lookup(config, "event_column")))
    ensures analysisType == "correlation" ==>
              (r == [] <==> "method" !in config || (config["method"].Text? && config["method"].s in CorrelationMethods))
    ensures |r| <= 2
  {
    if analysisType == "cox_regression" then CoxErrors(config, conv)
    else if analysisType == "survival" then SurvivalConfigErrors(config)
    else if analysisType == "correlation" then CorrelationErrors(config)
    else []
  }

  // ---------------------------------------------------------------------------
  // validate_file_upload
  // ---------------------------------------------------------------------------

  /** `filename.rsplit('.', 1)[1]`: the text after the last dot. */
  function Extension(fileName: string): (r: string)
    requires '.' in fileName
    ensures '.' !in r
    ensures |r| < |fileName| && fileName[|fileName| - |r| - 1] == '.' && fileName[|fileName| - |r|..] == r
  {
    var i := LastIndexOfChar(fileName, '.').value;
    fileName[i + 1..]
  }

  /** `validate_file_upload`: `file` is None when no file object was sent, else its file name. */
  function ValidateFileUpload(file: Option<string>, allowed: seq<string>): (r: seq<string>)
    ensures file.None? ==> r == ["No file provided"]
    ensures file == Some("") ==> r == ["No file selected"]
    ensures |r| <= 1
    ensures file.Some? && file.value != "" ==>
              (r == [] <==> '.' in file.value && Lower(Extension(file.value)) in allowed)
  {
    if file.None? then ["No file provided"]
    else if file.value == "" then ["No file selected"]
    else if '.' !in file.value then ["File must have an extension"]
    else Check(Lower(Extension(file.value)) !in allowed, "File type not allowed. Allowed types: " + Join(", ", allowed))
  }

  /** The extension is read after the last dot and compared in lower case. */
  lemma UpperCaseExtensionAccepted(name: string)
    requires name == "Report.v2.CSV"
    ensures ValidateFileUpload(Some(name), ["csv", "xlsx"]) == []
  {
    assert LastIndexOfChar(name, '.') == Some(9) by {
      assert name[9] == '.' && forall k :: 9 < k < |name| ==> name[k] != '.';
    }
    assert name[10..] == "CSV";
    assert Lower("CSV") == "csv";
  }

  // ---------------------------------------------------------------------------
  // validate_password
  // ---------------------------------------------------------------------------

  predicate HasLower(s: string) {
    exists k :: 0 <= k < |s| && 'a' <= s[k] <= 'z'
  }

  predicate HasDigit(s: string) {
    exists k :: 0 <= k < |s| && '0' <= s[k] <= '9'
  }

  const Specials: string := "!@#$%^&*(),.?\":{}|<>"

  predicate HasSpecial(s: string) {
    exists k :: 0 <= k < |s| && s[k] in Specials
  }

  /** The five strength rules. */
  function PasswordRules(p: string): seq<(bool, string)> {
    [(|p| >= 8, "Password must be at least 8 characters long"),
     (HasUpper(p), "Password must contain at least one uppercase letter"),
     (HasLower(p), "Password must contain at least one lowercase letter"),
     (HasDigit(p), "Password must contain at least one digit"),
     (HasSpecial(p), "Password must contain at least one special character")]
  }

  function Failed(rules: seq<(bool, string)>): (r: seq<string>)
    ensures |r| <= |rules|
  {
    if rules == [] then []
    else Failed(rules[..|rules| - 1]) + (if rules[|rules| - 1].0 then [] else [rules[|rules| - 1].1])
  }

  function FailedCount(rules: seq<(bool, string)>): nat {
    if rules == [] then 0 else FailedCount(rules[..|rules| - 1]) + (if rules[|rules| - 1].0 then 0 else 1)
  }

  lemma {:induction false} FailedMatchesCount(rules: seq<(bool, string)>)
    ensures |Failed(rules)| == FailedCount(rules)
    ensures Failed(rules) == [] <==> forall k :: 0 <= k < |rules| ==> rules[k].0
  {
    if rules != [] {
      FailedMatchesCount(rules[..|rules| - 1]);
      assert forall k :: 0 <= k < |rules| - 1 ==> rules[..|rules| - 1][k] == rules[k];
    }
  }

  /** The messages of `validate_password`: a missing password gives one
      message; otherwise one message per failed rule, and none exactly when
      all five hold. */
  function PasswordErrors(password: Option<string>): (r: seq<string>)
    ensures password.None? || password.value == "" ==> r == ["Password is required"]
    ensures password.Some? && password.value != "" ==>
              |r| == FailedCount(PasswordRules(password.value))
              && (r == [] <==> |password.value| >= 8 && HasUpper(password.value) && HasLower(password.value)
                                && HasDigit(password.value) && HasSpecial(password.value))
  {
    if password.None? || password.value == "" then ["Password is required"]
    else
      var rules := PasswordRules(password.value);
      FailedMatchesCount(rules);
      assert (forall k :: 0 <= k < |rules| ==> rules[k].0) <==> rules[0].0 && rules[1].0 && rules[2].0 && rules[3].0 && rules[4].0;
      Failed(rules)
  }

  /** `validate_password`: an early return for a missing password, then one
      append per failed rule, in rule order. */
  method ValidatePassword(password: Option<string>) returns (errors: seq<string>)
    ensures errors == PasswordErrors(password)
  {
    if password.None? || password.value == "" {
      return ["Password is required"];
    }
    var p := password.value;
    ghost var rules := PasswordRules(p);
    errors := [];
    if |p| < 8 {
      errors := errors + ["Password must be at least 8 characters long"];
    }
    assert errors == Failed(rules[..1]) by {
      assert rules[..1][..0] == [];
    }
    if !HasUpper(p) {
      errors := errors + ["Password must contain at least one uppercase letter"];
    }
    assert errors == Failed(rules[..2]) by {
      assert rules[..2][..1] == rules[..1];
    }
    if !HasLower(p) {
      errors := errors + ["Password must contain at least one lowercase letter"];
    }
    assert errors == Failed(rules[..3]) by {
      assert rules[..3][..2] == rules[..2];
    }
    if !HasDigit(p) {
      errors := errors + ["Password must contain at least one digit"];
    }
    assert errors == Failed(rules[..4]) by {
      assert rules[..4][..3] == rules[..3];
    }
    if !HasSpecial(p) {
      errors := errors + ["Password must contain at least one special character"];
    }
    assert errors == Failed(rules) by {
      assert rules[..4] == rules[..|rules| - 1];
    }
  }

  // ---------------------------------------------------------------------------
  // sanitize_input
  // ---------------------------------------------------------------------------

  predicate Dangerous(c: char) {
    c == '<' || c == '>' || c == '"' || c == '\''
  }

  /** `re.sub(r'[<>"\']', '', s)`. */
  function RemoveDangerous(s: string): (r: string)
    ensures forall k :: 0 <= k < |r| ==> !Dangerous(r[k]) && r[k] in s
  {
    if s == [] then []
    else RemoveDangerous(s[..|s| - 1]) + (if Dangerous(s[|s| - 1]) then [] else [s[|s| - 1]])
  }

  lemma {:induction false} RemoveDangerousClean(s: string)
    requires forall k :: 0 <= k < |s| ==> !Dangerous(s[k])
    ensures RemoveDangerous(s) == s
  {
    if s != [] {
      RemoveDangerousClean(s[..|s| - 1]);
      assert s == s[..|s| - 1] + [s[|s| - 1]];
    }
  }

  /** `sanitize_input`: text loses < > " ' and surrounding whitespace; other values pass unchanged. */
  function SanitizeInput(v: Value): (r: Value)
    ensures !v.Text? ==> r == v
    ensures v.Text? ==> r.Text? && IsTrimmed(r.s) && forall k :: 0 <= k < |r.s| ==> !Dangerous(r.s[k])
  {
    match v
    case Text(s) =>
      var t := Trim(RemoveDangerous(s));
      TrimChars(RemoveDangerous(s));
      Text(t)
    case _ => v
  }

  /** Sanitizing twice is sanitizing once. */
  lemma SanitizeIdempotent(v: Value)
    ensures SanitizeInput(SanitizeInput(v)) == SanitizeInput(v)
  {
    if v.Text? {
      var t := SanitizeInput(v).s;
      RemoveDangerousClean(t);
      TrimOfTrimmed(t);
    }
  }
}
