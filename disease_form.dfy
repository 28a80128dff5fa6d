/** The disease-detection form: the cow record it edits, the validator that
    lists the missing required fields with generated messages, the `every`
    predicate that enables the button, and the guard in front of the
    disease request. */
module DiseaseDetectionForm {
  import opened Common
  import opened PredictionContext

  /** The fields of `CowData`, in declaration order. */
  datatype Field =
    | Breed | Age | Weight | LactationStage | Parity | PastYield | ReproductiveStatus
    | FeedType | FeedQty | FeedingFreq | WalkingDistance | GrazingHours | RuminationTime
    | RestingHours | BodyTemp | HeartRate | VaccinationStatus | DiseaseHistory | ActivityAlert
    | AmbientTemp | Humidity | Season | HousingCondition | FarmerDescription | Lang

  /** The property name of a field. */
  function FieldName(f: Field): string {
    match f
    case Breed => "breed"
    case Age => "age"
    case Weight => "weight"
    case LactationStage => "lactation_stage"
    case Parity => "parity"
    case PastYield => "past_yield"
    case ReproductiveStatus => "reproductive_status"
    case FeedType => "feed_type"
    case FeedQty => "feed_qty"
    case FeedingFreq => "feeding_freq"
    case WalkingDistance => "walking_distance"
    case GrazingHours => "grazing_hours"
    case RuminationTime => "rumination_time"
    case RestingHours => "resting_hours"
    case BodyTemp => "body_temp"
    case HeartRate => "heart_rate"
    case VaccinationStatus => "vaccination_status"
    case DiseaseHistory => "disease_history"
    case ActivityAlert => "activity_alert"
    case AmbientTemp => "ambient_temp"
    case Humidity => "humidity"
    case Season => "season"
    case HousingCondition => "housing_condition"
    case FarmerDescription => "farmer_description"
    case Lang => "lang"
  }

  /** All fields of `CowData`, in declaration order. */
  const CowFields: seq<Field> := [
    Breed, Age, Weight, LactationStage, Parity, PastYield, ReproductiveStatus,
    FeedType, FeedQty, FeedingFreq, WalkingDistance, GrazingHours, RuminationTime,
    RestingHours, BodyTemp, HeartRate, VaccinationStatus, DiseaseHistory, ActivityAlert,
    AmbientTemp, Humidity, Season, HousingCondition, FarmerDescription, Lang]

  /** The required text fields, in the order `validateForm` checks them. */
  const RequiredStringFields: seq<Field> := [
    Breed, LactationStage, ReproductiveStatus, FeedType,
    VaccinationStatus, DiseaseHistory, ActivityAlert, Season, HousingCondition]

  /** The required numeric fields, in the order `validateForm` checks them. */
  const RequiredNumericFields: seq<Field> := [
    Age, Weight, Parity, PastYield, FeedQty, FeedingFreq,
    WalkingDistance, GrazingHours, RuminationTime, RestingHours,
    BodyTemp, HeartRate, AmbientTemp, Humidity]

  /** A field value as `handleInputChange` stores it: a string or a number. */
  datatype Value = Text(s: string) | Number(n: real)

  /** A cow record: every field has a value. */
  type CowData = d: map<Field, Value> | forall f: Field :: f in d
    witness InitialCowData

  /** The value a field starts with: "" for text, 0 for numbers, "en" for `lang`. */
  function InitialValue(f: Field): Value {
    match f
    case Breed | LactationStage | ReproductiveStatus | FeedType | VaccinationStatus
      | DiseaseHistory | ActivityAlert | Season | HousingCondition | FarmerDescription => Text("")
    case Lang => Text("en")
    case _ => Number(0.0)
  }

  /** The record the form starts with. */
  const InitialCowData: map<Field, Value> := map f: Field :: InitialValue(f)

  /** JavaScript falsiness of a field value: the empty string and zero. */
  predicate Falsy(v: Value) {
    v == Text("") || v == Number(0.0)
  }

  /** The two checks `validateForm` applies. */
  datatype Check = TextCheck | NumericCheck

  /** A text field fails `!v || v === ''`; a numeric field fails `v === 0 || v === ''`. */
  predicate Fails(check: Check, v: Value) {
    match check
    case TextCheck => Falsy(v) || v == Text("")
    case NumericCheck => v == Number(0.0) || v == Text("")
  }

  /** The fields of `fields` whose value fails `check`, in list order. */
  function MissingFields(d: CowData, fields: seq<Field>, check: Check): (r: seq<Field>)
    ensures |r| <= |fields|
  {
    if fields == [] then []
    else
      var last := fields[|fields| - 1];
      MissingFields(d, fields[..|fields| - 1], check) + (if Fails(check, d[last]) then [last] else [])
  }

  /** A field is reported exactly when it is listed and fails the check. */
  lemma {:induction false} MissingFieldsMember(d: CowData, fields: seq<Field>, check: Check, f: Field)
    ensures f in MissingFields(d, fields, check) <==> f in fields && Fails(check, d[f])
  {
    if fields != [] {
      MissingFieldsMember(d, fields[..|fields| - 1], check, f);
      assert fields == fields[..|fields| - 1] + [fields[|fields| - 1]];
    }
  }

  /** Nothing is reported exactly when every listed field passes. */
  lemma NoneMissingIffAllPass(d: CowData, fields: seq<Field>, check: Check)
    ensures MissingFields(d, fields, check) == [] <==> AllPass(d, fields, check)
  {
    var r := MissingFields(d, fields, check);
    if r != [] {
      MissingFieldsMember(d, fields, check, r[0]);
      var i :| 0 <= i < |fields| && fields[i] == r[0];
    }
    if !AllPass(d, fields, check) {
      var i :| 0 <= i < |fields| && Fails(check, d[fields[i]]);
      MissingFieldsMember(d, fields, check, fields[i]);
    }
  }

  /** Every missing required field: text fields first, then numeric ones. */
  function AllMissing(d: CowData): seq<Field> {
    MissingFields(d, RequiredStringFields, TextCheck) + MissingFields(d, RequiredNumericFields, NumericCheck)
  }

  // ---------------------------------------------------------------------------
  // Error messages

  /** A character `\w` matches. */
  predicate IsWordChar(c: char) {
    ('a' <= c <= 'z') || ('A' <= c <= 'Z') || ('0' <= c <= '9') || c == '_'
  }

  /** `toUpperCase` on one character of a field name. */
  function UpperAscii(c: char): char {
    if 'a' <= c <= 'z' then (c as int - 32) as char else c
  }

  /** `s.replace(from, to)` with a string pattern: only the first occurrence. */
  function ReplaceFirst(s: string, from: char, to: char): (r: string)
    ensures |r| == |s|
  {
    if s == [] then []
    else if s[0] == from then [to] + s[1..]
    else [s[0]] + ReplaceFirst(s[1..], from, to)
  }

  /** `s.replace(/\b\w/g, l => l.toUpperCase())`: upper-case every word
      character that follows a non-word character or starts the string. */
  function TitleCase(s: string): (r: string)
    ensures |r| == |s|
  {
    seq(|s|, i requires 0 <= i < |s| =>
      if IsWordChar(s[i]) && (i == 0 || !IsWordChar(s[i - 1])) then UpperAscii(s[i]) else s[i])
  }

  /** The message for a missing field. */
  function ErrorMessage(name: string): string {
    TitleCase(ReplaceFirst(name, '_', ' ')) + " is required"
  }

  /** The property names of a list of fields, in the same order. */
  function Names(fields: seq<Field>): (r: seq<string>)
    ensures |r| == |fields|
  {
    if fields == [] then [] else Names(fields[..|fields| - 1]) + [FieldName(fields[|fields| - 1])]
  }

  /** The messages for a list of names, in the same order. */
  function Messages(names: seq<string>): (r: seq<string>)
    ensures |r| == |names|
  {
    if names == [] then [] else Messages(names[..|names| - 1]) + [ErrorMessage(names[|names| - 1])]
  }

  /** The error list `validateForm` builds: one message per missing text
      field, then one per missing numeric field. */
  function ValidationErrors(d: CowData): seq<string> {
    Messages(Names(MissingFields(d, RequiredStringFields, TextCheck)))
    + Messages(Names(MissingFields(d, RequiredNumericFields, NumericCheck)))
  }

  /** A word of lower-case letters. */
  predicate IsLowerWord(w: string) {
    |w| > 0 && forall i :: 0 <= i < |w| ==> 'a' <= w[i] <= 'z'
  }

  lemma {:induction false} ReplaceFirstSkipsWord(w: string, rest: string)
    requires forall i :: 0 <= i < |w| ==> w[i] != '_'
    ensures ReplaceFirst(w + "_" + rest, '_', ' ') == w + " " + rest
  {
    if w != [] {
      assert (w + "_" + rest)[1..] == w[1..] + "_" + rest;
      ReplaceFirstSkipsWord(w[1..], rest);
    }
  }

  /** A one-word name gets its first letter upper-cased. */
  lemma OneWordMessage(w: string)
    requires IsLowerWord(w)
    ensures ErrorMessage(w) == [UpperAscii(w[0])] + w[1..] + " is required"
  {
    assert ReplaceFirst(w, '_', ' ') == w by {
      ReplaceFirstNoPattern(w);
    }
    assert TitleCase(w) == [UpperAscii(w[0])] + w[1..];
  }

  lemma {:induction false} ReplaceFirstNoPattern(s: string)
    requires forall i :: 0 <= i < |s| ==> s[i] != '_'
    ensures ReplaceFirst(s, '_', ' ') == s
  {
    if s != [] {
      ReplaceFirstNoPattern(s[1..]);
    }
  }

  /** A two-word name `first_second` reads "First Second is required". */
  lemma TwoWordMessage(first: string, second: string)
    requires IsLowerWord(first) && IsLowerWord(second)
    ensures ErrorMessage(first + "_" + second)
            == [UpperAscii(first[0])] + first[1..] + " " + [UpperAscii(second[0])] + second[1..] + " is required"
  {
    ReplaceFirstSkipsWord(first, second);
    var spaced := first + " " + second;
    var n := |first|;
    var expected := [UpperAscii(first[0])] + first[1..] + " " + [UpperAscii(second[0])] + second[1..];
    forall i | 0 <= i < |spaced|
      ensures TitleCase(spaced)[i] == expected[i]
    {
      var c := spaced[i];
      assert TitleCase(spaced)[i]
             == if IsWordChar(c) && (i == 0 || !IsWordChar(spaced[i - 1])) then UpperAscii(c) else c;
      if i == 0 {
        assert c == first[0] && expected[0] == UpperAscii(first[0]);
      } else if i < n {
        assert c == first[i] && spaced[i - 1] == first[i - 1] && expected[i] == first[i];
      } else if i == n {
        assert c == ' ' && expected[i] == ' ';
      } else if i == n + 1 {
        assert c == second[0] && spaced[i - 1] == ' ' && expected[i] == UpperAscii(second[0]);
      } else {
        assert c == second[i - n - 1] && spaced[i - 1] == second[i - n - 2] && expected[i] == second[i - n - 1];
      }
    }
    assert TitleCase(spaced) == expected;
  }

  // ---------------------------------------------------------------------------
  // Properties of the validator

  /** At most one error per required field: never more than 23. */
  lemma ValidationErrorsBound(d: CowData)
    ensures |ValidationErrors(d)| <= |RequiredStringFields| + |RequiredNumericFields| == 23
  {
  }

  /** A required text field is reported exactly when it is "" or 0. */
  lemma TextFieldReported(d: CowData, f: Field)
    requires f in RequiredStringFields
    ensures f in AllMissing(d) <==> d[f] == Text("") || d[f] == Number(0.0)
  {
    MissingFieldsMember(d, RequiredStringFields, TextCheck, f);
    MissingFieldsMember(d, RequiredNumericFields, NumericCheck, f);
  }

  /** A required numeric field is reported exactly when it is 0 or "": any
      other number passes, negative ones included. */
  lemma NumericFieldReported(d: CowData, f: Field)
    requires f in RequiredNumericFields
    ensures f in AllMissing(d) <==> d[f] == Number(0.0) || d[f] == Text("")
  {
    MissingFieldsMember(d, RequiredStringFields, TextCheck, f);
    MissingFieldsMember(d, RequiredNumericFields, NumericCheck, f);
  }

  /** `farmer_description` and `lang` are never reported, whatever they hold. */
  lemma OptionalFieldsNeverReported(d: CowData, f: Field)
    requires f == FarmerDescription || f == Lang
    ensures f !in AllMissing(d)
  {
    MissingFieldsMember(d, RequiredStringFields, TextCheck, f);
    MissingFieldsMember(d, RequiredNumericFields, NumericCheck, f);
  }

  /** Changing `farmer_description` or `lang` never changes the error list. */
  lemma OptionalFieldsIgnored(d: CowData, f: Field, v: Value)
    requires f == FarmerDescription || f == Lang
    ensures ValidationErrors(d[f := v]) == ValidationErrors(d)
  {
    MissingFieldsIgnoresOthers(d, f, v, RequiredStringFields, TextCheck);
    MissingFieldsIgnoresOthers(d, f, v, RequiredNumericFields, NumericCheck);
  }

  /** Only the listed fields are read. */
  lemma {:induction false} MissingFieldsIgnoresOthers(d: CowData, g: Field, v: Value, fields: seq<Field>, check: Check)
    requires g !in fields
    ensures MissingFields(d[g := v], fields, check) == MissingFields(d, fields, check)
  {
    if fields != [] {
      MissingFieldsIgnoresOthers(d, g, v, fields[..|fields| - 1], check);
    }
  }

  // ---------------------------------------------------------------------------
  // `isFormValid`

  /** `fields.every(field => value passes check)`. */
  predicate AllPass(d: CowData, fields: seq<Field>, check: Check) {
    forall i :: 0 <= i < |fields| ==> !Fails(check, d[fields[i]])
  }

  /** `isFormValid()` over a record. */
  predicate FormValid(d: CowData) {
    AllPass(d, RequiredStringFields, TextCheck) && AllPass(d, RequiredNumericFields, NumericCheck)
  }

  /** `isFormValid` and `validateForm` agree on every record. */
  lemma FormValidIffNoErrors(d: CowData)
    ensures FormValid(d) <==> ValidationErrors(d) == []
  {
    NoneMissingIffAllPass(d, RequiredStringFields, TextCheck);
    NoneMissingIffAllPass(d, RequiredNumericFields, NumericCheck);
  }

  /** Checking one more field of a list adds its message when it fails,
      and nothing otherwise. */
  lemma ErrorsStep(d: CowData, fields: seq<Field>, check: Check, i: nat)
    requires i < |fields|
    ensures Messages(Names(MissingFields(d, fields[..i + 1], check)))
            == Messages(Names(MissingFields(d, fields[..i], check)))
               + (if Fails(check, d[fields[i]]) then [ErrorMessage(FieldName(fields[i]))] else [])
  {
    var found := MissingFields(d, fields[..i], check);
    var prefix := fields[..i + 1];
    assert prefix[..i] == fields[..i] && prefix[i] == fields[i];
    if Fails(check, d[fields[i]]) {
      assert MissingFields(d, prefix, check) == found + [fields[i]];
      NamesSnoc(found, fields[i]);
      MessagesSnoc(Names(found), FieldName(fields[i]));
    } else {
      assert MissingFields(d, prefix, check) == found;
    }
  }

  lemma MessagesSnoc(names: seq<string>, n: string)
    ensures Messages(names + [n]) == Messages(names) + [ErrorMessage(n)]
  {
    assert (names + [n])[..|names|] == names;
  }

  lemma NamesSnoc(fields: seq<Field>, f: Field)
    ensures Names(fields + [f]) == Names(fields) + [FieldName(f)]
  {
    assert (fields + [f])[..|fields|] == fields;
  }

  /** One pass of the loop below: pushing the message of field `i` when it
      fails keeps the pushed list equal to the messages of the first `i + 1` fields. */
  lemma PushStep(d: CowData, fields: seq<Field>, check: Check, start: seq<string>, errors: seq<string>, i: nat)
    requires i < |fields|
    requires errors == start + Messages(Names(MissingFields(d, fields[..i], check)))
    ensures (if Fails(check, d[fields[i]]) then errors + [ErrorMessage(FieldName(fields[i]))] else errors)
            == start + Messages(Names(MissingFields(d, fields[..i + 1], check)))
  {
    ErrorsStep(d, fields, check, i);
  }

  /** One `forEach` of `validateForm`: push a message for every field of
      `fields` that fails `check`, keeping what is already there. */
  method PushMissing(d: CowData, fields: seq<Field>, check: Check, start: seq<string>) returns (errors: seq<string>)
    ensures errors == start + Messages(Names(MissingFields(d, fields, check)))
  {
    errors := start;
    var i := 0;
    while i < |fields|
      invariant 0 <= i <= |fields|
      invariant errors == start + Messages(Names(MissingFields(d, fields[..i], check)))
    {
      PushStep(d, fields, check, start, errors, i);
      if Fails(check, d[fields[i]]) {
        errors := errors + [ErrorMessage(FieldName(fields[i]))];
      }
      i := i + 1;
    }
    assert fields[..i] == fields;
  }

  /** `validateForm`'s two loops: text fields first, then numeric ones. */
  method CollectErrors(d: CowData) returns (errors: seq<string>)
    ensures errors == ValidationErrors(d)
  {
    ghost var texts := Messages(Names(MissingFields(d, RequiredStringFields, TextCheck)));
    errors := PushMissing(d, RequiredStringFields, TextCheck, []);
    assert errors == texts;
    errors := PushMissing(d, RequiredNumericFields, NumericCheck, errors);
  }

  // ---------------------------------------------------------------------------
  // The form's state

  /** What the disease service answers. */
  datatype DiseaseResult = DiseaseResult(
    diseasePrediction: string,
    prevention: string,
    explanation: string,
    tips: seq<string>,
    reportFile: string)

  /** The part of a result the prediction log records. */
  function Logged(r: DiseaseResult): DiseaseData {
    DiseaseData(r.diseasePrediction, r.prevention, r.explanation, r.tips)
  }

  /** The result shown and logged when the request fails. */
  const MockDiseaseResult: DiseaseResult := DiseaseResult(
    "Healthy - No immediate concerns detected",
    "Continue current care practices. Regular monitoring recommended.",
    "Hello Farmer. Your cow appears to be in good health based on the provided data. All vital signs are within normal ranges, and no concerning symptoms were detected.",
    ["Hello Farmer.",
     "Your cow appears to be in good health.",
     "Continue regular feeding and care practices.",
     "Monitor for any changes in behavior or appetite.",
     "Schedule regular veterinary check-ups.",
     "Maintain clean housing conditions.",
     "Ensure proper vaccination schedule is followed.",
     "Watch for early signs of illness."],
    "disease_report_mock.pdf")

  class DiseaseForm {
    var cowData: CowData
    var diseaseResult: Option<DiseaseResult>
    var isLoading: bool
    var validationErrors: seq<string>
    var showValidation: bool

    /** The form as first rendered. */
    constructor ()
      ensures cowData == InitialCowData && diseaseResult.None? && !isLoading
      ensures validationErrors == [] && !showValidation
    {
      cowData := InitialCowData;
      diseaseResult := None;
      isLoading := false;
      validationErrors := [];
      showValidation := false;
    }

    /** `handleInputChange(field, value)`: only `field` changes; errors shown
        so far are cleared and the panel hidden, otherwise both are left alone. */
    method HandleInputChange(field: Field, value: Value)
      modifies this`cowData, this`validationErrors, this`showValidation
      ensures cowData == old(cowData)[field := value]
      ensures old(validationErrors) != [] ==> validationErrors == [] && !showValidation
      ensures old(validationErrors) == [] ==> validationErrors == [] && showValidation == old(showValidation)
    {
      cowData := cowData[field := value];
      if |validationErrors| > 0 {
        validationErrors := [];
        showValidation := false;
      }
    }

    /** `validateForm()`: store the error list and report whether it is empty. */
    method ValidateForm() returns (valid: bool)
      modifies this`validationErrors
      ensures validationErrors == ValidationErrors(cowData)
      ensures valid <==> validationErrors == []
    {
      validationErrors := CollectErrors(cowData);
      valid := |validationErrors| == 0;
    }

    /** `isFormValid()`: the same verdict as `validateForm`, without storing anything. */
    function IsFormValid(): (b: bool)
      reads this
      ensures b <==> ValidationErrors(cowData) == []
    {
      FormValidIffNoErrors(cowData);
      FormValid(cowData)
    }

    /** `handleDetect()`, with the service's answer as a parameter (`None`
        when the request fails): an invalid form shows the error panel and
        stops there; a valid one hides the panel, shows and logs the answer
        (the mock result on failure) and ends with nothing loading. */
    method HandleDetect(response: Option<DiseaseResult>, log: PredictionProvider, now: Timestamp)
      modifies this`validationErrors, this`showValidation, this`isLoading, this`diseaseResult, log
      ensures validationErrors == ValidationErrors(cowData)
      ensures old(ValidationErrors(cowData)) != [] ==>
                showValidation && isLoading == old(isLoading) && diseaseResult == old(diseaseResult)
                && log.predictions == old(log.predictions)
      ensures old(ValidationErrors(cowData)) == [] ==>
                var shown := response.GetOr(MockDiseaseResult);
                && !showValidation && !isLoading && diseaseResult == Some(shown)
                && log.predictions == old(log.predictions) + [DiseasePrediction(Logged(shown), now)]
    {
      var valid := ValidateForm();
      if !valid {
        showValidation := true;
        return;
      }
      isLoading := true;
      showValidation := false;
      var result := response.GetOr(MockDiseaseResult);
      diseaseResult := Some(result);
      log.AddDiseasePrediction(Logged(result), now);
      isLoading := false;
    }
  }
}
