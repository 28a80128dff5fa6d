/** The CSV upload section: which file it accepts, the guard and the two
    outcomes of the analyse request, the summary counts over the results,
    and the downloadable template. */
module CsvUploadSection {
  import opened Common
  import opened PredictionContext
  import Form = DiseaseDetectionForm

  /** The MIME type a selected file must carry exactly: `text/csv`, the
      media type registered in section 3 of RFC 4180. */
  const CsvMimeType: string := "text/csv"

  const InvalidFileMessage: string := "Please select a valid CSV file"
  const NoFileMessage: string := "Please select a CSV file first"
  const AnalyzeFailedMessage: string := "Failed to analyze CSV file. Please try again."

  /** The results shown and logged when the request fails. */
  const MockCsvResults: CsvData := CsvData([
    CowResult(1, 10.83, 75.79, "Healthy",
      "Maintain proper feed and clean water. Routine vet check-ups recommended.",
      "Hello Farmer. Your cow gives 10.83 liters of milk every day. In one week, your cow gives 75.79 liters of milk. Food is very important for milk. Good food makes more milk.",
      "Your cow appears to be healthy based on the provided data. Continue regular care practices."),
    CowResult(2, 8.4, 58.8, "Healthy",
      "Maintain proper feed and clean water. Routine vet check-ups recommended.",
      "Hello Farmer. Your cow gives 8.4 liters of milk every day. Weekly milk: 58.8 liters. If you give 10% more food, milk will increase.",
      "Your cow looks healthy. Maybe cow is not eating well or water is not clean. Give good food and clean water.")])

  // ---------------------------------------------------------------------------
  // Summary of the results

  /** A result counts as healthy, and gets the green badge, exactly when its
      prediction is the string "Healthy". */
  predicate Healthy(r: CowResult) {
    r.diseasePrediction == "Healthy"
  }

  /** The two badge styles. */
  datatype Badge = Green | Orange

  /** The badge of one result card. */
  function BadgeFor(r: CowResult): (b: Badge)
    ensures b == Green <==> Healthy(r)
  {
    if r.diseasePrediction == "Healthy" then Green else Orange
  }

  /** `results.filter(r => r.disease_prediction === 'Healthy').length`. */
  function HealthyCount(results: seq<CowResult>): (n: nat)
    ensures n <= |results|
  {
    if results == [] then 0
    else HealthyCount(results[..|results| - 1]) + (if Healthy(results[|results| - 1]) then 1 else 0)
  }

  /** The results that are healthy, in order (the filtered list itself). */
  function HealthyResults(results: seq<CowResult>): (r: seq<CowResult>)
    ensures forall x :: x in r <==> x in results && Healthy(x)
  {
    if results == [] then []
    else
      var last := results[|results| - 1];
      HealthyResults(results[..|results| - 1]) + (if Healthy(last) then [last] else [])
  }

  /** The filter keeps every healthy result as often as it occurs, and no other. */
  lemma {:induction false} HealthyResultsCounts(results: seq<CowResult>, x: CowResult)
    ensures multiset(HealthyResults(results))[x] == if Healthy(x) then multiset(results)[x] else 0
  {
    if results != [] {
      var init := results[..|results| - 1];
      var last := results[|results| - 1];
      assert results == init + [last];
      HealthyResultsCounts(init, x);
    }
  }

  /** Filtering two batches one after the other keeps their order. */
  lemma {:induction false} HealthyResultsAppend(a: seq<CowResult>, b: seq<CowResult>)
    ensures HealthyResults(a + b) == HealthyResults(a) + HealthyResults(b)
  {
    if b == [] {
      assert a + b == a;
    } else {
      assert (a + b)[..|a + b| - 1] == a + b[..|b| - 1];
      HealthyResultsAppend(a, b[..|b| - 1]);
    }
  }

  /** The count is the length of the filtered list. */
  lemma {:induction false} HealthyCountIsFilterLength(results: seq<CowResult>)
    ensures HealthyCount(results) == |HealthyResults(results)|
  {
    if results != [] {
      HealthyCountIsFilterLength(results[..|results| - 1]);
    }
  }

  /** Every result is counted exactly when every card shows the green badge,
      and none is exactly when every card shows the orange one. */
  lemma {:induction false} HealthyCountExtremes(results: seq<CowResult>)
    ensures HealthyCount(results) == |results| <==> forall i :: 0 <= i < |results| ==> BadgeFor(results[i]) == Green
    ensures HealthyCount(results) == 0 <==> forall i :: 0 <= i < |results| ==> BadgeFor(results[i]) == Orange
  {
    if results != [] {
      var init := results[..|results| - 1];
      HealthyCountExtremes(init);
      assert forall i :: 0 <= i < |init| ==> init[i] == results[i];
    }
  }

  /** The counts of two batches add up. */
  lemma {:induction false} HealthyCountAppend(a: seq<CowResult>, b: seq<CowResult>)
    ensures HealthyCount(a + b) == HealthyCount(a) + HealthyCount(b)
  {
    if b == [] {
      assert a + b == a;
    } else {
      assert (a + b)[..|a + b| - 1] == a + b[..|b| - 1];
      HealthyCountAppend(a, b[..|b| - 1]);
    }
  }

  /** The subtitle's suffix after "cow". */
  function PluralSuffix(count: nat): string {
    if count > 1 then "s" else ""
  }

  /** "cows" exactly when there is more than one result; zero results read "0 cow". */
  lemma PluralRule(count: nat)
    ensures PluralSuffix(count) == "s" <==> count > 1
    ensures PluralSuffix(count) == "" <==> count <= 1
  {
  }

  // ---------------------------------------------------------------------------
  // The template

  /** `fields.join(sep)`. */
  function Join(fields: seq<string>, sep: char): string {
    if |fields| == 0 then ""
    else if |fields| == 1 then fields[0]
    else fields[0] + [sep] + Join(fields[1..], sep)
  }

  /** `s.split(sep)`: the pieces between separators, one more than there are
      separators; the empty string gives one empty piece. */
  function Split(s: string, sep: char): (r: seq<string>)
    ensures |r| >= 1
  {
    if s == [] then [""]
    else
      var rest := Split(s[1..], sep);
      if s[0] == sep then [""] + rest else [[s[0]] + rest[0]] + rest[1..]
  }

  /** The string does not contain `sep`. */
  predicate Free(s: string, sep: char) {
    sep !in s
  }

  lemma {:induction false} SplitAfterWord(w: string, sep: char, rest: string)
    requires Free(w, sep)
    ensures Split(w + [sep] + rest, sep) == [w] + Split(rest, sep)
  {
    var s := w + [sep] + rest;
    if w == [] {
      assert s[0] == sep && s[1..] == rest;
    } else {
      assert s[0] == w[0] && s[1..] == w[1..] + [sep] + rest;
      assert w[0] in w;
      SplitAfterWord(w[1..], sep, rest);
      assert [w[0]] + w[1..] == w;
    }
  }

  lemma {:induction false} SplitWord(w: string, sep: char)
    requires Free(w, sep)
    ensures Split(w, sep) == [w]
  {
    if w != [] {
      assert w[0] in w;
      SplitWord(w[1..], sep);
      assert [w[0]] + w[1..] == w;
    }
  }

  /** Splitting undoes joining when no piece contains the separator. */
  lemma {:induction false} SplitJoin(fields: seq<string>, sep: char)
    requires |fields| >= 1
    requires forall i :: 0 <= i < |fields| ==> Free(fields[i], sep)
    ensures Split(Join(fields, sep), sep) == fields
  {
    if |fields| == 1 {
      SplitWord(fields[0], sep);
    } else {
      SplitAfterWord(fields[0], sep, Join(fields[1..], sep));
      SplitJoin(fields[1..], sep);
    }
  }

  /** Joining pieces free of a character keeps the result free of it, when
      the separator is another character. */
  lemma {:induction false} JoinFree(fields: seq<string>, sep: char, c: char)
    requires c != sep
    requires forall i :: 0 <= i < |fields| ==> Free(fields[i], c)
    ensures Free(Join(fields, sep), c)
  {
    if |fields| > 1 {
      JoinFree(fields[1..], sep, c);
    }
  }

  /** The template's header line, as its comma-separated names. */
  const TemplateHeader: seq<string> := [
    "breed", "age", "weight", "lactation_stage", "parity", "past_yield", "reproductive_status",
    "feed_type", "feed_qty", "feeding_freq", "walking_distance", "grazing_hours", "rumination_time",
    "resting_hours", "body_temp", "heart_rate", "vaccination_status", "disease_history", "activity_alert",
    "ambient_temp", "humidity", "season", "housing_condition", "farmer_description", "lang"]

  /** The template's four example cows, as their comma-separated fields. */
  const TemplateRows: seq<seq<string>> := [
    ["Holstein", "36", "550", "Early", "2", "25", "Lactating", "High Quality Grass", "25", "3", "2", "6", "8",
     "10", "38.5", "72", "Up to Date", "None", "Normal", "25", "65", "Spring", "Good", "", "en"],
    ["Jersey", "24", "400", "Mid", "1", "18", "Lactating", "Mixed Feed", "20", "2", "1.5", "5", "7",
     "12", "38.2", "68", "Up to Date", "None", "Normal", "28", "70", "Summer", "Excellent", "", "en"],
    ["Gir", "48", "600", "Late", "3", "30", "Dry", "Silage", "30", "3", "3", "8", "9",
     "8", "38.8", "75", "Due Soon", "Mastitis (2023)", "Low Activity", "22", "60", "Monsoon", "Average", "", "en"],
    ["Sahiwal", "30", "450", "Early", "1", "22", "Pregnant", "Hay", "22", "2", "1", "4", "6",
     "14", "38.3", "70", "Up to Date", "None", "Normal", "26", "68", "Winter", "Good", "", "en"]]

  /** The template's records: the header, then the example rows. */
  function TemplateRecords(): seq<seq<string>> {
    [TemplateHeader] + TemplateRows
  }

  /** The records joined: fields by commas, records by line feeds (no
      trailing line feed). */
  function Lines(records: seq<seq<string>>): (r: seq<string>)
    ensures |r| == |records|
    ensures forall i :: 0 <= i < |records| ==> r[i] == Join(records[i], ',')
  {
    seq(|records|, i requires 0 <= i < |records| => Join(records[i], ','))
  }

  /** The content `handleDownloadTemplate` puts in the file. */
  function TemplateContent(): string {
    Join(Lines(TemplateRecords()), '\n')
  }

  /** The header names the `CowData` fields, the same ones in the same order. */
  lemma TemplateHeaderIsCowData()
    ensures |TemplateHeader| == |Form.CowFields| == 25
    ensures forall i :: 0 <= i < 25 ==> TemplateHeader[i] == Form.FieldName(Form.CowFields[i])
  {
    assert TemplateHeader == [
      Form.FieldName(Form.Breed), Form.FieldName(Form.Age), Form.FieldName(Form.Weight), Form.FieldName(Form.LactationStage), Form.FieldName(Form.Parity),
      Form.FieldName(Form.PastYield), Form.FieldName(Form.ReproductiveStatus), Form.FieldName(Form.FeedType), Form.FieldName(Form.FeedQty), Form.FieldName(Form.FeedingFreq),
      Form.FieldName(Form.WalkingDistance), Form.FieldName(Form.GrazingHours), Form.FieldName(Form.RuminationTime), Form.FieldName(Form.RestingHours), Form.FieldName(Form.BodyTemp),
      Form.FieldName(Form.HeartRate), Form.FieldName(Form.VaccinationStatus), Form.FieldName(Form.DiseaseHistory), Form.FieldName(Form.ActivityAlert), Form.FieldName(Form.AmbientTemp),
      Form.FieldName(Form.Humidity), Form.FieldName(Form.Season), Form.FieldName(Form.HousingCondition), Form.FieldName(Form.FarmerDescription), Form.FieldName(Form.Lang)];
  }

  /** Each example row has 25 fields, an empty farmer_description and lang "en". */
  lemma TemplateRowsShape()
    ensures |TemplateRows| == 4
    ensures forall r :: r in TemplateRows ==> |r| == 25 && r[23] == "" && r[24] == "en"
  {
  }

  // ---------------------------------------------------------------------------
  // The section's state

  class CsvUpload {
    var selectedFile: Option<File>
    var csvResults: Option<CsvData>
    var isLoading: bool
    var error: Option<string>

    /** The section as first rendered. */
    constructor ()
      ensures selectedFile.None? && csvResults.None? && !isLoading && error.None?
    {
      selectedFile := None;
      csvResults := None;
      isLoading := false;
      error := None;
    }

    /** `handleFileUpload`: the first chosen file is kept when its type is
        exactly `text/csv`, which also clears the error and the old results;
        anything else (no file, another type) only sets the error. */
    method HandleFileUpload(files: seq<File>)
      modifies this`selectedFile, this`csvResults, this`error
      ensures files != [] && files[0].mimeType == CsvMimeType ==>
                selectedFile == Some(files[0]) && error.None? && csvResults.None?
      ensures !(files != [] && files[0].mimeType == CsvMimeType) ==>
                error == Some(InvalidFileMessage)
                && selectedFile == old(selectedFile) && csvResults == old(csvResults)
    {
      var file := FirstFile(files);
      if file.Some? && file.value.mimeType == CsvMimeType {
        selectedFile := file;
        error := None;
        csvResults := None;
      } else {
        error := Some(InvalidFileMessage);
      }
    }

    /** The Analyze button is enabled only when nothing is loading and a file is selected. */
    function AnalyzeEnabled(): (b: bool)
      reads this
      ensures b <==> !isLoading && selectedFile.Some?
    {
      !isLoading && selectedFile.Some?
    }

    /** `handleAnalyze`, with the service's answer as a parameter (`None`
        when the request or its decoding fails). Without a file only the
        error changes. Otherwise the answer, or the mock results together
        with the failure message, is shown and logged, and nothing is
        loading at the end. */
    method HandleAnalyze(response: Option<CsvData>, log: PredictionProvider, now: Timestamp)
      modifies this`isLoading, this`error, this`csvResults, log
      ensures old(selectedFile).None? ==>
                error == Some(NoFileMessage) && isLoading == old(isLoading)
                && csvResults == old(csvResults) && log.predictions == old(log.predictions)
      ensures old(selectedFile).Some? ==>
                var shown := response.GetOr(MockCsvResults);
                && !isLoading && csvResults == Some(shown)
                && log.predictions == old(log.predictions) + [CsvPrediction(shown, now)]
                && (error.None? <==> response.Some?)
                && (response.None? ==> error == Some(AnalyzeFailedMessage))
    {
      if selectedFile.None? {
        error := Some(NoFileMessage);
        return;
      }
      isLoading := true;
      error := None;
      match response {
        case Some(result) =>
          csvResults := Some(result);
          log.AddCsvPrediction(result, now);
        case None =>
          error := Some(AnalyzeFailedMessage);
          csvResults := Some(MockCsvResults);
          log.AddCsvPrediction(MockCsvResults, now);
      }
      isLoading := false;
    }
  }
}
