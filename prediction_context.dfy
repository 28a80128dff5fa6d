/** The prediction log shared by the forms: an append-only list of tagged
    records (a yield, a disease or a CSV prediction), a "latest" and an
    "any" query over it, and a clear operation. */
module PredictionContext {
  import opened Common

  /** The moment `new Date()` reads when a record is made; the clock is a parameter. */
  type Timestamp = int

  /** What the milk-yield service answers. */
  datatype YieldData = YieldData(
    predictedYield: real,
    predictedWeeklyYield: real,
    optimizationHint: string,
    explanation: string,
    tips: seq<string>)

  /** What the disease service answers, as far as the log records it. */
  datatype DiseaseData = DiseaseData(
    diseasePrediction: string,
    prevention: string,
    explanation: string,
    tips: seq<string>)

  /** One analysed cow of a CSV upload. */
  datatype CowResult = CowResult(
    cowId: int,
    predictedYield: real,
    predictedWeeklyYield: real,
    diseasePrediction: string,
    prevention: string,
    yieldExplanation: string,
    diseaseExplanation: string)

  /** What the CSV service answers. */
  datatype CsvData = CsvData(results: seq<CowResult>)

  /** A logged prediction: its kind, the data it carries and when it was made. */
  datatype PredictionResult =
    | YieldPrediction(yieldData: YieldData, timestamp: Timestamp)
    | DiseasePrediction(diseaseData: DiseaseData, timestamp: Timestamp)
    | CsvPrediction(csvData: CsvData, timestamp: Timestamp)
  {
    /** The `type` tag of the record. */
    function Tag(): string {
      match this
      case YieldPrediction(_, _) => "yield"
      case DiseasePrediction(_, _) => "disease"
      case CsvPrediction(_, _) => "csv"
    }
  }

  /** The three kinds are told apart by their tags. */
  lemma TagsDistinguishKinds(p: PredictionResult, q: PredictionResult)
    ensures p.Tag() == q.Tag() <==>
              (p.YieldPrediction? && q.YieldPrediction?) || (p.DiseasePrediction? && q.DiseasePrediction?)
              || (p.CsvPrediction? && q.CsvPrediction?)
  {
    assert "yield" != "disease" && "yield" != "csv" && "disease" != "csv" by {
      assert "yield"[0] != "disease"[0] && "yield"[0] != "csv"[0] && "disease"[0] != "csv"[0];
    }
  }

  /** `getLatestPrediction` over a log: nothing for an empty log, else its last record. */
  function Latest(log: seq<PredictionResult>): (r: Option<PredictionResult>)
    ensures r.None? <==> log == []
    ensures r.Some? ==> r.value == log[|log| - 1] && r.value in log
  {
    if |log| == 0 then None else Some(log[|log| - 1])
  }

  /** `hasAnyPrediction` over a log. */
  function HasAny(log: seq<PredictionResult>): (b: bool)
    ensures b <==> Latest(log).Some?
  {
    |log| > 0
  }

  /** Appending a record makes it the latest, and there is then some record. */
  lemma LatestAfterAppend(log: seq<PredictionResult>, p: PredictionResult)
    ensures Latest(log + [p]) == Some(p)
    ensures HasAny(log + [p])
  {
  }

  /** Appending keeps every earlier record where it was. */
  lemma AppendKeepsEarlier(log: seq<PredictionResult>, p: PredictionResult)
    ensures |log + [p]| == |log| + 1
    ensures (log + [p])[..|log|] == log
    ensures forall i :: 0 <= i < |log| ==> (log + [p])[i] == log[i]
  {
  }

  /** A call a form makes on the provider. */
  datatype Update =
    | AddYield(yieldData: YieldData, at: Timestamp)
    | AddDisease(diseaseData: DiseaseData, at: Timestamp)
    | AddCsv(csvData: CsvData, at: Timestamp)
    | Clear

  /** The record an add appends. */
  function RecordOf(u: Update): PredictionResult
    requires !u.Clear?
  {
    match u
    case AddYield(d, t) => YieldPrediction(d, t)
    case AddDisease(d, t) => DiseasePrediction(d, t)
    case AddCsv(d, t) => CsvPrediction(d, t)
  }

  /** The log after a series of calls, each `prev => [...prev, record]` or `[]`. */
  function Replay(log: seq<PredictionResult>, updates: seq<Update>): seq<PredictionResult> {
    if updates == [] then log
    else
      var u := updates[|updates| - 1];
      var before := Replay(log, updates[..|updates| - 1]);
      if u.Clear? then [] else before + [RecordOf(u)]
  }

  /** The records a series of adds appends, in call order. */
  function RecordsOf(updates: seq<Update>): (r: seq<PredictionResult>)
    requires forall i :: 0 <= i < |updates| ==> !updates[i].Clear?
    ensures |r| == |updates|
  {
    if updates == [] then [] else RecordsOf(updates[..|updates| - 1]) + [RecordOf(updates[|updates| - 1])]
  }

  /** With no clear among them, any series of adds leaves the earlier log
      untouched as a prefix and appends one record per call, in call order. */
  lemma {:induction false} AddsOnlyAppend(log: seq<PredictionResult>, updates: seq<Update>)
    requires forall i :: 0 <= i < |updates| ==> !updates[i].Clear?
    ensures Replay(log, updates) == log + RecordsOf(updates)
  {
    if updates != [] {
      AddsOnlyAppend(log, updates[..|updates| - 1]);
    }
  }

  /** After a clear, the log holds exactly what was added since. */
  lemma {:induction false} ClearForgetsEarlier(log: seq<PredictionResult>, before: seq<Update>, after: seq<Update>)
    requires forall i :: 0 <= i < |after| ==> !after[i].Clear?
    ensures Replay(log, before + [Clear] + after) == RecordsOf(after)
  {
    if after == [] {
      assert before + [Clear] + after == before + [Clear];
    } else {
      var all := before + [Clear] + after;
      assert all[..|all| - 1] == before + [Clear] + after[..|after| - 1];
      ClearForgetsEarlier(log, before, after[..|after| - 1]);
    }
  }

  /** The provider's state: the list of predictions, replaced by every update. */
  class PredictionProvider {
    var predictions: seq<PredictionResult>

    /** The provider as first rendered: no predictions. */
    constructor ()
      ensures predictions == []
    {
      predictions := [];
    }

    /** `getLatestPrediction()`. */
    function GetLatestPrediction(): (r: Option<PredictionResult>)
      reads this
      ensures r.None? <==> predictions == []
      ensures r.Some? ==> r.value == predictions[|predictions| - 1]
    {
      Latest(predictions)
    }

    /** `hasAnyPrediction()`. */
    function HasAnyPrediction(): (b: bool)
      reads this
      ensures b <==> predictions != []
    {
      HasAny(predictions)
    }

    /** `addYieldPrediction(data)`: one 'yield' record at the end, stamped `now`. */
    method AddYieldPrediction(data: YieldData, now: Timestamp)
      modifies this
      ensures predictions == old(predictions) + [YieldPrediction(data, now)]
      ensures GetLatestPrediction() == Some(YieldPrediction(data, now)) && HasAnyPrediction()
    {
      predictions := predictions + [YieldPrediction(data, now)];
    }

    /** `addDiseasePrediction(data)`: one 'disease' record at the end, stamped `now`. */
    method AddDiseasePrediction(data: DiseaseData, now: Timestamp)
      modifies this
      ensures predictions == old(predictions) + [DiseasePrediction(data, now)]
      ensures GetLatestPrediction() == Some(DiseasePrediction(data, now)) && HasAnyPrediction()
    {
      predictions := predictions + [DiseasePrediction(data, now)];
    }

    /** `addCSVPrediction(data)`: one 'csv' record at the end, stamped `now`. */
    method AddCsvPrediction(data: CsvData, now: Timestamp)
      modifies this
      ensures predictions == old(predictions) + [CsvPrediction(data, now)]
      ensures GetLatestPrediction() == Some(CsvPrediction(data, now)) && HasAnyPrediction()
    {
      predictions := predictions + [CsvPrediction(data, now)];
    }

    /** `clearPredictions()`: the list is emptied. */
    method ClearPredictions()
      modifies this
      ensures predictions == []
      ensures GetLatestPrediction().None? && !HasAnyPrediction()
    {
      predictions := [];
    }
  }
}
