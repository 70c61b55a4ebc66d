/** The classifier client: the mapping of the prediction service's reply to a
    result, the check of the reply's name-to-confidence map, and the choice of
    the diagnosed name from that map. */
module MlService {
  import opened Common

  /** A character that no JavaScript numeric string can hold: the numeric
      strings are made of white space, digits, '.', '+', '-' and the letters of
      hexadecimal, octal, binary, exponent and `Infinity` forms. */
  predicate NeverNumeric(c: char)
  {
    c in "!\"#$%&'()*,/:;<=>?@[\\]^_`{|}~"
  }

  predicate HasNonNumeric(s: string)
  {
    s != [] && (NeverNumeric(s[0]) || HasNonNumeric(s[1..]))
  }

  /** The string form of a value that holds such a character ("n/a", or an
      object's "[object Object]"): it converts to NaN, and so does every string
      it is concatenated into. */
  type NonNumericText = s: string | HasNonNumeric(s) witness "/"

  /** A confidence value as the service's JSON carries it. `Text` is a string,
      array or object value, given by its string form. */
  datatype Confidence = Num(r: real) | Null | Bool(b: bool) | Text(rendering: NonNumericText)

  /** One own property of the predictions object; a map is a sequence of these
      in `Object.keys` order. */
  datatype Entry = Entry(key: string, value: Confidence)

  /** `response.data.predictions`: anything that is not an object (undefined,
      null, a number, a string, a boolean) or an object with its entries. */
  datatype Predictions = NotObject | Object(entries: seq<Entry>)

  const ExpectedLabels: seq<string> := ["Coccidiosis", "ND", "Sehat"]
  const DefaultLabel: string := "Sehat"
  const ConfidenceThreshold: real := 0.7
  const SumTolerance: real := 0.01

  /** `predictions[name]` when present: the first entry with that name. */
  function Lookup(entries: seq<Entry>, name: string): (r: Option<Confidence>)
    ensures r.None? <==> forall i :: 0 <= i < |entries| ==> entries[i].key != name
    ensures r.Some? ==> exists i :: 0 <= i < |entries| && entries[i] == Entry(name, r.value)
  {
    if entries == [] then None
    else if entries[0].key == name then Some(entries[0].value)
    else Lookup(entries[1..], name)
  }

  /** The numeric value JavaScript's relational operators see (None is NaN). */
  function Score(c: Confidence): Option<real>
  {
    match c
    case Num(r) => Some(r)
    case Null => Some(0.0)
    case Bool(b) => Some(if b then 1.0 else 0.0)
    case Text(_) => None
  }

  function Abs(x: real): real
  {
    if x < 0.0 then -x else x
  }

  // ---------------------------------------------------------------------------
  // validatePredictionResponse

  /** The name check inside the loop: present, of type number, and in [0, 1]. */
  predicate LabelInRange(entries: seq<Entry>, name: string)
  {
    var c := Lookup(entries, name);
    c.Some? && c.value.Num? && 0.0 <= c.value.r <= 1.0
  }

  predicate AllLabelsInRange(entries: seq<Entry>)
  {
    forall k :: 0 <= k < |ExpectedLabels| ==> LabelInRange(entries, ExpectedLabels[k])
  }

  /** The accumulator of `Object.values(p).reduce((a, b) => a + b, 0)`: a number
      until a text value is added, after which `+` concatenates strings. The
      concatenation holds the text's non-numeric character, so it is NaN as a
      number. */
  datatype Sum = NumSum(total: real) | TextSum

  function Add(acc: Sum, c: Confidence): Sum
  {
    match acc
    case TextSum => TextSum
    case NumSum(t) =>
      match c
      case Num(r) => NumSum(t + r)
      case Null => NumSum(t)
      case Bool(b) => NumSum(t + if b then 1.0 else 0.0)
      case Text(_) => TextSum
  }

  /** The reduce over all values, extra keys included, from the left. */
  function Total(entries: seq<Entry>): Sum
  {
    if entries == [] then NumSum(0.0) else Add(Total(entries[..|entries| - 1]), entries[|entries| - 1].value)
  }

  /** `!(Math.abs(sum - 1.0) > 0.01)`: for a text sum `sum - 1.0` is NaN and the
      comparison is false, so the check passes. */
  predicate SumPasses(s: Sum)
  {
    match s
    case NumSum(t) => Abs(t - 1.0) <= SumTolerance
    case TextSum => true
  }

  /** What validatePredictionResponse returns, as written. */
  predicate Accepted(p: Predictions)
  {
    p.Object? && AllLabelsInRange(p.entries) && SumPasses(Total(p.entries))
  }

  /** validatePredictionResponse: a loop over the three expected labels with an
      early `return false`, then the reduce over every value. */
  method ValidatePredictionResponse(p: Predictions) returns (ok: bool)
    ensures ok == Accepted(p)
  {
    if !p.Object? {
      return false;
    }
    var entries := p.entries;
    for k := 0 to |ExpectedLabels|
      invariant forall j :: 0 <= j < k ==> LabelInRange(entries, ExpectedLabels[j])
    {
      var c := Lookup(entries, ExpectedLabels[k]);
      if c.None? {
        return false;
      }
      if !c.value.Num? || c.value.r < 0.0 || c.value.r > 1.0 {
        return false;
      }
    }
    var sum := NumSum(0.0);
    for i := 0 to |entries|
      invariant sum == Total(entries[..i])
    {
      assert entries[..i + 1][..i] == entries[..i];
      sum := Add(sum, entries[i].value);
    }
    assert entries[..|entries|] == entries;
    if sum.NumSum? && Abs(sum.total - 1.0) > SumTolerance {
      return false;
    }
    return true;
  }

  /** Without a text value the reduce is the numeric sum (null as 0, booleans as 0 or 1). */
  function ScoreSum(entries: seq<Entry>): real
    requires forall i :: 0 <= i < |entries| ==> !entries[i].value.Text?
  {
    if entries == [] then 0.0
    else ScoreSum(entries[..|entries| - 1]) + Score(entries[|entries| - 1].value).value
  }

  lemma {:induction false} TotalWithoutText(entries: seq<Entry>)
    requires forall i :: 0 <= i < |entries| ==> !entries[i].value.Text?
    ensures Total(entries) == NumSum(ScoreSum(entries))
  {
    if entries != [] {
      TotalWithoutText(entries[..|entries| - 1]);
    }
  }

  /** Once one text value has been added, the reduce stays a string. */
  lemma {:induction false} TotalWithText(entries: seq<Entry>, i: nat)
    requires i < |entries| && entries[i].value.Text?
    ensures Total(entries) == TextSum
  {
    var n := |entries| - 1;
    if i < n {
      assert entries[..n][i] == entries[i];
      TotalWithText(entries[..n], i);
    }
  }

  /** The decision, stated without the reduce: a non-object, a missing expected
      name or one whose value is not a number in [0, 1] is refused; otherwise a
      map without text values is accepted exactly when its sum is within 0.01
      of 1, and extra keys are summed but never range-checked. */
  lemma AcceptedMeaning(p: Predictions)
    ensures !p.Object? ==> !Accepted(p)
    ensures p.Object? && (exists k :: 0 <= k < |ExpectedLabels| && Lookup(p.entries, ExpectedLabels[k]).None?)
            ==> !Accepted(p)
    ensures p.Object? && (exists k :: 0 <= k < |ExpectedLabels| && !LabelInRange(p.entries, ExpectedLabels[k]))
            ==> !Accepted(p)
    ensures p.Object? && AllLabelsInRange(p.entries) && (forall i :: 0 <= i < |p.entries| ==> !p.entries[i].value.Text?)
            ==> (Accepted(p) <==> Abs(ScoreSum(p.entries) - 1.0) <= SumTolerance)
  {
    if p.Object? && forall i :: 0 <= i < |p.entries| ==> !p.entries[i].value.Text? {
      TotalWithoutText(p.entries);
    }
  }

  /** The defect: with the labels in range, a text value among the extra keys
      turns the sum into a string that is NaN as a number, and the check passes
      whatever the numbers add up to. */
  lemma {:induction false} TextValueDefeatsSumCheck(p: Predictions, i: nat)
    requires p.Object? && AllLabelsInRange(p.entries)
    requires i < |p.entries| && p.entries[i].value.Text?
    ensures Accepted(p)
  {
    TotalWithText(p.entries, i);
  }

  /** A concrete map that shows it: the three labels at 1.0 each (sum 3) and a
      note "n/a"; the reduce gives "3n/a". */
  const SumOfThreeCase: seq<Entry> :=
    [Entry("Coccidiosis", Num(1.0)), Entry("ND", Num(1.0)), Entry("Sehat", Num(1.0)), Entry("note", Text("n/a"))]

  lemma SumOfThreeAccepted()
    ensures Accepted(Object(SumOfThreeCase))
    ensures !ValidPrediction(Object(SumOfThreeCase))
  {
    SumOfThreeLabels();
    TextValueDefeatsSumCheck(Object(SumOfThreeCase), 3);
  }

  lemma SumOfThreeLabels()
    ensures AllLabelsInRange(SumOfThreeCase)
  {
    var es := SumOfThreeCase;
    assert Lookup(es, "Coccidiosis") == Some(Num(1.0));
    assert Lookup(es, "ND") == Some(Num(1.0));
    assert Lookup(es, "Sehat") == Some(Num(1.0));
    ThreeLabelsInRange(es);
  }

  /** The range check over the expected labels, one label at a time. */
  lemma ThreeLabelsInRange(entries: seq<Entry>)
    requires LabelInRange(entries, "Coccidiosis") && LabelInRange(entries, "ND") && LabelInRange(entries, "Sehat")
    ensures AllLabelsInRange(entries)
  {
    forall k | 0 <= k < |ExpectedLabels| ensures LabelInRange(entries, ExpectedLabels[k]) {
      assert ExpectedLabels[k] in {"Coccidiosis", "ND", "Sehat"};
    }
  }

  /** The corrected check: a sum that is not a number fails, as a sum far from 1 does
      (`if (!(Math.abs(sum - 1.0) <= 0.01)) return false;`). */
  predicate ValidPrediction(p: Predictions)
  {
    p.Object? && AllLabelsInRange(p.entries) && Total(p.entries).NumSum? && SumPasses(Total(p.entries))
  }

  /** What the corrected check guarantees: no text value, the expected labels in
      range, the numeric sum within 0.01 of 1; and it differs from the code only
      on maps that hold a text value. */
  lemma ValidPredictionMeaning(p: Predictions)
    ensures ValidPrediction(p) ==> Accepted(p)
    ensures ValidPrediction(p) ==>
              && (forall i :: 0 <= i < |p.entries| ==> !p.entries[i].value.Text?)
              && AllLabelsInRange(p.entries)
              && Abs(ScoreSum(p.entries) - 1.0) <= SumTolerance
    ensures p.Object? && (forall i :: 0 <= i < |p.entries| ==> !p.entries[i].value.Text?)
            ==> (ValidPrediction(p) <==> Accepted(p))
  {
    if p.Object? {
      if exists i :: 0 <= i < |p.entries| && p.entries[i].value.Text? {
        var i :| 0 <= i < |p.entries| && p.entries[i].value.Text?;
        TotalWithText(p.entries, i);
      } else {
        TotalWithoutText(p.entries);
      }
    }
  }

  // ---------------------------------------------------------------------------
  // processPredictionResults

  /** The structured result: name, its confidence, the map unchanged, and the flag. */
  datatype Interpretation = Interpretation(predicted: string, confidence: Confidence,
                                           allPredictions: seq<Entry>, isConfident: bool)

  /** `c > m` in JavaScript: false when either side is NaN. */
  predicate Beats(c: Confidence, m: Confidence)
  {
    Score(c).Some? && Score(m).Some? && Score(c).value > Score(m).value
  }

  /** The loop from the given entry on, carrying the running name and maximum. */
  function Scan(entries: seq<Entry>, name: string, best: Confidence): (string, Confidence)
  {
    if entries == [] then (name, best)
    else if Beats(entries[0].value, best) then Scan(entries[1..], entries[0].key, entries[0].value)
    else Scan(entries[1..], name, best)
  }

  predicate Confident(c: Confidence)
  {
    Score(c).Some? && Score(c).value >= ConfidenceThreshold
  }

  /** The specification of processPredictionResults on an object's entries. */
  function Interpret(entries: seq<Entry>): Interpretation
  {
    var (name, best) := Scan(entries, DefaultLabel, Num(0.0));
    Interpretation(name, best, entries, Confident(best))
  }

  /** processPredictionResults: one pass over `Object.keys(predictions)` that moves
      the leader only on a strictly greater confidence. */
  method ProcessPredictionResults(entries: seq<Entry>) returns (r: Interpretation)
    ensures r == Interpret(entries)
  {
    var maxConfidence := Num(0.0);
    var predictedLabel := DefaultLabel;
    for i := 0 to |entries|
      invariant Scan(entries[i..], predictedLabel, maxConfidence) == Scan(entries, DefaultLabel, Num(0.0))
    {
      assert entries[i..][1..] == entries[i + 1..];
      var confidence := entries[i].value;
      if Beats(confidence, maxConfidence) {
        maxConfidence := confidence;
        predictedLabel := entries[i].key;
      }
    }
    r := Interpretation(predictedLabel, maxConfidence, entries, Confident(maxConfidence));
  }

  predicate AtMost(c: Confidence, m: real)
  {
    Score(c).None? || Score(c).value <= m
  }

  predicate Below(c: Confidence, m: real)
  {
    Score(c).None? || Score(c).value < m
  }

  /** No confidence exceeds m. */
  predicate NoneAbove(entries: seq<Entry>, m: real)
  {
    forall j :: 0 <= j < |entries| ==> AtMost(entries[j].value, m)
  }

  /** Entry k holds the first strict maximum, and that maximum exceeds m. */
  predicate FirstMaximum(entries: seq<Entry>, k: int, m: real)
  {
    && 0 <= k < |entries|
    && Score(entries[k].value).Some?
    && Score(entries[k].value).value > m
    && (forall j :: 0 <= j < |entries| ==> AtMost(entries[j].value, Score(entries[k].value).value))
    && (forall j :: 0 <= j < k ==> Below(entries[j].value, Score(entries[k].value).value))
  }

  lemma {:induction false} ScanResult(entries: seq<Entry>, name: string, best: Confidence)
    requires Score(best).Some?
    ensures var (l, c) := Scan(entries, name, best);
            || (NoneAbove(entries, Score(best).value) && l == name && c == best)
            || (exists k :: FirstMaximum(entries, k, Score(best).value) && l == entries[k].key && c == entries[k].value)
  {
    if entries != [] {
      var m := Score(best).value;
      var tail := entries[1..];
      if Beats(entries[0].value, best) {
        var v := Score(entries[0].value).value;
        ScanResult(tail, entries[0].key, entries[0].value);
        var (l, c) := Scan(tail, entries[0].key, entries[0].value);
        if NoneAbove(tail, v) && l == entries[0].key && c == entries[0].value {
          ConsNoneAbove(entries, v);
          assert FirstMaximum(entries, 0, m);
        } else {
          var k :| FirstMaximum(tail, k, v) && l == tail[k].key && c == tail[k].value;
          ConsFirstMaximum(entries, k, v, m);
        }
      } else {
        ScanResult(tail, name, best);
        var (l, c) := Scan(tail, name, best);
        if NoneAbove(tail, m) && l == name && c == best {
          ConsNoneAbove(entries, m);
        } else {
          var k :| FirstMaximum(tail, k, m) && l == tail[k].key && c == tail[k].value;
          ConsFirstMaximum(entries, k, m, m);
        }
      }
    }
  }

  lemma ConsNoneAbove(entries: seq<Entry>, m: real)
    requires entries != [] && AtMost(entries[0].value, m) && NoneAbove(entries[1..], m)
    ensures NoneAbove(entries, m)
  {
    forall j | 0 <= j < |entries| ensures AtMost(entries[j].value, m) {
      if j > 0 { assert entries[j] == entries[1..][j - 1]; }
    }
  }

  /** A first entry below the tail's maximum keeps that maximum first. */
  lemma ConsFirstMaximum(entries: seq<Entry>, k: int, v: real, m: real)
    requires entries != [] && FirstMaximum(entries[1..], k, v) && v >= m
    requires Below(entries[0].value, Score(entries[1..][k].value).value)
    ensures FirstMaximum(entries, k + 1, m)
  {
    var tail := entries[1..];
    var w := Score(tail[k].value).value;
    forall j | 0 <= j < |entries| ensures AtMost(entries[j].value, w) {
      if j > 0 { assert entries[j] == tail[j - 1]; }
    }
    forall j | 0 <= j < k + 1 ensures Below(entries[j].value, w) {
      if j > 0 { assert entries[j] == tail[j - 1]; }
    }
  }

  /** processPredictionResults picks the first entry with the strictly greatest
      confidence above 0 (a later equal value never displaces it); when no value
      exceeds 0 the result is 'Sehat' with confidence 0. The flag is set exactly
      at 0.7 or more and the map is returned unchanged. */
  lemma InterpretIsFirstMaximum(entries: seq<Entry>)
    ensures Interpret(entries).allPredictions == entries
    ensures Interpret(entries).isConfident <==>
              Score(Interpret(entries).confidence).Some? && Score(Interpret(entries).confidence).value >= 0.7
    ensures NoneAbove(entries, 0.0) ==>
              Interpret(entries).predicted == DefaultLabel && Interpret(entries).confidence == Num(0.0)
    ensures !NoneAbove(entries, 0.0) ==>
              exists k :: && FirstMaximum(entries, k, 0.0)
                          && Interpret(entries).predicted == entries[k].key
                          && Interpret(entries).confidence == entries[k].value
  {
    ScanResult(entries, DefaultLabel, Num(0.0));
  }

  /** The first strict maximum is unique, so the lemma above determines the result. */
  lemma FirstMaximumUnique(entries: seq<Entry>, k1: int, k2: int, m: real)
    requires FirstMaximum(entries, k1, m) && FirstMaximum(entries, k2, m)
    ensures k1 == k2
  {
  }

  /** The two reference maps: {Coccidiosis: 0.2, ND: 0.1, Sehat: 0.7} gives Sehat
      at 0.7, confident; {Coccidiosis: 0.5, ND: 0.5, Sehat: 0} gives Coccidiosis,
      the equal ND coming later; an empty map gives Sehat at 0. */
  lemma ReferenceInterpretations()
    ensures Interpret([Entry("Coccidiosis", Num(0.2)), Entry("ND", Num(0.1)), Entry("Sehat", Num(0.7))])
            == Interpretation("Sehat", Num(0.7),
                              [Entry("Coccidiosis", Num(0.2)), Entry("ND", Num(0.1)), Entry("Sehat", Num(0.7))], true)
    ensures Interpret([Entry("Coccidiosis", Num(0.5)), Entry("ND", Num(0.5)), Entry("Sehat", Num(0.0))]).predicted
            == "Coccidiosis"
    ensures Interpret([]) == Interpretation("Sehat", Num(0.0), [], false)
  {
  }

  /** A confident classification: {Coccidiosis: 0.85, ND: 0.1, Sehat: 0.05}. */
  const CoccidiosisCase: seq<Entry> := [Entry("Coccidiosis", Num(0.85)), Entry("ND", Num(0.1)), Entry("Sehat", Num(0.05))]

  /** It passes the check, as written and corrected, and is interpreted as a
      confident Coccidiosis. */
  lemma CoccidiosisIsConfident()
    ensures Accepted(Object(CoccidiosisCase)) && ValidPrediction(Object(CoccidiosisCase))
    ensures Interpret(CoccidiosisCase) == Interpretation("Coccidiosis", Num(0.85), CoccidiosisCase, true)
  {
    CoccidiosisIsValid();
    ValidPredictionMeaning(Object(CoccidiosisCase));
  }

  /** The map of the defect is read as a confident Coccidiosis at 1: the equal
      later labels do not displace it and the note never beats a number. */
  lemma SumOfThreeInterpretation()
    ensures Interpret(SumOfThreeCase) == Interpretation("Coccidiosis", Num(1.0), SumOfThreeCase, true)
  {
  }

  lemma CoccidiosisIsValid()
    ensures ValidPrediction(Object(CoccidiosisCase))
  {
    var es := CoccidiosisCase;
    assert Lookup(es, "Coccidiosis") == Some(Num(0.85));
    assert Lookup(es, "ND") == Some(Num(0.1));
    assert Lookup(es, "Sehat") == Some(Num(0.05));
    ThreeLabelsInRange(es);
    assert Total(es[..1]) == NumSum(0.85);
    assert Total(es[..2]) == NumSum(0.95);
    assert Total(es) == NumSum(1.0);
  }

  // ---------------------------------------------------------------------------
  // predictImage: the reply-to-result mapping

  /** `response.data` of a reply the service sent with a 2xx status. */
  datatype ReplyBody =
    | NoBody            // null or undefined: reading `.message` throws a TypeError
    | FalsyBody         // "", 0 or false: falsy, and its `.message` is undefined
    | Body(success: bool, predictions: Predictions, modelInfo: Option<Json>, message: Option<string>)

  /** The outcome of the POST to `/predict`. `CallFailed` is a transport error, a
      timeout or a non-2xx status, carrying `error.response?.data?.message`. */
  datatype ServiceCall = Responded(body: ReplyBody) | CallFailed(responseMessage: Option<string>)

  datatype PredictResult = Predicted(predictions: Predictions, modelInfo: Option<Json>) | PredictFailed(error: string)

  function PredictImage(call: ServiceCall): (r: PredictResult)
    ensures r.Predicted? <==> call.Responded? && call.body.Body? && call.body.success
    ensures r.Predicted? ==> r.predictions == call.body.predictions
  {
    match call
    case CallFailed(m) => PredictFailed(OrElse(m, "ML service unavailable"))
    case Responded(NoBody) => PredictFailed("ML service unavailable")
    case Responded(FalsyBody) => PredictFailed("Prediction failed")
    case Responded(Body(success, predictions, info, message)) =>
      if success then
        Predicted(predictions, if info.Some? && Truthy(info.value) then info else None)
      else PredictFailed(OrElse(message, "Prediction failed"))
  }

  /** The error texts: the service's own message when it sent a truthy one, else
      'Prediction failed' for a reply that says it failed and 'ML service
      unavailable' when no usable reply arrived; model_info falls back to null. */
  lemma PredictImageMessages(call: ServiceCall)
    ensures call.CallFailed? && !Present(call.responseMessage)
            ==> PredictImage(call) == PredictFailed("ML service unavailable")
    ensures call.CallFailed? && Present(call.responseMessage)
            ==> PredictImage(call) == PredictFailed(call.responseMessage.value)
    ensures call == Responded(NoBody) ==> PredictImage(call) == PredictFailed("ML service unavailable")
    ensures call.Responded? && call.body.Body? && !call.body.success
            ==> PredictImage(call) == PredictFailed(if Present(call.body.message) then call.body.message.value
                                                    else "Prediction failed")
    ensures call.Responded? && call.body.Body? && call.body.success
              && (call.body.modelInfo.None? || !Truthy(call.body.modelInfo.value))
            ==> PredictImage(call).modelInfo.None?
  {
  }
}
