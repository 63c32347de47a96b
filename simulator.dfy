/**
 * The stand-in classifier `simulateClassification`: it ignores the image, picks a
 * condition key from the table's own key list and draws a confidence. The two
 * `Math.random()` draws are the parameters `r1` (key) and `r2` (confidence), each in [0, 1).
 */
module Simulator {
  import opened Records
  import opened KnowledgeBase

  /** A draw of `Math.random()`. */
  predicate IsDraw(r: real) { 0.0 <= r < 1.0 }

  /** `Math.floor(r * n)`: the position picked in a list of `n` keys; it is a valid position whenever the list is not empty. */
  function PickIndex(r: real, n: nat): (i: nat)
    requires IsDraw(r)
    ensures n > 0 ==> i < n
  {
    ScaledDrawBounds(r, n);
    (r * n as real).Floor
  }

  lemma ScaledDrawBounds(r: real, n: nat)
    requires IsDraw(r)
    ensures 0.0 <= r * n as real
    ensures n > 0 ==> r * n as real < n as real
  {
    if n > 0 {
      assert r * n as real < 1.0 * n as real;
    }
  }

  /**
   * Uniformity of the pick: position `i` is chosen exactly when the draw falls in
   * [i/n, (i+1)/n), an interval of width 1/n.
   */
  lemma PickIndexInterval(r: real, n: nat, i: nat)
    requires IsDraw(r) && i < n
    ensures PickIndex(r, n) == i <==>
      (i as real) / (n as real) <= r < ((i + 1) as real) / (n as real)
  {
    var x := r * n as real;
    var nr := n as real;
    assert x / nr == r;
    DivMonotone(i as real, x, nr);
    DivMonotone(x, (i + 1) as real, nr);
    StrictDivMonotone(x, (i + 1) as real, nr);
    StrictDivMonotone(i as real, x, nr);
  }

  lemma DivMonotone(a: real, b: real, d: real)
    requires d > 0.0
    ensures a <= b <==> a / d <= b / d
  {
    assert a == (a / d) * d;
    assert b == (b / d) * d;
    if a / d <= b / d {
      assert (a / d) * d <= (b / d) * d;
    }
  }

  lemma StrictDivMonotone(a: real, b: real, d: real)
    requires d > 0.0
    ensures a < b <==> a / d < b / d
  {
    DivMonotone(b, a, d);
  }

  /** `0.7 + Math.random() * 0.25`: the reported confidence, within [0.70, 0.95) and so within [0, 1]. */
  function Confidence(r2: real): (c: real)
    requires IsDraw(r2)
    ensures 0.7 <= c < 0.95
    ensures 0.0 <= c <= 1.0
  {
    0.7 + r2 * 0.25
  }

  /** Every confidence in [0.70, 0.95) is produced by exactly one draw. */
  lemma ConfidenceCoversRange(c: real)
    requires 0.7 <= c < 0.95
    ensures IsDraw((c - 0.7) * 4.0) && Confidence((c - 0.7) * 4.0) == c
    ensures forall r2 :: IsDraw(r2) && Confidence(r2) == c ==> r2 == (c - 0.7) * 4.0
  {
  }

  /** The key the first draw selects from the table's key list. */
  function SelectedKey(r1: real): (k: string)
    requires IsDraw(r1)
    ensures k in OralDiseases
  {
    KeysEnumerateTable();
    DiseaseKeys[PickIndex(r1, |DiseaseKeys|)]
  }

  /** The draw i/n picks position i. */
  lemma PickIndexAtFraction(n: nat, i: nat)
    requires i < n
    ensures IsDraw((i as real) / (n as real))
    ensures PickIndex((i as real) / (n as real), n) == i
  {
    var nr := n as real;
    var r := (i as real) / nr;
    StrictDivMonotone(i as real, nr, nr);
    DivMonotone(0.0, i as real, nr);
    assert nr / nr == 1.0;
    assert r * nr == i as real;
  }

  /** No key of the table is unreachable: each is selected by some draw. */
  lemma EveryKeySelectable(k: string)
    requires k in OralDiseases
    ensures exists r1 :: IsDraw(r1) && SelectedKey(r1) == k
  {
    KeysEnumerateTable();
    var i :| 0 <= i < |DiseaseKeys| && DiseaseKeys[i] == k;
    var r1 := (i as real) / (|DiseaseKeys| as real);
    PickIndexAtFraction(|DiseaseKeys|, i);
    assert SelectedKey(r1) == k;
  }

  /** The resolved value of `simulateClassification(imageData)`, completed at time `now`. */
  function SimulateClassification(imageData: string, r1: real, r2: real, now: Timestamp): (d: DiagnosisData)
    requires IsDraw(r1) && IsDraw(r2)
    ensures SelectedKey(r1) in OralDiseases
    ensures var e := OralDiseases[SelectedKey(r1)];
      d.disease == e.name && d.description == e.description &&
      d.severity == e.severity && d.recommendations == e.recommendations
    ensures 0.7 <= d.confidence < 0.95
    ensures d.timestamp == now
  {
    var diseaseInfo := OralDiseases[SelectedKey(r1)];
    DiagnosisData(
      diseaseInfo.name,
      Confidence(r2),
      diseaseInfo.description,
      diseaseInfo.severity,
      diseaseInfo.recommendations,
      now)
  }

  /** Every simulated diagnosis is one of the table's entries, never graded `high`, with five recommendations. */
  lemma SimulatedDiagnosisIsTabled(imageData: string, r1: real, r2: real, now: Timestamp)
    requires IsDraw(r1) && IsDraw(r2)
    ensures var d := SimulateClassification(imageData, r1, r2, now);
      (exists k :: k in OralDiseases &&
        d.disease == OralDiseases[k].name && d.description == OralDiseases[k].description &&
        d.severity == OralDiseases[k].severity && d.recommendations == OralDiseases[k].recommendations) &&
      d.severity != High && |d.recommendations| == 5
  {
    var k := SelectedKey(r1);
    SeverityTiers();
    FiveRecommendationsEach();
    assert k in OralDiseases;
  }

  /** The image content has no influence on the simulated diagnosis. */
  lemma SimulationIgnoresImage(a: string, b: string, r1: real, r2: real, now: Timestamp)
    requires IsDraw(r1) && IsDraw(r2)
    ensures SimulateClassification(a, r1, r2, now) == SimulateClassification(b, r1, r2, now)
  {
  }

  /** A draw landing on the last seventh selects `healthy`; with confidence 0.83 the full record follows. */
  lemma HealthyScenario(imageData: string, r1: real, now: Timestamp)
    requires 6.0 / 7.0 <= r1 < 1.0
    ensures SimulateClassification(imageData, r1, 0.52, now) == DiagnosisData(
      "Healthy Oral Tissue",
      0.83,
      "Normal, healthy oral structures with no signs of disease or abnormalities detected. Gums appear pink and firm, teeth are clean and intact.",
      Low,
      ["Maintain excellent oral hygiene routine",
       "Continue regular dental check-ups every 6 months",
       "Brush twice daily with fluoride toothpaste",
       "Daily flossing and mouthwash use",
       "Maintain balanced diet low in sugar"],
      now)
  {
    PickIndexInterval(r1, 7, 6);
  }
}
