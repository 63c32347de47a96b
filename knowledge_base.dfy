/** The static table of oral conditions the simulated classifier chooses from. */
module KnowledgeBase {
  import opened Records

  /** One condition: its display name, its explanation, its tier and what to do about it. */
  datatype Entry = Entry(
    name: string,
    description: string,
    severity: Severity,
    recommendations: seq<string>)

  /** The condition keys in declaration order, which is the order `Object.keys` reports them in. */
  const DiseaseKeys: seq<string> :=
    ["caries", "calculus", "gingivitis", "tooth_discoloration", "ulcers", "hypodontia", "healthy"]

  /** The keys whose entries carry the `low` tier. */
  const LowSeverityKeys: set<string> := {"gingivitis", "tooth_discoloration", "healthy"}

  /** The `oralDiseases` table. */
  const OralDiseases: map<string, Entry> := map[
    "caries" := Entry(
      "Dental Caries (Tooth Decay)",
      "Bacterial infection causing demineralization and destruction of tooth structures. Characterized by cavities and carious lesions visible as dark spots or holes in teeth.",
      Medium,
      ["Schedule immediate dental restoration (fillings)",
       "Professional fluoride treatment",
       "Improve daily oral hygiene routine",
       "Reduce sugar and acidic food intake",
       "Consider antimicrobial mouth rinse"]),
    "calculus" := Entry(
      "Dental Calculus (Tartar)",
      "Hardened dental plaque that has mineralized on teeth surfaces. Appears as yellow-brown deposits along the gum line and between teeth.",
      Medium,
      ["Professional dental scaling and cleaning",
       "Ultrasonic tartar removal",
       "Improve brushing technique and frequency",
       "Use tartar control toothpaste",
       "Regular dental cleanings every 6 months"]),
    "gingivitis" := Entry(
      "Gingivitis",
      "Inflammation of the gums caused by bacterial plaque buildup. Gums appear red, swollen, and may bleed during brushing or flossing.",
      Low,
      ["Improve daily oral hygiene routine",
       "Professional dental cleaning",
       "Use antibacterial mouthwash",
       "Gentle brushing with soft-bristled toothbrush",
       "Regular flossing to remove plaque"]),
    "tooth_discoloration" := Entry(
      "Tooth Discoloration",
      "Abnormal staining or discoloration of teeth that can be caused by various factors including diet, medications, or dental conditions.",
      Low,
      ["Professional dental cleaning",
       "Evaluate cause of discoloration",
       "Consider professional whitening treatment",
       "Limit staining foods and beverages",
       "Maintain excellent oral hygiene"]),
    "ulcers" := Entry(
      "Oral Ulcers",
      "Painful sores or lesions in the mouth that can be caused by trauma, stress, nutritional deficiencies, or underlying conditions.",
      Medium,
      ["Apply topical pain relief medication",
       "Avoid spicy, acidic, or rough foods",
       "Maintain gentle oral hygiene",
       "Consider stress management if stress-related",
       "Consult dentist if ulcers persist beyond 2 weeks"]),
    "hypodontia" := Entry(
      "Hypodontia (Missing Teeth)",
      "Congenital condition characterized by the absence of one or more teeth. Can affect both primary and permanent dentition.",
      Medium,
      ["Consult orthodontist for treatment planning",
       "Consider dental implants or bridges",
       "Evaluate need for orthodontic treatment",
       "Monitor remaining teeth for proper alignment",
       "Discuss prosthetic replacement options"]),
    "healthy" := Entry(
      "Healthy Oral Tissue",
      "Normal, healthy oral structures with no signs of disease or abnormalities detected. Gums appear pink and firm, teeth are clean and intact.",
      Low,
      ["Maintain excellent oral hygiene routine",
       "Continue regular dental check-ups every 6 months",
       "Brush twice daily with fluoride toothpaste",
       "Daily flossing and mouthwash use",
       "Maintain balanced diet low in sugar"])
  ]

  /** The key sequence lists each key of the table exactly once. */
  lemma KeysEnumerateTable()
    ensures |DiseaseKeys| == 7
    ensures forall i :: 0 <= i < |DiseaseKeys| ==> DiseaseKeys[i] in OralDiseases
    ensures forall k :: k in OralDiseases <==> k in DiseaseKeys
    ensures forall i, j :: 0 <= i < j < |DiseaseKeys| ==> DiseaseKeys[i] != DiseaseKeys[j]
  {
  }

  /** The table has exactly the seven condition keys. */
  lemma TableHasSevenKeys()
    ensures OralDiseases.Keys ==
      {"caries", "calculus", "gingivitis", "tooth_discoloration", "ulcers", "hypodontia", "healthy"}
    ensures |OralDiseases| == 7
  {
    KeysEnumerateTable();
    DistinctSeqCard(DiseaseKeys);
    assert OralDiseases.Keys == set k | k in DiseaseKeys;
  }

  /** A sequence without repeats has as many distinct elements as it has positions. */
  lemma {:induction false} DistinctSeqCard(s: seq<string>)
    requires forall i, j :: 0 <= i < j < |s| ==> s[i] != s[j]
    ensures |set k | k in s| == |s|
  {
    if s != [] {
      DistinctSeqCard(s[1..]);
      assert (set k | k in s) == {s[0]} + (set k | k in s[1..]);
      assert s[0] !in (set k | k in s[1..]);
    }
  }

  /** Every entry lists exactly five recommendations. */
  lemma FiveRecommendationsEach()
    ensures forall k :: k in OralDiseases ==> |OralDiseases[k].recommendations| == 5
  {
  }

  /** The tier is `low` for gingivitis, discoloration and healthy tissue, `medium` otherwise; none is `high`. */
  lemma SeverityTiers()
    ensures forall k :: k in OralDiseases ==>
      (OralDiseases[k].severity == Low <==> k in LowSeverityKeys)
    ensures forall k :: k in OralDiseases ==>
      (OralDiseases[k].severity == Medium <==> k !in LowSeverityKeys)
    ensures forall k :: k in OralDiseases ==> OralDiseases[k].severity != High
  {
  }
}
