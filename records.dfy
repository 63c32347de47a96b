/** The diagnosis record handed to the presentation layer. */
module Records {

  /** The severity tiers a diagnosis may carry (`'low' | 'medium' | 'high'`). */
  datatype Severity = Low | Medium | High

  /** The moment a diagnosis was produced (`new Date()`), in milliseconds since the epoch. */
  type Timestamp = int

  /** Mirrors the `DiagnosisData` interface: one verdict for one image. */
  datatype DiagnosisData = DiagnosisData(
    disease: string,
    confidence: real,
    description: string,
    severity: Severity,
    recommendations: seq<string>,
    timestamp: Timestamp)
}
