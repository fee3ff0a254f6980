/**
  The records the pages exchange with the storage module: the onboarding
  profile, a diagnosis result and a history entry. Decimal figures are kept
  as integers: a confidence in hundredths (0.89 is 89).
 */
module Types {
  import opened Wrappers

  /** The profile the onboarding form fills in and saves. */
  datatype UserProfile = UserProfile(
    name: string,
    mobile: string,
    village: string,
    district: string,
    state: string,
    landSize: string,
    mainCrops: seq<string>,
    language: string,
    useDemoData: bool)

  datatype Severity = High | Medium | Low

  /** A diagnosis as shown on a result card; `confidence` is in hundredths. */
  datatype DiagnosisResult = DiagnosisResult(
    disease: string,
    scientific: string,
    confidence: int,
    status: Severity,
    advice: seq<string>,
    timestamp: string,
    image: string)

  datatype ActivityType = DiagnosisActivity | MarketActivity | SchemesActivity | ChatActivity

  /** One record handed to the history store; `kind` is the source's `type` field. */
  datatype HistoryEntry = HistoryEntry(
    id: string,
    query: string,
    kind: ActivityType,
    timestamp: string,
    preview: string,
    data: DiagnosisResult)

  /** A toast notification, recorded as an output event of a handler. */
  datatype Toast = Toast(title: string, description: Option<string>, destructive: bool)
}
