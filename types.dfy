/** The application's value types (types.ts), and the Option wrapper used for
    the source's nullable fields (`string | null`, `Signal | null`). */
module Types {

  datatype Option<+T> = None | Some(value: T)

  /** The two analysis modes the user switches between. The constructor names
      are the string literals of the source's union type. */
  datatype AppMode = shopping | cooking

  /** Severity of a signal, as returned by the analysis service. */
  datatype RiskLevel = none | alert | critical

  /** One annotated point on the photo. `x` and `y` are meant to be
      percentages, but nothing enforces that: they are passed through as
      whatever numbers the analysis response held. */
  datatype Signal = Signal(
    id: string,
    x: real,
    y: real,
    observation: string,
    interpretation: string,
    riskLevel: RiskLevel)

  /** The response of one analysis: the list of signals, in response order. */
  datatype AnalysisResponse = AnalysisResponse(signals: seq<Signal>)
}
