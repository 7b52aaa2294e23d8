/** The shared record and enumeration types of the prototype (`types.ts`). */
module Types {

  datatype Option<T> = None | Some(value: T)

  /** The eight screens of the single-page application (`ViewState`). */
  datatype ViewState =
    | LoginView
    | DashboardView
    | MapExplorerView
    | AIAnalysisView
    | PredictionsView
    | UploadView
    | AlertsView
    | SettingsView

  /** Where an analysis context came from: `'upload' | 'map' | 'default'`. */
  datatype ContextSource = UploadSource | MapSource | DefaultSource

  datatype Confidence = High | Medium | Low

  /** The accuracy is a JavaScript number, modelled as an exact `real`; the model only compares it. */
  datatype Metrics = Metrics(accuracy: real, area: string, confidence: Confidence)

  /** The data handed to the AI analysis screen (`AnalysisContext`). */
  datatype AnalysisContext = AnalysisContext(
    id: string,
    source: ContextSource,
    imageUrl: string,
    regionName: string,
    metrics: Metrics,
    date: string)
}
