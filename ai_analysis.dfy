/**
 * The AI analysis screen (`screens/AIAnalysis.tsx`): it shows the analysis context
 * it is given, or a demonstration context when it is reached without one, with a
 * conclusion chosen by an accuracy threshold, a before/after comparison slider and
 * a report download whose 1.5-second delay is modelled as an explicit completion.
 */
module AIAnalysis {
  import opened Types
  import MapExplorer
  import Upload
  import App

  const FallbackImage: string :=
    "https://images.unsplash.com/photo-1451187580459-43490279c0fa?q=80&w=2072&auto=format&fit=crop"

  /**
   * The demonstration context used when the screen has no data. The source's record
   * has no `id` at all; the empty identifier stands for that.
   */
  const FallbackContext: AnalysisContext :=
    AnalysisContext("", DefaultSource, FallbackImage, "Amazonas, Sector 4 (Demo)",
                    Metrics(87.24, "42.5 km²", High), "2023-10-24")

  /** `data || fallback`. */
  function ActiveData(data: Option<AnalysisContext>): (c: AnalysisContext)
    ensures data.Some? ==> c == data.value
    ensures data.None? ==> c.source == DefaultSource && c.date == "2023-10-24"
    ensures data.None? ==> c.regionName == "Amazonas, Sector 4 (Demo)" && c.metrics.accuracy == 87.24
  {
    if data.Some? then data.value else FallbackContext
  }

  datatype Conclusion = StrongCorrelation | ManualReview
  {
    /** The sentence appended to the conclusion paragraph. */
    function Text(): string
    {
      match this
      case StrongCorrelation => " Correlación muy fuerte con datos de campo."
      case ManualReview => " Se sugiere revisión manual debido a ruido atmosférico."
    }
  }

  function ConclusionFor(accuracy: real): Conclusion
  {
    if accuracy > 90.0 then StrongCorrelation else ManualReview
  }

  /**
   * The strong-correlation sentence appears exactly when accuracy exceeds 90; an
   * accuracy of exactly 90 asks for manual review, and raising the accuracy never
   * turns a strong conclusion into a review.
   */
  lemma ConclusionSpec(accuracy: real, higher: real)
    ensures ConclusionFor(accuracy) == StrongCorrelation <==> accuracy > 90.0
    ensures ConclusionFor(accuracy) == ManualReview <==> accuracy <= 90.0
    ensures ConclusionFor(90.0) == ManualReview
    ensures accuracy <= higher && ConclusionFor(accuracy) == StrongCorrelation ==>
              ConclusionFor(higher) == StrongCorrelation
  {
  }

  /**
   * The three contexts the application produces: the demonstration context (87.24)
   * and a map region (89.4) ask for manual review; an upload (91.2) correlates strongly.
   */
  lemma ConclusionsOfKnownContexts(stamp: string, date: string, file: Option<Upload.FileInfo>)
    ensures ConclusionFor(ActiveData(None).metrics.accuracy) == ManualReview
    ensures ConclusionFor(ActiveData(Some(MapExplorer.RegionContext(stamp, date))).metrics.accuracy)
            == ManualReview
    ensures ConclusionFor(ActiveData(Some(Upload.ResultContext(file, stamp, date))).metrics.accuracy)
            == StrongCorrelation
  {
  }

  const DownloadMessage: string := "Reporte descargado: report_analysis.json"

  class AIAnalysisScreen {
    /** The `data` property. */
    const data: Option<AnalysisContext>
    var sliderPosition: int
    var downloading: bool

    ghost predicate Valid()
      reads this
    {
      0 <= sliderPosition <= 100
    }

    constructor (data: Option<AnalysisContext>)
      ensures Valid() && this.data == data
      ensures sliderPosition == 50 && !downloading
    {
      this.data := data;
      sliderPosition := 50;
      downloading := false;
    }

    /** The conclusion on screen. */
    function ShownConclusion(): Conclusion
      reads this
    {
      ConclusionFor(ActiveData(data).metrics.accuracy)
    }

    /** The download button's caption. */
    function DownloadLabel(): string
      reads this
    {
      if downloading then "Generando PDF..." else "Descargar Informe GeoJSON"
    }

    /** The comparison slider: a range input from 0 to 100. */
    method SetSlider(v: int)
      requires Valid() && 0 <= v <= 100
      modifies this`sliderPosition
      ensures Valid() && sliderPosition == v
    {
      sliderPosition := v;
    }

    /** `handleDownload`. The button is disabled while downloading, so a press then does nothing. */
    method Download()
      requires Valid()
      modifies this`downloading
      ensures Valid() && downloading
      ensures DownloadLabel() == "Generando PDF..."
    {
      downloading := true;
    }

    /** The download timer firing: the flag clears and the browser alert shows the message. */
    method DownloadCompletes() returns (alertMessage: string)
      requires Valid() && downloading
      modifies this`downloading
      ensures Valid() && !downloading && alertMessage == DownloadMessage
    {
      downloading := false;
      alertMessage := DownloadMessage;
    }
  }

  /** Opening the screen from the sidebar without data shows the demonstration region. */
  method OpenWithoutData() returns (region: string, conclusion: Conclusion, slider: int)
    ensures region == "Amazonas, Sector 4 (Demo)"
    ensures conclusion == ManualReview && slider == 50
  {
    var screen := new AIAnalysisScreen(None);
    region := ActiveData(screen.data).regionName;
    conclusion := screen.ShownConclusion();
    slider := screen.sliderPosition;
  }

  /**
   * "Analizar región" from the map explorer of a signed-in shell: the shell opens this
   * screen with the region's context, so it names the Po delta rather than the
   * demonstration region, and its 89.4 accuracy asks for manual review.
   */
  method RegionHandOff(stamp: string, date: string)
    returns (region: string, source: ContextSource, conclusion: Conclusion)
    ensures region == MapExplorer.RegionName && source == MapSource
    ensures conclusion == ManualReview
  {
    var shell := new App.AppShell();
    shell.Login();
    var context := MapExplorer.RegionContext(stamp, date);
    shell.AnalyzeRegion(context);
    var page := shell.Shown();
    var screen := new AIAnalysisScreen(page.content.data);
    region := ActiveData(screen.data).regionName;
    source := ActiveData(screen.data).source;
    conclusion := screen.ShownConclusion();
  }

  /**
   * An upload carried through to "Ver Resultados" on a signed-in shell: this screen
   * opens with a context named after the uploaded file, and its 91.2 accuracy gives
   * the strong-correlation conclusion.
   */
  method UploadHandOff(f: Upload.FileInfo, stamp: string, date: string)
    returns (region: string, source: ContextSource, conclusion: Conclusion)
    ensures region == f.name && source == UploadSource
    ensures conclusion == StrongCorrelation
  {
    var shell := new App.AppShell();
    shell.Login();
    var upload := new Upload.UploadScreen();
    upload.Drop([f]);
    upload.ProcessImage();
    upload.ProcessingComplete();
    var context := upload.ViewResults(stamp, date);
    shell.UploadAnalysis(context);
    var page := shell.Shown();
    var screen := new AIAnalysisScreen(page.content.data);
    region := ActiveData(screen.data).regionName;
    source := ActiveData(screen.data).source;
    conclusion := screen.ShownConclusion();
  }
}
