/**
 * The predictions screen (`screens/Predictions.tsx`): a fixed seven-month table of
 * bloom risk and humidity, shown either as a chart or as a heatmap whose cells are
 * coloured by risk band and made as opaque as the risk is high.
 */
module Predictions {

  /** One month of the forecast table; risk and humidity are percentages. */
  datatype Prediction = Prediction(month: string, riesgo: int, humedad: int)

  const PredictionData: seq<Prediction> := [
    Prediction("Ene", 20, 40),
    Prediction("Feb", 25, 45),
    Prediction("Mar", 40, 60),
    Prediction("Abr", 75, 80),
    Prediction("May", 60, 70),
    Prediction("Jun", 45, 50),
    Prediction("Jul", 30, 40)
  ]

  /** The three risk bands, in increasing order of risk. */
  datatype RiskBand = Low | Moderate | High
  {
    function Hex(): string
    {
      match this
      case Low => "#3DFF8A"
      case Moderate => "#FACC15"
      case High => "#EF4444"
    }

    function Rank(): nat
    {
      match this
      case Low => 0
      case Moderate => 1
      case High => 2
    }
  }

  /** A cell's background colour: red above 60, yellow above 30, green otherwise. */
  function CellBand(riesgo: int): RiskBand
  {
    if riesgo > 60 then High else if riesgo > 30 then Moderate else Low
  }

  /** A cell's opacity: the risk as a fraction. */
  function CellOpacity(riesgo: int): real
  {
    riesgo as real / 100.0
  }

  /**
   * The bands partition the risks with strict lower thresholds, so a value on a
   * threshold falls in the lower band; the bands never go down as risk goes up.
   */
  lemma CellBandSpec(riesgo: int, other: int)
    ensures CellBand(riesgo) == High <==> riesgo > 60
    ensures CellBand(riesgo) == Moderate <==> 30 < riesgo <= 60
    ensures CellBand(riesgo) == Low <==> riesgo <= 30
    ensures riesgo <= other ==> CellBand(riesgo).Rank() <= CellBand(other).Rank()
    ensures CellBand(30) == Low && CellBand(60) == Moderate
  {
  }

  /** Percentages give opacities between 0 and 1, increasing with the risk. */
  lemma CellOpacitySpec(riesgo: int, other: int)
    requires 0 <= riesgo <= 100
    ensures 0.0 <= CellOpacity(riesgo) <= 1.0
    ensures riesgo <= other ==> CellOpacity(riesgo) <= CellOpacity(other)
  {
  }

  /** One heatmap cell, labelled with its month. */
  datatype Cell = Cell(month: string, colour: string, opacity: real)

  function HeatmapCell(d: Prediction): Cell
  {
    Cell(d.month, CellBand(d.riesgo).Hex(), CellOpacity(d.riesgo))
  }

  /** The heatmap: one cell per table row. */
  function Heatmap(data: seq<Prediction>): seq<Cell>
  {
    seq(|data|, i requires 0 <= i < |data| => HeatmapCell(data[i]))
  }

  /** The three colours are distinct, so a cell's colour tells its band. */
  lemma HexInjective(a: RiskBand, b: RiskBand)
    ensures a.Hex() == b.Hex() <==> a == b
  {
    if a != b {
      assert a.Hex()[1] != b.Hex()[1];
    }
  }

  /**
   * The heatmap has exactly one cell per row, in the table's order: a cell is red
   * exactly when its row's risk exceeds 60, yellow exactly when it lies in (30, 60],
   * green exactly when it is at most 30; a percentage risk gives an opacity in [0, 1].
   */
  lemma HeatmapSpec(data: seq<Prediction>, i: int)
    requires 0 <= i < |data|
    ensures |Heatmap(data)| == |data|
    ensures Heatmap(data)[i].month == data[i].month
    ensures Heatmap(data)[i].colour == "#EF4444" <==> data[i].riesgo > 60
    ensures Heatmap(data)[i].colour == "#FACC15" <==> 30 < data[i].riesgo <= 60
    ensures Heatmap(data)[i].colour == "#3DFF8A" <==> data[i].riesgo <= 30
    ensures 0 <= data[i].riesgo <= 100 ==> 0.0 <= Heatmap(data)[i].opacity <= 1.0
  {
    var band := CellBand(data[i].riesgo);
    CellBandSpec(data[i].riesgo, 0);
    HexInjective(band, High);
    HexInjective(band, Moderate);
    HexInjective(band, Low);
    if 0 <= data[i].riesgo <= 100 {
      CellOpacitySpec(data[i].riesgo, 0);
    }
  }

  /** Every risk in the table is a percentage, so every cell's opacity lies in [0, 1]. */
  lemma TableOpacities()
    ensures forall i | 0 <= i < |PredictionData| ::
              0.0 <= Heatmap(PredictionData)[i].opacity <= 1.0
  {
    forall i | 0 <= i < |PredictionData|
      ensures 0.0 <= Heatmap(PredictionData)[i].opacity <= 1.0
    {
      CellOpacitySpec(PredictionData[i].riesgo, 0);
    }
  }

  /**
   * On the fixed table: April is red; March, May and June are yellow; January,
   * February and July are green (May's 60 and July's 30 sit on thresholds).
   */
  lemma TableBands()
    ensures |Heatmap(PredictionData)| == 7
    ensures [Heatmap(PredictionData)[0].colour, Heatmap(PredictionData)[1].colour,
             Heatmap(PredictionData)[2].colour, Heatmap(PredictionData)[3].colour,
             Heatmap(PredictionData)[4].colour, Heatmap(PredictionData)[5].colour,
             Heatmap(PredictionData)[6].colour]
            == ["#3DFF8A", "#3DFF8A", "#FACC15", "#EF4444", "#FACC15", "#FACC15", "#3DFF8A"]
    ensures forall i | 0 <= i < 7 :: Heatmap(PredictionData)[i].month == PredictionData[i].month
  {
  }

  // ---------------------------------------------------------------- the screen

  datatype ViewMode = Chart | HeatmapMode

  /** What the panel shows: the chart over the table, or the heatmap's cells. */
  datatype PanelContent = ChartPanel(rows: seq<Prediction>) | HeatmapPanel(cells: seq<Cell>)

  class PredictionsScreen {
    var viewMode: ViewMode

    constructor ()
      ensures viewMode == Chart
    {
      viewMode := Chart;
    }

    function Shown(): PanelContent
      reads this
    {
      if viewMode == Chart then ChartPanel(PredictionData) else HeatmapPanel(Heatmap(PredictionData))
    }

    /** "Gráfico" and "Mapa de Calor": each button sets its own mode, whatever the current one. */
    method SetViewMode(mode: ViewMode)
      modifies this
      ensures viewMode == mode
      ensures mode == HeatmapMode ==> Shown().HeatmapPanel? && |Shown().cells| == 7
      ensures mode == Chart ==> Shown() == ChartPanel(PredictionData)
    {
      viewMode := mode;
    }
  }

  /** Pressing a mode button twice leaves the screen as pressing it once. */
  method PressTwice(first: ViewMode, mode: ViewMode) returns (once: PanelContent, twice: PanelContent)
    ensures once == twice
    ensures once.HeatmapPanel? <==> mode == HeatmapMode
  {
    var screen := new PredictionsScreen();
    screen.SetViewMode(first);
    screen.SetViewMode(mode);
    once := screen.Shown();
    screen.SetViewMode(mode);
    twice := screen.Shown();
  }
}
