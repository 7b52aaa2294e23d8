/**
 * The map component (`components/SimulatedMap.tsx`). Free-text layer labels decide,
 * by case-sensitive substring tests, which tile source the map shows, whether the
 * bloom overlay is drawn, whether the grid overlay is shown and what the footer says.
 * The Leaflet map is abstracted as the state the component changes on it.
 */
module SimulatedMap {
  import opened Types
  import opened Text

  // ---------------------------------------------------------------- label predicates

  const SatelliteKeywords: seq<string> := ["Sentinel", "Landsat", "RGB"]
  const MaskKeywords: seq<string> := ["Mask", "IA", "Heatmap"]
  const SatelliteViewKeywords: seq<string> := ["Sentinel", "Landsat"]
  const PulseKeywords: seq<string> := ["Sentinel"]

  /** `layers.some(l => l.includes(k1) || l.includes(k2) || ...)` over the given keywords. */
  predicate AnyLabelIncludes(layers: seq<string>, keywords: seq<string>)
  {
    exists i, j | 0 <= i < |layers| && 0 <= j < |keywords| :: Includes(layers[i], keywords[j])
  }

  /** Satellite imagery is used as the base layer. */
  predicate ShowSatellite(layers: seq<string>)
  {
    AnyLabelIncludes(layers, SatelliteKeywords)
  }

  /** The bloom overlay is drawn. */
  predicate ShowMask(layers: seq<string>)
  {
    AnyLabelIncludes(layers, MaskKeywords)
  }

  /** The footer's satellite mode; the grid overlay is hidden exactly then. */
  predicate SatelliteView(layers: seq<string>)
  {
    AnyLabelIncludes(layers, SatelliteViewKeywords)
  }

  predicate ShowGrid(layers: seq<string>)
  {
    !SatelliteView(layers)
  }

  /** The footer's activity icon pulses. */
  predicate PulsingActivity(layers: seq<string>)
  {
    AnyLabelIncludes(layers, PulseKeywords)
  }

  function FooterText(layers: seq<string>): string
  {
    "LIVE FEED | " + if SatelliteView(layers) then "SATELLITE VIEW" else "DATA MODE"
  }

  /** Which positions the labels and keywords hold does not matter, only which strings occur. */
  lemma AnyLabelIncludesMembers(layers: seq<string>, keywords: seq<string>)
    ensures AnyLabelIncludes(layers, keywords) <==>
            exists l, k | l in layers && k in keywords :: Includes(l, k)
  {
    if exists l, k | l in layers && k in keywords :: Includes(l, k) {
      var l, k :| l in layers && k in keywords && Includes(l, k);
      var i :| 0 <= i < |layers| && layers[i] == l;
      var j :| 0 <= j < |keywords| && keywords[j] == k;
      assert Includes(layers[i], keywords[j]);
    }
  }

  /** A label set matches a keyword list iff some label has some keyword as a substring. */
  lemma LabelMatchSpec(layers: seq<string>, keywords: seq<string>)
    ensures AnyLabelIncludes(layers, keywords) <==>
            exists l, k, i :: l in layers && k in keywords && OccursAt(l, k, i)
  {
    AnyLabelIncludesMembers(layers, keywords);
    forall l, k { IncludesSpec(l, k); }
  }

  /** Order and repetition of labels do not matter: only the set of labels does. */
  lemma SameLabelsSameRendering(a: seq<string>, b: seq<string>)
    requires forall l :: l in a <==> l in b
    ensures ShowSatellite(a) == ShowSatellite(b)
    ensures ShowMask(a) == ShowMask(b)
    ensures ShowGrid(a) == ShowGrid(b)
    ensures FooterText(a) == FooterText(b)
  {
    AnyLabelIncludesMembers(a, SatelliteKeywords);
    AnyLabelIncludesMembers(b, SatelliteKeywords);
    AnyLabelIncludesMembers(a, MaskKeywords);
    AnyLabelIncludesMembers(b, MaskKeywords);
    AnyLabelIncludesMembers(a, SatelliteViewKeywords);
    AnyLabelIncludesMembers(b, SatelliteViewKeywords);
  }

  /** A satellite view is a satellite source, and a pulsing icon is a satellite view. */
  lemma ViewKeywordsNest(layers: seq<string>)
    ensures SatelliteView(layers) ==> ShowSatellite(layers)
    ensures PulsingActivity(layers) ==> SatelliteView(layers)
  {
    if SatelliteView(layers) {
      var i, j :| 0 <= i < |layers| && 0 <= j < |SatelliteViewKeywords|
                  && Includes(layers[i], SatelliteViewKeywords[j]);
      assert SatelliteViewKeywords[j] == SatelliteKeywords[j];
    }
    if PulsingActivity(layers) {
      var i, j :| 0 <= i < |layers| && 0 <= j < |PulseKeywords| && Includes(layers[i], PulseKeywords[j]);
      assert PulseKeywords[j] == SatelliteViewKeywords[j];
    }
  }

  /** The grid and the footer answer the same question, and it implies satellite tiles. */
  lemma GridAndFooterAgree(layers: seq<string>)
    ensures ShowGrid(layers) <==> FooterText(layers) == "LIVE FEED | DATA MODE"
    ensures !ShowGrid(layers) <==> FooterText(layers) == "LIVE FEED | SATELLITE VIEW"
    ensures !ShowGrid(layers) ==> ShowSatellite(layers)
    ensures PulsingActivity(layers) ==> !ShowGrid(layers)
  {
    ViewKeywordsNest(layers);
    assert |"LIVE FEED | DATA MODE"| != |"LIVE FEED | SATELLITE VIEW"|;
  }

  // ---------------------------------------------------------------- tile source

  /** The two tile providers the component chooses between. */
  datatype TileSource = DarkBasemap | SatelliteImagery
  {
    function Url(): string
    {
      match this
      case DarkBasemap => "https://{s}.basemaps.cartocdn.com/dark_all/{z}/{x}/{y}{r}.png"
      case SatelliteImagery =>
        "https://server.arcgisonline.com/ArcGIS/rest/services/World_Imagery/MapServer/tile/{z}/{y}/{x}"
    }

    function Attribution(): string
    {
      match this
      case DarkBasemap => "&copy; OpenStreetMap &copy; CartoDB"
      case SatelliteImagery => "Tiles &copy; Esri"
    }

    /** Both tile layers are created with the same options. */
    function Subdomains(): string { "abcd" }

    function MaxZoom(): nat { 19 }
  }

  function SelectTiles(layers: seq<string>): TileSource
  {
    if ShowSatellite(layers) then SatelliteImagery else DarkBasemap
  }

  /** Satellite tiles iff some label contains "Sentinel", "Landsat" or "RGB"; dark tiles otherwise. */
  lemma SelectTilesSpec(layers: seq<string>)
    ensures SelectTiles(layers) == SatelliteImagery <==>
            exists l, k, i :: l in layers && k in SatelliteKeywords && OccursAt(l, k, i)
    ensures SelectTiles(layers) == DarkBasemap <==>
            !exists l, k, i :: l in layers && k in SatelliteKeywords && OccursAt(l, k, i)
    ensures SelectTiles(layers).Attribution() == "Tiles &copy; Esri" <==> ShowSatellite(layers)
    ensures layers == [] ==> SelectTiles(layers) == DarkBasemap
  {
    LabelMatchSpec(layers, SatelliteKeywords);
  }

  // ---------------------------------------------------------------- bloom overlay

  /** One entry of the fixed catalog of bloom locations. */
  datatype BloomSite = BloomSite(lat: real, lng: real, color: string, intensity: real)

  const BloomCatalog: seq<BloomSite> := [
    BloomSite(-3.4653, -62.2159, "#3DFF8A", 0.8),    // Amazon
    BloomSite(25.7617, -80.1918, "#3DFF8A", 0.6),    // Florida
    BloomSite(15.8700, 100.9925, "#3DFF8A", 0.7),    // Thailand
    BloomSite(36.7783, -119.4179, "#FACC15", 0.5),   // California
    BloomSite(32.5900, 130.8000, "#F87171", 0.9),    // Kyushu
    BloomSite(45.44, 12.33, "#3DFF8A", 0.75),        // Venice
    BloomSite(-33.8688, 151.2093, "#3DFF8A", 0.4)    // Sydney
  ]

  /**
   * A circle marker; `None` for a stroke option means the option is not set and
   * the library default applies.
   */
  datatype Circle = Circle(
    lat: real, lng: real, radius: nat,
    fillColor: string, strokeColor: string,
    strokeWeight: Option<nat>, strokeOpacity: Option<real>,
    fillOpacity: real)

  /** The small opaque dot at a site. */
  function CoreCircle(site: BloomSite): Circle
  {
    Circle(site.lat, site.lng, 4, site.color, "#fff", Some(1), Some(0.8), 1.0)
  }

  /** The translucent halo at a site, fading with its intensity. */
  function GlowCircle(site: BloomSite): Circle
  {
    Circle(site.lat, site.lng, 25, site.color, "transparent", None, None, 0.15 * site.intensity)
  }

  /**
   * The circles `forEach` adds to the overlay group for the given sites: for site
   * `i`, its core at position `2 i` and then its glow at position `2 i + 1`.
   */
  function SiteCircles(sites: seq<BloomSite>): seq<Circle>
  {
    seq(2 * |sites|, j requires 0 <= j < 2 * |sites| =>
      if j % 2 == 0 then CoreCircle(sites[j / 2]) else GlowCircle(sites[j / 2]))
  }

  /** Adding one more site appends exactly its core and then its glow. */
  lemma SiteCirclesSnoc(sites: seq<BloomSite>, site: BloomSite)
    ensures SiteCircles(sites + [site]) == SiteCircles(sites) + [CoreCircle(site), GlowCircle(site)]
  {
    var longer := sites + [site];
    var lhs, rhs := SiteCircles(longer), SiteCircles(sites) + [CoreCircle(site), GlowCircle(site)];
    assert |lhs| == |rhs|;
    forall j | 0 <= j < |lhs|
      ensures lhs[j] == rhs[j]
    {
      if j < 2 * |sites| {
        assert longer[j / 2] == sites[j / 2];
      } else {
        assert j / 2 == |sites|;
      }
    }
  }

  /** Each site yields two circles at its own position, the core first. */
  lemma SiteCirclesAt(sites: seq<BloomSite>, i: int)
    requires 0 <= i < |sites|
    ensures |SiteCircles(sites)| == 2 * |sites|
    ensures SiteCircles(sites)[2 * i] == CoreCircle(sites[i])
    ensures SiteCircles(sites)[2 * i + 1] == GlowCircle(sites[i])
  {
    assert (2 * i) / 2 == i && (2 * i + 1) / 2 == i && (2 * i + 1) % 2 == 1;
  }

  /** Cores are radius 4 and opaque; glows are radius 25 with opacity 0.15 x intensity. */
  lemma SiteCirclesShape(sites: seq<BloomSite>, lo: real, hi: real)
    requires forall s :: s in sites ==> lo <= s.intensity <= hi
    ensures forall c :: c in SiteCircles(sites) ==>
              (c.radius == 4 && c.fillOpacity == 1.0) ||
              (c.radius == 25 && 0.15 * lo <= c.fillOpacity <= 0.15 * hi)
  {
    forall c | c in SiteCircles(sites)
      ensures (c.radius == 4 && c.fillOpacity == 1.0) ||
              (c.radius == 25 && 0.15 * lo <= c.fillOpacity <= 0.15 * hi)
    {
      var j :| 0 <= j < |SiteCircles(sites)| && SiteCircles(sites)[j] == c;
      assert sites[j / 2] in sites;
    }
  }

  /** Every catalog intensity lies in [0.4, 0.9]; glow opacities therefore in [0.06, 0.135]. */
  lemma CatalogCircles()
    ensures forall s :: s in BloomCatalog ==> 0.4 <= s.intensity <= 0.9
    ensures forall c :: c in SiteCircles(BloomCatalog) ==>
              (c.radius == 4 && c.fillOpacity == 1.0) ||
              (c.radius == 25 && 0.06 <= c.fillOpacity <= 0.135)
  {
    SiteCirclesShape(BloomCatalog, 0.4, 0.9);
  }

  /** What the overlay group holds after a layer update. */
  function Overlay(layers: seq<string>): seq<Circle>
  {
    if ShowMask(layers) then SiteCircles(BloomCatalog) else []
  }

  /** All 14 circles, in catalog order, iff "Mask", "IA" or "Heatmap" occurs in a label; none otherwise. */
  lemma OverlaySpec(layers: seq<string>)
    ensures |Overlay(layers)| == 14 <==>
            exists l, k, i :: l in layers && k in MaskKeywords && OccursAt(l, k, i)
    ensures !ShowMask(layers) ==> Overlay(layers) == []
    ensures ShowMask(layers) ==>
              forall i :: 0 <= i < |BloomCatalog| ==>
                Overlay(layers)[2 * i] == CoreCircle(BloomCatalog[i]) &&
                Overlay(layers)[2 * i + 1] == GlowCircle(BloomCatalog[i])
  {
    LabelMatchSpec(layers, MaskKeywords);
    if ShowMask(layers) {
      forall i | 0 <= i < |BloomCatalog|
        ensures Overlay(layers)[2 * i] == CoreCircle(BloomCatalog[i])
        ensures Overlay(layers)[2 * i + 1] == GlowCircle(BloomCatalog[i])
      {
        SiteCirclesAt(BloomCatalog, i);
      }
    }
  }

  // ---------------------------------------------------------------- scenarios

  /** Labels naming a satellite view and a mask: satellite tiles, the full overlay, no grid. */
  lemma SatelliteWithMask(layers: seq<string>)
    requires SatelliteView(layers) && ShowMask(layers)
    ensures SelectTiles(layers) == SatelliteImagery
    ensures |Overlay(layers)| == 14
    ensures !ShowGrid(layers)
    ensures FooterText(layers) == "LIVE FEED | SATELLITE VIEW"
  {
    GridAndFooterAgree(layers);
    OverlaySpec(layers);
  }

  /** Labels naming a satellite view but no mask: satellite tiles alone, without the grid. */
  lemma SatelliteWithoutMask(layers: seq<string>)
    requires SatelliteView(layers) && !ShowMask(layers)
    ensures SelectTiles(layers) == SatelliteImagery
    ensures Overlay(layers) == []
    ensures !ShowGrid(layers)
    ensures FooterText(layers) == "LIVE FEED | SATELLITE VIEW"
  {
    GridAndFooterAgree(layers);
    OverlaySpec(layers);
  }

  /** Labels naming a mask but no satellite source: the overlay on the dark basemap, with the grid. */
  lemma MaskWithoutSatellite(layers: seq<string>)
    requires !ShowSatellite(layers) && ShowMask(layers)
    ensures SelectTiles(layers) == DarkBasemap
    ensures |Overlay(layers)| == 14
    ensures ShowGrid(layers)
    ensures FooterText(layers) == "LIVE FEED | DATA MODE"
  {
    GridAndFooterAgree(layers);
    OverlaySpec(layers);
  }

  /** Labels naming neither: the bare dark basemap with the grid. */
  lemma NeitherSatelliteNorMask(layers: seq<string>)
    requires !ShowSatellite(layers) && !ShowMask(layers)
    ensures SelectTiles(layers) == DarkBasemap
    ensures Overlay(layers) == []
    ensures ShowGrid(layers)
    ensures FooterText(layers) == "LIVE FEED | DATA MODE"
  {
    GridAndFooterAgree(layers);
    OverlaySpec(layers);
  }

  /**
   * No label matches any keyword when every keyword has a character (the one at the
   * same position in `missing`) that no label contains.
   */
  lemma NoLabelIncludes(layers: seq<string>, keywords: seq<string>, missing: seq<char>)
    requires |missing| == |keywords|
    requires forall j | 0 <= j < |keywords| :: missing[j] in keywords[j]
    requires forall i, j | 0 <= i < |layers| && 0 <= j < |missing| :: missing[j] !in layers[i]
    ensures !AnyLabelIncludes(layers, keywords)
  {
    forall i, j | 0 <= i < |layers| && 0 <= j < |keywords|
      ensures !Includes(layers[i], keywords[j])
    {
      AbsentChar(layers[i], keywords[j], missing[j]);
    }
  }

  /** One label holding one keyword at a known position is enough. */
  lemma LabelIncludesAt(layers: seq<string>, keywords: seq<string>, i: nat, j: nat, at: nat)
    requires i < |layers| && j < |keywords| && at + |keywords[j]| <= |layers[i]|
    requires layers[i][at..at + |keywords[j]|] == keywords[j]
    ensures AnyLabelIncludes(layers, keywords)
  {
    OccursIncludes(layers[i], keywords[j], at);
  }

  // Facts about single literal labels, one per lemma so that each proof stays small.

  lemma SentinelIsSatelliteView()
    ensures SatelliteView(["Sentinel-2 RGB"])
  {
    LabelIncludesAt(["Sentinel-2 RGB"], SatelliteViewKeywords, 0, 0, 0);
  }

  /** Labels without the letters 'M', 'I' and 'H' cannot contain "Mask", "IA" or "Heatmap". */
  lemma NoMaskLetters(layers: seq<string>)
    requires forall i | 0 <= i < |layers| :: 'M' !in layers[i] && 'I' !in layers[i] && 'H' !in layers[i]
    ensures !ShowMask(layers)
  {
    NoLabelIncludes(layers, MaskKeywords, "MIH");
  }

  lemma RadarHasNoSatellite()
    ensures !ShowSatellite(["SAR (Radar)"])
  {
    NoLabelIncludes(["SAR (Radar)"], SatelliteKeywords, "eLG");
  }


  lemma RgbIsSatellite()
    ensures ShowSatellite(["RGB"])
  {
    LabelIncludesAt(["RGB"], SatelliteKeywords, 0, 2, 0);
  }

  lemma RgbIsNoSatelliteView()
    ensures !SatelliteView(["RGB"])
  {
    NoLabelIncludes(["RGB"], SatelliteViewKeywords, "SL");
  }

  lemma DashboardIsSatelliteView()
    ensures SatelliteView(["Sentinel-2 RGB", "NDVI Heatmap"])
  {
    LabelIncludesAt(["Sentinel-2 RGB", "NDVI Heatmap"], SatelliteViewKeywords, 0, 0, 0);
  }

  lemma DashboardHasMask()
    ensures ShowMask(["Sentinel-2 RGB", "NDVI Heatmap"])
  {
    LabelIncludesAt(["Sentinel-2 RGB", "NDVI Heatmap"], MaskKeywords, 1, 2, 5);
  }

  /** The dashboard's fixed layers show satellite tiles with the full overlay and no grid. */
  lemma DashboardLayers()
    ensures SelectTiles(["Sentinel-2 RGB", "NDVI Heatmap"]) == SatelliteImagery
    ensures |Overlay(["Sentinel-2 RGB", "NDVI Heatmap"])| == 14
    ensures !ShowGrid(["Sentinel-2 RGB", "NDVI Heatmap"])
    ensures FooterText(["Sentinel-2 RGB", "NDVI Heatmap"]) == "LIVE FEED | SATELLITE VIEW"
  {
    DashboardIsSatelliteView();
    DashboardHasMask();
    SatelliteWithMask(["Sentinel-2 RGB", "NDVI Heatmap"]);
  }

  /** Radar alone: dark tiles, no overlay, grid shown, data mode. */
  lemma RadarOnly()
    ensures SelectTiles(["SAR (Radar)"]) == DarkBasemap
    ensures Overlay(["SAR (Radar)"]) == []
    ensures ShowGrid(["SAR (Radar)"])
    ensures FooterText(["SAR (Radar)"]) == "LIVE FEED | DATA MODE"
  {
    RadarHasNoSatellite();
    NoMaskLetters(["SAR (Radar)"]);
    NeitherSatelliteNorMask(["SAR (Radar)"]);
  }

  /** "RGB" alone selects satellite tiles but keeps the grid and the data-mode footer. */
  lemma RgbOnly()
    ensures SelectTiles(["RGB"]) == SatelliteImagery
    ensures ShowGrid(["RGB"])
    ensures FooterText(["RGB"]) == "LIVE FEED | DATA MODE"
  {
    RgbIsSatellite();
    RgbIsNoSatelliteView();
    GridAndFooterAgree(["RGB"]);
  }

  /** The default (empty) label list. */
  lemma NoLayers()
    ensures SelectTiles([]) == DarkBasemap && Overlay([]) == [] && ShowGrid([])
    ensures FooterText([]) == "LIVE FEED | DATA MODE"
  {
  }

  // ---------------------------------------------------------------- the map component

  const InitialCenter: (real, real) := (20.0, 0.0)
  const InitialZoom: int := 3
  const MinZoom: int := 2
  /** The `maxZoom` of every tile layer the component adds, which bounds the map's zoom. */
  const MaxZoom: int := 19

  /** Removes the first occurrence of `t` (Leaflet's `removeLayer`). */
  function RemoveLayer(onMap: seq<TileSource>, t: TileSource): seq<TileSource>
  {
    if onMap == [] then []
    else if onMap[0] == t then onMap[1..]
    else [onMap[0]] + RemoveLayer(onMap[1..], t)
  }

  /**
   * The component's refs together with the parts of the Leaflet map it changes:
   * the tile layers on the map, the circles in the overlay group, the three
   * interaction handlers and the view.
   */
  class MapComponent {
    var initialised: bool              // a map instance exists
    var center: (real, real)
    var zoom: int
    var minZoom: int
    var worldCopyJump: bool
    var tileLayers: seq<TileSource>    // tile layers currently on the map
    var tileRef: Option<TileSource>    // the tile layer the component last added
    var overlay: seq<Circle>           // contents of the overlay layer group
    var dragging: bool
    var scrollWheelZoom: bool
    var doubleClickZoom: bool

    /** At most one tile layer, the one the component remembers; no map state before the map exists. */
    ghost predicate Valid()
      reads this
    {
      && tileLayers == (if tileRef.Some? then [tileRef.value] else [])
      && (!initialised ==> tileRef == None && overlay == [])
      && (initialised ==> minZoom == MinZoom && MinZoom <= zoom <= MaxZoom)
    }

    /** The component before its first effect: no map instance. */
    constructor ()
      ensures Valid() && !initialised
      ensures tileLayers == [] && tileRef == None && overlay == []
      ensures !dragging && !scrollWheelZoom && !doubleClickZoom
    {
      initialised := false;
      center := (0.0, 0.0);
      zoom, minZoom := 0, 0;
      worldCopyJump := false;
      tileLayers, tileRef, overlay := [], None, [];
      dragging, scrollWheelZoom, doubleClickZoom := false, false, false;
    }

    /**
     * The mount effect: creates the map once, only when the container is mounted
     * and the map library is loaded. Leaflet enables the three handlers by default.
     */
    method Init(containerMounted: bool, leafletLoaded: bool)
      requires Valid()
      modifies this
      ensures Valid()
      ensures if containerMounted && !old(initialised) && leafletLoaded then
                && initialised && center == InitialCenter && zoom == InitialZoom
                && minZoom == MinZoom && worldCopyJump
                && tileLayers == [] && tileRef == None && overlay == []
                && dragging && scrollWheelZoom && doubleClickZoom
              else
                unchanged(this)
    {
      if containerMounted && !initialised && leafletLoaded {
        initialised := true;
        center, zoom, minZoom, worldCopyJump := InitialCenter, InitialZoom, MinZoom, true;
        overlay := [];
        dragging, scrollWheelZoom, doubleClickZoom := true, true, true;
      }
    }

    /**
     * The layer effect: replaces the tile layer and rebuilds the overlay group
     * from scratch; a no-op while there is no map.
     */
    method UpdateLayers(layers: seq<string>, leafletLoaded: bool)
      requires Valid()
      modifies this`tileLayers, this`tileRef, this`overlay
      ensures Valid()
      ensures if old(initialised) && leafletLoaded then
                && tileLayers == [SelectTiles(layers)]
                && tileRef == Some(SelectTiles(layers))
                && overlay == Overlay(layers)
              else
                unchanged(this)
    {
      if !initialised || !leafletLoaded {
        return;
      }
      var tile := SelectTiles(layers);
      if tileRef.Some? {
        assert tileLayers == [tileRef.value];
        tileLayers := RemoveLayer(tileLayers, tileRef.value);
      }
      assert tileLayers == [];
      tileLayers := tileLayers + [tile];
      tileRef := Some(tile);

      overlay := [];
      if ShowMask(layers) {
        var i := 0;
        while i < |BloomCatalog|
          invariant 0 <= i <= |BloomCatalog|
          invariant overlay == SiteCircles(BloomCatalog[..i])
          invariant tileLayers == [tile] && tileRef == Some(tile)
        {
          var site := BloomCatalog[i];
          overlay := overlay + [CoreCircle(site)];
          overlay := overlay + [GlowCircle(site)];
          SiteCirclesSnoc(BloomCatalog[..i], site);
          assert BloomCatalog[..i + 1] == BloomCatalog[..i] + [site];
          i := i + 1;
        }
        assert BloomCatalog[..i] == BloomCatalog;
      }
    }

    /** The interactivity effect: the three handlers follow `interactive` together. */
    method SetInteractive(interactive: bool)
      requires Valid()
      modifies this`dragging, this`scrollWheelZoom, this`doubleClickZoom
      ensures Valid()
      ensures if initialised then
                dragging == interactive && scrollWheelZoom == interactive && doubleClickZoom == interactive
              else
                unchanged(this)
    {
      if initialised {
        dragging, scrollWheelZoom, doubleClickZoom := interactive, interactive, interactive;
      }
    }

    method ZoomIn()
      requires Valid()
      modifies this`zoom
      ensures Valid()
      ensures zoom == if initialised && old(zoom) < MaxZoom then old(zoom) + 1 else old(zoom)
    {
      if initialised && zoom < MaxZoom {
        zoom := zoom + 1;
      }
    }

    method ZoomOut()
      requires Valid()
      modifies this`zoom
      ensures Valid()
      ensures zoom == if initialised && old(zoom) > minZoom then old(zoom) - 1 else old(zoom)
    {
      if initialised && zoom > minZoom {
        zoom := zoom - 1;
      }
    }
  }

  /**
   * A mounted component whose `layers` prop takes the given values in turn, as
   * React runs the effects: mount, then the layer and interactivity effects for
   * the first render, then the layer effect once per later value. The map shows
   * exactly what the last value selects, whatever came before.
   */
  method RenderSequence(updates: seq<seq<string>>, interactive: bool)
    returns (tiles: seq<TileSource>, circles: seq<Circle>, handlers: (bool, bool, bool))
    requires |updates| > 0
    ensures tiles == [SelectTiles(updates[|updates| - 1])]
    ensures circles == Overlay(updates[|updates| - 1])
    ensures handlers == (interactive, interactive, interactive)
  {
    var component := new MapComponent();
    component.Init(true, true);
    component.UpdateLayers(updates[0], true);
    component.SetInteractive(interactive);
    var i := 1;
    while i < |updates|
      invariant 1 <= i <= |updates|
      invariant component.Valid() && component.initialised
      invariant component.tileLayers == [SelectTiles(updates[i - 1])]
      invariant component.overlay == Overlay(updates[i - 1])
      invariant component.dragging == interactive && component.scrollWheelZoom == interactive
      invariant component.doubleClickZoom == interactive
    {
      component.UpdateLayers(updates[i], true);
      i := i + 1;
    }
    tiles, circles := component.tileLayers, component.overlay;
    handlers := (component.dragging, component.scrollWheelZoom, component.doubleClickZoom);
  }
}
