/**
 * The map explorer screen (`screens/MapExplorer.tsx`): a checklist of four layer
 * labels that is passed to the map component, a cloud-cover filter slider and a
 * button that hands a fixed region's analysis context to the application.
 */
module MapExplorer {
  import opened Types
  import opened Text
  import SimulatedMap

  // ---------------------------------------------------------------- list helpers

  /** `s.filter(l => l !== x)`. */
  function Without(s: seq<string>, x: string): seq<string>
  {
    if s == [] then []
    else (if s[0] == x then [] else [s[0]]) + Without(s[1..], x)
  }

  /** No label appears twice. */
  predicate Distinct(s: seq<string>)
  {
    forall y | y in s :: multiset(s)[y] <= 1
  }

  /** Filtering removes every copy of `x` and keeps every other element as often as before. */
  lemma {:induction false} WithoutCounts(s: seq<string>, x: string)
    ensures multiset(Without(s, x)) == multiset(s)[x := 0]
  {
    if s != [] {
      WithoutCounts(s[1..], x);
      assert s == [s[0]] + s[1..];
    }
  }

  /** After filtering, `x` is gone and every other element is present iff it was before. */
  lemma WithoutSpec(s: seq<string>, x: string)
    ensures multiset(Without(s, x)) == multiset(s)[x := 0]
    ensures x !in Without(s, x)
    ensures forall y :: y != x ==> (y in Without(s, x) <==> y in s)
  {
    WithoutCounts(s, x);
    assert x !in multiset(Without(s, x));
    forall y | y != x
      ensures y in Without(s, x) <==> y in s
    {
      assert y in multiset(Without(s, x)) <==> y in multiset(s);
    }
  }

  /** Filtering distributes over concatenation, so it keeps the order of what it keeps. */
  lemma {:induction false} WithoutAppend(a: seq<string>, b: seq<string>, x: string)
    ensures Without(a + b, x) == Without(a, x) + Without(b, x)
  {
    if a == [] {
      assert a + b == b;
    } else {
      var rest := a[1..] + b;
      assert (a + b)[0] == a[0] && (a + b)[1..] == rest;
      WithoutAppend(a[1..], b, x);
      var head := if a[0] == x then [] else [a[0]];
      calc {
        Without(a + b, x);
        head + Without(rest, x);
        head + (Without(a[1..], x) + Without(b, x));
        (head + Without(a[1..], x)) + Without(b, x);
        Without(a, x) + Without(b, x);
      }
    }
  }

  /** A filter that matches nothing returns the list unchanged. */
  lemma {:induction false} WithoutAbsent(s: seq<string>, x: string)
    requires x !in s
    ensures Without(s, x) == s
  {
    if s != [] {
      WithoutAbsent(s[1..], x);
      assert s == [s[0]] + s[1..];
    }
  }

  // ---------------------------------------------------------------- toggling

  /** `toggleLayer`: drop every copy of a checked label, append an unchecked one. */
  function Toggle(prev: seq<string>, layer: string): seq<string>
  {
    if layer in prev then Without(prev, layer) else prev + [layer]
  }

  /** Toggling flips the toggled label's checkbox and leaves every other checkbox alone. */
  lemma ToggleMembership(prev: seq<string>, layer: string)
    ensures layer in Toggle(prev, layer) <==> layer !in prev
    ensures forall y :: y != layer ==> (y in Toggle(prev, layer) <==> y in prev)
  {
    WithoutSpec(prev, layer);
  }

  /** Checking a label appends it after the labels already checked, in their order. */
  lemma ToggleAppends(prev: seq<string>, layer: string)
    requires layer !in prev
    ensures |Toggle(prev, layer)| == |prev| + 1
    ensures Toggle(prev, layer)[..|prev|] == prev
    ensures Toggle(prev, layer)[|prev|] == layer
  {
  }

  /** Toggling keeps a list free of duplicates. */
  lemma ToggleKeepsDistinct(prev: seq<string>, layer: string)
    requires Distinct(prev)
    ensures Distinct(Toggle(prev, layer))
  {
    WithoutSpec(prev, layer);
    if layer !in prev {
      assert multiset(prev + [layer]) == multiset(prev) + multiset{layer};
    }
  }

  /** Checking and then unchecking a label restores the previous list exactly. */
  lemma ToggleTwiceUnchecked(prev: seq<string>, layer: string)
    requires layer !in prev
    ensures Toggle(Toggle(prev, layer), layer) == prev
  {
    WithoutAppend(prev, [layer], layer);
    WithoutAbsent(prev, layer);
    assert Without([layer], layer) == [];
  }

  /**
   * Unchecking and re-checking a label restores the same set of labels, with the
   * label moved to the end of the list.
   */
  lemma ToggleTwiceChecked(prev: seq<string>, layer: string)
    requires layer in prev && Distinct(prev)
    ensures Toggle(Toggle(prev, layer), layer) == Without(prev, layer) + [layer]
    ensures multiset(Toggle(Toggle(prev, layer), layer)) == multiset(prev)
  {
    WithoutSpec(prev, layer);
    assert multiset(prev)[layer] == 1;
    calc {
      multiset(Without(prev, layer) + [layer]);
      multiset(prev)[layer := 0] + multiset{layer};
      multiset(prev);
    }
  }

  // ---------------------------------------------------------------- the screen

  /** The checklist's labels, in display order. */
  const LayerOptions: seq<string> := ["Sentinel-2 RGB", "Landsat 8", "SAR (Radar)", "U-Net Mask (AI)"]

  class MapExplorerScreen {
    var activeLayers: seq<string>
    /** Maximum cloud cover, in percent (a range input with step 1). */
    var cloudCover: int

    /** Only offered labels are checked, none twice, and the slider stays in range. */
    ghost predicate Valid()
      reads this
    {
      && Distinct(activeLayers)
      && (forall l | l in activeLayers :: l in LayerOptions)
      && 0 <= cloudCover <= 100
    }

    constructor ()
      ensures Valid()
      ensures activeLayers == ["Sentinel-2 RGB"] && cloudCover == 12
    {
      activeLayers := ["Sentinel-2 RGB"];
      cloudCover := 12;
      new;
      assert multiset(activeLayers) == multiset{"Sentinel-2 RGB"};
    }

    /** Whether a label's checkbox is ticked. */
    predicate Checked(layer: string)
      reads this
    {
      layer in activeLayers
    }

    /** A checkbox's change handler. */
    method ToggleLayer(layer: string)
      requires Valid() && layer in LayerOptions
      modifies this`activeLayers
      ensures Valid()
      ensures activeLayers == Toggle(old(activeLayers), layer)
      ensures Checked(layer) <==> !old(Checked(layer))
      ensures forall y :: y != layer ==> (Checked(y) <==> old(Checked(y)))
    {
      ToggleMembership(activeLayers, layer);
      ToggleKeepsDistinct(activeLayers, layer);
      activeLayers := Toggle(activeLayers, layer);
    }

    /** The cloud-cover slider; the input only produces values from 0 to 100. */
    method SetCloudCover(v: int)
      requires Valid() && 0 <= v <= 100
      modifies this`cloudCover
      ensures Valid() && cloudCover == v
    {
      cloudCover := v;
    }
  }

  // ---------------------------------------------------------------- analysing the region

  const RegionName: string := "Delta del Po (Lat: 45.44, Lon: 12.33)"
  const RegionImage: string :=
    "https://images.unsplash.com/photo-1559827291-72ee739d0d9a?auto=format&fit=crop&q=80&w=1200"

  /**
   * `handleAnalyzeClick`'s context. The clock reading that makes up the identifier and
   * the locale date string are parameters.
   */
  function RegionContext(stamp: string, date: string): (c: AnalysisContext)
    ensures c.source == MapSource && c.id == "map-" + stamp && c.date == date
    ensures c.metrics.accuracy <= 90.0 && c.metrics.confidence == High
  {
    AnalysisContext("map-" + stamp, MapSource, RegionImage, RegionName,
                    Metrics(89.4, "38.2 km²", High), date)
  }

  // ---------------------------------------------------------------- what the map shows

  /** The initial selection shows satellite tiles, no bloom overlay and no grid. */
  lemma InitialSelection()
    ensures SimulatedMap.SelectTiles(["Sentinel-2 RGB"]) == SimulatedMap.SatelliteImagery
    ensures SimulatedMap.Overlay(["Sentinel-2 RGB"]) == []
    ensures !SimulatedMap.ShowGrid(["Sentinel-2 RGB"])
    ensures SimulatedMap.FooterText(["Sentinel-2 RGB"]) == "LIVE FEED | SATELLITE VIEW"
  {
    SimulatedMap.SentinelIsSatelliteView();
    SimulatedMap.NoMaskLetters(["Sentinel-2 RGB"]);
    SimulatedMap.SatelliteWithoutMask(["Sentinel-2 RGB"]);
  }

  lemma MaskLabelIsMask()
    ensures SimulatedMap.ShowMask(["U-Net Mask (AI)"])
  {
    SimulatedMap.LabelIncludesAt(["U-Net Mask (AI)"], SimulatedMap.MaskKeywords, 0, 0, 6);
  }

  lemma MaskLabelHasNoSatellite()
    ensures !SimulatedMap.ShowSatellite(["U-Net Mask (AI)"])
  {
    SimulatedMap.NoLabelIncludes(["U-Net Mask (AI)"], SimulatedMap.SatelliteKeywords, "SLR");
  }

  /** The mask label alone draws the bloom overlay over the dark basemap with the grid. */
  lemma MaskOptionAlone()
    ensures SimulatedMap.SelectTiles(["U-Net Mask (AI)"]) == SimulatedMap.DarkBasemap
    ensures |SimulatedMap.Overlay(["U-Net Mask (AI)"])| == 14
    ensures SimulatedMap.ShowGrid(["U-Net Mask (AI)"])
    ensures SimulatedMap.FooterText(["U-Net Mask (AI)"]) == "LIVE FEED | DATA MODE"
  {
    MaskLabelIsMask();
    MaskLabelHasNoSatellite();
    SimulatedMap.MaskWithoutSatellite(["U-Net Mask (AI)"]);
  }
}
