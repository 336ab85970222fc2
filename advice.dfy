/**
 * The advisor page (advice/page.tsx): the crop buttons that select and
 * deselect a crop, the advice entry for the selection, the soil cards built
 * from the farmer's parcels, and the crop roadmap with separators between
 * its stages.
 *
 * Of each advice entry the model keeps the two suitability flags and the
 * roadmap; the texts, techniques and common mistakes are display only.
 */
module Advice {
  import opened Text
  import opened Farm

  /** The `value`s of the crop buttons, in the order shown. */
  const CropChoices := ["paddy", "pulses", "vegetables", "pokkali"]

  datatype RoadmapStep = RoadmapStep(stage: nat, title: string, duration: string)

  datatype CropInfo = CropInfo(seasonalSuitable: bool, weatherSuitable: bool, roadmap: seq<RoadmapStep>)

  /** `mockData`: the advice entries, by crop value. */
  function MockData(): map<string, CropInfo> {
    map[
      "paddy" := CropInfo(true, true,
        [RoadmapStep(1, "Land Preparation", "1-2 weeks"),
         RoadmapStep(2, "Sowing & Transplanting", "2-3 weeks"),
         RoadmapStep(3, "Vegetative Growth", "8-10 weeks"),
         RoadmapStep(4, "Flowering & Grain Filling", "4-5 weeks"),
         RoadmapStep(5, "Harvesting", "1 week")]),
      "pulses" := CropInfo(true, true,
        [RoadmapStep(1, "Seed Treatment", "Day 1"),
         RoadmapStep(2, "Sowing", "1 week"),
         RoadmapStep(3, "Flowering", "4-5 weeks"),
         RoadmapStep(4, "Pod Development & Harvest", "3-4 weeks")]),
      "vegetables" := CropInfo(true, true,
        [RoadmapStep(1, "Bed Preparation", "1 week"),
         RoadmapStep(2, "Planting", "1-2 weeks"),
         RoadmapStep(3, "Growth & Maintenance", "4-8 weeks"),
         RoadmapStep(4, "Harvesting", "Ongoing")]),
      "pokkali" := CropInfo(true, false,
        [RoadmapStep(1, "Rice Cultivation", "Monsoon (4-5 months)"),
         RoadmapStep(2, "Field Preparation for Prawns", "2 weeks"),
         RoadmapStep(3, "Prawn Farming", "Post-Monsoon (4-6 months)")])
    ]
  }

  // ---------------------------------------------------------------------------
  // Selecting a crop
  // ---------------------------------------------------------------------------

  /** A click on the button of `clicked`: the selected crop is deselected, any other selected. */
  function Toggle(selected: Option<string>, clicked: string): (r: Option<string>)
    ensures r.None? <==> selected == Some(clicked)
    ensures r.Some? ==> r.value == clicked
  {
    if selected == Some(clicked) then None else Some(clicked)
  }

  /** Two clicks on the same button undo each other. */
  lemma ToggleTwice(selected: Option<string>, clicked: string)
    requires selected.None? || selected == Some(clicked)
    ensures Toggle(Toggle(selected, clicked), clicked) == selected
  {
  }

  /** `cropData`: the entry for the selected crop, none when nothing is selected or it has no entry. */
  function CropData(selected: Option<string>): Option<CropInfo> {
    if selected.Some? && selected.value in MockData() then Some(MockData()[selected.value]) else None
  }

  /** Every crop button has an entry, so the "Data Not Available" panel never shows. */
  lemma EveryChoiceHasData(selected: Option<string>)
    requires selected.None? || selected.value in CropChoices
    ensures CropData(selected).Some? <==> selected.Some?
  {
  }

  /** The page's one piece of state. */
  class AdvisorPage {
    var selectedCrop: Option<string>

    /** The selection is always one of the buttons' crops. */
    predicate Valid()
      reads this
    {
      selectedCrop.None? || selectedCrop.value in CropChoices
    }

    constructor()
      ensures Valid() && selectedCrop.None?
    {
      selectedCrop := None;
    }

    /** The button of `CropChoices[i]`. */
    method Click(i: nat)
      requires Valid() && i < |CropChoices|
      modifies this
      ensures Valid()
      ensures selectedCrop == Toggle(old(selectedCrop), CropChoices[i])
      ensures CropData(selectedCrop).Some? <==> selectedCrop.Some?
    {
      var value := CropChoices[i];
      selectedCrop := if selectedCrop == Some(value) then None else Some(value);
      EveryChoiceHasData(selectedCrop);
    }
  }

  // ---------------------------------------------------------------------------
  // Soil cards
  // ---------------------------------------------------------------------------

  /** `[...new Set(xs)]`: each value once, where it first occurs. */
  function Dedup(xs: seq<string>): (r: seq<string>)
    ensures forall x :: x in r <==> x in xs
    ensures forall i, j :: 0 <= i < j < |r| ==> r[i] != r[j]
  {
    if xs == [] then []
    else
      var d := Dedup(xs[..|xs| - 1]);
      assert forall x :: x in xs <==> x in xs[..|xs| - 1] || x == xs[|xs| - 1] by {
        assert xs == xs[..|xs| - 1] + [xs[|xs| - 1]];
      }
      if xs[|xs| - 1] in d then d else d + [xs[|xs| - 1]]
  }

  /**
   * The values keep the order of their first occurrences: what a prefix of
   * the list contributes comes first, in its own order.
   */
  lemma {:induction false} DedupPrefix(xs: seq<string>, k: nat)
    requires k <= |xs|
    ensures Dedup(xs[..k]) <= Dedup(xs)
  {
    if k < |xs| {
      assert xs[..|xs|][..k] == xs[..k];
      DedupPrefix(xs[..|xs| - 1], k);
      assert xs[..|xs| - 1][..k] == xs[..k];
    } else {
      assert xs[..k] == xs;
    }
  }

  /** `uniqueSoilTypes`: the soil types of the parcels, each once, in parcel order. */
  function UniqueSoilTypes(p: FarmerProfile): seq<string> {
    Dedup(Soils(p))
  }

  /** `soilSuitability`: the crops suited to each soil type. */
  function SoilTable(): map<string, seq<string>> {
    map[
      "Alluvial" := ["Paddy", "Banana", "Sugarcane", "Vegetables"],
      "Lateritic" := ["Coconut", "Pepper", "Cashew", "Tapioca"],
      "Sandy" := ["Coconut", "Groundnut", "Cucumber", "Melons"],
      "Clay" := ["Paddy", "Vegetables", "Banana"],
      "Loamy" := ["Vegetables", "Fruits", "Paddy", "Sugarcane"],
      "Sandy Loam" := ["Groundnut", "Pulses", "Vegetables"]
    ]
  }

  /** The crops a soil card names: the table's list, or `N/A` for a soil it does not know. */
  function SuitableCrops(soil: string): seq<string> {
    if soil in SoilTable() then SoilTable()[soil] else ["N/A"]
  }

  /** The text of a soil card: the crops joined with `, `. */
  function SuitableText(soil: string): string {
    Join(SuitableCrops(soil), ", ")
  }

  /**
   * A soil the table does not know, such as a new farmer's, reads `N/A`;
   * the table never gives an empty list, so the fallback is only for
   * unknown soils.
   */
  lemma SuitableSpec(soil: string)
    ensures soil !in SoilTable() ==> SuitableText(soil) == "N/A"
    ensures soil in SoilTable() ==> |SuitableCrops(soil)| >= 3 && SuitableCrops(soil) == SoilTable()[soil]
    ensures SuitableText("Unknown") == "N/A"
  {
    assert "Unknown" !in SoilTable();
  }

  // ---------------------------------------------------------------------------
  // The roadmap
  // ---------------------------------------------------------------------------

  datatype RoadmapItem = Stage(step: RoadmapStep) | Separator

  /** The roadmap from stage `i` on: each stage, then a separator unless it is the last. */
  function RenderFrom(steps: seq<RoadmapStep>, i: nat): seq<RoadmapItem>
    requires i <= |steps|
    decreases |steps| - i
  {
    if i == |steps| then []
    else [Stage(steps[i])] + (if i < |steps| - 1 then [Separator] else []) + RenderFrom(steps, i + 1)
  }

  function Render(steps: seq<RoadmapStep>): seq<RoadmapItem> {
    RenderFrom(steps, 0)
  }

  /** `n` stages from `i` on render as `2 n - 1` items. */
  lemma {:induction false} RenderFromLength(steps: seq<RoadmapStep>, i: nat)
    requires i < |steps|
    ensures |RenderFrom(steps, i)| == 2 * (|steps| - i) - 1
    decreases |steps| - i
  {
    if i < |steps| - 1 {
      RenderFromLength(steps, i + 1);
    }
  }

  /** One step of the rendering: the stage, then a separator unless it is the last. */
  lemma RenderFromUnfold(steps: seq<RoadmapStep>, i: nat)
    requires i < |steps|
    ensures i == |steps| - 1 ==> RenderFrom(steps, i) == [Stage(steps[i])]
    ensures i < |steps| - 1 ==> RenderFrom(steps, i) == [Stage(steps[i]), Separator] + RenderFrom(steps, i + 1)
  {
  }

  /** The `k`-th stage from `i` on sits at position `2 k`. */
  lemma {:induction false} RenderFromStage(steps: seq<RoadmapStep>, i: nat, k: nat)
    requires i + k < |steps|
    ensures 2 * k < |RenderFrom(steps, i)| && RenderFrom(steps, i)[2 * k] == Stage(steps[i + k])
    decreases k
  {
    RenderFromLength(steps, i);
    RenderFromUnfold(steps, i);
    if k > 0 {
      RenderFromStage(steps, i + 1, k - 1);
      assert 2 * k == 2 + 2 * (k - 1);
    }
  }

  /** Position `2 k + 1` holds a separator, between the `k`-th stage and the next. */
  lemma {:induction false} RenderFromSeparator(steps: seq<RoadmapStep>, i: nat, k: nat)
    requires i + k + 1 < |steps|
    ensures 2 * k + 1 < |RenderFrom(steps, i)| && RenderFrom(steps, i)[2 * k + 1] == Separator
    decreases k
  {
    RenderFromLength(steps, i);
    var rest := RenderFrom(steps, i + 1);
    assert RenderFrom(steps, i) == [Stage(steps[i]), Separator] + rest;
    if k > 0 {
      RenderFromSeparator(steps, i + 1, k - 1);
      assert 2 * k + 1 == 2 + (2 * (k - 1) + 1);
    }
  }

  /** The number of separators a roadmap shows. */
  function CountSeparators(items: seq<RoadmapItem>): nat {
    if items == [] then 0
    else (if items[0] == Separator then 1 else 0) + CountSeparators(items[1..])
  }

  lemma {:induction false} RenderFromSeparators(steps: seq<RoadmapStep>, i: nat)
    requires i < |steps|
    ensures CountSeparators(RenderFrom(steps, i)) == |steps| - i - 1
    decreases |steps| - i
  {
    var r := RenderFrom(steps, i);
    if i < |steps| - 1 {
      RenderFromSeparators(steps, i + 1);
      assert r == [Stage(steps[i]), Separator] + RenderFrom(steps, i + 1);
      assert r[1..][1..] == RenderFrom(steps, i + 1);
    } else {
      assert r == [Stage(steps[i])];
      assert r[1..] == [];
    }
  }

  /** Every roadmap of the advice entries: `n` stages show `n - 1` separators. */
  lemma RoadmapSeparators(steps: seq<RoadmapStep>)
    requires |steps| >= 1
    ensures |Render(steps)| == 2 * |steps| - 1
    ensures CountSeparators(Render(steps)) == |steps| - 1
    ensures forall k :: 0 <= k < |steps| ==> Render(steps)[2 * k] == Stage(steps[k])
    ensures forall k :: 0 <= k < |steps| - 1 ==> Render(steps)[2 * k + 1] == Separator
  {
    RenderFromLength(steps, 0);
    RenderFromSeparators(steps, 0);
    forall k | 0 <= k < |steps| {
      RenderFromStage(steps, 0, k);
    }
    forall k | 0 <= k < |steps| - 1 {
      RenderFromSeparator(steps, 0, k);
    }
  }

  // ---------------------------------------------------------------------------
  // The page as a whole
  // ---------------------------------------------------------------------------

  /** The soil types of the parcels, in parcel order. */
  function Soils(p: FarmerProfile): (r: seq<string>)
    ensures |r| == |p.farmParcels|
    ensures forall k :: 0 <= k < |r| ==> r[k] == p.farmParcels[k].soilType
  {
    seq(|p.farmParcels|, k requires 0 <= k < |p.farmParcels| => p.farmParcels[k].soilType)
  }

  /** Nothing is shown while the session loads or without a profile; otherwise one soil card per soil type. */
  function SoilCards(isAppLoading: bool, profile: Option<FarmerProfile>): (r: Option<seq<string>>)
    ensures r.None? <==> isAppLoading || profile.None?
    ensures r.Some? ==> forall k :: 0 <= k < |profile.value.farmParcels| ==>
      profile.value.farmParcels[k].soilType in r.value
    ensures r.Some? ==> forall s :: s in r.value ==> s in Soils(profile.value)
    ensures r.Some? ==> forall i, j :: 0 <= i < j < |r.value| ==> r.value[i] != r.value[j]
  {
    if isAppLoading || profile.None? then None
    else
      var soils := Soils(profile.value);
      assert forall k :: 0 <= k < |soils| ==> soils[k] in soils;
      Some(Dedup(soils))
  }
}
