/**
 * The pest and disease check (app/dashboard/pest-check/page.tsx): the photo
 * being checked, the analysis shown for it, and the two-second simulated
 * analysis.
 *
 * Reading a file is a parameter (the data URL, or `None` when no file was
 * chosen). The analysis timer is split from the click that starts it: the
 * click sets the page analyzing, and `AnalysisDone` is the timer firing. The
 * Analyze button is disabled while analyzing, so at most one timer is
 * pending, exactly while the page is analyzing. Toasts are recorded by title.
 */
module PestCheck {
  import opened Text

  datatype Analysis = Analysis(problem: string, cause: string, solution: string, prevention: string)

  /** The one detailed analysis the page knows. */
  const MockAnalysis := Analysis(
    "Rice Gall Midge",
    "Caused by the insect Orseolia oryzae, which lays eggs on rice plants. The larvae bore into the stem, causing a gall to form, which prevents the panicle from emerging.",
    "Apply a systemic insecticide like Thiamethoxam 25% WG or Imidacloprid 17.8% SL. Follow the recommended dosage on the product label. Spray during the early morning or late evening.",
    "Use resistant varieties of rice. Monitor fields regularly for silver shoots (galls). Maintain proper field sanitation and remove alternative host plants.")

  datatype HistoryItem = HistoryItem(id: string, date: string, image: string, problem: string)

  const MockHistory := [
    HistoryItem("hist1", "2024-07-25", "https://picsum.photos/seed/gall-midge/200/150", "Rice Gall Midge"),
    HistoryItem("hist2", "2024-07-18", "https://picsum.photos/seed/leaf-spot/200/150", "Brown Spot")]

  /** The stand-in analysis for a problem the page has no details for. */
  function Placeholder(problem: string): Analysis {
    Analysis(problem,
      "Details for this problem are not available in this demo.",
      "Please contact your local agricultural office for advice.",
      "Regular monitoring is always recommended.")
  }

  /**
   * The analysis a history item opens: the detailed one for its problem,
   * otherwise the stand-in naming the item's problem.
   */
  function ResultFor(problem: string): (r: Analysis)
    ensures r.problem == problem
    ensures r == MockAnalysis <==> problem == MockAnalysis.problem
    ensures problem != MockAnalysis.problem ==> r == Placeholder(problem)
  {
    if problem == MockAnalysis.problem then MockAnalysis else Placeholder(problem)
  }

  /** The first history item opens the detailed analysis, the second the stand-in for brown spot. */
  lemma HistoryResults()
    ensures ResultFor(MockHistory[0].problem) == MockAnalysis
    ensures ResultFor(MockHistory[1].problem) == Placeholder("Brown Spot")
  {
  }

  /** What the result card can show. */
  datatype Panel = Skeleton | EmptyPrompt | ResultPanel(analysis: Analysis)

  /** The result card's three conditional blocks, in page order. */
  function Panels(isAnalyzing: bool, result: Option<Analysis>): seq<Panel> {
    (if isAnalyzing then [Skeleton] else [])
    + (if !isAnalyzing && result.None? then [EmptyPrompt] else [])
    + (if result.Some? && !isAnalyzing then [ResultPanel(result.value)] else [])
  }

  /**
   * Exactly one block shows: the skeleton while analyzing, else the prompt
   * without a result, else the result.
   */
  lemma ExactlyOnePanel(isAnalyzing: bool, result: Option<Analysis>)
    ensures |Panels(isAnalyzing, result)| == 1
    ensures Panels(isAnalyzing, result)[0] == Skeleton <==> isAnalyzing
    ensures Panels(isAnalyzing, result)[0] == EmptyPrompt <==> !isAnalyzing && result.None?
    ensures Panels(isAnalyzing, result)[0].ResultPanel? <==> !isAnalyzing && result.Some?
    ensures Panels(isAnalyzing, result)[0].ResultPanel? ==> Panels(isAnalyzing, result)[0].analysis == result.value
  {
  }

  class PestCheckPage {
    var image: Option<string>
    var isAnalyzing: bool
    var analysisResult: Option<Analysis>
    var toasts: seq<string>

    /** A result on the page is always the detailed analysis or the stand-in for its problem. */
    predicate Valid()
      reads this
    {
      analysisResult.None? || analysisResult.value == ResultFor(analysisResult.value.problem)
    }

    constructor()
      ensures Valid()
      ensures image.None? && !isAnalyzing && analysisResult.None? && toasts == []
    {
      image := None;
      isAnalyzing := false;
      analysisResult := None;
      toasts := [];
    }

    /** `handleImageChange`: a chosen file becomes the image and clears the last result. */
    method ImageLoaded(dataUrl: Option<string>)
      requires Valid()
      modifies this
      ensures Valid()
      ensures dataUrl.None? ==> image == old(image) && analysisResult == old(analysisResult)
      ensures dataUrl.Some? ==> image == dataUrl && analysisResult.None?
      ensures isAnalyzing == old(isAnalyzing) && toasts == old(toasts)
    {
      if dataUrl.Some? {
        image := dataUrl;
        analysisResult := None;
      }
    }

    /** `handleAnalyzeClick`: without an image only an error toast; with one the analysis starts. */
    method AnalyzeClick()
      requires Valid() && !isAnalyzing
      modifies this
      ensures Valid()
      ensures image == old(image) && analysisResult == old(analysisResult)
      ensures image.None? ==> !isAnalyzing && toasts == old(toasts) + ["No Image Selected"]
      ensures image.Some? ==> isAnalyzing && toasts == old(toasts)
    {
      if image.None? {
        toasts := toasts + ["No Image Selected"];
        return;
      }
      isAnalyzing := true;
    }

    /** The analysis timer firing: the detailed analysis is shown, whatever the image is by then. */
    method AnalysisDone()
      requires Valid() && isAnalyzing
      modifies this
      ensures Valid()
      ensures analysisResult == Some(MockAnalysis) && !isAnalyzing
      ensures image == old(image) && toasts == old(toasts) + ["Analysis Complete!"]
    {
      analysisResult := Some(MockAnalysis);
      isAnalyzing := false;
      toasts := toasts + ["Analysis Complete!"];
    }

    /** `handleReset`: the image and the result are cleared. */
    method Reset()
      requires Valid()
      modifies this
      ensures Valid()
      ensures image.None? && analysisResult.None?
      ensures isAnalyzing == old(isAnalyzing) && toasts == old(toasts)
    {
      image := None;
      analysisResult := None;
    }

    /** `handleViewHistory`: the item's picture and its analysis are shown. */
    method ViewHistory(item: HistoryItem)
      requires Valid()
      modifies this
      ensures Valid()
      ensures image == Some(item.image) && analysisResult == Some(ResultFor(item.problem))
      ensures isAnalyzing == old(isAnalyzing) && toasts == old(toasts)
    {
      image := Some(item.image);
      if item.problem == MockAnalysis.problem {
        analysisResult := Some(MockAnalysis);
      } else {
        analysisResult := Some(Placeholder(item.problem));
      }
    }
  }

  /**
   * A photo checked from a fresh page: while the timer runs the card shows
   * the skeleton, and afterwards the detailed analysis.
   */
  method CheckPhoto(dataUrl: string) returns (during: seq<Panel>, after: seq<Panel>)
    ensures during == [Skeleton]
    ensures after == [ResultPanel(MockAnalysis)]
  {
    var page := new PestCheckPage();
    page.ImageLoaded(Some(dataUrl));
    page.AnalyzeClick();
    during := Panels(page.isAnalyzing, page.analysisResult);
    page.AnalysisDone();
    after := Panels(page.isAnalyzing, page.analysisResult);
  }

  /**
   * The remove button stays active during an analysis: removing the photo
   * then still ends with the analysis shown next to no photo.
   */
  method ResetWhileAnalyzing(dataUrl: string) returns (image: Option<string>, after: seq<Panel>)
    ensures image.None?
    ensures after == [ResultPanel(MockAnalysis)]
  {
    var page := new PestCheckPage();
    page.ImageLoaded(Some(dataUrl));
    page.AnalyzeClick();
    page.Reset();
    page.AnalysisDone();
    image := page.image;
    after := Panels(page.isAnalyzing, page.analysisResult);
  }
}
