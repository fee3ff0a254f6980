/**
  The crop-diagnosis page. The user picks a crop and an image; Analyze starts
  a simulated analysis, and when it completes a canned result for the crop is
  shown first in the session's result list and handed to the history store.
  The analysis runs in two halves: `Analyze` is the part of `handleAnalyze`
  before its two-second wait, `Complete` the part after it, with the way the
  wait ended given as an `Outcome`.
 */
module Diagnosis {
  import opened Wrappers
  import opened Types
  import Storage

  const PopularCrops := ["Tomato", "Paddy", "Maize", "Banana", "Coconut", "Cotton",
                         "Wheat", "Potato", "Chilli", "Onion", "Sugarcane", "Mango"]

  /** The canned entries' own timestamp (module-load time); every produced result replaces it. */
  const CannedTimestamp := ""

  const TomatoSample := DiagnosisResult(
    "Early Blight", "Alternaria solani", 89, High,
    ["Remove and destroy infected leaves immediately",
     "Apply copper-based fungicide every 7-10 days",
     "Ensure proper spacing between plants for air circulation",
     "Avoid overhead watering to reduce leaf wetness"],
    CannedTimestamp, "early-blight.jpg")

  const BananaSample := DiagnosisResult(
    "Yellow Leaf Spot", "Mycosphaerella musicola", 76, Medium,
    ["Remove affected leaves to prevent spread",
     "Improve drainage and reduce overhead watering",
     "Apply potassium-rich fertilizer to strengthen plants",
     "Use fungicide if infection is severe"],
    CannedTimestamp, "yellow-leaf-spot.jpg")

  const SampleDiagnoses: map<string, DiagnosisResult> := map["Tomato" := TomatoSample, "Banana" := BananaSample]

  /** The crop whose entry stands in for every crop without one. */
  const FallbackCrop := "Tomato"

  /** The canned entry for the selected crop; no crop, or a crop without an entry, gets the Tomato entry. */
  function SampleFor(crop: string): (r: DiagnosisResult)
    ensures crop in SampleDiagnoses ==> r == SampleDiagnoses[crop]
    ensures crop !in SampleDiagnoses ==> r == SampleDiagnoses[FallbackCrop]
    ensures r in SampleDiagnoses.Values
  {
    if crop != "" && crop in SampleDiagnoses then SampleDiagnoses[crop] else SampleDiagnoses[FallbackCrop]
  }

  /** The result record: the canned entry with the user's image and the completion time. */
  function Diagnose(crop: string, image: string, at: string): (r: DiagnosisResult)
    ensures r.image == image && r.timestamp == at
    ensures r.(image := SampleFor(crop).image, timestamp := SampleFor(crop).timestamp) == SampleFor(crop)
  {
    SampleFor(crop).(image := image, timestamp := at)
  }

  /** The history query: the crop's name, or "Crop" when none is selected, followed by " diagnosis". */
  function QueryFor(crop: string): (q: string)
    ensures |q| >= 10 && q[|q| - 10..] == " diagnosis"
    ensures q[..|q| - 10] == if crop == "" then "Crop" else crop
  {
    (if crop == "" then "Crop" else crop) + " diagnosis"
  }

  /** The record handed to `saveToHistory` for a completed diagnosis. */
  function DiagnosisEntry(id: string, crop: string, at: string, data: DiagnosisResult): (e: HistoryEntry)
    ensures e.kind == DiagnosisActivity && e.preview == data.disease && e.data == data
    ensures e.query == QueryFor(crop)
    ensures e.id == id && e.timestamp == at
  {
    HistoryEntry(id, QueryFor(crop), DiagnosisActivity, at, data.disease, data)
  }

  /** The toast shown after a completed diagnosis. */
  function CompletedToast(disease: string, crop: string): (t: Toast)
    ensures t.title == "Diagnosis complete" && !t.destructive
    ensures t.description.Some?
    ensures var suffix := if crop == "" then "crop" else crop;
      |t.description.value| == |disease| + 13 + |suffix| &&
      t.description.value[..|disease|] == disease &&
      t.description.value[|disease|..|disease| + 13] == " detected in " &&
      t.description.value[|disease| + 13..] == suffix
  {
    Toast("Diagnosis complete", Some(disease + " detected in " + (if crop == "" then "crop" else crop)), false)
  }

  const AnalysisFailed := Toast("Analysis failed", Some("Please try again"), true)

  /** The canned Tomato and Banana entries, and the fallback for every other crop. */
  lemma CannedEntries(crop: string)
    ensures SampleFor("Tomato").disease == "Early Blight" && SampleFor("Tomato").status == High
    ensures SampleFor("Tomato").confidence == 89
    ensures SampleFor("Banana").disease == "Yellow Leaf Spot" && SampleFor("Banana").status == Medium
    ensures SampleFor("Banana").confidence == 76
    ensures crop != "Banana" ==> SampleFor(crop) == TomatoSample
  {
  }

  /** The crop and image the in-flight `handleAnalyze` call read when it started. */
  datatype Request = Request(crop: string, image: string)

  /**
    How the wait ended: `Resolved` carries the clock readings taken after it
    (the id from `Date.now()`, the result's and the entry's ISO times);
    `SaveRejected` is `saveToHistory` throwing after the result was shown;
    `WaitRejected` is any failure before `setResults`; the timer promise
    itself never rejects.
   */
  datatype Outcome =
    | Resolved(id: string, resultAt: string, entryAt: string)
    | SaveRejected(resultAt: string)
    | WaitRejected

  class DiagnosisPage {
    var selectedCrop: string
    var selectedImage: Option<string>
    var isAnalyzing: bool
    var results: seq<DiagnosisResult>
    /** The values the in-flight analysis captured; present exactly while analysing. */
    var pending: Option<Request>
    const store: Storage.LocalStore

    ghost predicate Valid()
      reads this
    {
      isAnalyzing <==> pending.Some?
    }

    constructor (store: Storage.LocalStore)
      ensures Valid() && this.store == store
      ensures selectedCrop == "" && selectedImage == None && !isAnalyzing && results == []
    {
      selectedCrop := "";
      selectedImage := None;
      isAnalyzing := false;
      results := [];
      pending := None;
      this.store := store;
    }

    /** The crop select. */
    method SelectCrop(crop: string)
      requires Valid()
      modifies this
      ensures Valid() && selectedCrop == crop
      ensures selectedImage == old(selectedImage) && isAnalyzing == old(isAnalyzing)
      ensures results == old(results) && pending == old(pending)
    {
      selectedCrop := crop;
    }

    /** The file reader's load event: the image, as a data URL, becomes the selection. */
    method ImageLoaded(dataUrl: string)
      requires Valid()
      modifies this
      ensures Valid() && selectedImage == Some(dataUrl)
      ensures selectedCrop == old(selectedCrop) && isAnalyzing == old(isAnalyzing)
      ensures results == old(results) && pending == old(pending)
    {
      selectedImage := Some(dataUrl);
    }

    /** The Cancel button: clears the image and nothing else. */
    method Cancel()
      requires Valid()
      modifies this
      ensures Valid() && selectedImage == None
      ensures selectedCrop == old(selectedCrop) && isAnalyzing == old(isAnalyzing)
      ensures results == old(results) && pending == old(pending)
    {
      selectedImage := None;
    }

    /** The Analyze button is shown with an image and enabled unless analysing or no crop is chosen. */
    predicate AnalyzeEnabled()
      reads this
    {
      selectedImage.Some? && !(isAnalyzing || selectedCrop == "")
    }

    /**
      `handleAnalyze` up to its wait: without an image it returns at once;
      otherwise the page is marked as analysing. Only one analysis is in
      flight at a time.
     */
    method Analyze() returns (started: bool)
      requires Valid() && !isAnalyzing
      modifies this
      ensures Valid()
      ensures started <==> old(selectedImage).Some?
      ensures isAnalyzing == started
      ensures started ==> pending == Some(Request(selectedCrop, old(selectedImage).value))
      ensures selectedCrop == old(selectedCrop) && selectedImage == old(selectedImage) && results == old(results)
    {
      if selectedImage == None {
        return false;
      }
      isAnalyzing := true;
      pending := Some(Request(selectedCrop, selectedImage.value));
      started := true;
    }

    /** A press of the Analyze button, which does nothing while it is disabled. */
    method PressAnalyze() returns (started: bool)
      requires Valid()
      modifies this
      ensures Valid()
      ensures started <==> old(AnalyzeEnabled())
      ensures started ==> isAnalyzing && pending == Some(Request(selectedCrop, old(selectedImage).value))
      ensures !started ==> isAnalyzing == old(isAnalyzing) && pending == old(pending)
      ensures selectedCrop == old(selectedCrop) && selectedImage == old(selectedImage) && results == old(results)
    {
      started := false;
      if AnalyzeEnabled() {
        started := Analyze();
      }
    }

    /**
      `handleAnalyze` after its wait. On success the result goes first in
      the list, one history entry is saved and the image is cleared; on a
      failure the image stays. The page stops analysing either way.
     */
    method Complete(outcome: Outcome) returns (toast: Toast)
      requires Valid() && isAnalyzing
      modifies this, store
      ensures Valid() && !isAnalyzing
      ensures selectedCrop == old(selectedCrop) && store.profile == old(store.profile)
      ensures outcome.Resolved? ==>
        var req := old(pending).value;
        var data := Diagnose(req.crop, req.image, outcome.resultAt);
        && results == [data] + old(results)
        && store.history == old(store.history) + [DiagnosisEntry(outcome.id, req.crop, outcome.entryAt, data)]
        && selectedImage == None
        && toast == CompletedToast(data.disease, req.crop)
      ensures outcome.SaveRejected? ==>
        var req := old(pending).value;
        && results == [Diagnose(req.crop, req.image, outcome.resultAt)] + old(results)
        && store.history == old(store.history)
        && selectedImage == old(selectedImage)
        && toast == AnalysisFailed
      ensures outcome.WaitRejected? ==>
        && results == old(results)
        && store.history == old(store.history)
        && selectedImage == old(selectedImage)
        && toast == AnalysisFailed
    {
      var req := pending.value;
      if outcome.WaitRejected? {
        toast := AnalysisFailed;
      } else {
        var data := Diagnose(req.crop, req.image, outcome.resultAt);
        results := [data] + results;
        if outcome.SaveRejected? {
          toast := AnalysisFailed;
        } else {
          store.SaveToHistory(DiagnosisEntry(outcome.id, req.crop, outcome.entryAt, data));
          toast := CompletedToast(data.disease, req.crop);
          selectedImage := None;
        }
      }
      isAnalyzing := false;
      pending := None;
    }
  }

  /** Tomato chosen, an image loaded, Analyze pressed and the wait resolved. */
  method TomatoEndToEnd(image: string, id: string, resultAt: string, entryAt: string)
    returns (results: seq<DiagnosisResult>, history: seq<HistoryEntry>, shown: Option<string>)
    ensures |results| == 1 && results[0].disease == "Early Blight"
    ensures results[0].confidence == 89 && results[0].status == High && results[0].image == image
    ensures |history| == 1 && history[0].kind == DiagnosisActivity && history[0].preview == "Early Blight"
    ensures history[0].query == "Tomato diagnosis" && history[0].data == results[0]
    ensures shown == None
  {
    var store := new Storage.LocalStore();
    var page := new DiagnosisPage(store);
    page.SelectCrop("Tomato");
    page.ImageLoaded(image);
    var started := page.PressAnalyze();
    var toast := page.Complete(Resolved(id, resultAt, entryAt));
    results, history, shown := page.results, store.history, page.selectedImage;
  }

  /**
    With no crop chosen the button stays disabled, but `handleAnalyze` itself
    only checks the image: called directly it falls back to the Tomato entry
    and records a "Crop diagnosis".
   */
  method NoCropFallback(image: string, id: string, resultAt: string, entryAt: string)
    returns (buttonStarts: bool, results: seq<DiagnosisResult>, history: seq<HistoryEntry>)
    ensures !buttonStarts
    ensures |results| == 1 && results[0].disease == "Early Blight"
    ensures |history| == 1 && history[0].query == "Crop diagnosis" && history[0].preview == "Early Blight"
  {
    var store := new Storage.LocalStore();
    var page := new DiagnosisPage(store);
    page.ImageLoaded(image);
    buttonStarts := page.PressAnalyze();
    var started := page.Analyze();
    var toast := page.Complete(Resolved(id, resultAt, entryAt));
    results, history := page.results, store.history;
  }
}
