/** `analyzeFoodFromPhoto(filePath)`: upload the photo, ask the vision
    service for labels, rank them, look up the nutrition of the best one,
    and fold every outcome into one discriminated result. The upload, the
    vision exchange and the two food-database exchanges are scripted
    inputs; `calls` records the requests made, in order. */
module FoodAnalysis {
  import opened Wrappers
  import opened NutritionTypes
  import opened Http
  import NutritionLookup
  import Seqs
  import StableSort

  /** What the image upload did: threw, or returned `secure_url` and `public_id`. */
  datatype UploadOutcome = UploadThrew(reason: string) | Uploaded(secureUrl: string, publicId: string)

  /** A label annotation; `topicality` is the confidence, kept only as an ordering key. */
  datatype Label = Label(description: Option<string>, topicality: int)
  datatype AnnotateResponse = AnnotateResponse(labelAnnotations: Option<seq<Label>>)
  /** The vision response: `{ responses?: [{ labelAnnotations?: [...] }] }`. */
  datatype VisionJson = VisionJson(responses: Option<seq<AnnotateResponse>>)

  /** The number of labels asked for. */
  const MaxLabels: nat := 5

  datatype Call =
    | UploadImage(filePath: string)
    | DetectLabels(imageUri: string, maxResults: nat)
    | FoodDatabase(request: NutritionLookup.Request)

  datatype AnalysisError = VisionApiError | NoLabelsDetected | NutritionDataError | AnalysisFailed

  function ErrorCode(e: AnalysisError): string {
    match e
    case VisionApiError => "VISION_API_ERROR"
    case NoLabelsDetected => "NO_LABELS_DETECTED"
    case NutritionDataError => "NUTRITION_DATA_ERROR"
    case AnalysisFailed => "ANALYSIS_FAILED"
  }

  /** Each error kind has its own code. */
  lemma ErrorCodesDistinct(a: AnalysisError, b: AnalysisError)
    ensures ErrorCode(a) == ErrorCode(b) ==> a == b
  {
  }

  const VisionErrorMessage := "Unable to analyze the image. Please try again."
  const NoLabelsMessage := "No food items detected in the image. Please try taking another photo."
  const FailedMessage := "Failed to analyze the image. Please try again."
  /** The message of the error thrown when the top label has no description. */
  const NoValidLabelReason := "No valid label detected"

  /** `imageUrl` and `imagePublicId`: the upload's `secure_url` and `public_id`. */
  datatype HostedImage = HostedImage(url: string, publicId: string)

  /** An element of `allLabels`: `{ name: description, confidence: topicality }`. */
  datatype LabelSummary = LabelSummary(name: Option<string>, confidence: int)

  datatype Analysis =
    | Analyzed(description: string, nutrients: seq<Nutrient>, confidence: int, image: HostedImage, allLabels: seq<LabelSummary>)
    | NotAnalyzed(error: AnalysisError, message: string, attachedImage: Option<HostedImage>, originalError: Option<string>)

  /** `json.responses?.[0]?.labelAnnotations || []`. */
  function Labels(j: VisionJson): seq<Label> {
    if j.responses.Some? && |j.responses.value| > 0 && j.responses.value[0].labelAnnotations.Some?
    then j.responses.value[0].labelAnnotations.value
    else []
  }

  function Topicality(l: Label): int {
    l.topicality
  }

  /** The labels after `labels.sort((a, b) => b.topicality - a.topicality)`. */
  function Ranked(labels: seq<Label>): seq<Label> {
    StableSort.SortDesc(labels, Topicality)
  }

  function Summarize(l: Label): LabelSummary {
    LabelSummary(l.description, l.topicality)
  }

  /** `labels.map(l => ({ name: l.description, confidence: l.topicality }))`. */
  function Summaries(labels: seq<Label>): (r: seq<LabelSummary>)
    ensures |r| == |labels|
    ensures forall i :: 0 <= i < |labels| ==> r[i] == Summarize(labels[i])
  {
    seq(|labels|, i requires 0 <= i < |labels| => Summarize(labels[i]))
  }

  function FoodCalls(requests: seq<NutritionLookup.Request>): (r: seq<Call>)
    ensures |r| == |requests|
    ensures forall i :: 0 <= i < |requests| ==> r[i] == FoodDatabase(requests[i])
  {
    seq(|requests|, i requires 0 <= i < |requests| => FoodDatabase(requests[i]))
  }

  /** The ranking: labels in non-increasing topicality, a permutation of
      the input, labels of equal topicality in input order, and first the
      first label of greatest topicality. */
  lemma RankingIsStable(labels: seq<Label>)
    ensures StableSort.SortedDesc(Ranked(labels), Topicality)
    ensures multiset(Ranked(labels)) == multiset(labels)
    ensures forall k :: Seqs.Filter(Ranked(labels), StableSort.KeyIs(Topicality, k)) == Seqs.Filter(labels, StableSort.KeyIs(Topicality, k))
    ensures |labels| > 0 ==> |Ranked(labels)| == |labels| && Ranked(labels)[0] == labels[StableSort.FirstMaxIndex(labels, Topicality)]
  {
    StableSort.SortSorted(labels, Topicality);
    StableSort.SortMultiset(labels, Topicality);
    forall k ensures Seqs.Filter(Ranked(labels), StableSort.KeyIs(Topicality, k)) == Seqs.Filter(labels, StableSort.KeyIs(Topicality, k)) {
      StableSort.SortStable(labels, Topicality, k);
    }
    if |labels| > 0 {
      StableSort.SortHeadIsFirstMax(labels, Topicality);
    }
  }

  /** The labels the pipeline ranks, when the vision exchange went through. */
  function DetectedLabels(vision: Response<VisionJson>): seq<Label> {
    if OkJson(vision) then Labels(vision.body.json) else []
  }

  /** The pipeline. Every failure after the upload carries the hosted
      image, except the catch-all `ANALYSIS_FAILED`, which never does. */
  method AnalyzeFoodFromPhoto(
    filePath: string,
    upload: UploadOutcome,
    vision: Response<VisionJson>,
    search: Response<NutritionLookup.SearchJson>,
    detail: int -> Response<NutritionLookup.DetailJson>)
    returns (r: Analysis, calls: seq<Call>)
    // the upload
    ensures |calls| >= 1 && calls[0] == UploadImage(filePath)
    ensures upload.UploadThrew? ==>
      r == NotAnalyzed(AnalysisFailed, FailedMessage, None, Some(upload.reason)) && calls == [UploadImage(filePath)]
    ensures upload.Uploaded? ==> |calls| >= 2 && calls[1] == DetectLabels(upload.secureUrl, MaxLabels)
    // the image travels with every result except the catch-all
    ensures r.NotAnalyzed? && r.error != AnalysisFailed ==> upload.Uploaded? && r.attachedImage == Some(HostedImage(upload.secureUrl, upload.publicId))
    ensures r.NotAnalyzed? && r.error == AnalysisFailed ==> r.attachedImage == None
    ensures r.Analyzed? ==> upload.Uploaded? && r.image == HostedImage(upload.secureUrl, upload.publicId)
    // the vision exchange
    ensures upload.Uploaded? && vision.Threw? ==>
      r == NotAnalyzed(AnalysisFailed, FailedMessage, None, Some(vision.reason))
    ensures upload.Uploaded? && vision.Replied? && !vision.ok ==>
      r == NotAnalyzed(VisionApiError, VisionErrorMessage, Some(HostedImage(upload.secureUrl, upload.publicId)), None)
    ensures upload.Uploaded? && vision.Replied? && vision.ok && vision.body.Unparsable? ==>
      r == NotAnalyzed(AnalysisFailed, FailedMessage, None, Some(vision.body.reason))
    ensures upload.Uploaded? && OkJson(vision) && Labels(vision.body.json) == [] ==>
      r == NotAnalyzed(NoLabelsDetected, NoLabelsMessage, Some(HostedImage(upload.secureUrl, upload.publicId)), None)
    // the food database is asked only about a best label that exists
    ensures (exists i :: 0 <= i < |calls| && calls[i].FoodDatabase?) ==>
      upload.Uploaded? && |DetectedLabels(vision)| > 0 && |Ranked(DetectedLabels(vision))| > 0 && Truthy(Ranked(DetectedLabels(vision))[0].description)
    ensures upload.Uploaded? && OkJson(vision) && |Labels(vision.body.json)| > 0 ==>
      var ranked := Ranked(Labels(vision.body.json));
      && |ranked| == |Labels(vision.body.json)|
      && (!Truthy(ranked[0].description) ==>
           r == NotAnalyzed(AnalysisFailed, FailedMessage, None, Some(NoValidLabelReason)) && |calls| == 2)
      && (Truthy(ranked[0].description) ==>
           var lookup := NutritionLookup.FetchNutritionFromLabel(ranked[0].description.value, search, detail);
           && calls == [UploadImage(filePath), DetectLabels(upload.secureUrl, MaxLabels)] + FoodCalls(lookup.requests)
           && (lookup.result.Failed? ==>
                r == NotAnalyzed(NutritionDataError, lookup.result.message, Some(HostedImage(upload.secureUrl, upload.publicId)), None))
           && (lookup.result.Found? ==>
                r == Analyzed(ranked[0].description.value, lookup.result.nutrients, ranked[0].topicality,
                              HostedImage(upload.secureUrl, upload.publicId), Summaries(ranked))))
  {
    calls := [UploadImage(filePath)];
    if upload.UploadThrew? {
      return NotAnalyzed(AnalysisFailed, FailedMessage, None, Some(upload.reason)), calls;
    }
    var image := HostedImage(upload.secureUrl, upload.publicId);
    calls := calls + [DetectLabels(upload.secureUrl, MaxLabels)];
    if vision.Threw? {
      return NotAnalyzed(AnalysisFailed, FailedMessage, None, Some(vision.reason)), calls;
    }
    if !vision.ok {
      return NotAnalyzed(VisionApiError, VisionErrorMessage, Some(image), None), calls;
    }
    if vision.body.Unparsable? {
      return NotAnalyzed(AnalysisFailed, FailedMessage, None, Some(vision.body.reason)), calls;
    }
    var labels := Labels(vision.body.json);
    if |labels| == 0 {
      return NotAnalyzed(NoLabelsDetected, NoLabelsMessage, Some(image), None), calls;
    }
    var sorted := new Label[|labels|](i requires 0 <= i < |labels| => labels[i]);
    assert sorted[..] == labels;
    StableSort.SortInPlace(sorted, Topicality);
    var ranked := sorted[..];
    StableSort.SortLength(labels, Topicality);
    var best := ranked[0].description;
    if !Truthy(best) {
      return NotAnalyzed(AnalysisFailed, FailedMessage, None, Some(NoValidLabelReason)), calls;
    }
    var lookup := NutritionLookup.FetchNutritionFromLabel(best.value, search, detail);
    calls := calls + FoodCalls(lookup.requests);
    if lookup.result.Failed? {
      return NotAnalyzed(NutritionDataError, lookup.result.message, Some(image), None), calls;
    }
    r := Analyzed(best.value, lookup.result.nutrients, ranked[0].topicality, image, Summaries(ranked));
  }
}
