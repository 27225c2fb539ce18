/** The portfolio step: up to six image URLs, mirrored in the record's
    `portfolioImages`. `urls` stands for the object URLs of the selected
    files, in selection order. */
module PortfolioStep {
  import opened Wrappers
  import opened Seqs
  import opened Onboarding

  const MaxImages := 6

  /** `handleImageUpload` as written: every iteration of the loop appends to
      the list as it was before the event and overwrites the previous
      iteration's result, so only the last selected file is kept. */
  function UploadAsWritten(images: seq<string>, urls: seq<string>): (r: seq<string>)
    ensures |images| >= MaxImages || urls == [] ==> r == images
    ensures |images| < MaxImages && urls != [] ==> r == images + [urls[|urls| - 1]]
  {
    if urls == [] then images
    else
      var rest := UploadAsWritten(images, urls[1..]);
      if |images| < MaxImages then
        (if |urls| == 1 then images + [urls[0]] else rest)
      else images
  }

  /** Selecting two files at once adds only the second. */
  lemma UploadAsWrittenDropsFiles(a: string, b: string)
    ensures UploadAsWritten([], [a, b]) == [b]
  {
  }

  /** The intended upload: the selected files are appended in order until the
      list holds six. */
  function Upload(images: seq<string>, urls: seq<string>): (r: seq<string>)
    ensures images <= r
    ensures |images| >= MaxImages ==> r == images
    ensures |images| < MaxImages ==> |r| == |images| + Min(|urls|, MaxImages - |images|)
    ensures |images| <= MaxImages ==> |r| <= MaxImages
    ensures r[|images|..] <= urls
  {
    if |images| < MaxImages then images + Take(urls, MaxImages - |images|) else images
  }

  function Min(a: int, b: int): int {
    if a < b then a else b
  }

  /** Both versions keep a list of at most six images at most six. */
  lemma UploadBounded(images: seq<string>, urls: seq<string>)
    requires |images| <= MaxImages
    ensures |UploadAsWritten(images, urls)| <= MaxImages
    ensures |Upload(images, urls)| <= MaxImages
  {
  }

  /** `removeImage(i)`: drops position `i` only. */
  function RemoveImage(d: OnboardingData, i: int): (r: OnboardingData)
    ensures 0 <= i < |d.portfolioImages| ==>
      r == d.(portfolioImages := d.portfolioImages[..i] + d.portfolioImages[i + 1..])
    ensures !(0 <= i < |d.portfolioImages|) ==> r == d
  {
    RemoveIndexSpec(d.portfolioImages, i);
    UpdateOneField(d);
    UpdateData(d, EmptyPatch.(portfolioImages := Some(RemoveIndex(d.portfolioImages, i))))
  }

  /** The record after an upload event, as written. */
  function UploadStep(d: OnboardingData, urls: seq<string>): (r: OnboardingData)
    ensures r == d.(portfolioImages := UploadAsWritten(d.portfolioImages, urls))
  {
    UpdateOneField(d);
    UpdateData(d, EmptyPatch.(portfolioImages := Some(UploadAsWritten(d.portfolioImages, urls))))
  }

  /** The "Add Image" tile is shown iff fewer than six images are present. */
  predicate ShowsAddButton(images: seq<string>) {
    |images| < MaxImages
  }

  /** With the tile hidden, an upload changes nothing. */
  lemma HiddenButtonMeansNoUpload(images: seq<string>, urls: seq<string>)
    requires !ShowsAddButton(images)
    ensures UploadAsWritten(images, urls) == images
  {
  }
}
