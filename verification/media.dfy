/** The media page: an intro video and up to six portfolio images. `urls`
    and `url` stand for the object URLs made for the chosen files; a file is
    represented by its size in bytes. The two-second upload delay is split
    into the start and the completion of the upload. */
module Media {
  import opened Wrappers
  import opened Seqs
  import PortfolioStep

  const MaxImages := 6

  /** 100 MiB, the largest intro video accepted. */
  const MaxVideoBytes := 100 * 1024 * 1024

  datatype MediaState = MediaState(introVideo: string, images: seq<string>, uploading: bool)

  const InitialState := MediaState("", [], false)

  /** The result of choosing a video: the state and the alert shown, if any. */
  datatype VideoChoice = VideoChoice(state: MediaState, alert: Option<string>)

  /** `handleVideoUpload`, up to the timer: no file changes nothing; a file
      over 100 MiB raises the alert and changes nothing; any other file
      starts the upload. */
  function ChooseVideo(s: MediaState, size: Option<nat>): (r: VideoChoice)
    ensures size.None? ==> r == VideoChoice(s, None)
    ensures size.Some? && size.value > 104857600 ==>
      r == VideoChoice(s, Some("File size must be less than 100MB"))
    ensures size.Some? && size.value <= 104857600 ==>
      r.alert.None? && r.state == s.(uploading := true)
  {
    if size.None? then VideoChoice(s, None)
    else if size.value > MaxVideoBytes then VideoChoice(s, Some("File size must be less than 100MB"))
    else VideoChoice(s.(uploading := true), None)
  }

  /** The timer's callback: the new video is in place and the upload over. */
  function FinishVideo(s: MediaState, url: string): (r: MediaState)
    ensures r.introVideo == url && !r.uploading && r.images == s.images
  {
    s.(introVideo := url, uploading := false)
  }

  /** `removeVideo()`. */
  function RemoveVideo(s: MediaState): (r: MediaState)
    ensures r.introVideo == "" && r.images == s.images && r.uploading == s.uploading
  {
    s.(introVideo := "")
  }

  /** A video is replaced only by one of at most 100 MiB: rejecting a file
      keeps the current video, and an accepted one becomes the video once
      the upload finishes. */
  lemma VideoSizeLimit(s: MediaState, size: nat, url: string)
    ensures size > MaxVideoBytes ==> ChooseVideo(s, Some(size)).state.introVideo == s.introVideo
    ensures size <= MaxVideoBytes ==>
      FinishVideo(ChooseVideo(s, Some(size)).state, url) == s.(introVideo := url, uploading := false)
  {
  }

  /** `handleImageUpload` as written: the cap is checked against the list as
      it was before the event, while each file appends to the latest list,
      so below six every chosen file is appended. */
  function UploadAsWritten(images: seq<string>, urls: seq<string>): (r: seq<string>)
    ensures |images| >= MaxImages ==> r == images
    ensures |images| < MaxImages ==> r == images + urls
    decreases |urls|
  {
    if urls == [] then images
    else
      var before := UploadAsWritten(images, urls[..|urls| - 1]);
      var url := urls[|urls| - 1];
      assert urls == urls[..|urls| - 1] + [url];
      if |images| < MaxImages then before + [url] else before
  }

  /** Five images and two chosen files make seven. */
  lemma UploadAsWrittenExceedsCap(a: string, b: string)
    ensures var five := ["1", "2", "3", "4", "5"];
      |UploadAsWritten(five, [a, b])| == 7
  {
  }

  /** The intended upload appends the chosen files in order until the list
      holds six; it is the one the onboarding portfolio step intends. */
  function Upload(images: seq<string>, urls: seq<string>): (r: seq<string>)
    ensures images <= r
    ensures |images| >= MaxImages ==> r == images
    ensures |images| < MaxImages ==> |r| == |images| + PortfolioStep.Min(|urls|, MaxImages - |images|)
    ensures |images| <= MaxImages ==> |r| <= MaxImages
    ensures r[|images|..] <= urls
  {
    PortfolioStep.Upload(images, urls)
  }

  /** The capped upload keeps a prefix of what the source appends, and the
      two agree exactly when the chosen files fit. */
  lemma {:induction false} UploadPrefixOfAsWritten(images: seq<string>, urls: seq<string>)
    ensures Upload(images, urls) <= UploadAsWritten(images, urls)
    ensures Upload(images, urls) == UploadAsWritten(images, urls) <==>
      |images| >= MaxImages || |images| + |urls| <= MaxImages
  {
    var r := Upload(images, urls);
    if |images| < MaxImages {
      assert r == images + Take(urls, MaxImages - |images|);
      if |images| + |urls| > MaxImages {
        assert |r| < |images + urls|;
      }
    }
  }

  /** With six or more images an upload adds nothing. */
  lemma FullListIgnoresUpload(images: seq<string>, urls: seq<string>)
    requires |images| >= MaxImages
    ensures UploadAsWritten(images, urls) == images && Upload(images, urls) == images
  {
  }

  /** `removeImage(index)`: every image but the one at `index`, in order. */
  function RemoveImage(s: MediaState, index: int): (r: MediaState)
    ensures 0 <= index < |s.images| ==> r.images == s.images[..index] + s.images[index + 1..]
    ensures !(0 <= index < |s.images|) ==> r.images == s.images
    ensures r.introVideo == s.introVideo && r.uploading == s.uploading
  {
    RemoveIndexSpec(s.images, index);
    s.(images := RemoveIndex(s.images, index))
  }

  /** Removing the image just uploaded undoes the upload of one file. */
  lemma RemoveUndoesUpload(s: MediaState, url: string)
    requires |s.images| < MaxImages
    ensures RemoveImage(s.(images := UploadAsWritten(s.images, [url])), |s.images|) == s
  {
    var t := s.(images := UploadAsWritten(s.images, [url]));
    assert t.images == s.images + [url];
    assert t.images[..|s.images|] == s.images;
  }
}
