/** The social-links step: an object from platform key to URL text,
    mirrored in the record's `socialLinks`. */
module SocialLinksStep {
  import opened Wrappers
  import opened Text
  import opened Seqs
  import opened Dict
  import opened Onboarding

  /** `handleLinkChange(platform, value)`. */
  function ChangeLink(d: OnboardingData, platform: string, value: string): (r: OnboardingData)
    ensures Get(r.socialLinks, platform) == Some(value)
    ensures forall k | k != platform :: Get(r.socialLinks, k) == Get(d.socialLinks, k)
    ensures r == d.(socialLinks := r.socialLinks)
  {
    var updated := Set(d.socialLinks, platform, value);
    GetSet(d.socialLinks, platform, value, platform);
    assert forall k | k != platform :: Get(updated, k) == Get(d.socialLinks, k) by {
      forall k | k != platform {
        GetSet(d.socialLinks, platform, value, k);
      }
    }
    UpdateOneField(d);
    UpdateData(d, EmptyPatch.(socialLinks := Some(updated)))
  }

  /** `link && link.trim()`: the link is non-empty after trimming. */
  predicate Filled(link: string) {
    link != "" && Trim(link) != ""
  }

  /** `getLinksCount()`: the number of links that are not blank. */
  function LinksCount(links: Dict<string>): (r: nat)
    ensures r <= |links|
    ensures r == |Filter(Values(links), Filled)|
    decreases |links|
  {
    if links == [] then 0
    else
      assert Values(links) == [links[0].value] + Values(links[1..]);
      (if Filled(links[0].value) then 1 else 0) + LinksCount(links[1..])
  }

  /** A link counts iff it is not whitespace-only. */
  lemma FilledIffNotBlank(link: string)
    ensures Filled(link) <==> !Blank(link)
  {
  }

  /** `validateUrl(url)`; `parses` stands for `new URL(url)` not throwing. */
  function ValidateUrl(url: string, parses: string -> bool): (r: bool)
    ensures url == "" ==> r
    ensures url != "" ==> (r <==> parses(url))
  {
    if url == "" then true else parses(url)
  }

  /** "Please enter a valid URL" is shown for an invalid, non-empty value. */
  predicate ShowsInvalidMessage(value: string, parses: string -> bool) {
    !ValidateUrl(value, parses) && value != ""
  }

  lemma InvalidMessageOnlyForNonEmpty(value: string, parses: string -> bool)
    ensures ShowsInvalidMessage(value, parses) <==> value != "" && !parses(value)
  {
  }
}
