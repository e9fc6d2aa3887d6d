/**
 * components/project-blocks/video-block.tsx: an embedded player when the
 * block has a URL, else a self-hosted `<video>` that plays while at least
 * half of it is on screen and pauses otherwise.
 *
 * The browser's intersection observer (threshold 0.5) is replaced by the
 * sequence of `isIntersecting` flags it delivers, and whether the browser lets `play()`
 * succeed is a parameter.
 */
module VideoBlock {
  import opened Common
  import Strapi
  import opened ProjectBlockTypes

  datatype VideoView =
    | Embed(src: string, caption: Option<string>)
    | Hosted(src: string, caption: Option<string>)

  /** `VideoBlock`'s markup: a URL wins over a file, and with neither nothing is rendered. */
  function Render(base: string, b: BlockFields): (r: Option<VideoView>)
    ensures r.Some? && r.value.Embed? <==> Truthy(b.url)
    ensures r.Some? && r.value.Hosted? <==> !Truthy(b.url) && b.file.Some?
    ensures r.None? <==> !Truthy(b.url) && b.file.None?
    ensures r.Some? && r.value.Embed? ==> r.value.src == b.url.value
    ensures r.Some? && r.value.Hosted? ==> r.value.src == PictureOf(base, b.file.value, "").src
    ensures r.Some? ==> (r.value.caption.Some? <==> Truthy(b.caption))
    ensures r.Some? ==> r.value.caption == Caption(b.caption)
  {
    if Truthy(b.url) then Some(Embed(b.url.value, Caption(b.caption)))
    else if b.file.Some? then Some(Hosted(Strapi.MediaUrl(base, Some(b.file.value.url)).GetOr(""), Caption(b.caption)))
    else None
  }

  /** The effect's guard: an observer is created only for a block with a file whose `<video>` element exists. */
  predicate ObserverInstalled(b: BlockFields, elementExists: bool) {
    b.file.Some? && elementExists
  }

  /** Only the hosted mode renders a `<video>` element for the ref to point at. */
  predicate HasVideoElement(r: Option<VideoView>) {
    r.Some? && r.value.Hosted?
  }

  /** An observer watches the video exactly when the hosted player is shown; an embed with a file never gets one. */
  lemma ObserverOnlyForHostedVideo(base: string, b: BlockFields)
    ensures ObserverInstalled(b, HasVideoElement(Render(base, b))) <==> Render(base, b).Some? && Render(base, b).value.Hosted?
  {
  }

  /** One observer entry: intersecting plays (a refused `play()` changes nothing), otherwise pause. */
  function Step(playing: bool, intersecting: bool, autoplayAllowed: bool): bool {
    if intersecting then (if autoplayAllowed then true else playing) else false
  }

  /** The playing state after a batch of entries, applied in delivery order. */
  function AfterEntries(playing: bool, entries: seq<bool>, autoplayAllowed: bool): bool
    decreases |entries|
  {
    if |entries| == 0 then playing
    else Step(AfterEntries(playing, entries[..|entries| - 1], autoplayAllowed), entries[|entries| - 1], autoplayAllowed)
  }

  /** The observed `<video>` element. */
  class VideoElement {
    var playing: bool

    /** The element is muted and looping but not `autoPlay`: it starts paused. */
    constructor()
      ensures !playing
    {
      playing := false;
    }

    /** The observer callback: `entries.forEach(...)`, swallowing a rejected `play()`. */
    method OnEntries(entries: seq<bool>, autoplayAllowed: bool)
      modifies this
      ensures playing == AfterEntries(old(playing), entries, autoplayAllowed)
    {
      var i := 0;
      while i < |entries|
        invariant 0 <= i <= |entries|
        invariant playing == AfterEntries(old(playing), entries[..i], autoplayAllowed)
      {
        assert entries[..i + 1][..i] == entries[..i];
        if entries[i] {
          if autoplayAllowed {
            playing := true;
          }
        } else {
          playing := false;
        }
        i := i + 1;
      }
      assert entries[..|entries|] == entries;
    }
  }

  /**
   * The last entry of a batch decides: a video that leaves the viewport is
   * paused, and one that enters it plays whenever the browser allows it.
   */
  lemma {:induction false} LastEntryDecides(playing: bool, entries: seq<bool>, autoplayAllowed: bool)
    requires |entries| > 0
    ensures !entries[|entries| - 1] ==> !AfterEntries(playing, entries, autoplayAllowed)
    ensures entries[|entries| - 1] && autoplayAllowed ==> AfterEntries(playing, entries, autoplayAllowed)
  {
  }

  /** When the browser refuses autoplay the video can never start, whatever the entries. */
  lemma {:induction false} RefusedAutoplayNeverStarts(entries: seq<bool>)
    ensures !AfterEntries(false, entries, false)
    decreases |entries|
  {
    if |entries| > 0 {
      RefusedAutoplayNeverStarts(entries[..|entries| - 1]);
    }
  }
}
