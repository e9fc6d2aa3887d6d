/**
 * components/project-blocks/carousel-block.tsx: one carousel item per slide,
 * each a `<video>` or an image depending on the slide's MIME type.
 */
module CarouselBlock {
  import opened Common
  import Strapi
  import opened ProjectBlockTypes

  /** The responsive `sizes` of every image slide: full width on phones, then 32rem, then 48rem. */
  const SlideSizes := "(max-width: 768px) 100vw, (max-width: 1024px) 32rem, 48rem"

  datatype Slide = VideoSlide(src: string) | ImageSlide(picture: Picture, sizes: string)

  datatype CarouselView = CarouselView(slides: seq<Slide>, caption: Option<string>)

  /** `slide.mime?.startsWith('video/')`: a missing MIME type is not a video. */
  predicate IsVideo(mime: Option<string>) {
    mime.Some? && StartsWith(mime.value, "video/")
  }

  function RenderSlide(base: string, m: Media, projectTitle: string): (s: Slide)
    ensures s.VideoSlide? <==> IsVideo(m.mime)
    ensures s.VideoSlide? ==> s.src == PictureOf(base, m, projectTitle).src
    ensures s.ImageSlide? ==> s.picture == PictureOf(base, m, projectTitle) && s.sizes == SlideSizes
  {
    if IsVideo(m.mime) then VideoSlide(Strapi.MediaUrl(base, Some(m.url)).GetOr(""))
    else ImageSlide(PictureOf(base, m, projectTitle), SlideSizes)
  }

  function RenderSlides(base: string, ms: seq<Media>, projectTitle: string): (r: seq<Slide>)
    ensures |r| == |ms|
    ensures forall i :: 0 <= i < |ms| ==> r[i] == RenderSlide(base, ms[i], projectTitle)
  {
    seq(|ms|, i requires 0 <= i < |ms| => RenderSlide(base, ms[i], projectTitle))
  }

  /** `CarouselBlock`: nothing for a missing or empty slide list, else one item per slide in order. */
  function Render(base: string, b: BlockFields, projectTitle: string): (r: Option<CarouselView>)
    ensures r.None? <==> b.slides.None? || |b.slides.value| == 0
    ensures r.Some? ==> r.value.slides == RenderSlides(base, b.slides.value, projectTitle)
    ensures r.Some? ==> (r.value.caption.Some? <==> Truthy(b.caption))
    ensures r.Some? ==> r.value.caption == Caption(b.caption)
  {
    if b.slides.None? || |b.slides.value| == 0 then None
    else Some(CarouselView(RenderSlides(base, b.slides.value, projectTitle), Caption(b.caption)))
  }

  /** Slides render independently: rendering two lists back to back is rendering their concatenation. */
  lemma SlidesCompose(base: string, xs: seq<Media>, ys: seq<Media>, projectTitle: string)
    ensures RenderSlides(base, xs + ys, projectTitle) ==
            RenderSlides(base, xs, projectTitle) + RenderSlides(base, ys, projectTitle)
  {
    var l := RenderSlides(base, xs + ys, projectTitle);
    var r := RenderSlides(base, xs, projectTitle) + RenderSlides(base, ys, projectTitle);
    assert |l| == |r|;
    forall i | 0 <= i < |l| ensures l[i] == r[i] {
      if i < |xs| {
        assert (xs + ys)[i] == xs[i];
      } else {
        assert (xs + ys)[i] == ys[i - |xs|];
      }
    }
  }

  /** The video slides are exactly the slides whose MIME type starts with `video/`. */
  lemma VideoSlidesByMime(base: string, b: BlockFields, projectTitle: string)
    requires b.slides.Some? && |b.slides.value| > 0
    ensures var r := Render(base, b, projectTitle).value;
      forall i :: 0 <= i < |r.slides| ==> (r.slides[i].VideoSlide? <==> IsVideo(b.slides.value[i].mime))
  {
  }
}
