/**
 * components/project-blocks/image-block.tsx: a single figure with an image,
 * a `sizes` hint chosen by the block's size, and an optional caption.
 */
module ImageBlock {
  import opened Common
  import opened ProjectBlockTypes

  const FullSizes := "100vw"
  const SmallSizes := "(max-width: 768px) 100vw, 28rem"
  const ContainedSizes := "(max-width: 768px) 100vw, (max-width: 1024px) 32rem, 48rem"

  /** The `sizes` hint: `full` and `small` have their own, anything else (including absent) is `contained`. */
  function Sizes(size: Option<string>): (s: string)
    ensures s == FullSizes <==> size == Some("full")
    ensures s == SmallSizes <==> size == Some("small")
    ensures s == ContainedSizes <==> size != Some("full") && size != Some("small")
  {
    if size == Some("full") then FullSizes
    else if size == Some("small") then SmallSizes
    else ContainedSizes
  }

  datatype ImageView = ImageView(picture: Picture, sizes: string, caption: Option<string>)

  /** `ImageBlock`: nothing without an image; the alt text falls back to the project title. */
  function Render(base: string, b: BlockFields, projectTitle: string): (r: Option<ImageView>)
    ensures r.None? <==> b.image.None?
    ensures r.Some? ==> r.value.picture == PictureOf(base, b.image.value, projectTitle)
    ensures r.Some? ==> r.value.sizes == Sizes(b.size)
    ensures r.Some? ==> (r.value.caption.Some? <==> Truthy(b.caption))
    ensures r.Some? ==> r.value.caption == Caption(b.caption)
  {
    if b.image.None? then None
    else Some(ImageView(PictureOf(base, b.image.value, projectTitle), Sizes(b.size), Caption(b.caption)))
  }

  /** An image without its own alt text is described by the project title; one with it ignores the title. */
  lemma AltFallsBackToTitle(base: string, b: BlockFields, t1: string, t2: string)
    requires b.image.Some?
    ensures !Truthy(b.image.value.alternativeText) ==> Render(base, b, t1).value.picture.alt == t1
    ensures Truthy(b.image.value.alternativeText) ==> Render(base, b, t1) == Render(base, b, t2)
  {
  }
}
