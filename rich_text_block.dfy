/**
 * components/project-blocks/rich-text-block.tsx: a presence check on
 * `content` and one call to the rich-text renderer with the array form.
 */
module RichTextBlock {
  import opened Common
  import opened RichText
  import opened ProjectBlockTypes

  /** The block's output: the renderer's output inside the block's wrapper, or nothing. */
  function Render(base: string, b: BlockFields): (r: Option<RichTextOutput>)
    ensures r.None? <==> b.content.None?
    ensures r.Some? ==> r == RenderRichText(base, Blocks(b.content.value))
    ensures r.Some? ==> r.value.image.None? && |r.value.prose| == |b.content.value|
  {
    if b.content.None? then None
    else RenderRichText(base, Blocks(b.content.value))
  }

  /**
   * Only presence is tested: an empty `content` array still renders the
   * (empty) wrapper, and no section image comes out of a project block.
   */
  lemma EmptyContentKeepsWrapper(base: string, b: BlockFields)
    requires b.content == Some([])
    ensures Render(base, b) == Some(RichTextOutput([], None))
  {
  }
}
