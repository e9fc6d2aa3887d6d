/**
 * The project body's dynamic-zone blocks as lib/strapi-queries.ts declares
 * them (`RichTextBlock`, `ImageBlock`, ... `StatsBlock`), and the image
 * attributes that the image and carousel renderers compute the same way.
 *
 * A block reaches the renderers as a plain JSON object: every renderer reads
 * the fields it needs and finds the others absent. `BlockFields` is that
 * object, with one optional field per name any renderer reads.
 */
module ProjectBlockTypes {
  import opened Common
  import Strapi
  import RichText

  /** An uploaded file as the CMS returns it inside a block. */
  datatype Media = Media(
    id: int,
    url: string,
    alternativeText: Option<string>,
    width: Option<int>,
    height: Option<int>,
    mime: Option<string>)

  /** One entry of a stats block. */
  datatype StatItem = StatItem(
    id: int,
    labelText: string,
    value: real,
    suffix: Option<string>,
    context: Option<string>,
    description: Option<string>)

  /** The fields of a block object, each absent unless the block's kind declares it. */
  datatype BlockFields = BlockFields(
    content: Option<seq<RichText.RichBlock>>,
    image: Option<Media>,
    caption: Option<string>,
    size: Option<string>,
    slides: Option<seq<Media>>,
    url: Option<string>,
    file: Option<Media>,
    beforeImage: Option<Media>,
    afterImage: Option<Media>,
    beforeLabel: Option<string>,
    afterLabel: Option<string>,
    items: Option<seq<StatItem>>,
    chartType: Option<string>,
    description: Option<string>,
    showLegend: Option<bool>,
    showGrid: Option<bool>,
    showAxes: Option<bool>,
    showDots: Option<bool>,
    showLabels: Option<bool>,
    /** The `<chart type>_variant` string fields, by field name. */
    variants: map<string, string>)

  /** A block: its `__component` tag, its `id` and its fields. */
  datatype ProjectBlock = ProjectBlock(component: string, id: int, fields: BlockFields)

  const DefaultWidth := 1920
  const DefaultHeight := 1080

  /** The attributes of a `next/image` element. */
  datatype Picture = Picture(src: string, alt: string, width: int, height: int)

  /**
   * `src={url || ''}`, `alt={alternativeText || fallbackAlt}`,
   * `width={width || 1920}`, `height={height || 1080}`.
   */
  function PictureOf(base: string, m: Media, fallbackAlt: string): (p: Picture)
    ensures p.src == "" <==> m.url == ""
    ensures m.url != "" ==> p.src == Strapi.MediaUrl(base, Some(m.url)).value
    ensures Truthy(m.alternativeText) ==> p.alt == m.alternativeText.value
    ensures !Truthy(m.alternativeText) ==> p.alt == fallbackAlt
    ensures TruthyInt(m.width) ==> p.width == m.width.value
    ensures !TruthyInt(m.width) ==> p.width == DefaultWidth
    ensures TruthyInt(m.height) ==> p.height == m.height.value
    ensures !TruthyInt(m.height) ==> p.height == DefaultHeight
  {
    Picture(Strapi.MediaUrl(base, Some(m.url)).GetOr(""),
            OrString(m.alternativeText, fallbackAlt),
            OrInt(m.width, DefaultWidth),
            OrInt(m.height, DefaultHeight))
  }

  /** A picture never gets a zero or negative size unless the CMS itself stored a negative one. */
  lemma PictureHasPositiveSize(base: string, m: Media, fallbackAlt: string)
    requires m.width.None? || m.width.value >= 0
    requires m.height.None? || m.height.value >= 0
    ensures PictureOf(base, m, fallbackAlt).width > 0 && PictureOf(base, m, fallbackAlt).height > 0
  {
  }

  /** A caption element is rendered iff the caption is a non-empty string. */
  function Caption(caption: Option<string>): (r: Option<string>)
    ensures r.Some? <==> Truthy(caption)
    ensures r.Some? ==> r == caption
  {
    if Truthy(caption) then caption else None
  }
}
