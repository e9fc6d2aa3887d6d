/**
 * components/ui/typography.tsx: the text component. The variant picks the
 * class list and, unless an explicit element is given with `as`, the
 * element: a heading variant renders as that heading, anything else as a
 * paragraph.
 */
module Typography {
  import opened Common

  const Headings: seq<string> := ["h1", "h2", "h3", "h4", "h5", "h6"]

  const DefaultVariant := "p"
  const DefaultAlign := "left"

  /** `getDefaultElement`. */
  function DefaultElement(variant: Option<string>): (e: string)
    ensures variant.Some? && variant.value in Headings ==> e == variant.value
    ensures !(variant.Some? && variant.value in Headings) ==> e == "p"
    ensures e in Headings || e == "p"
  {
    if variant == Some("h1") then "h1"
    else if variant == Some("h2") then "h2"
    else if variant == Some("h3") then "h3"
    else if variant == Some("h4") then "h4"
    else if variant == Some("h5") then "h5"
    else if variant == Some("h6") then "h6"
    else "p"
  }

  /** What the component renders: the element and the variant and alignment whose classes it gets. */
  datatype Rendered = Rendered(element: string, variant: string, align: string)

  function Render(variant: Option<string>, align: Option<string>, as_: Option<string>): (r: Rendered)
    ensures as_.Some? && as_.value != "" ==> r.element == as_.value
    ensures !(as_.Some? && as_.value != "") ==> r.element == DefaultElement(variant)
    ensures r.variant == variant.GetOr(DefaultVariant) && r.align == align.GetOr(DefaultAlign)
  {
    Rendered(OrString(as_, DefaultElement(variant)), variant.GetOr(DefaultVariant), align.GetOr(DefaultAlign))
  }

  /** A variant with no element of its own (`lead`, `large`, `small`, `muted`) renders as a paragraph with its own classes. */
  lemma StyleVariantsAreParagraphs(v: string)
    requires v in ["lead", "large", "small", "muted"]
    ensures Render(Some(v), None, None) == Rendered("p", v, "left")
  {
  }

  /** A bare component is a left-aligned paragraph. */
  lemma BareIsLeftParagraph()
    ensures Render(None, None, None) == Rendered("p", "p", "left")
  {
  }

  /** With `as`, the variant still picks the classes but no longer the element. */
  lemma AsOverridesHeading(as_: string)
    requires as_ != ""
    ensures Render(Some("h1"), None, Some(as_)) == Rendered(as_, "h1", "left")
  {
  }
}
