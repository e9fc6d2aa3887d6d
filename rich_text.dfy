/**
 * The rich-text renderer of lib/strapi-blocks-renderer.tsx: a recursive
 * transform from the CMS block tree (paragraphs, headings, lists, quotes,
 * code, links, and text runs with inline marks) to an element tree.
 *
 * `Node` is the rendered output with CSS classes and React keys left out;
 * `Null` stands for a `null` child, which React renders as nothing but
 * which still occupies its place in the child list.
 */
module RichText {
  import opened Common
  import Strapi

  /** The five inline flags of a text run. */
  datatype Marks = Marks(bold: bool, italic: bool, underline: bool, strikethrough: bool, code: bool)

  /** An inline node: a text run, or a node with nested children (a list item, a link's content, ...). */
  datatype RichChild = RichChild(kind: string, text: Option<string>, marks: Marks, children: ChildList)

  /** The optional `children` array of an inline node (`undefined` or an array, possibly empty). */
  datatype ChildList = NoChildren | ChildList(items: seq<RichChild>)

  /** A top-level block. */
  datatype RichBlock = RichBlock(
    kind: string,
    children: ChildList,
    format: Option<string>,
    level: Option<int>,
    url: Option<string>)

  /** The wrapper element of each inline mark. */
  datatype Mark = Strong | Em | Underline | Strike | CodeMark

  /** The optional child list of a rendered element (`undefined` when the block had no `children`). */
  datatype Nodes = Undefined | Nodes(items: seq<Node>)

  datatype Node =
    | Null
    | Text(s: string)
    | Marked(mark: Mark, inner: Node)
    | Span(items: seq<Node>)
    | Li(children: Nodes)
    | P(children: Nodes)
    | H(level: int, children: Nodes)
    | Ol(children: Nodes)
    | Ul(children: Nodes)
    | Blockquote(children: Nodes)
    | PreCode(children: Nodes)
    | A(href: Option<string>, children: Nodes)

  /** The marks that are set, in the order they are applied (innermost first). */
  function MarkList(m: Marks): (ms: seq<Mark>)
    ensures Strong in ms <==> m.bold
    ensures Em in ms <==> m.italic
    ensures Underline in ms <==> m.underline
    ensures Strike in ms <==> m.strikethrough
    ensures CodeMark in ms <==> m.code
  {
    (if m.bold then [Strong] else []) + (if m.italic then [Em] else []) +
    (if m.underline then [Underline] else []) + (if m.strikethrough then [Strike] else []) +
    (if m.code then [CodeMark] else [])
  }

  /** Rewraps `n` once per mark, the first mark innermost: the mutable `content` of `renderChild` as a fold. */
  function Wrap(n: Node, ms: seq<Mark>): Node
    decreases |ms|
  {
    if |ms| == 0 then n else Wrap(Marked(ms[0], n), ms[1..])
  }

  /** The wrappers around a node, innermost first. */
  function MarksOf(n: Node): seq<Mark> {
    if n.Marked? then MarksOf(n.inner) + [n.mark] else []
  }

  /** What is left once every mark wrapper is taken off. */
  function Unmarked(n: Node): Node {
    if n.Marked? then Unmarked(n.inner) else n
  }

  /** Wrapping adds exactly the given wrappers, in order, outside the existing ones, and hides nothing. */
  lemma {:induction false} WrapAddsMarks(n: Node, ms: seq<Mark>)
    ensures MarksOf(Wrap(n, ms)) == MarksOf(n) + ms
    ensures Unmarked(Wrap(n, ms)) == Unmarked(n)
    decreases |ms|
  {
    if |ms| > 0 {
      WrapAddsMarks(Marked(ms[0], n), ms[1..]);
      assert MarksOf(n) + [ms[0]] + ms[1..] == MarksOf(n) + ms;
    }
  }

  /** A formatted text run. */
  function MarkedText(t: string, m: Marks): Node {
    Wrap(Text(t), MarkList(m))
  }

  /**
   * A text run is wrapped in strong, em, u, s and code, from inner to outer,
   * each wrapper present iff its flag is set, around the unchanged text.
   */
  lemma MarkedTextNesting(t: string, m: Marks)
    ensures MarksOf(MarkedText(t, m)) == MarkList(m)
    ensures Unmarked(MarkedText(t, m)) == Text(t)
  {
    WrapAddsMarks(Text(t), MarkList(m));
  }

  /** Bold and italic together give `<em><strong>text</strong></em>`. */
  lemma BoldItalic(t: string)
    ensures MarkedText(t, Marks(true, true, false, false, false)) == Marked(Em, Marked(Strong, Text(t)))
  {
    var ms := [Strong, Em];
    assert MarkList(Marks(true, true, false, false, false)) == ms;
    assert ms[1..] == [Em] && ms[1..][1..] == [];
  }

  /** `renderChild`: nothing for a node with neither text nor children, nested children recursively, else the formatted text. */
  function RenderChild(c: RichChild): (r: Node)
    ensures r == Null <==> !Truthy(c.text) && c.children.NoChildren?
    ensures c.children.ChildList? ==> (r.Li? <==> c.kind == "list-item") && (r.Span? <==> c.kind != "list-item")
    ensures c.children.NoChildren? && Truthy(c.text) ==> MarksOf(r) == MarkList(c.marks) && Unmarked(r) == Text(c.text.value)
    decreases c
  {
    if !Truthy(c.text) && c.children.NoChildren? then Null
    else if c.children.ChildList? then
      var cs := c.children.items;
      var nested := seq(|cs|, i requires 0 <= i < |cs| => RenderChild(cs[i]));
      if c.kind == "list-item" then Li(Nodes(nested)) else Span(nested)
    else
      // Here the text is present and non-empty, so the second emptiness test (line 55) passes.
      MarkedTextNesting(c.text.value, c.marks);
      MarkedText(c.text.value, c.marks)
  }

  /** The children of a node with nested children are rendered one for one, in order; its own text and marks are ignored. */
  lemma NestedChildrenInOrder(c: RichChild, t: Option<string>, m: Marks)
    requires c.children.ChildList?
    ensures var r := RenderChild(c);
      var items := if r.Li? then r.children.items else r.items;
      |items| == |c.children.items| &&
      (forall i :: 0 <= i < |items| ==> items[i] == RenderChild(c.children.items[i]))
    ensures RenderChild(c.(text := t, marks := m)) == RenderChild(c)
  {
  }

  /** `block.children?.map(renderChild)`. */
  function RenderChildren(cs: ChildList): (r: Nodes)
    ensures r.Nodes? <==> cs.ChildList?
    ensures r.Nodes? ==> |r.items| == |cs.items|
    ensures r.Nodes? ==> forall i :: 0 <= i < |cs.items| ==> r.items[i] == RenderChild(cs.items[i])
  {
    if cs.NoChildren? then Undefined
    else Nodes(seq(|cs.items|, i requires 0 <= i < |cs.items| => RenderChild(cs.items[i])))
  }

  /** `block.level || 2`: a missing or zero level means 2; no clamping to 1..6. */
  function HeadingLevel(level: Option<int>): (l: int)
    ensures l == 2 <==> !TruthyInt(level) || level.value == 2
    ensures TruthyInt(level) ==> l == level.value
  {
    OrInt(level, 2)
  }

  /** `renderBlock`: the element for a block type, with unknown types rendered as paragraphs. */
  function RenderBlock(b: RichBlock): (r: Node)
    ensures b.kind == "heading" ==> r == H(HeadingLevel(b.level), RenderChildren(b.children))
    ensures b.kind == "list" && b.format == Some("ordered") ==> r == Ol(RenderChildren(b.children))
    ensures b.kind == "list" && b.format != Some("ordered") ==> r == Ul(RenderChildren(b.children))
    ensures b.kind == "list-item" ==> r == Li(RenderChildren(b.children))
    ensures b.kind == "quote" ==> r == Blockquote(RenderChildren(b.children))
    ensures b.kind == "code" ==> r == PreCode(RenderChildren(b.children))
    ensures b.kind == "link" ==> r == A(b.url, RenderChildren(b.children))
    ensures b.kind !in {"heading", "list", "list-item", "quote", "code", "link"} ==> r == P(RenderChildren(b.children))
  {
    var children := RenderChildren(b.children);
    match b.kind
    case "paragraph" => P(children)
    case "heading" => H(HeadingLevel(b.level), children)
    case "list" => if b.format == Some("ordered") then Ol(children) else Ul(children)
    case "list-item" => Li(children)
    case "quote" => Blockquote(children)
    case "code" => PreCode(children)
    case "link" => A(b.url, children)
    case _ => P(children)
  }

  /** The two shapes `renderStrapiRichText` accepts, plus `undefined`. */
  datatype LegacyImage = LegacyImage(url: Option<string>, alternativeText: Option<string>)
  datatype RichTextInput =
    | Absent
    | Blocks(blocks: seq<RichBlock>)
    | Legacy(content: Option<seq<RichBlock>>, image: Option<LegacyImage>)

  datatype ImageOut = ImageOut(src: string, alt: string)

  /** The prose wrapper with one element per block, and the legacy section image if any. */
  datatype RichTextOutput = RichTextOutput(prose: seq<Node>, image: Option<ImageOut>)

  function RenderBlocks(bs: seq<RichBlock>): (r: seq<Node>)
    ensures |r| == |bs| && forall i :: 0 <= i < |bs| ==> r[i] == RenderBlock(bs[i])
  {
    seq(|bs|, i requires 0 <= i < |bs| => RenderBlock(bs[i]))
  }

  /** `renderStrapiRichText`. */
  function RenderRichText(base: string, input: RichTextInput): (r: Option<RichTextOutput>)
    ensures r.None? <==> input.Absent? || (input.Legacy? && input.content.None?)
    ensures input.Blocks? ==> r == Some(RichTextOutput(RenderBlocks(input.blocks), None))
    ensures input.Legacy? && r.Some? ==> r.value.prose == RenderBlocks(input.content.value)
    ensures r.Some? && r.value.image.Some? <==>
      input.Legacy? && input.content.Some? && input.image.Some? && Truthy(input.image.value.url)
    ensures r.Some? && r.value.image.Some? ==>
      Strapi.MediaUrl(base, input.image.value.url) == Some(r.value.image.value.src) &&
      r.value.image.value.alt == OrString(input.image.value.alternativeText, "Section image")
  {
    match input
    case Absent => None
    case Blocks(bs) => Some(RichTextOutput(RenderBlocks(bs), None))
    case Legacy(content, image) =>
      if content.None? then None
      else
        var hasImage := image.Some? && Truthy(image.value.url);
        var imageUrl := if hasImage then Strapi.MediaUrl(base, image.value.url) else None;
        var out := if imageUrl.Some? then Some(ImageOut(imageUrl.value, OrString(image.value.alternativeText, "Section image"))) else None;
        Some(RichTextOutput(RenderBlocks(content.value), out))
  }

  /** Concatenation of a list of strings. */
  function Concat(ss: seq<string>): string {
    if |ss| == 0 then "" else ss[0] + Concat(ss[1..])
  }

  function ChildrenText(ns: Nodes): string
    decreases ns, 0
  {
    if ns.Undefined? then "" else
    var items := ns.items;
    Concat(seq(|items|, i requires 0 <= i < |items| => TextOf(items[i])))
  }

  /** The text a reader sees in a rendered tree, in document order. */
  function TextOf(n: Node): string
    decreases n, 1
  {
    match n
    case Null => ""
    case Text(s) => s
    case Marked(_, inner) => TextOf(inner)
    case Span(items) => Concat(seq(|items|, i requires 0 <= i < |items| => TextOf(items[i])))
    case Li(cs) => ChildrenText(cs)
    case P(cs) => ChildrenText(cs)
    case H(_, cs) => ChildrenText(cs)
    case Ol(cs) => ChildrenText(cs)
    case Ul(cs) => ChildrenText(cs)
    case Blockquote(cs) => ChildrenText(cs)
    case PreCode(cs) => ChildrenText(cs)
    case A(_, cs) => ChildrenText(cs)
  }

  /** The text of a CMS inline node: its children's text if it has children, else its own text. */
  function SourceText(c: RichChild): string
    decreases c
  {
    if c.children.ChildList? then
      var cs := c.children.items;
      Concat(seq(|cs|, i requires 0 <= i < |cs| => SourceText(cs[i])))
    else c.text.GetOr("")
  }

  lemma {:induction false} WrapKeepsText(n: Node, ms: seq<Mark>)
    ensures TextOf(Wrap(n, ms)) == TextOf(n)
    decreases |ms|
  {
    if |ms| > 0 {
      WrapKeepsText(Marked(ms[0], n), ms[1..]);
    }
  }

  /** Rendering an inline node loses no text and adds none, and keeps it in order. */
  lemma {:induction false} RenderChildKeepsText(c: RichChild)
    ensures TextOf(RenderChild(c)) == SourceText(c)
    decreases c
  {
    if c.children.ChildList? {
      var cs := c.children.items;
      var nested := seq(|cs|, i requires 0 <= i < |cs| => RenderChild(cs[i]));
      forall i | 0 <= i < |cs|
        ensures TextOf(nested[i]) == SourceText(cs[i])
      {
        RenderChildKeepsText(cs[i]);
      }
      var rendered := seq(|nested|, i requires 0 <= i < |nested| => TextOf(nested[i]));
      var source := seq(|cs|, i requires 0 <= i < |cs| => SourceText(cs[i]));
      assert rendered == source;
      if c.kind == "list-item" {
        assert RenderChild(c) == Li(Nodes(nested));
      } else {
        assert RenderChild(c) == Span(nested);
      }
    } else if Truthy(c.text) {
      WrapKeepsText(Text(c.text.value), MarkList(c.marks));
    }
  }
}
