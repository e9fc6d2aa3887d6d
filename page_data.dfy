/**
 * The data side of the three pages built from the `/about` single type:
 * components/home-client.tsx, app/page.tsx and app/about/page.tsx. Each
 * fetches in an effect, shows a loading view until the fetch settles and
 * an error view when it failed or returned nothing, then picks the
 * heading, the avatar and the paragraphs out of a list of rich-text
 * blocks.
 *
 * Each page's React state is a class; the settled promise is the
 * argument of `Settle`.
 */
module PageData {
  import opened Common

  datatype BlockImage = BlockImage(url: Option<string>, alternativeText: Option<string>)

  /** An `AboutRichTextBlock`: its type, its children's texts and an optional image. */
  datatype Block = Block(kind: string, children: Option<seq<Option<string>>>, image: Option<BlockImage>)

  /** A business or tool logo, handed unchanged to the logo component. */
  datatype Logo = Logo(id: int, name: string)

  datatype AboutData = AboutData(
    hero: seq<Block>,
    headingBusinesses: string,
    headingTools: string,
    contact: seq<Block>,
    businesses: seq<Logo>,
    tools: seq<Logo>,
    /** Read by app/about/page.tsx; not declared by the query's type. */
    content: Option<seq<Block>>)

  /** `blocks.find(block => block.type === kind)`. */
  function FindKind(blocks: seq<Block>, kind: string): (b: Option<Block>)
    ensures b.Some? ==> b.value in blocks && b.value.kind == kind
    ensures b.None? <==> forall i :: 0 <= i < |blocks| ==> blocks[i].kind != kind
    ensures b.Some? ==> exists i :: 0 <= i < |blocks| && blocks[i] == b.value && forall j :: 0 <= j < i ==> blocks[j].kind != kind
  {
    var i := FindFirst(blocks, (x: Block) => x.kind == kind);
    if i.Some? then Some(blocks[i.value]) else None
  }

  /** `block?.children?.[0]?.text`. */
  function FirstChildText(b: Option<Block>): (t: Option<string>)
    ensures t.Some? ==> b.Some? && b.value.children.Some? && |b.value.children.value| > 0 && b.value.children.value[0] == t
  {
    if b.Some? && b.value.children.Some? && |b.value.children.value| > 0 then b.value.children.value[0] else None
  }

  /** `blocks.filter(block => block.type === 'paragraph')`, each shown as its first child's text or `''`. */
  function ParagraphTexts(blocks: seq<Block>): (ps: seq<string>)
    ensures |ps| == |Filter(blocks, (x: Block) => x.kind == "paragraph")| == Count(blocks, (x: Block) => x.kind == "paragraph")
    ensures forall i :: 0 <= i < |ps| ==>
      var para := Filter(blocks, (x: Block) => x.kind == "paragraph")[i];
      ps[i] == OrString(FirstChildText(Some(para)), "")
  {
    var paras := Filter(blocks, (x: Block) => x.kind == "paragraph");
    FilterLength(blocks, (x: Block) => x.kind == "paragraph");
    seq(|paras|, i requires 0 <= i < |paras| => OrString(FirstChildText(Some(paras[i])), ""))
  }

  /** The paragraphs keep their order: the first paragraph block gives the first text. */
  lemma {:induction false} FirstParagraphFirst(blocks: seq<Block>)
    requires |blocks| > 0 && blocks[0].kind == "paragraph"
    ensures |ParagraphTexts(blocks)| > 0 && ParagraphTexts(blocks)[0] == OrString(FirstChildText(Some(blocks[0])), "")
  {
    assert Filter(blocks, (x: Block) => x.kind == "paragraph")[0] == blocks[0];
  }

  const ProfilePhoto := "Profile photo"
  const AboutHeadingFallback := "Hello there 👋🏼"

  /** The page header: the heading text, the avatar if the image block has a URL, and the paragraph texts. */
  datatype Header = Header(headingText: Option<string>, avatar: Option<(string, string)>, paragraphs: seq<string>)

  /** The header built from one block list; `headingFallback` is `|| "Hello there 👋🏼"` on the about page. */
  function HeaderOf(blocks: seq<Block>, headingFallback: Option<string>): (h: Header)
    ensures headingFallback.None? ==> h.headingText == FirstChildText(FindKind(blocks, "heading"))
    ensures headingFallback.Some? ==> h.headingText == Some(OrString(FirstChildText(FindKind(blocks, "heading")), headingFallback.value))
    ensures var img := FindKind(blocks, "image");
      (h.avatar.Some? <==> img.Some? && img.value.image.Some? && Truthy(img.value.image.value.url)) &&
      (h.avatar.Some? ==> h.avatar.value == (img.value.image.value.url.value, OrString(img.value.image.value.alternativeText, ProfilePhoto)))
    ensures h.paragraphs == ParagraphTexts(blocks)
  {
    var heading := FirstChildText(FindKind(blocks, "heading"));
    var img := FindKind(blocks, "image");
    var avatar :=
      if img.Some? && img.value.image.Some? && Truthy(img.value.image.value.url) then
        Some((img.value.image.value.url.value, OrString(img.value.image.value.alternativeText, ProfilePhoto)))
      else None;
    Header(if headingFallback.Some? then Some(OrString(heading, headingFallback.value)) else heading, avatar, ParagraphTexts(blocks))
  }

  /** On the about page the heading is never empty. */
  lemma AboutHeadingNeverEmpty(blocks: seq<Block>)
    ensures HeaderOf(blocks, Some(AboutHeadingFallback)).headingText.Some?
    ensures HeaderOf(blocks, Some(AboutHeadingFallback)).headingText.value != ""
  {
  }

  /** The home pages' contact call to action: the first heading's and first paragraph's first child texts. */
  function ContactOf(d: AboutData): (c: (Option<string>, Option<string>))
    ensures c.0 == FirstChildText(FindKind(d.contact, "heading"))
    ensures c.1 == FirstChildText(FindKind(d.contact, "paragraph"))
  {
    (FirstChildText(FindKind(d.contact, "heading")), FirstChildText(FindKind(d.contact, "paragraph")))
  }

  datatype HomeView =
    | HomeLoading
    | HomeError
    | HomeContent(header: Header, headings: (string, string), businesses: seq<Logo>, tools: seq<Logo>,
                  contact: (Option<string>, Option<string>))

  /** A promise that was awaited: resolved with a value, or rejected. */
  datatype Settled<T> = Resolved(value: T) | Rejected

  /** components/home-client.tsx: the about page and the tools are fetched together with `Promise.all`. */
  class HomeClientState {
    var aboutData: Option<AboutData>
    var tools: seq<Logo>
    var loading: bool
    var error: bool

    constructor()
      ensures aboutData == None && tools == [] && loading && !error
    {
      aboutData := None;
      tools := [];
      loading := true;
      error := false;
    }

    /** `then` sets both values, `catch` the error flag, `finally` clears loading. */
    method Settle(result: Settled<(Option<AboutData>, seq<Logo>)>)
      modifies this
      ensures !loading
      ensures result.Resolved? ==> aboutData == result.value.0 && tools == result.value.1 && error == old(error)
      ensures result.Rejected? ==> error && aboutData == old(aboutData) && tools == old(tools)
    {
      if result.Resolved? {
        aboutData := result.value.0;
        tools := result.value.1;
      } else {
        error := true;
      }
      loading := false;
    }

    function View(): (v: HomeView)
      reads this
      ensures loading <==> v.HomeLoading?
      ensures v.HomeError? <==> !loading && (error || aboutData.None?)
      ensures v.HomeContent? ==> v.header == HeaderOf(aboutData.value.hero, None) && v.tools == tools
      ensures v.HomeContent? ==> v.businesses == aboutData.value.businesses && v.contact == ContactOf(aboutData.value)
      ensures v.HomeContent? ==> v.headings == (aboutData.value.headingBusinesses, aboutData.value.headingTools)
    {
      if loading then HomeLoading
      else if error || aboutData.None? then HomeError
      else HomeContent(HeaderOf(aboutData.value.hero, None), (aboutData.value.headingBusinesses, aboutData.value.headingTools),
                       aboutData.value.businesses, tools, ContactOf(aboutData.value))
    }
  }

  /**
   * The getters catch their own errors and resolve with `null` or `[]`,
   * so on a fresh page the error view appears exactly when the about page
   * could not be loaded.
   */
  method HomeClientErrorOnlyFromNull(about: Option<AboutData>, tools: seq<Logo>) returns (v: HomeView)
    ensures v.HomeError? <==> about.None?
    ensures v.HomeContent? ==> v.tools == tools
  {
    var page := new HomeClientState();
    page.Settle(Resolved((about, tools)));
    v := page.View();
  }

  /** app/page.tsx: one fetch; the tools come from the about data itself. */
  class HomeState {
    var aboutData: Option<AboutData>
    var loading: bool
    var error: bool

    constructor()
      ensures aboutData == None && loading && !error
    {
      aboutData := None;
      loading := true;
      error := false;
    }

    method Settle(result: Settled<Option<AboutData>>)
      modifies this
      ensures !loading
      ensures result.Resolved? ==> aboutData == result.value && error == old(error)
      ensures result.Rejected? ==> error && aboutData == old(aboutData)
    {
      if result.Resolved? {
        aboutData := result.value;
      } else {
        error := true;
      }
      loading := false;
    }

    function View(): (v: HomeView)
      reads this
      ensures loading <==> v.HomeLoading?
      ensures v.HomeError? <==> !loading && (error || aboutData.None?)
      ensures v.HomeContent? ==> v.header == HeaderOf(aboutData.value.hero, None) && v.tools == aboutData.value.tools
      ensures v.HomeContent? ==> v.businesses == aboutData.value.businesses && v.contact == ContactOf(aboutData.value)
      ensures v.HomeContent? ==> v.headings == (aboutData.value.headingBusinesses, aboutData.value.headingTools)
    {
      if loading then HomeLoading
      else if error || aboutData.None? then HomeError
      else HomeContent(HeaderOf(aboutData.value.hero, None), (aboutData.value.headingBusinesses, aboutData.value.headingTools),
                       aboutData.value.businesses, aboutData.value.tools, ContactOf(aboutData.value))
    }
  }

  /**
   * The two home pages, settled with the same about data, show the same
   * view except for the tools, which one takes from a separate fetch.
   */
  method HomePagesDifferOnlyInTools(about: Option<AboutData>, separateTools: seq<Logo>) returns (clientView: HomeView, serverView: HomeView)
    ensures clientView.HomeContent? <==> serverView.HomeContent?
    ensures clientView.HomeContent? ==> clientView.tools == separateTools && clientView == serverView.(tools := separateTools)
    ensures clientView == serverView <==> about.None? || separateTools == about.value.tools
  {
    var client := new HomeClientState();
    client.Settle(Resolved((about, separateTools)));
    clientView := client.View();
    var server := new HomeState();
    server.Settle(Resolved(about));
    serverView := server.View();
  }

  datatype AboutView =
    | AboutLoading
    | AboutError
    /** Reading `content` of a response without it throws during rendering. */
    | AboutCrash
    | AboutContent(header: Header, businesses: seq<Logo>, tools: seq<Logo>)

  /** app/about/page.tsx. */
  class AboutState {
    var aboutData: Option<AboutData>
    var loading: bool
    var error: bool

    constructor()
      ensures aboutData == None && loading && !error
    {
      aboutData := None;
      loading := true;
      error := false;
    }

    method Settle(result: Settled<Option<AboutData>>)
      modifies this
      ensures !loading
      ensures result.Resolved? ==> aboutData == result.value && error == old(error)
      ensures result.Rejected? ==> error && aboutData == old(aboutData)
    {
      if result.Resolved? {
        aboutData := result.value;
      } else {
        error := true;
      }
      loading := false;
    }

    function View(): (v: AboutView)
      reads this
      ensures loading <==> v.AboutLoading?
      ensures v.AboutError? <==> !loading && (error || aboutData.None?)
      ensures v.AboutCrash? <==> !loading && !error && aboutData.Some? && aboutData.value.content.None?
      ensures v.AboutContent? ==> v.header == HeaderOf(aboutData.value.content.value, Some(AboutHeadingFallback))
      ensures v.AboutContent? ==> v.businesses == aboutData.value.businesses && v.tools == aboutData.value.tools
    {
      if loading then AboutLoading
      else if error || aboutData.None? then AboutError
      else if aboutData.value.content.None? then AboutCrash
      else AboutContent(HeaderOf(aboutData.value.content.value, Some(AboutHeadingFallback)), aboutData.value.businesses, aboutData.value.tools)
    }
  }
}
