/**
 * app/about/AboutClient.tsx: the about page body, whose company and tool
 * logos slide in once their group scrolls above 70% of the scroller's
 * height and are hidden again when it scrolls back below.
 *
 * The DOM measurements are parameters: a group's top relative to the
 * scroller (`None` when its ref is not attached) and the scroller height.
 * GSAP's animation is reduced to the state it ends in.
 */
module AboutClient {
  import opened Common
  import Strapi

  const RevealRatio: real := 0.7

  /** The style of a group's items: `opacity` and vertical offset `y` in pixels. */
  datatype ItemStyle = ItemStyle(opacity: real, y: real)

  const HiddenItems := ItemStyle(0.0, 30.0)
  const ShownItems := ItemStyle(1.0, 0.0)

  datatype Decision = Reveal | Hide | Keep

  /** The threshold rule applied to each group on every scroll event. */
  function DecisionFor(relativeTop: real, scrollerHeight: real): (d: Decision)
    ensures d == Reveal <==> relativeTop < scrollerHeight * RevealRatio
    ensures d == Hide <==> relativeTop > scrollerHeight * RevealRatio
    ensures d == Keep <==> relativeTop == scrollerHeight * RevealRatio
  {
    if relativeTop < scrollerHeight * RevealRatio then Reveal
    else if relativeTop > scrollerHeight * RevealRatio then Hide
    else Keep
  }

  /** A group's style after one scroll event. */
  function Apply(style: ItemStyle, top: Option<real>, scrollerHeight: real): (s: ItemStyle)
    ensures top.None? ==> s == style
    ensures top.Some? && DecisionFor(top.value, scrollerHeight) == Reveal ==> s == ShownItems
    ensures top.Some? && DecisionFor(top.value, scrollerHeight) == Hide ==> s == HiddenItems
    ensures top.Some? && DecisionFor(top.value, scrollerHeight) == Keep ==> s == style
  {
    if top.None? then style
    else match DecisionFor(top.value, scrollerHeight)
      case Reveal => ShownItems
      case Hide => HiddenItems
      case Keep => style
  }

  /** The rule only depends on the position: two scroll events at the same place give the same result as one. */
  lemma ApplyIdempotent(style: ItemStyle, top: Option<real>, scrollerHeight: real)
    ensures Apply(Apply(style, top, scrollerHeight), top, scrollerHeight) == Apply(style, top, scrollerHeight)
  {
  }

  /** Once set up, items are only ever fully hidden or fully shown. */
  lemma ApplyKeepsTwoStates(style: ItemStyle, top: Option<real>, scrollerHeight: real)
    requires style == HiddenItems || style == ShownItems
    ensures Apply(style, top, scrollerHeight) == HiddenItems || Apply(style, top, scrollerHeight) == ShownItems
  {
  }

  /** Where the two groups are on screen at one moment. */
  datatype Layout = Layout(companiesTop: Option<real>, toolsTop: Option<real>, scrollerHeight: real)

  class RevealState {
    var companies: ItemStyle
    var tools: ItemStyle
    var listening: bool

    /** Before the effect runs the items have their stylesheet state: visible. */
    constructor()
      ensures companies == ShownItems && tools == ShownItems && !listening
    {
      companies := ShownItems;
      tools := ShownItems;
      listening := false;
    }

    /** `handleScroll`: each group whose ref is attached is revealed, hidden or kept by the threshold rule. */
    method HandleScroll(layout: Layout)
      modifies this
      ensures companies == Apply(old(companies), layout.companiesTop, layout.scrollerHeight)
      ensures tools == Apply(old(tools), layout.toolsTop, layout.scrollerHeight)
      ensures listening == old(listening)
    {
      companies := Apply(companies, layout.companiesTop, layout.scrollerHeight);
      tools := Apply(tools, layout.toolsTop, layout.scrollerHeight);
    }

    /**
     * The effect body: without a scroller nothing happens; otherwise all
     * items are hidden, the listener is added and the handler runs once.
     */
    method Setup(scrollerFound: bool, layout: Layout)
      modifies this
      ensures !scrollerFound ==> companies == old(companies) && tools == old(tools) && listening == old(listening)
      ensures scrollerFound ==> listening
      ensures scrollerFound ==> companies == Apply(HiddenItems, layout.companiesTop, layout.scrollerHeight)
      ensures scrollerFound ==> tools == Apply(HiddenItems, layout.toolsTop, layout.scrollerHeight)
    {
      if !scrollerFound {
        return;
      }
      companies := HiddenItems;
      tools := HiddenItems;
      listening := true;
      HandleScroll(layout);
    }

    /** The cleanup removes the listener. */
    method Teardown()
      modifies this
      ensures !listening && companies == old(companies) && tools == old(tools)
    {
      listening := false;
    }
  }

  /** A group that starts below the threshold stays hidden after setup; one above it is shown. */
  lemma SetupRevealsOnlyVisibleGroups(top: real, scrollerHeight: real)
    ensures top >= scrollerHeight * RevealRatio ==> Apply(HiddenItems, Some(top), scrollerHeight) == HiddenItems
    ensures top < scrollerHeight * RevealRatio ==> Apply(HiddenItems, Some(top), scrollerHeight) == ShownItems
  {
  }

  /** The about page's data: title, description, avatar and the two lists. */
  datatype Experience = Experience(company: string, logoUrl: Option<string>)
  datatype AboutPageData = AboutPageData(
    title: string,
    description: string,
    avatarUrl: Option<string>,
    avatarAlt: Option<string>,
    skills: Option<seq<string>>,
    experience: Option<seq<Experience>>)

  /** A section is rendered, and its ref attached, only for a non-empty list. */
  predicate ShowsList<T>(xs: Option<seq<T>>) {
    xs.Some? && |xs.value| > 0
  }

  /** A company's logo image when its URL resolves, else the company name as text. */
  datatype Logo = LogoImage(src: string, alt: string) | LogoText(name: string)

  function CompanyLogo(base: string, e: Experience): (l: Logo)
    ensures l.LogoImage? <==> Truthy(e.logoUrl)
    ensures l.LogoImage? ==> l.alt == e.company && l.src == Strapi.MediaUrl(base, e.logoUrl).value
    ensures l.LogoText? ==> l.name == e.company
  {
    var url := Strapi.MediaUrl(base, e.logoUrl);
    if url.Some? then LogoImage(url.value, e.company) else LogoText(e.company)
  }

  datatype AboutView = AboutView(
    avatar: Option<(string, string)>,
    heading: string,
    bio: string,
    companies: Option<seq<Logo>>,
    skills: Option<seq<string>>)

  /** The page body: avatar if its URL resolves (alt falls back to the title), the title and description, then the non-empty sections. */
  function Render(base: string, d: AboutPageData): (v: AboutView)
    ensures v.avatar.Some? <==> Truthy(d.avatarUrl)
    ensures v.avatar.Some? ==> Strapi.MediaUrl(base, d.avatarUrl) == Some(v.avatar.value.0) && v.avatar.value.1 == OrString(d.avatarAlt, d.title)
    ensures v.heading == d.title && v.bio == d.description
    ensures v.companies.Some? <==> ShowsList(d.experience)
    ensures v.companies.Some? ==> (|v.companies.value| == |d.experience.value| &&
      forall i :: 0 <= i < |d.experience.value| ==> v.companies.value[i] == CompanyLogo(base, d.experience.value[i]))
    ensures v.skills.Some? <==> ShowsList(d.skills)
    ensures v.skills.Some? ==> v.skills == d.skills
  {
    var avatar := Strapi.MediaUrl(base, d.avatarUrl);
    AboutView(
      if avatar.Some? then Some((avatar.value, OrString(d.avatarAlt, d.title))) else None,
      d.title,
      d.description,
      if ShowsList(d.experience) then
        Some(seq(|d.experience.value|, i requires 0 <= i < |d.experience.value| => CompanyLogo(base, d.experience.value[i])))
      else None,
      if ShowsList(d.skills) then d.skills else None)
  }

  /** The page's layout only reports a group's position when its section was rendered. */
  predicate LayoutMatches(base: string, d: AboutPageData, layout: Layout) {
    var v := Render(base, d);
    (layout.companiesTop.Some? <==> v.companies.Some?) && (layout.toolsTop.Some? <==> v.skills.Some?)
  }

  /** A page without experience never touches the companies' style while scrolling. */
  lemma EmptyListIsNeverAnimated(base: string, d: AboutPageData, layout: Layout, style: ItemStyle)
    requires LayoutMatches(base, d, layout) && !ShowsList(d.experience)
    ensures Apply(style, layout.companiesTop, layout.scrollerHeight) == style
  {
  }
}
