/**
 * components/themed-logo.tsx: a client or tool logo whose colours come
 * from CSS variables, with a dark-theme overlay applied only after the
 * component has mounted. With a description the logo opens a drawer on
 * narrow windows and a hover card on wide ones.
 *
 * `ThemedLogoState` holds the component's React state; the theme, the
 * window width and the fetched SVG text are parameters of its methods.
 */
module ThemedLogo {
  import opened Common
  import Strapi

  /** The `xl` breakpoint in pixels. */
  const DrawerBreakpoint := 1280

  datatype LogoImage = LogoImage(url: Option<string>, ext: Option<string>)

  datatype LogoItemData = LogoItemData(
    name: string,
    classes: Option<string>,
    cssVariables: Option<map<string, string>>,
    cssVariablesDark: Option<map<string, string>>,
    description: Option<string>,
    image: Option<LogoImage>)

  /** `data.image?.url ? getStrapiMediaURL(data.image.url) : null`. */
  function ImageUrl(base: string, d: LogoItemData): (u: Option<string>)
    ensures u.Some? <==> d.image.Some? && Truthy(d.image.value.url)
  {
    if d.image.Some? then Strapi.MediaUrl(base, d.image.value.url) else None
  }

  /** The SVG is fetched and inlined only for a resolved URL whose extension is exactly `.svg`. */
  predicate FetchesSvg(base: string, d: LogoItemData) {
    ImageUrl(base, d).Some? && d.image.value.ext == Some(".svg")
  }

  /**
   * The inline style: the base variables, overlaid by the dark ones once
   * mounted in the dark theme. An empty dark map is still an object, so
   * it counts as present.
   */
  function Style(d: LogoItemData, mounted: bool, resolvedTheme: Option<string>): (m: map<string, string>)
    ensures !(mounted && resolvedTheme == Some("dark") && d.cssVariablesDark.Some?) ==>
      m == d.cssVariables.GetOr(map[])
    ensures mounted && resolvedTheme == Some("dark") && d.cssVariablesDark.Some? ==>
      m == Spread(d.cssVariables.GetOr(map[]), d.cssVariablesDark.value)
  {
    var dark := if mounted && resolvedTheme == Some("dark") && d.cssVariablesDark.Some? then d.cssVariablesDark.value else map[];
    Spread(d.cssVariables.GetOr(map[]), dark)
  }

  /** Before mount the style never depends on the theme, so server and client render the same markup. */
  lemma StyleBeforeMountIgnoresTheme(d: LogoItemData, t1: Option<string>, t2: Option<string>)
    ensures Style(d, false, t1) == Style(d, false, t2) == d.cssVariables.GetOr(map[])
  {
  }

  /** In the dark theme a dark value wins on a shared key; a key only in the base keeps its value. */
  lemma DarkValueWins(d: LogoItemData, key: string)
    requires d.cssVariablesDark.Some? && d.cssVariables.Some?
    ensures key in d.cssVariablesDark.value ==> Style(d, true, Some("dark"))[key] == d.cssVariablesDark.value[key]
    ensures key in d.cssVariables.value && key !in d.cssVariablesDark.value ==>
      Style(d, true, Some("dark"))[key] == d.cssVariables.value[key]
  {
  }

  /** The logo tile: its accessible label, style, inlined SVG and class list. */
  datatype Item = Item(ariaLabel: string, style: map<string, string>, inlineSvg: Option<string>, classes: string)

  datatype LogoView =
    | NoLogo
    | Bare(item: Item)
    | InDrawer(item: Item, title: string, description: string)
    | InHoverCard(item: Item, title: string, description: string)

  function AriaLabel(name: string): (s: string)
    ensures StartsWith(s, "Logo for ") && EndsWith(s, name)
  {
    "Logo for " + name
  }

  class ThemedLogoState {
    var mounted: bool
    /** `undefined` until the width effect has run. */
    var showDrawer: Option<bool>
    var svgContent: Option<string>

    constructor()
      ensures !mounted && showDrawer == None && svgContent == None
    {
      mounted := false;
      showDrawer := None;
      svgContent := None;
    }

    /** The first effect: the component is mounted. */
    method Mount()
      modifies this
      ensures mounted && showDrawer == old(showDrawer) && svgContent == old(svgContent)
    {
      mounted := true;
    }

    /** The width effect and its media-query listener: the drawer is used below the breakpoint. */
    method OnWidth(innerWidth: int)
      modifies this
      ensures showDrawer == Some(innerWidth < DrawerBreakpoint)
      ensures mounted == old(mounted) && svgContent == old(svgContent)
    {
      showDrawer := Some(innerWidth < DrawerBreakpoint);
    }

    /** The SVG effect: the fetched text is stored only when the effect fetches at all; a failed fetch leaves the state alone. */
    method OnSvgFetched(base: string, d: LogoItemData, fetched: Option<string>)
      modifies this
      ensures FetchesSvg(base, d) && fetched.Some? ==> svgContent == fetched
      ensures !(FetchesSvg(base, d) && fetched.Some?) ==> svgContent == old(svgContent)
      ensures mounted == old(mounted) && showDrawer == old(showDrawer)
    {
      if FetchesSvg(base, d) && fetched.Some? {
        svgContent := fetched;
      }
    }

    /** The rendered logo for the current state. */
    function Render(base: string, d: LogoItemData, resolvedTheme: Option<string>): (v: LogoView)
      reads this
      ensures v.NoLogo? <==> ImageUrl(base, d).None?
      ensures !v.NoLogo? ==> v.item.ariaLabel == AriaLabel(d.name) && v.item.style == Style(d, mounted, resolvedTheme)
      ensures !v.NoLogo? ==> (v.Bare? <==> !Truthy(d.description))
      ensures v.InDrawer? <==> ImageUrl(base, d).Some? && Truthy(d.description) && showDrawer == Some(true)
      ensures (v.InDrawer? || v.InHoverCard?) ==> v.title == d.name && Some(v.description) == d.description
      ensures !v.NoLogo? ==> v.item.inlineSvg == (if Truthy(svgContent) then svgContent else None)
    {
      if ImageUrl(base, d).None? then NoLogo
      else
        var item := Item(AriaLabel(d.name), Style(d, mounted, resolvedTheme),
                         if Truthy(svgContent) then svgContent else None, OrString(d.classes, ""));
        if !Truthy(d.description) then Bare(item)
        else if showDrawer == Some(true) then InDrawer(item, d.name, d.description.value)
        else InHoverCard(item, d.name, d.description.value)
    }
  }

  /** After the effects have run, the drawer is chosen exactly on windows narrower than 1280 pixels. */
  method DrawerFollowsWidth(base: string, d: LogoItemData, innerWidth: int) returns (v: LogoView)
    requires ImageUrl(base, d).Some? && Truthy(d.description)
    ensures v.InDrawer? <==> innerWidth < DrawerBreakpoint
    ensures !v.InDrawer? ==> v.InHoverCard?
  {
    var logo := new ThemedLogoState();
    logo.Mount();
    logo.OnWidth(innerWidth);
    v := logo.Render(base, d, None);
  }

  /**
   * The tile has content only for an SVG logo: whatever the fetch returns
   * for any other logo is never stored, so that tile stays empty.
   */
  method SvgOnlyForSvgLogos(base: string, d: LogoItemData, fetched: Option<string>) returns (v: LogoView)
    ensures !v.NoLogo? ==> (v.item.inlineSvg.Some? <==> FetchesSvg(base, d) && Truthy(fetched))
    ensures !v.NoLogo? && v.item.inlineSvg.Some? ==> v.item.inlineSvg == fetched
  {
    var logo := new ThemedLogoState();
    logo.Mount();
    logo.OnSvgFetched(base, d, fetched);
    v := logo.Render(base, d, None);
  }
}
