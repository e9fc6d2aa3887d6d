/**
 * app/about/ThemedLogo.tsx: the about page's logo tile. It merges the
 * CSS variables like the shared logo but without a mount guard, and adds
 * the tile's width and height.
 */
module AboutThemedLogo {
  import opened Common
  import Strapi

  datatype LogoImage = LogoImage(url: Option<string>, alternativeText: Option<string>, width: Option<int>, height: Option<int>)

  datatype LogoItemData = LogoItemData(
    name: string,
    ariaLabel: string,
    imageWidth: Option<int>,
    classes: Option<string>,
    cssVariables: Option<map<string, string>>,
    cssVariablesDark: Option<map<string, string>>,
    image: Option<LogoImage>)

  const DefaultSize := 100

  /** `${imageWidth}rem`, or `auto` when the width is missing or zero. */
  function WidthValue(imageWidth: Option<int>): (w: string)
    ensures !TruthyInt(imageWidth) <==> w == "auto"
    ensures TruthyInt(imageWidth) ==> w == IntToString(imageWidth.value) + "rem"
  {
    if TruthyInt(imageWidth) then
      var digits := IntToString(imageWidth.value);
      assert digits[0] == '-' || '0' <= digits[0] <= '9' by {
        if imageWidth.value >= 0 { assert digits == NatToString(imageWidth.value); }
      }
      assert (digits + "rem")[0] == digits[0];
      digits + "rem"
    else "auto"
  }

  /** The inline style: base variables, the dark overlay in the dark theme, then width and height. */
  function InlineStyle(d: LogoItemData, resolvedTheme: Option<string>): (m: map<string, string>)
    ensures "width" in m && "height" in m
    ensures m["width"] == WidthValue(d.imageWidth) && m["height"] == "auto"
    ensures forall k :: k in m && k != "width" && k != "height" ==>
      if resolvedTheme == Some("dark") && d.cssVariablesDark.Some? && k in d.cssVariablesDark.value
      then m[k] == d.cssVariablesDark.value[k]
      else k in d.cssVariables.GetOr(map[]) && m[k] == d.cssVariables.GetOr(map[])[k]
    ensures forall k :: k in d.cssVariables.GetOr(map[]) ==> k in m
  {
    var dark := if resolvedTheme == Some("dark") && d.cssVariablesDark.Some? then d.cssVariablesDark.value else map[];
    Spread(Spread(d.cssVariables.GetOr(map[]), dark), map["width" := WidthValue(d.imageWidth), "height" := "auto"])
  }

  /** Without a mount guard the dark overlay applies on the very first render. */
  lemma DarkAppliesImmediately(d: LogoItemData, key: string)
    requires d.cssVariablesDark.Some? && key in d.cssVariablesDark.value && key != "width" && key != "height"
    ensures InlineStyle(d, Some("dark"))[key] == d.cssVariablesDark.value[key]
  {
  }

  /** A width of zero is falsy and gives `auto`. */
  lemma ZeroWidthIsAuto(d: LogoItemData, t: Option<string>)
    requires d.imageWidth == Some(0)
    ensures InlineStyle(d, t)["width"] == "auto"
  {
  }

  datatype Tile = Tile(ariaLabel: string, style: map<string, string>, src: string, alt: string, width: int, height: int, classes: string)

  function Render(base: string, d: LogoItemData, resolvedTheme: Option<string>): (t: Option<Tile>)
    ensures t.None? <==> !(d.image.Some? && Truthy(d.image.value.url))
    ensures t.Some? ==> t.value.src == Strapi.MediaUrl(base, d.image.value.url).value
    ensures t.Some? ==> t.value.alt == OrString(d.image.value.alternativeText, d.name)
    ensures t.Some? ==> t.value.width == OrInt(d.image.value.width, DefaultSize) && t.value.height == OrInt(d.image.value.height, DefaultSize)
    ensures t.Some? ==> t.value.ariaLabel == d.ariaLabel && t.value.style == InlineStyle(d, resolvedTheme)
  {
    var url := if d.image.Some? then Strapi.MediaUrl(base, d.image.value.url) else None;
    if url.None? then None
    else
      var img := d.image.value;
      Some(Tile(d.ariaLabel, InlineStyle(d, resolvedTheme), url.value, OrString(img.alternativeText, d.name),
                OrInt(img.width, DefaultSize), OrInt(img.height, DefaultSize), OrString(d.classes, "")))
  }
}
