/**
 * components/mode-toggle.tsx: the light/dark button. A click sets the
 * theme to dark when it is `light` and to light otherwise; the tooltip
 * reads the theme as stored, not as resolved.
 */
module ModeToggle {
  import opened Common

  /** `theme === "light" ? "dark" : "light"`. */
  function Toggled(theme: Option<string>): (t: string)
    ensures theme == Some("light") <==> t == "dark"
    ensures t == "dark" || t == "light"
  {
    if theme == Some("light") then "dark" else "light"
  }

  /** Toggling twice from `light` or `dark` returns to the same theme. */
  lemma ToggleTwiceRestores(theme: string)
    requires theme == "light" || theme == "dark"
    ensures Toggled(Some(Toggled(Some(theme)))) == theme
  {
  }

  /** `system` is not restored: one click makes it light, a second dark. */
  lemma SystemIsLeftForGood()
    ensures Toggled(Some("system")) == "light"
    ensures Toggled(Some(Toggled(Some("system")))) == "dark"
  {
  }

  datatype Tooltip = TooDark | TooBright

  function TooltipFor(theme: Option<string>): (t: Tooltip)
    ensures t == TooDark <==> theme == Some("dark")
  {
    if theme == Some("dark") then TooDark else TooBright
  }

  /** After any click the tooltip offers the way back: a dark theme reads "Too dark?", a light one "Too bright?". */
  lemma TooltipMatchesNewTheme(theme: Option<string>)
    ensures TooltipFor(Some(Toggled(theme))) == (if theme == Some("light") then TooDark else TooBright)
  {
  }

  /** The theme store of `next-themes`, as far as the button uses it. */
  class ThemeStore {
    var theme: Option<string>

    constructor(initial: Option<string>)
      ensures theme == initial
    {
      theme := initial;
    }

    /** `toggleTheme`: one click. */
    method Toggle()
      modifies this
      ensures theme == Some(Toggled(old(theme)))
    {
      theme := Some(Toggled(theme));
    }
  }

  /**
   * Two clicks on a store holding `initial`: light comes back to light,
   * and every other theme (dark, system or unset) ends up dark, with the
   * tooltip offering the way back after each click.
   */
  method ClickTwice(initial: Option<string>) returns (afterFirst: Tooltip, afterSecond: Tooltip, final: Option<string>)
    ensures final == Some(if initial == Some("light") then "light" else "dark")
    ensures initial == Some("light") || initial == Some("dark") ==> final == initial
    ensures afterFirst == (if initial == Some("light") then TooDark else TooBright)
    ensures afterSecond == (if initial == Some("light") then TooBright else TooDark)
  {
    var store := new ThemeStore(initial);
    store.Toggle();
    afterFirst := TooltipFor(store.theme);
    store.Toggle();
    afterSecond := TooltipFor(store.theme);
    final := store.theme;
  }
}
