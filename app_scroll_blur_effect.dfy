/**
 * app/components/ScrollBlurEffect.tsx: two scroll triggers per section, one
 * applying the three-zone blur to the section and one fading the page
 * background from the section's colour towards the next one.
 *
 * `Scene` holds what the effect writes: the styles set on the sections, the
 * body's background, and the global trigger registry
 * (`ScrollTrigger.getAll()`). GSAP's timing and colour interpolation are
 * left out; an interpolated colour is kept as its two ends and the mix
 * parameter.
 */
module AppScrollBlurEffect {
  import opened Common
  import opened ScrollBlurZones

  /** blue-50, green-50, purple-50, yellow-50 and red-50. */
  const BackgroundColours: seq<string> := [
    "rgb(239, 246, 255)", "rgb(240, 253, 244)", "rgb(250, 245, 255)",
    "rgb(254, 252, 232)", "rgb(254, 242, 242)"]

  /** `backgroundColors[i]`: `undefined` past the fifth section. */
  function ColourAt(i: nat): (c: Option<string>)
    ensures c.Some? <==> i < |BackgroundColours|
  {
    if i < |BackgroundColours| then Some(BackgroundColours[i]) else None
  }

  /** `backgroundColors[index + 1] || backgroundColors[index]`: the colour the section fades towards. */
  function NextColour(index: nat): (c: Option<string>)
    ensures index + 1 < |BackgroundColours| ==> c == ColourAt(index + 1)
    ensures index + 1 >= |BackgroundColours| ==> c == ColourAt(index)
  {
    if ColourAt(index + 1).Some? then ColourAt(index + 1) else ColourAt(index)
  }

  /**
   * Only the section at palette index 4 fades towards its own colour; the
   * last section of a shorter page fades towards the colour of a section
   * that does not exist.
   */
  lemma LastOfThreeFadesToAnotherColour()
    ensures NextColour(2) == Some("rgb(254, 252, 232)") && NextColour(2) != ColourAt(2)
  {
  }

  /** The fade target the last section evidently should have: its own colour, else the next section's. */
  function IntendedNextColour(index: nat, sectionCount: nat): (c: Option<string>)
    requires index < sectionCount
    ensures index == sectionCount - 1 ==> c == ColourAt(index)
    ensures index + 1 < sectionCount && index + 1 < |BackgroundColours| ==> c == ColourAt(index + 1)
  {
    if index + 1 < sectionCount then NextColour(index) else ColourAt(index)
  }

  /** The two agree except on a last section placed before the end of the palette. */
  lemma IntendedDiffersOnlyOnShortPages(index: nat, sectionCount: nat)
    requires index < sectionCount
    ensures IntendedNextColour(index, sectionCount) != NextColour(index) ==>
      index == sectionCount - 1 && sectionCount < |BackgroundColours|
  {
  }

  /** The body's background: a solid colour, or a mix of two colours at parameter `t`. */
  datatype Background = Unset | Solid(colour: Option<string>) | Mix(from: Option<string>, to: Option<string>, t: real)

  /** The background rule as written: the section's own colour for the first half, then a blend towards `NextColour`. */
  function BackgroundAt(index: nat, progress: real): (b: Background)
    ensures progress < 0.5 ==> b == Solid(ColourAt(index))
    ensures progress >= 0.5 ==> b.Mix? && b.from == ColourAt(index) && b.to == NextColour(index)
    ensures 0.5 <= progress <= 1.0 ==> 0.0 <= b.t <= 1.0
  {
    if progress < 0.5 then Solid(ColourAt(index))
    else Mix(ColourAt(index), NextColour(index), (progress - 0.5) * 2.0)
  }

  /** The blend starts exactly at the section's colour and ends exactly at the target. */
  lemma BlendEndpoints(index: nat)
    ensures BackgroundAt(index, 0.5).t == 0.0
    ensures BackgroundAt(index, 1.0).t == 1.0
  {
  }

  /** The background rule with the corrected fade target. */
  function IntendedBackgroundAt(index: nat, progress: real, sectionCount: nat): (b: Background)
    requires index < sectionCount
    ensures progress < 0.5 ==> b == Solid(ColourAt(index))
    ensures progress >= 0.5 ==> b.Mix? && b.from == ColourAt(index) && b.to == IntendedNextColour(index, sectionCount)
    ensures 0.5 <= progress <= 1.0 ==> 0.0 <= b.t <= 1.0
  {
    if progress < 0.5 then Solid(ColourAt(index))
    else Mix(ColourAt(index), IntendedNextColour(index, sectionCount), (progress - 0.5) * 2.0)
  }

  /**
   * With the corrected target the last section never changes colour, and
   * the corrected background differs from the one written only there.
   */
  lemma {:induction false} IntendedLastSectionHoldsItsColour(sectionCount: nat, index: nat, progress: real)
    requires index < sectionCount
    ensures index == sectionCount - 1 && progress >= 0.5 ==>
      IntendedBackgroundAt(index, progress, sectionCount).to == IntendedBackgroundAt(index, progress, sectionCount).from
    ensures IntendedBackgroundAt(index, progress, sectionCount) != BackgroundAt(index, progress) ==>
      progress >= 0.5 && index == sectionCount - 1 && sectionCount < |BackgroundColours|
  {
    IntendedDiffersOnlyOnShortPages(index, sectionCount);
  }

  datatype Trigger = BlurTrigger(section: nat) | ColourTrigger(section: nat)

  /** The triggers the `forEach` creates for the first `n` sections, in creation order. */
  function SectionTriggers(n: nat): (ts: seq<Trigger>)
    ensures |ts| == 2 * n
    ensures forall i :: 0 <= i < n ==> ts[2 * i] == BlurTrigger(i) && ts[2 * i + 1] == ColourTrigger(i)
  {
    if n == 0 then [] else SectionTriggers(n - 1) + [BlurTrigger(n - 1), ColourTrigger(n - 1)]
  }

  class Scene {
    /** `ScrollTrigger`'s global registry of live triggers. */
    var live: seq<Trigger>
    /** The styles written onto the sections so far, by section index. */
    var sectionStyles: map<nat, ZoneStyle>
    var background: Background

    constructor()
      ensures live == [] && sectionStyles == map[] && background == Unset
    {
      live := [];
      sectionStyles := map[];
      background := Unset;
    }

    /**
     * The effect body: nothing unless both refs are attached and there is
     * at least one section, else a blur and a colour trigger per section.
     */
    method Setup(refsAttached: bool, sectionCount: nat)
      modifies this
      ensures !refsAttached || sectionCount == 0 ==> live == old(live)
      ensures refsAttached ==> live == old(live) + SectionTriggers(sectionCount)
      ensures sectionStyles == old(sectionStyles) && background == old(background)
    {
      if !refsAttached || sectionCount == 0 {
        return;
      }
      var index := 0;
      while index < sectionCount
        invariant 0 <= index <= sectionCount
        invariant live == old(live) + SectionTriggers(index)
        invariant sectionStyles == old(sectionStyles) && background == old(background)
      {
        live := live + [BlurTrigger(index), ColourTrigger(index)];
        index := index + 1;
      }
    }

    /** The blur trigger's `onUpdate` for section `index`. */
    method OnBlurUpdate(index: nat, progress: real)
      modifies this
      ensures sectionStyles == old(sectionStyles)[index := StyleAt(progress)]
      ensures live == old(live) && background == old(background)
    {
      sectionStyles := sectionStyles[index := StyleAt(progress)];
    }

    /** The colour trigger's `onUpdate` for section `index`. */
    method OnColourUpdate(index: nat, progress: real)
      modifies this
      ensures background == BackgroundAt(index, progress)
      ensures live == old(live) && sectionStyles == old(sectionStyles)
    {
      background := BackgroundAt(index, progress);
    }

    /** The cleanup: every registered trigger is killed, including ones this effect did not create. */
    method Teardown()
      modifies this
      ensures live == []
      ensures sectionStyles == old(sectionStyles) && background == old(background)
    {
      live := [];
    }
  }

  /** Each section gets exactly one blur trigger, and a page with no sections gets none. */
  lemma {:induction false} OneBlurTriggerPerSection(n: nat, i: nat)
    ensures BlurTrigger(i) in SectionTriggers(n) <==> i < n
    decreases n
  {
    if n > 0 {
      OneBlurTriggerPerSection(n - 1, i);
    }
  }
}
