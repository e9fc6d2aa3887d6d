/**
 * The three-zone blur and opacity of a section as it crosses the scroller,
 * written identically in the `onUpdate` callbacks of
 * app/components/ScrollBlurEffect.tsx and components/ScrollBlurEffect.tsx.
 *
 * Progress `p` is the trigger's progress: 0 when the section's centre is at
 * the bottom of the scroller, 1 when it is at the top. Near the bottom the
 * section fades in from blurred and transparent, in the middle it is clear,
 * near the top it fades out again. Arithmetic is over exact reals.
 */
module ScrollBlurZones {

  const MaxBlur: real := 15.0
  const FadeWidth: real := 0.1
  const ClearEnd: real := 0.9

  /** The `filter: blur(<blur>px)` and `opacity` a section is given. */
  datatype ZoneStyle = ZoneStyle(blur: real, opacity: real)

  const Clear := ZoneStyle(0.0, 1.0)

  /** The state every section is hidden in before its first update. */
  const Hidden := ZoneStyle(MaxBlur, 0.0)

  /** The bottom zone: `localProgress = progress / 0.1`. */
  function FadeIn(p: real): ZoneStyle {
    var local := p / FadeWidth;
    ZoneStyle(MaxBlur * (1.0 - local), local)
  }

  /** The top zone: `localProgress = (progress - 0.9) / 0.1`. */
  function FadeOut(p: real): ZoneStyle {
    var local := (p - ClearEnd) / FadeWidth;
    ZoneStyle(MaxBlur * local, 1.0 - local)
  }

  /** The style for a progress value: strict comparisons, so 0.1 and 0.9 belong to the clear zone. */
  function StyleAt(p: real): (s: ZoneStyle)
    ensures FadeWidth <= p <= ClearEnd ==> s == Clear
    ensures p < FadeWidth ==> s.opacity == p / FadeWidth
    ensures p > ClearEnd ==> s.blur == MaxBlur * (p - ClearEnd) / FadeWidth
  {
    if p < FadeWidth then FadeIn(p)
    else if p > ClearEnd then FadeOut(p)
    else Clear
  }

  /** Blur and opacity move together: the blur is 15 px times the missing opacity, in every zone. */
  lemma BlurTracksOpacity(p: real)
    ensures StyleAt(p).blur == MaxBlur * (1.0 - StyleAt(p).opacity)
  {
  }

  /** Over the trigger's range the blur stays within 0..15 px and the opacity within 0..1. */
  lemma StyleInRange(p: real)
    requires 0.0 <= p <= 1.0
    ensures 0.0 <= StyleAt(p).blur <= MaxBlur
    ensures 0.0 <= StyleAt(p).opacity <= 1.0
  {
  }

  /** A section entering at the bottom and leaving at the top is fully hidden at both ends. */
  lemma EndsAreHidden()
    ensures StyleAt(0.0) == Hidden && StyleAt(1.0) == Hidden
  {
    assert FadeOut(1.0).blur == MaxBlur * ((1.0 - ClearEnd) / FadeWidth);
  }

  /** The effect is symmetric: the style at `p` from the bottom is the style at `p` from the top. */
  lemma Symmetric(p: real)
    ensures StyleAt(p) == StyleAt(1.0 - p)
  {
    if p < FadeWidth {
      assert (1.0 - p - ClearEnd) / FadeWidth == 1.0 - p / FadeWidth;
    } else if p > ClearEnd {
      assert (p - ClearEnd) / FadeWidth == 1.0 - (1.0 - p) / FadeWidth;
    }
  }

  /** Both fade formulas meet the clear style exactly where their zone ends, so the style never jumps. */
  lemma ContinuousAtZoneEdges()
    ensures FadeIn(FadeWidth) == Clear == StyleAt(FadeWidth)
    ensures FadeOut(ClearEnd) == Clear == StyleAt(ClearEnd)
  {
  }

  function Abs(x: real): real {
    if x < 0.0 then -x else x
  }

  /**
   * The opacity changes at most ten times as fast as the progress, across
   * zone boundaries as well: scrolling never makes a section pop in or out.
   */
  lemma OpacityLipschitz(p: real, q: real)
    ensures Abs(StyleAt(p).opacity - StyleAt(q).opacity) <= 10.0 * Abs(p - q)
  {
    var op := StyleAt(p).opacity;
    var oq := StyleAt(q).opacity;
    assert p < FadeWidth ==> op == 10.0 * p;
    assert q < FadeWidth ==> oq == 10.0 * q;
    assert p > ClearEnd ==> op == 1.0 - 10.0 * (p - ClearEnd);
    assert q > ClearEnd ==> oq == 1.0 - 10.0 * (q - ClearEnd);
  }
}
