/**
 * components/ui/progressive-blur.tsx: a stack of absolutely positioned
 * layers, each blurring the backdrop a little more and masked to a band,
 * so the blur grows towards one edge.
 *
 * Each layer is reduced to its z-index, its blur radius in pixels and its
 * mask, a linear gradient kept as its direction and stops.
 */
module ProgressiveBlur {
  import opened Common

  datatype Position = Top | Bottom | Both | Left | Right
  datatype Orientation = Vertical | Horizontal

  /** A gradient direction; `Unstated` is a gradient written without one (top to bottom). */
  datatype Direction = ToBottom | ToTop | ToRight | ToLeft | Unstated

  datatype Mask =
    /** Transparent at `start`, opaque from `start + 12.5` to `start + 25`, transparent again at `start + 37.5` (percent). */
    | Band(dir: Direction, start: real)
    /** Transparent until `start`, opaque at 100%. */
    | Tail(dir: Direction, start: real)
    /** The 0/5/95/100 mask: opaque except for a 5% fade at each end. */
    | Edges(dir: Direction)

  datatype Layer = Layer(zIndex: int, blur: real, mask: Mask)

  /** The band step in percent. */
  const Step: real := 12.5

  datatype Props = Props(
    height: Option<string>,
    width: Option<string>,
    position: Option<Position>,
    orientation: Option<Orientation>,
    blurLevels: Option<seq<real>>)

  const DefaultLevels: seq<real> := [0.5, 1.0, 2.0, 4.0, 8.0, 16.0, 32.0, 64.0]

  /** The props after the defaults of the destructuring have been applied. */
  datatype Settings = Settings(height: string, width: string, position: Position, orientation: Orientation, blurLevels: seq<real>)

  function WithDefaults(p: Props): (s: Settings)
    ensures p.position.None? ==> s.position == Bottom
    ensures p.orientation.None? ==> s.orientation == Vertical
    ensures p.blurLevels.None? ==> |s.blurLevels| == 8
    ensures p.height.None? ==> s.height == "30%"
    ensures p.width.None? ==> s.width == "30%"
    ensures p.position.Some? ==> s.position == p.position.value
    ensures p.orientation.Some? ==> s.orientation == p.orientation.value
    ensures p.blurLevels.Some? ==> s.blurLevels == p.blurLevels.value
  {
    Settings(p.height.GetOr("30%"), p.width.GetOr("30%"), p.position.GetOr(Bottom), p.orientation.GetOr(Vertical),
             p.blurLevels.GetOr(DefaultLevels))
  }

  /** The container's height and width: the blurred edge takes `height` (or `width`), the other axis all of it. */
  function Size(s: Settings): (hw: (string, string))
    ensures s.orientation == Vertical ==> hw.1 == "100%" && hw.0 == (if s.position == Both then "100%" else s.height)
    ensures s.orientation == Horizontal ==> hw.0 == "100%" && hw.1 == (if s.position == Both then "100%" else s.width)
  {
    var vertical := s.orientation == Vertical;
    var horizontal := s.orientation == Horizontal;
    (if vertical then (if s.position == Both then "100%" else s.height) else "100%",
     if horizontal then (if s.position == Both then "100%" else s.width) else "100%")
  }

  /** Which masks the layers get: bands towards an edge, or the same edge mask everywhere. */
  datatype MaskKind = Banded(dir: Direction) | EdgeOnly(dir: Direction)

  /** The conditional chain shared by the three mask expressions. */
  function KindOf(position: Position, orientation: Orientation): (k: MaskKind)
    ensures k.Banded? <==> (orientation == Vertical && (position == Bottom || position == Top)) ||
                           (orientation == Horizontal && (position == Left || position == Right))
    ensures k == EdgeOnly(Unstated) <==> orientation == Vertical && position == Both
    ensures k.Banded? ==> (
      k.dir == match position
               case Bottom => ToBottom
               case Top => ToTop
               case Right => ToRight
               case Left => ToLeft
               case Both => Unstated)
    ensures k.EdgeOnly? && !(orientation == Vertical && position == Both) ==> k.dir == ToRight
  {
    var vertical := orientation == Vertical;
    var horizontal := orientation == Horizontal;
    if vertical && position == Bottom then Banded(ToBottom)
    else if vertical && position == Top then Banded(ToTop)
    else if vertical && position == Both then EdgeOnly(Unstated)
    else if horizontal && position == Right then Banded(ToRight)
    else if horizontal && position == Left then Banded(ToLeft)
    else EdgeOnly(ToRight)
  }

  /** The first, middle and last layers' masks. */
  function FirstMask(k: MaskKind): (m: Mask) {
    if k.Banded? then Band(k.dir, 0.0) else Edges(k.dir)
  }

  function MiddleMask(k: MaskKind, index: nat): (m: Mask) {
    if k.Banded? then Band(k.dir, (index as real + 1.0) * Step) else Edges(k.dir)
  }

  function LastMask(k: MaskKind): (m: Mask) {
    if k.Banded? then Tail(k.dir, 87.5) else Edges(k.dir)
  }

  datatype Error = InvalidArrayLength

  /**
   * The layer stack: a first layer, `n - 2` middle layers built from
   * `Array(n - 2)`, and a last layer. With fewer than two levels the
   * array constructor throws.
   */
  function Layers(s: Settings): (r: Result<seq<Layer>, Error>)
    ensures r.Err? <==> |s.blurLevels| < 2
    ensures r.Ok? ==> |r.value| == |s.blurLevels|
    ensures r.Ok? ==> forall i :: 0 <= i < |r.value| ==> r.value[i].zIndex == i + 1 && r.value[i].blur == s.blurLevels[i]
    ensures r.Ok? ==> r.value[0].mask == FirstMask(KindOf(s.position, s.orientation))
    ensures r.Ok? ==> r.value[|r.value| - 1].mask == LastMask(KindOf(s.position, s.orientation))
    ensures r.Ok? ==> forall i :: 0 < i < |r.value| - 1 ==> r.value[i].mask == MiddleMask(KindOf(s.position, s.orientation), i - 1)
  {
    var n := |s.blurLevels|;
    if n < 2 then Err(InvalidArrayLength)
    else
      var k := KindOf(s.position, s.orientation);
      var first := Layer(1, s.blurLevels[0], FirstMask(k));
      var middle := seq(n - 2, index requires 0 <= index < n - 2 => Layer(index + 2, s.blurLevels[index + 1], MiddleMask(k, index)));
      var last := Layer(n, s.blurLevels[n - 1], LastMask(k));
      Ok([first] + middle + [last])
  }

  /** Every layer sits strictly above the one before it. */
  lemma ZIndicesIncrease(s: Settings, i: nat, j: nat)
    requires Layers(s).Ok? && i < j < |Layers(s).value|
    ensures Layers(s).value[i].zIndex < Layers(s).value[j].zIndex
  {
  }

  /** Each banded middle layer starts 12.5% after the previous one: its ramp begins where the previous layer became opaque. */
  lemma BandsShiftByOneStep(s: Settings, i: nat)
    requires Layers(s).Ok? && KindOf(s.position, s.orientation).Banded? && 0 < i < |Layers(s).value| - 1
    ensures Layers(s).value[i].mask.Band? && Layers(s).value[i].mask.start == i as real * Step
    ensures i > 1 ==> Layers(s).value[i].mask.start == Layers(s).value[i - 1].mask.start + Step
  {
  }

  /** The default eight levels keep every opaque band inside the element; a ninth level pushes one past 100%. */
  lemma DefaultBandsFitInside()
    ensures var s := WithDefaults(Props(None, None, None, None, None));
      Layers(s).Ok? && forall i :: 0 < i < |Layers(s).value| - 1 ==> Layers(s).value[i].mask.start + 2.0 * Step <= 100.0
    ensures var s := WithDefaults(Props(None, None, None, None, Some(DefaultLevels + [128.0])));
      Layers(s).Ok? && Layers(s).value[7].mask.start + 2.0 * Step > 100.0
  {
  }

  /** With `both`, every layer gets the same mask, whatever the number of levels. */
  lemma BothUsesOneMask(s: Settings, i: nat, j: nat)
    requires s.position == Both && Layers(s).Ok? && i < |Layers(s).value| && j < |Layers(s).value|
    ensures Layers(s).value[i].mask == Layers(s).value[j].mask
  {
  }
}
