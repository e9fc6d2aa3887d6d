/**
 * components/project-blocks/comparison-slider-block.tsx: a before image, an
 * after image clipped from the right, and a handle the user drags with the
 * mouse or a finger.
 *
 * `Slider` holds the component's two pieces of mutable state, the
 * `sliderPosition` state (a percentage) and the `isDragging` ref. The
 * container's bounding box is a parameter of the move events, `None` when
 * the container ref is not attached.
 */
module ComparisonSliderBlock {
  import opened Common
  import Strapi
  import opened ProjectBlockTypes

  const InitialPosition: real := 50.0

  /** `Math.min(Math.max(x, lo), hi)`. */
  function Clamp(x: real, lo: real, hi: real): (r: real)
    requires lo <= hi
    ensures lo <= r <= hi
    ensures lo <= x <= hi ==> r == x
    ensures x < lo ==> r == lo
    ensures x > hi ==> r == hi
  {
    if x < lo then lo else if x > hi then hi else x
  }

  /** The part of the container that `getBoundingClientRect` reports. */
  datatype Rect = Rect(left: real, width: real)

  /** Where a pointer at `clientX` puts the handle, as a clamped percentage of the container width. */
  function PositionAt(rect: Rect, clientX: real): (p: real)
    requires rect.width > 0.0
    ensures 0.0 <= p <= 100.0
    ensures clientX <= rect.left ==> p == 0.0
    ensures clientX >= rect.left + rect.width ==> p == 100.0
    ensures rect.left <= clientX <= rect.left + rect.width ==> p == (clientX - rect.left) / rect.width * 100.0
  {
    var x := clientX - rect.left;
    PercentageBounds(x, rect.width);
    Clamp(x / rect.width * 100.0, 0.0, 100.0)
  }

  /** Where a horizontal offset lies relative to the container decides where its percentage lies relative to 0..100. */
  lemma PercentageBounds(x: real, w: real)
    requires w > 0.0
    ensures x <= 0.0 ==> x / w * 100.0 <= 0.0
    ensures x >= 0.0 ==> x / w * 100.0 >= 0.0
    ensures x >= w ==> x / w * 100.0 >= 100.0
    ensures x <= w ==> x / w * 100.0 <= 100.0
  {
    if x >= w {
      assert x / w >= 1.0;
    }
    if x <= w {
      assert x / w <= 1.0;
    }
  }

  /** Requires of every move: an attached container has a positive width (a zero width would give NaN). */
  predicate MeasurableContainer(container: Option<Rect>) {
    container.None? || container.value.width > 0.0
  }

  class Slider {
    var position: real
    var dragging: bool

    /** The handle is always inside the container. */
    predicate Valid()
      reads this
    {
      0.0 <= position <= 100.0
    }

    /** `useState(50)` and `useRef(false)`. */
    constructor()
      ensures position == InitialPosition && !dragging
      ensures Valid()
    {
      position := InitialPosition;
      dragging := false;
    }

    /** `handleMove`: no container, no change; otherwise the clamped percentage. */
    method HandleMove(container: Option<Rect>, clientX: real)
      requires MeasurableContainer(container)
      requires Valid()
      modifies this
      ensures Valid()
      ensures container.None? ==> position == old(position)
      ensures container.Some? ==> position == PositionAt(container.value, clientX)
      ensures dragging == old(dragging)
    {
      if container.Some? {
        position := PositionAt(container.value, clientX);
      }
    }

    /** `mousedown` and `touchstart` on the handle. */
    method MouseDown()
      modifies this
      ensures dragging && position == old(position)
    {
      dragging := true;
    }

    /** `mouseup`, `mouseleave` and `touchend` on the container. */
    method MouseUp()
      modifies this
      ensures !dragging && position == old(position)
    {
      dragging := false;
    }

    /** `mousemove` on the container: follows the pointer only while dragging. */
    method MouseMove(container: Option<Rect>, clientX: real)
      requires MeasurableContainer(container)
      requires Valid()
      modifies this
      ensures Valid()
      ensures !old(dragging) || container.None? ==> position == old(position)
      ensures old(dragging) && container.Some? ==> position == PositionAt(container.value, clientX)
      ensures dragging == old(dragging)
    {
      if !dragging {
        return;
      }
      HandleMove(container, clientX);
    }

    /** `touchmove` on the container: follows the first touch point whether or not the handle was grabbed. */
    method TouchMove(container: Option<Rect>, touches: seq<real>)
      requires MeasurableContainer(container)
      requires Valid()
      modifies this
      ensures Valid()
      ensures |touches| == 0 || container.None? ==> position == old(position)
      ensures |touches| > 0 && container.Some? ==> position == PositionAt(container.value, touches[0])
      ensures dragging == old(dragging)
    {
      if |touches| > 0 {
        HandleMove(container, touches[0]);
      }
    }
  }

  /** The markup that depends on the block and the handle position. */
  datatype SliderView = SliderView(
    before: string,
    beforeAlt: string,
    after: string,
    afterAlt: string,
    clipRight: real,
    handleLeft: real,
    beforeLabel: Option<string>,
    afterLabel: Option<string>)

  /**
   * `ComparisonSliderBlock` at a given handle position: nothing unless both
   * images are present; the after image is clipped by `100 - position`
   * percent from the right and the handle sits at `position` percent.
   * The project title it is given is not used.
   */
  function Render(base: string, b: BlockFields, projectTitle: string, position: real): (r: Option<SliderView>)
    ensures r.None? <==> b.beforeImage.None? || b.afterImage.None?
    ensures r.Some? ==> r.value.clipRight + r.value.handleLeft == 100.0 && r.value.handleLeft == position
    ensures r.Some? ==> r.value.beforeAlt == OrString(b.beforeLabel, "Before") && r.value.afterAlt == OrString(b.afterLabel, "After")
    ensures r.Some? ==> (r.value.beforeLabel.Some? <==> Truthy(b.beforeLabel)) && (r.value.afterLabel.Some? <==> Truthy(b.afterLabel))
    ensures r.Some? ==> r.value.beforeLabel == Caption(b.beforeLabel) && r.value.afterLabel == Caption(b.afterLabel)
    ensures r.Some? ==> r.value.before == PictureOf(base, b.beforeImage.value, "").src
    ensures r.Some? ==> r.value.after == PictureOf(base, b.afterImage.value, "").src
  {
    if b.beforeImage.None? || b.afterImage.None? then None
    else Some(SliderView(
      Strapi.MediaUrl(base, Some(b.beforeImage.value.url)).GetOr(""), OrString(b.beforeLabel, "Before"),
      Strapi.MediaUrl(base, Some(b.afterImage.value.url)).GetOr(""), OrString(b.afterLabel, "After"),
      100.0 - position, position,
      Caption(b.beforeLabel), Caption(b.afterLabel)))
  }

  /** While the slider state is valid, both the clip inset and the handle offset stay within 0..100 percent. */
  lemma ClipStaysInside(base: string, b: BlockFields, projectTitle: string, position: real)
    requires 0.0 <= position <= 100.0
    requires b.beforeImage.Some? && b.afterImage.Some?
    ensures var v := Render(base, b, projectTitle, position).value;
      0.0 <= v.clipRight <= 100.0 && 0.0 <= v.handleLeft <= 100.0
  {
  }

  /** A drag: press, move, release leaves the handle under the pointer and the slider idle. */
  method Drag(s: Slider, container: Rect, clientX: real)
    requires container.width > 0.0 && s.Valid()
    modifies s
    ensures s.Valid() && !s.dragging
    ensures s.position == PositionAt(container, clientX)
  {
    s.MouseDown();
    s.MouseMove(Some(container), clientX);
    s.MouseUp();
  }

  /** A hover without a press never moves the handle. */
  method Hover(s: Slider, container: Rect, clientX: real)
    requires container.width > 0.0 && s.Valid()
    modifies s
    ensures s.position == old(s.position)
  {
    s.MouseUp();
    s.MouseMove(Some(container), clientX);
  }
}
