/**
 * The gesture handlers of a component in src/App.js (`onDrag`, `onResize`,
 * `onResizeEnd`), each as the arguments it passes to `updateMoveable` and
 * the resulting store sequence. `props` is the component's own record as it
 * was last rendered; the event fields reported by the gesture library are
 * plain inputs.
 */
module Gestures {
  import opened Wrappers
  import opened Geometry
  import opened Store

  /** `drag.beforeTranslate`: the translation `[x, y]` accumulated since the gesture began. */
  datatype Translate = Translate(x: real, y: real)

  /** The fields `onDrag` reads from its event. */
  datatype DragEvent = DragEvent(top: real, left: real, width: real, height: real)

  /** The fields a resize event carries; `drag` is absent when the resize moved no edge. */
  datatype ResizeEvent = ResizeEvent(width: real, height: real, drag: Option<Translate>)

  /** The event's raw box, in the component's colour. */
  function DragBox(ev: DragEvent, color: Color): Box
  {
    Box(ev.top, ev.left, ev.width, ev.height, color)
  }

  /** `onDrag`: the event's box is clamped inline, then stored by `updateMoveable` with `updateEnd` false. */
  function DragApplied(s: seq<Moveable>, props: Moveable, ev: DragEvent, area: Area): seq<Moveable>
  {
    Updated(s, props.id, CheckBounds(DragBox(ev, props.box.color), area), false, area)
  }

  /**
   * What a drag stores. Other records are untouched. A record with the id
   * gets the event's size and the component's colour, and is not committed.
   * On each axis where the box fits, the second clamp changes nothing, so
   * the position is the event's, clamped once; a box that fits on both axes
   * lies inside the container. On an axis where the box is taller (wider)
   * than the container, the second clamp matters. The stored top
   * (left) is then 0 when the raw value was not negative, and the negative
   * far-edge position when it was.
   */
  lemma DragStores(s: seq<Moveable>, props: Moveable, ev: DragEvent, area: Area, i: int)
    requires 0 <= i < |s|
    ensures DragApplied(s, props, ev, area)[i].id == s[i].id
    ensures s[i].id != props.id ==> DragApplied(s, props, ev, area)[i] == s[i]
    ensures s[i].id == props.id ==>
              var m := DragApplied(s, props, ev, area)[i];
              && m.box.width == ev.width && m.box.height == ev.height
              && m.box.color == props.box.color && !m.updateEnd
              && (ev.width <= area.width && ev.height <= area.height ==>
                    m.box == CheckBounds(DragBox(ev, props.box.color), area) && Fits(m.box, area))
              && (ev.height <= area.height ==> m.box.top == ClampAxis(ev.top, ev.height, area.height))
              && (ev.width <= area.width ==> m.box.left == ClampAxis(ev.left, ev.width, area.width))
              && (ev.height > area.height ==>
                    m.box.top == if ev.top < 0.0 then area.height - ev.height else 0.0)
              && (ev.width > area.width ==>
                    m.box.left == if ev.left < 0.0 then area.width - ev.width else 0.0)
  {
    var clamped := CheckBounds(DragBox(ev, props.box.color), area);
    UpdatedAt(s, props.id, clamped, false, area, i);
    if s[i].id == props.id {
      CheckBoundsTwice(DragBox(ev, props.box.color), area);
      ClampAxisTwice(ev.top, ev.height, area.height);
      ClampAxisTwice(ev.left, ev.width, area.width);
      if ev.height > area.height {
        ClampAxisTwiceOversized(ev.top, ev.height, area.height);
      }
      if ev.width > area.width {
        ClampAxisTwiceOversized(ev.left, ev.width, area.width);
      }
    }
  }

  /** A run of drag events of one component, applied in order. */
  function DragSequence(s: seq<Moveable>, props: Moveable, evs: seq<DragEvent>, area: Area): seq<Moveable>
    decreases |evs|
  {
    if evs == [] then s
    else DragSequence(DragApplied(s, props, evs[0], area), props, evs[1..], area)
  }

  /**
   * No drift: after a run of drag events the store holds what the last event
   * alone would have stored, however many events came before it.
   */
  lemma {:induction false} DragSequenceLastWins(s: seq<Moveable>, props: Moveable, evs: seq<DragEvent>, area: Area)
    requires evs != []
    ensures DragSequence(s, props, evs, area) == DragApplied(s, props, evs[|evs| - 1], area)
    decreases |evs|
  {
    if |evs| > 1 {
      var s1 := DragApplied(s, props, evs[0], area);
      DragSequenceLastWins(s1, props, evs[1..], area);
      var last := evs[|evs| - 1];
      assert evs[1..][|evs[1..]| - 1] == last;
      UpdatedLastWins(s, props.id,
                      CheckBounds(DragBox(evs[0], props.box.color), area), false,
                      CheckBounds(DragBox(last, props.box.color), area), false, area);
    }
  }

  /** `onResize`: the rendered top/left with the event's new size, stored by `updateMoveable`. */
  function ResizeApplied(s: seq<Moveable>, props: Moveable, ev: ResizeEvent, area: Area): seq<Moveable>
  {
    Updated(s, props.id, Box(props.box.top, props.box.left, ev.width, ev.height, props.box.color), false, area)
  }

  /**
   * What a live resize stores for a record with the id: `checkBounds` of the
   * rendered top/left with the event's new size, clamped once (so, unlike a
   * drag, an oversized box is not flipped). The event's translation is
   * ignored. The rendered position is kept when the resized box still fits,
   * and the result lies inside the container when the new size allows it.
   */
  lemma ResizeStores(s: seq<Moveable>, props: Moveable, ev: ResizeEvent, area: Area, i: int)
    requires 0 <= i < |s|
    ensures s[i].id != props.id ==> ResizeApplied(s, props, ev, area)[i] == s[i]
    ensures s[i].id == props.id ==>
              var m := ResizeApplied(s, props, ev, area)[i];
              && m.id == props.id && m.box.width == ev.width && m.box.height == ev.height
              && m.box.color == props.box.color && !m.updateEnd
              && m.box == CheckBounds(Box(props.box.top, props.box.left, ev.width, ev.height, props.box.color), area)
              && (ev.width <= area.width && ev.height <= area.height ==> Fits(m.box, area))
              && (Fits(Box(props.box.top, props.box.left, ev.width, ev.height, props.box.color), area) ==>
                    m.box.top == props.box.top && m.box.left == props.box.left)
  {
    UpdatedAt(s, props.id, Box(props.box.top, props.box.left, ev.width, ev.height, props.box.color), false, area, i);
  }

  /**
   * `onResizeEnd`: with a translation, the rendered top/left plus the
   * translation, with the final size, clamped; without one, nothing.
   */
  function ResizeEndBox(props: Moveable, last: ResizeEvent, area: Area): (p: Option<Box>)
    ensures p.Some? <==> last.drag.Some?
    ensures p.Some? ==> p.value.width == last.width && p.value.height == last.height
                        && p.value.color == props.box.color
    ensures p.Some? && last.width <= area.width && last.height <= area.height ==> Fits(p.value, area)
  {
    match last.drag
    case None => None
    case Some(t) =>
      Some(CheckBounds(Box(props.box.top + t.y, props.box.left + t.x, last.width, last.height, props.box.color), area))
  }

  /**
   * The store after `onResizeEnd`. A missing last event makes the handler
   * throw before it writes anything, so the store is unchanged.
   */
  function ResizeEndApplied(s: seq<Moveable>, props: Moveable, last: Option<ResizeEvent>, area: Area): seq<Moveable>
  {
    match last
    case None => s
    case Some(ev) =>
      match ResizeEndBox(props, ev, area)
      case None => s
      case Some(p) => Updated(s, props.id, p, true, area)
  }

  /**
   * What a resize end stores. Without a final event or a translation, the
   * store is unchanged. Otherwise each record with the id becomes committed.
   * Its position is the rendered position plus the translation. On each axis
   * where it fits, that position is clamped once. On an axis where it is
   * larger than the container, the second clamp flips the position.
   */
  lemma ResizeEndStores(s: seq<Moveable>, props: Moveable, last: Option<ResizeEvent>, area: Area, i: int)
    requires 0 <= i < |s|
    ensures last.None? || last.value.drag.None? ==> ResizeEndApplied(s, props, last, area) == s
    ensures s[i].id != props.id ==> ResizeEndApplied(s, props, last, area)[i] == s[i]
    ensures s[i].id == props.id && last.Some? && last.value.drag.Some? ==>
              var ev, t := last.value, last.value.drag.value;
              var raw := Box(props.box.top + t.y, props.box.left + t.x, ev.width, ev.height, props.box.color);
              var m := ResizeEndApplied(s, props, last, area)[i];
              && m.id == props.id && m.updateEnd
              && m.box.width == ev.width && m.box.height == ev.height && m.box.color == props.box.color
              && (ev.width <= area.width && ev.height <= area.height ==>
                    m.box == CheckBounds(raw, area) && Fits(m.box, area))
              && (ev.height <= area.height ==> m.box.top == ClampAxis(raw.top, ev.height, area.height))
              && (ev.width <= area.width ==> m.box.left == ClampAxis(raw.left, ev.width, area.width))
              && (ev.height > area.height ==>
                    m.box.top == if raw.top < 0.0 then area.height - ev.height else 0.0)
              && (ev.width > area.width ==>
                    m.box.left == if raw.left < 0.0 then area.width - ev.width else 0.0)
  {
    if last.Some? && last.value.drag.Some? {
      var ev, t := last.value, last.value.drag.value;
      var raw := Box(props.box.top + t.y, props.box.left + t.x, ev.width, ev.height, props.box.color);
      UpdatedAt(s, props.id, CheckBounds(raw, area), true, area, i);
      if s[i].id == props.id {
        CheckBoundsTwice(raw, area);
        ClampAxisTwice(raw.top, ev.height, area.height);
        ClampAxisTwice(raw.left, ev.width, area.width);
        if ev.height > area.height {
          ClampAxisTwiceOversized(raw.top, ev.height, area.height);
        }
        if ev.width > area.width {
          ClampAxisTwiceOversized(raw.left, ev.width, area.width);
        }
      }
    }
  }

  /** Committing the same final resize event twice stores the same records as committing it once. */
  lemma ResizeEndTwice(s: seq<Moveable>, props: Moveable, last: Option<ResizeEvent>, area: Area)
    ensures ResizeEndApplied(ResizeEndApplied(s, props, last, area), props, last, area)
            == ResizeEndApplied(s, props, last, area)
  {
    if last.Some? && last.value.drag.Some? {
      var p := ResizeEndBox(props, last.value, area).value;
      UpdatedLastWins(s, props.id, p, true, p, true, area);
    }
  }

  /**
   * Container 800 x 600, one default record dragged to left 900: the store
   * holds it at left 700, top 0, not committed.
   */
  lemma DragExample(id: Id)
    ensures DragApplied([DefaultMoveable(id, Red)], DefaultMoveable(id, Red),
                        DragEvent(0.0, 900.0, 100.0, 100.0), Area(800.0, 600.0))
            == [Moveable(id, Box(0.0, 700.0, 100.0, 100.0, Red), false)]
  {
  }

  /**
   * Container 800 x 600, one default record resized from the top-left handle
   * to 150 x 150 with translation (-50, -50): the live resize keeps top/left
   * 0; the resize end computes -50/-50 and clamps it back to 0/0, committed.
   */
  lemma ResizeExample(id: Id)
    ensures var m := DefaultMoveable(id, Red);
            var ev := ResizeEvent(150.0, 150.0, Some(Translate(-50.0, -50.0)));
            && ResizeApplied([m], m, ev, Area(800.0, 600.0))
               == [Moveable(id, Box(0.0, 0.0, 150.0, 150.0, Red), false)]
            && ResizeEndApplied([m], m, Some(ev), Area(800.0, 600.0))
               == [Moveable(id, Box(0.0, 0.0, 150.0, 150.0, Red), true)]
  {
  }
}
