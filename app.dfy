/**
 * The state of the `App` component of src/App.js: the `moveableComponents`
 * sequence and the `selected` id. Each operation replaces a field wholesale,
 * as the source's state setters do. The container's size, which the source
 * reads from the page on each clamp, is an `Area` parameter.
 */
module AppState {
  import opened Wrappers
  import opened Geometry
  import opened Store
  import opened Gestures

  class App {
    var components: seq<Moveable>
    var selected: Option<Id>

    /** Both states start empty. */
    constructor ()
      ensures components == [] && selected == None
    {
      components := [];
      selected := None;
    }

    /** `selected === item.id`: whether a rendered item is the selected one. */
    predicate IsSelected(id: Id)
      reads this
    {
      selected == Some(id)
    }

    /**
     * `addMoveable`: appends one default record with the given id and the
     * palette colour picked by `colorRoll`. The id need not be new.
     */
    method AddMoveable(id: Id, colorRoll: real)
      requires 0.0 <= colorRoll < 1.0
      modifies this
      ensures components == old(components) + [DefaultMoveable(id, PickColor(colorRoll))]
      ensures |components| == |old(components)| + 1
      ensures components[|components| - 1].box == Box(0.0, 0.0, 100.0, 100.0, PickColor(colorRoll))
      ensures components[|components| - 1].updateEnd
      ensures selected == old(selected)
    {
      components := components + [DefaultMoveable(id, PickColor(colorRoll))];
    }

    /**
     * `updateMoveable`: every record with the id becomes the clamped new
     * record; `updateEnd` defaults to false.
     */
    method UpdateMoveable(area: Area, id: Id, newComponent: Box, updateEnd: bool := false)
      modifies this
      ensures components == Updated(old(components), id, newComponent, updateEnd, area)
      ensures |components| == |old(components)|
      ensures !HasId(old(components), id) ==> components == old(components)
      ensures selected == old(selected)
    {
      if !HasId(components, id) {
        UpdatedAbsent(components, id, newComponent, updateEnd, area);
      }
      components := Updated(components, id, newComponent, updateEnd, area);
    }

    /** `deleteMoveable`: drops every record with the id; the selection is left as it was. */
    method DeleteMoveable(id: Id)
      modifies this
      ensures components == Deleted(old(components), id)
      ensures !HasId(components, id)
      ensures !HasId(old(components), id) ==> components == old(components)
      ensures selected == old(selected)
    {
      DeletedHasNoId(components, id);
      if !HasId(components, id) {
        DeletedAbsent(components, id);
      }
      components := Deleted(components, id);
    }

    /** `setSelected(id)` on a click: the id becomes the only selected one, unchecked. */
    method SetSelected(id: Id)
      modifies this
      ensures selected == Some(id)
      ensures forall other :: IsSelected(other) <==> other == id
      ensures components == old(components)
    {
      selected := Some(id);
    }

    /** `onDrag` of the component rendered from `props`. */
    method OnDrag(area: Area, props: Moveable, ev: DragEvent)
      modifies this
      ensures components == DragApplied(old(components), props, ev, area)
      ensures selected == old(selected)
    {
      UpdateMoveable(area, props.id, CheckBounds(DragBox(ev, props.box.color), area));
    }

    /** `onResize` of the component rendered from `props`. */
    method OnResize(area: Area, props: Moveable, ev: ResizeEvent)
      modifies this
      ensures components == ResizeApplied(old(components), props, ev, area)
      ensures selected == old(selected)
    {
      UpdateMoveable(area, props.id, Box(props.box.top, props.box.left, ev.width, ev.height, props.box.color));
    }

    /** `onResizeEnd` of the component rendered from `props`. */
    method OnResizeEnd(area: Area, props: Moveable, last: Option<ResizeEvent>)
      modifies this
      ensures components == ResizeEndApplied(old(components), props, last, area)
      ensures selected == old(selected)
    {
      if last.Some? {
        var committed := ResizeEndBox(props, last.value, area);
        if committed.Some? {
          UpdateMoveable(area, props.id, committed.value, true);
        }
      }
    }
  }
}
