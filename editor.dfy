/** The editor's state machine: the live shape list, the undo log with its cursor, the
    selection, the drag state and the pending style, with one method per handler. */
module App {
  import opened Wrappers
  import opened Document
  import opened Drag
  import opened Keyboard
  import History

  class Editor {
    var shapes: seq<Shape>
    var history: seq<seq<Shape>>
    var step: nat
    var selected: Option<Id>
    var dragging: bool
    var offset: Position
    var pending: Props
    var snap: bool
    /** Stands in for `Date.now()`: the next id to issue, above every id issued so far. */
    var nextId: Id

    /** The cursor is inside the log, and the live list and every snapshot hold unique ids
        that the counter has already issued. */
    ghost predicate Valid()
      reads this
    {
      0 < nextId && step < |history| && WellFormed(shapes, nextId) &&
      forall k :: 0 <= k < |history| ==> WellFormed(history[k], nextId)
    }

    /** The initial state: an empty document whose log holds the one empty snapshot. */
    constructor ()
      ensures Valid()
      ensures shapes == [] && history == [[]] && step == 0
      ensures selected == None && !dragging && offset == Position(0.0, 0.0)
      ensures pending == DefaultProps && !snap
    {
      shapes := [];
      history := [[]];
      step := 0;
      selected := None;
      dragging := false;
      offset := Position(0.0, 0.0);
      pending := DefaultProps;
      snap := false;
      nextId := 1;
    }

    /** `addToHistory`: the log keeps entries 0..step, gains `s` at the end, and the cursor
        moves onto it. */
    method AddToHistory(s: seq<Shape>)
      requires Valid() && WellFormed(s, nextId)
      modifies this`history, this`step
      ensures Valid()
      ensures history == History.Commit(old(history), old(step), s)
      ensures step == |history| - 1 && history[step] == s
    {
      history := History.Commit(history, step, s);
      step := |history| - 1;
    }

    /** The effect of `undo`: at the oldest entry nothing; otherwise the cursor moves back one
        entry and the live list becomes that snapshot. The log itself is untouched. */
    twostate predicate Undone()
      reads this
    {
      history == old(history) &&
      (old(step) == 0 ==> step == 0 && shapes == old(shapes)) &&
      (old(step) > 0 ==> step == old(step) - 1 && step < |history| && shapes == history[step])
    }

    /** The effect of `redo`: at the newest entry nothing; otherwise the cursor moves forward
        one entry and the live list becomes that snapshot. */
    twostate predicate Redone()
      reads this
    {
      history == old(history) &&
      (old(step) + 1 >= |history| ==> step == old(step) && shapes == old(shapes)) &&
      (old(step) + 1 < |history| ==> step == old(step) + 1 && shapes == history[step])
    }

    method Undo()
      requires Valid()
      modifies this`step, this`shapes
      ensures Valid() && Undone()
    {
      if step > 0 {
        step := step - 1;
        shapes := history[step];
      }
    }

    method Redo()
      requires Valid()
      modifies this`step, this`shapes
      ensures Valid() && Redone()
    {
      if step < |history| - 1 {
        step := step + 1;
        shapes := history[step];
      }
    }

    /** `addShape`: one new shape of the given kind, with a fresh id, the pending style and a
        centred position, appended at the top, committed and selected. */
    method AddShape(kind: Kind)
      requires Valid()
      modifies this`shapes, this`history, this`step, this`selected, this`nextId
      ensures Valid()
      ensures nextId == old(nextId) + 1
      ensures shapes == old(shapes) + [Shape(old(nextId), kind, Centered(pending.size), pending)]
      ensures history == History.Commit(old(history), old(step), shapes) && step == |history| - 1
      ensures selected == Some(old(nextId))
    {
      var id := FreshId();
      var shape := Shape(id, kind, Centered(pending.size), pending);
      var newShapes := shapes + [shape];
      shapes := newShapes;
      AddToHistory(newShapes);
      selected := Some(shape.id);
    }

    /** Stands in for `Date.now()` at shape creation: hands out the counter's id and raises
        the counter, so the id differs from every id in the live list and in the log. Like a
        clock reading it is never 0, so `if (selectedShapeId)` is the same test as `Some?`. */
    method FreshId() returns (id: Id)
      requires Valid()
      modifies this`nextId
      ensures Valid() && 0 < id && id == old(nextId) && nextId == id + 1
    {
      id := nextId;
      nextId := nextId + 1;
    }

    /** `updateShape`: merge the patch into the props of the shapes carrying `id`; the log is
        not touched. */
    method UpdateShape(id: Id, patch: PropsPatch)
      requires Valid()
      modifies this`shapes
      ensures Valid()
      ensures shapes == UpdateProps(old(shapes), id, patch)
    {
      shapes := UpdateProps(shapes, id, patch);
    }

    /** A properties-panel edit (only shown while a shape is selected): the field goes into
        the pending style, and the whole pending style into the selected shape. */
    method EditProperty(patch: PropsPatch)
      requires Valid() && selected.Some?
      modifies this`pending, this`shapes
      ensures Valid()
      ensures pending == Merge(old(pending), patch)
      ensures shapes == UpdateProps(old(shapes), selected.value, Whole(pending))
      ensures forall k :: 0 <= k < |shapes| && shapes[k].id == selected.value ==> shapes[k].props == pending
    {
      pending := Merge(pending, patch);
      UpdateShape(selected.value, Whole(pending));
      forall k | 0 <= k < |shapes| && shapes[k].id == selected.value
        ensures shapes[k].props == pending
      {
        MergeWhole(old(shapes)[k].props, pending);
      }
    }

    /** A click on a layer entry, or on the empty canvas (`None`): selection only. */
    method Select(id: Option<Id>)
      modifies this`selected
      ensures selected == id
    {
      selected := id;
    }

    method ToggleSnap()
      modifies this`snap
      ensures snap == !old(snap)
    {
      snap := !snap;
    }

    /** `handleMouseDown` on a shape: select it, start a drag and, when the shape is in the
        list, record the pointer-to-shape offset in canvas coordinates. */
    method MouseDown(id: Id, pointer: Position, origin: Position)
      modifies this`selected, this`dragging, this`offset
      ensures selected == Some(id) && dragging
      ensures Find(shapes, id).Some? ==> offset == PressOffset(pointer, origin, Find(shapes, id).value.position)
      ensures Find(shapes, id).None? ==> offset == old(offset)
    {
      selected := Some(id);
      dragging := true;
      var shape := Find(shapes, id);
      if shape.Some? {
        offset := PressOffset(pointer, origin, shape.value.position);
      }
    }

    /** `handleMouseMove`: while a drag is active, write the snapped, clamped target into the
        selected shape's position; nothing is committed. */
    method MouseMove(pointer: Position, origin: Position)
      requires Valid()
      modifies this`shapes
      ensures Valid()
      ensures !(dragging && selected.Some?) ==> shapes == old(shapes)
      ensures dragging && selected.Some? ==>
        shapes == MoveTo(old(shapes), selected.value,
                         DragTarget(pointer, origin, offset, EffectiveSize(old(shapes), selected.value), snap))
      ensures forall k ::
        (0 <= k < |shapes| && dragging && selected.Some? && shapes[k].id == selected.value &&
         20 <= shapes[k].props.size <= 200) ==> Inside(shapes[k].position, shapes[k].props.size)
    {
      if dragging && selected.Some? {
        var size := EffectiveSize(shapes, selected.value);
        var target := DragTarget(pointer, origin, offset, size, snap);
        ghost var before := shapes;
        shapes := MoveTo(shapes, selected.value, target);
        forall k | 0 <= k < |shapes| && shapes[k].id == selected.value && 20 <= shapes[k].props.size <= 200
          ensures Inside(shapes[k].position, shapes[k].props.size)
        {
          EffectiveSizeOfShape(before, k);
        }
      }
    }

    /** `handleMouseUp` (also on leaving the canvas): an active drag is committed once; in
        every case the drag ends. */
    method MouseUp()
      requires Valid()
      modifies this`history, this`step, this`dragging
      ensures Valid() && !dragging
      ensures old(dragging) ==> history == History.Commit(old(history), old(step), shapes) && step == |history| - 1
      ensures !old(dragging) ==> history == old(history) && step == old(step)
    {
      if dragging {
        AddToHistory(shapes);
      }
      dragging := false;
    }

    /** The effect of the duplicate shortcut: with a selection that is in the list, a copy of
        that shape with a fresh id and a (+20, +20) offset (not clamped) is appended, committed
        and selected; otherwise nothing. */
    twostate predicate Duplicated()
      reads this
    {
      if old(selected).Some? && Find(old(shapes), old(selected).value).Some? then
        var s := Find(old(shapes), old(selected).value).value;
        nextId == old(nextId) + 1 &&
        shapes == old(shapes) + [s.(id := old(nextId), position := Position(s.position.x + 20.0, s.position.y + 20.0))] &&
        old(step) < |old(history)| &&
        history == History.Commit(old(history), old(step), shapes) && step == |history| - 1 &&
        selected == Some(old(nextId))
      else
        shapes == old(shapes) && history == old(history) && step == old(step) &&
        selected == old(selected) && nextId == old(nextId)
    }

    /** The effect of the delete shortcut: with a selection, the shapes carrying its id are
        filtered out, the result committed and the selection cleared; otherwise nothing. */
    twostate predicate Deleted()
      reads this
    {
      if old(selected).Some? then
        shapes == Remove(old(shapes), old(selected).value) &&
        old(step) < |old(history)| &&
        history == History.Commit(old(history), old(step), shapes) && step == |history| - 1 &&
        selected == None && nextId == old(nextId)
      else
        shapes == old(shapes) && history == old(history) && step == old(step) &&
        selected == old(selected) && nextId == old(nextId)
    }

    method DuplicateSelected()
      requires Valid()
      modifies this`shapes, this`history, this`step, this`selected, this`nextId
      ensures Valid() && Duplicated()
    {
      if selected.Some? {
        var found := Find(shapes, selected.value);
        if found.Some? {
          var s := found.value;
          var id := FreshId();
          var copy := s.(id := id, position := Position(s.position.x + 20.0, s.position.y + 20.0));
          var newShapes := shapes + [copy];
          shapes := newShapes;
          AddToHistory(newShapes);
          selected := Some(copy.id);
        }
      }
    }

    method DeleteSelected()
      requires Valid()
      modifies this`shapes, this`history, this`step, this`selected
      ensures Valid() && Deleted()
    {
      if selected.Some? {
        var newShapes := Remove(shapes, selected.value);
        RemoveKeepsUnique(shapes, selected.value);
        shapes := newShapes;
        AddToHistory(newShapes);
        selected := None;
      }
    }

    /** `handleKeyboard`: run the action the table gives; the browser default is prevented
        exactly for the bound combinations. Export leaves the document and the log alone. */
    method HandleKeyboard(e: KeyEvent) returns (prevented: bool)
      requires Valid()
      modifies this`shapes, this`history, this`step, this`selected, this`nextId
      ensures Valid()
      ensures prevented <==> !Dispatch(e).Ignore?
      ensures Dispatch(e).Undo? ==> Undone() && selected == old(selected) && nextId == old(nextId)
      ensures Dispatch(e).Redo? ==> Redone() && selected == old(selected) && nextId == old(nextId)
      ensures Dispatch(e).Duplicate? ==> Duplicated()
      ensures Dispatch(e).Delete? ==> Deleted()
      ensures Dispatch(e).Export? || Dispatch(e).Ignore? ==>
        shapes == old(shapes) && history == old(history) && step == old(step) &&
        selected == old(selected) && nextId == old(nextId)
    {
      var action := Dispatch(e);
      prevented := !action.Ignore?;
      match action
      case Undo => Undo();
      case Redo => Redo();
      case Duplicate => DuplicateSelected();
      case Delete => DeleteSelected();
      case Export =>
      case Ignore =>
    }
  }
}
