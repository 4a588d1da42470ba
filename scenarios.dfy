/** Clients of the editor that string handlers together and check what the contracts give. */
module Scenarios {
  import opened Wrappers
  import opened Document
  import opened Drag
  import opened App
  import History

  /** Undo then redo, when both are possible and the live list is the snapshot under the
      cursor, restores the list and the cursor and leaves the log as it was. */
  method UndoThenRedo(e: Editor)
    requires e.Valid() && 0 < e.step && e.shapes == e.history[e.step]
    modifies e
    ensures e.Valid()
    ensures e.shapes == old(e.shapes) && e.step == old(e.step) && e.history == old(e.history)
  {
    e.Undo();
    e.Redo();
  }

  /** Undo then redo over uncommitted edits (a drag without release, a property edit) brings
      back the committed snapshot, not the edits. */
  method UndoThenRedoDropsUncommitted(e: Editor)
    requires e.Valid() && 0 < e.step
    modifies e
    ensures e.Valid()
    ensures e.shapes == old(e.history[e.step]) && e.step == old(e.step) && e.history == old(e.history)
  {
    e.Undo();
    e.Redo();
  }

  /** After any number `n` of undos, a new shape discards the whole redo branch: the log
      keeps the entries up to the cursor, ends with the new list, and the following redo
      changes nothing. */
  method CommitDiscardsRedo(e: Editor, n: nat, kind: Kind)
    requires e.Valid() && n <= e.step
    modifies e
    ensures e.Valid()
    ensures |e.history| == old(e.step) - n + 2 && e.step == |e.history| - 1
    ensures e.history[..old(e.step) - n + 1] == old(e.history)[..old(e.step) - n + 1]
    ensures e.shapes == e.history[e.step]
  {
    var i := 0;
    while i < n
      invariant 0 <= i <= n
      invariant e.Valid() && e.step == old(e.step) - i && e.history == old(e.history)
    {
      e.Undo();
      i := i + 1;
    }
    e.AddShape(kind);
    ghost var shapes, step := e.shapes, e.step;
    e.Redo();
    assert e.shapes == shapes && e.step == step;
  }

  /** A circle of the default size dragged to canvas point (750, 550) and released stops at
      (700, 500), and the log holds the empty start, the creation and the drag. */
  method DragCircleToCorner(origin: Position)
  {
    var e := new Editor();
    e.AddShape(Circle);
    assert e.shapes[0].position == Position(350.0, 250.0);
    var id := e.shapes[0].id;
    var press := Position(origin.x + 350.0, origin.y + 250.0);
    e.MouseDown(id, press, origin);
    assert e.offset == Position(0.0, 0.0);
    e.MouseMove(Position(origin.x + 750.0, origin.y + 550.0), origin);
    e.MouseUp();
    assert e.shapes[0].position == Position(700.0, 500.0);
    assert |e.history| == 3;
  }

  /** A rectangle added, undone and redone comes back with the same id and style. */
  method AddUndoRedoRectangle()
  {
    var e := new Editor();
    e.AddShape(Rectangle);
    var added := e.shapes;
    e.Undo();
    assert e.shapes == [];
    e.Redo();
    assert e.shapes == added && added[0].kind == Rectangle && added[0].props == DefaultProps;
  }
}
