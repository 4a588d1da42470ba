/** The key-to-action table of the Ctrl/Cmd shortcuts. */
module Keyboard {

  datatype KeyEvent = KeyEvent(key: string, ctrl: bool, meta: bool, shift: bool)

  datatype Action = Undo | Redo | Export | Duplicate | Delete | Ignore

  /** ASCII upper-case letters to lower case; every other character unchanged. */
  function LowerChar(c: char): (r: char)
    ensures 'A' <= c <= 'Z' ==> r as int == c as int + 32
    ensures !('A' <= c <= 'Z') ==> r == c
    ensures !('A' <= r <= 'Z')
  {
    if 'A' <= c <= 'Z' then (c as int + 32) as char else c
  }

  /** `toLowerCase`, character by character. */
  function Lower(s: string): (r: string)
    ensures |r| == |s|
    ensures forall i :: 0 <= i < |s| ==> r[i] == LowerChar(s[i])
  {
    if s == [] then [] else [LowerChar(s[0])] + Lower(s[1..])
  }

  /** Lower-casing twice is lower-casing once. */
  lemma LowerIdempotent(s: string)
    ensures Lower(Lower(s)) == Lower(s)
  {
  }

  /** The shortcut table: with Ctrl or Cmd held, z undoes (redoes with Shift), y redoes,
      s exports, c duplicates, Delete and Backspace delete; anything else is ignored. */
  function Dispatch(e: KeyEvent): (a: Action)
    ensures !(e.ctrl || e.meta) ==> a == Ignore
  {
    if !(e.ctrl || e.meta) then Ignore
    else
      var k := Lower(e.key);
      if k == "z" then (if e.shift then Redo else Undo)
      else if k == "y" then Redo
      else if k == "s" then Export
      else if k == "c" then Duplicate
      else if k == "delete" || k == "backspace" then Delete
      else Ignore
  }

  /** The table does not distinguish letter case. */
  lemma DispatchIgnoresCase(e: KeyEvent)
    ensures Dispatch(e.(key := Lower(e.key))) == Dispatch(e)
  {
  }

  /** Shift changes the action only for z. */
  lemma DispatchShiftOnlyForZ(e: KeyEvent, shift: bool)
    requires Lower(e.key) != "z"
    ensures Dispatch(e.(shift := shift)) == Dispatch(e)
  {
  }

  /** Ctrl and Cmd are interchangeable. */
  lemma DispatchCtrlOrCmd(e: KeyEvent)
    ensures Dispatch(e.(ctrl := true, meta := false)) == Dispatch(e.(ctrl := false, meta := true))
  {
  }

  /** Both redo bindings redo, with either modifier and in either case. */
  lemma RedoBindings(key: string, ctrl: bool, meta: bool, shift: bool)
    requires ctrl || meta
    requires Lower(key) == "y" || (Lower(key) == "z" && shift)
    ensures Dispatch(KeyEvent(key, ctrl, meta, shift)) == Redo
  {
  }

  /** Which keys reach each action: the table read backwards. */
  lemma DispatchInverse(e: KeyEvent)
    ensures Dispatch(e) == Undo <==> (e.ctrl || e.meta) && Lower(e.key) == "z" && !e.shift
    ensures Dispatch(e) == Redo <==> (e.ctrl || e.meta) && (Lower(e.key) == "y" || (Lower(e.key) == "z" && e.shift))
    ensures Dispatch(e) == Export <==> (e.ctrl || e.meta) && Lower(e.key) == "s"
    ensures Dispatch(e) == Duplicate <==> (e.ctrl || e.meta) && Lower(e.key) == "c"
    ensures Dispatch(e) == Delete <==> (e.ctrl || e.meta) && (Lower(e.key) == "delete" || Lower(e.key) == "backspace")
  {
  }
}
