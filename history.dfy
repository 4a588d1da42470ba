/** The linear undo log: a list of snapshots with a cursor into it. */
module History {

  /** `history.slice(0, step + 1)` followed by `push(s)`: keep everything up to the cursor,
      drop the redo branch beyond it, append the new snapshot. */
  function Commit<T>(h: seq<T>, step: nat, s: T): (r: seq<T>)
    requires step < |h|
    ensures |r| == step + 2 && |r| <= |h| + 1
    ensures forall k :: 0 <= k <= step ==> r[k] == h[k]
    ensures r[|r| - 1] == s
  {
    h[..step + 1] + [s]
  }

  /** Committing at the newest entry only appends. */
  lemma CommitAtEnd<T>(h: seq<T>, s: T)
    requires |h| > 0
    ensures Commit(h, |h| - 1, s) == h + [s]
  {
  }
}
