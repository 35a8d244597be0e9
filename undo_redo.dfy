/**
 * The bounded linear undo/redo history: a list of transform snapshots and a
 * cursor at the entry the next undo reverts. `History` is the value the
 * history holds at one moment; `UndoRedoManager` is the object that changes
 * it in place.
 */
module UndoRedo {
  import opened Wrappers
  import opened Numeric
  import opened Transforms

  /** One undoable change: the object's transform before and after it. */
  datatype UndoEntry = UndoEntry(uid: string, labelText: string, before: Transform, after: Transform)

  /** How many entries a history with depth limit `maxDepth` can keep. */
  function Capacity(maxDepth: int): nat
  {
    if maxDepth < 0 then 0 else maxDepth
  }

  datatype History = History(stack: seq<UndoEntry>, index: int, maxDepth: int)
  {
    ghost predicate Valid()
    {
      -1 <= index < |stack| && |stack| <= Capacity(maxDepth)
    }

    predicate CanUndo()
    {
      index >= 0
    }

    predicate CanRedo()
    {
      index < |stack| - 1
    }

    /** `undo()`: the entry at the cursor, with the cursor moved one back; nothing at the start. */
    function Undo(): (r: (History, Option<UndoEntry>))
      requires Valid()
      ensures r.0.Valid() && r.0.stack == stack && r.0.maxDepth == maxDepth
      ensures r.1.None? <==> index == -1
      ensures r.1.None? ==> r.0 == this
      ensures r.1.Some? ==> r.1.value == stack[index] && r.0.index == index - 1
    {
      if !CanUndo() then (this, None)
      else (this.(index := index - 1), Some(stack[index]))
    }

    /** `redo()`: the entry after the cursor, with the cursor moved onto it; nothing at the end. */
    function Redo(): (r: (History, Option<UndoEntry>))
      requires Valid()
      ensures r.0.Valid() && r.0.stack == stack && r.0.maxDepth == maxDepth
      ensures r.1.None? <==> index == |stack| - 1
      ensures r.1.None? ==> r.0 == this
      ensures r.1.Some? ==> r.1.value == stack[index + 1] && r.0.index == index + 1
    {
      if !CanRedo() then (this, None)
      else (this.(index := index + 1), Some(stack[index + 1]))
    }

    /** The label of the entry the next undo would revert, or "" when there is none. */
    function UndoLabel(): (s: string)
      requires Valid()
      ensures s == (if Undo().1.Some? then Undo().1.value.labelText else "")
    {
      if CanUndo() then stack[index].labelText else ""
    }

    /** The label of the entry the next redo would re-apply, or "" when there is none. */
    function RedoLabel(): (s: string)
      requires Valid()
      ensures s == (if Redo().1.Some? then Redo().1.value.labelText else "")
    {
      if CanRedo() then stack[index + 1].labelText else ""
    }

    /** `push(e)`: the redo tail is dropped, `e` is appended, and the oldest
        entry goes when the limit is passed; the cursor ends on `e`. */
    function Push(e: UndoEntry): (h: History)
      requires Valid()
      ensures h.Valid() && h.maxDepth == maxDepth && !h.CanRedo()
      ensures |h.stack| == MinInt(index + 2, Capacity(maxDepth))
      ensures Capacity(maxDepth) > 0 ==> h.stack[|h.stack| - 1] == e
    {
      var kept := stack[..index + 1] + [e];
      var trimmed := if |kept| > maxDepth then kept[1..] else kept;
      History(trimmed, |trimmed| - 1, maxDepth)
    }

    /** `clear()`. */
    function Clear(): (h: History)
      ensures h.Valid() && !h.CanUndo() && !h.CanRedo() && h.maxDepth == maxDepth
    {
      History([], -1, maxDepth)
    }

    /** Pushing `s` one entry after another, first to last. */
    function PushAll(s: seq<UndoEntry>): (h: History)
      requires Valid()
      ensures h.Valid() && h.maxDepth == maxDepth
      ensures s == [] ==> h == this
      ensures s != [] ==> !h.CanRedo() && h.index == |h.stack| - 1
      decreases |s|
    {
      if s == [] then this else PushAll(s[..|s| - 1]).Push(s[|s| - 1])
    }
  }

  /** An empty history with the given depth limit (50 unless stated). */
  function EmptyHistory(maxDepth: int): (h: History)
    ensures h.Valid() && !h.CanUndo() && !h.CanRedo() && h.stack == []
  {
    History([], -1, maxDepth)
  }

  /** Undo followed by redo gives back the same entry and the same history. */
  lemma UndoThenRedo(h: History)
    requires h.Valid() && h.CanUndo()
    ensures h.Undo().0.Redo() == (h, h.Undo().1)
  {
  }

  /** Redo followed by undo gives back the same entry and the same history. */
  lemma RedoThenUndo(h: History)
    requires h.Valid() && h.CanRedo()
    ensures h.Redo().0.Undo() == (h, h.Redo().1)
  {
  }

  /** After pushing a non-empty run of entries the history holds as many
      entries as fit: those up to the old cursor, then the run. */
  lemma {:induction false} PushAllLength(h: History, s: seq<UndoEntry>)
    requires h.Valid() && s != []
    ensures |h.PushAll(s).stack| == MinInt(h.index + 1 + |s|, Capacity(h.maxDepth))
    decreases |s|
  {
    var s' := s[..|s| - 1];
    if s' != [] {
      PushAllLength(h, s');
    }
  }

  /** The entry `j` places back from the newest one. */
  function Back(s: seq<UndoEntry>, j: nat): UndoEntry
    requires j < |s|
  {
    s[|s| - 1 - j]
  }

  /** Below the pushed entry, a push keeps the newest entries up to the old
      cursor, in order: the entry `j` places back from the new top is the one
      `j - 1` places back from the old cursor. */
  lemma PushKeepsBack(h: History, e: UndoEntry, j: nat)
    requires h.Valid() && 0 < j < |h.Push(e).stack|
    ensures Back(h.Push(e).stack, j) == h.stack[h.index + 1 - j]
  {
    var kept := h.stack[..h.index + 1] + [e];
    var r := h.Push(e);
    if |kept| > h.maxDepth {
      assert r.stack == kept[1..];
    } else {
      assert r.stack == kept;
    }
    assert kept[|kept| - 1 - j] == h.stack[h.index + 1 - j];
  }

  /** After pushing a non-empty run of entries, the newest entries of the history
      are the newest of the run, as many of them as fit. */
  lemma {:induction false} PushAllNewest(h: History, s: seq<UndoEntry>, j: nat)
    requires h.Valid() && s != []
    requires j < MinInt(|s|, Capacity(h.maxDepth))
    ensures j < |h.PushAll(s).stack| && Back(h.PushAll(s).stack, j) == Back(s, j)
    decreases |s|
  {
    var e := s[|s| - 1];
    var s' := s[..|s| - 1];
    var r' := h.PushAll(s');
    var r := r'.Push(e);
    assert h.PushAll(s) == r;
    PushAllLength(h, s);
    if j > 0 {
      assert s' != [];
      PushAllNewest(h, s', j - 1);
      PushAllLength(h, s');
      assert r'.index == |r'.stack| - 1;
      PushKeepsBack(r', e, j);
      assert Back(r.stack, j) == Back(r'.stack, j - 1);
      assert Back(s', j - 1) == Back(s, j);
    }
  }

  /** Pushing the first `i` entries of a list and then the next one is pushing
      its first `i + 1` entries. */
  lemma PushAllStep(h: History, s: seq<UndoEntry>, i: nat)
    requires h.Valid() && i < |s|
    ensures h.PushAll(s[..i + 1]) == h.PushAll(s[..i]).Push(s[i])
  {
    assert s[..i + 1][..i] == s[..i];
  }

  /** The history object: `stack`, the cursor `index` and a fixed depth limit. */
  class UndoRedoManager {
    var stack: seq<UndoEntry>
    var index: int
    const maxDepth: int

    function View(): History
      reads this
    {
      History(stack, index, maxDepth)
    }

    ghost predicate Valid()
      reads this
    {
      View().Valid()
    }

    constructor (maxDepth: int)
      ensures Valid() && View() == EmptyHistory(maxDepth)
    {
      stack := [];
      index := -1;
      this.maxDepth := maxDepth;
    }

    method Push(e: UndoEntry)
      requires Valid()
      modifies this
      ensures Valid() && View() == old(View()).Push(e)
    {
      stack := stack[..index + 1];
      stack := stack + [e];
      if |stack| > maxDepth {
        stack := stack[1..];
      }
      index := |stack| - 1;
    }

    function CanUndo(): bool
      reads this
    {
      View().CanUndo()
    }

    function CanRedo(): bool
      reads this
    {
      View().CanRedo()
    }

    function UndoLabel(): string
      reads this
      requires Valid()
    {
      View().UndoLabel()
    }

    function RedoLabel(): string
      reads this
      requires Valid()
    {
      View().RedoLabel()
    }

    method Undo() returns (entry: Option<UndoEntry>)
      requires Valid()
      modifies this
      ensures Valid() && (View(), entry) == old(View()).Undo()
    {
      if index < 0 {
        return None;
      }
      entry := Some(stack[index]);
      index := index - 1;
    }

    method Redo() returns (entry: Option<UndoEntry>)
      requires Valid()
      modifies this
      ensures Valid() && (View(), entry) == old(View()).Redo()
    {
      if index >= |stack| - 1 {
        return None;
      }
      index := index + 1;
      entry := Some(stack[index]);
    }

    method Clear()
      requires Valid()
      modifies this
      ensures Valid() && View() == old(View()).Clear()
    {
      stack := [];
      index := -1;
    }
  }
}
