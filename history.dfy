/** The undo/redo history slice: snapshots behind (`past`), the current one (`present`) and
    snapshots ahead (`future`), plus the one-shot `isHistoryAction` flag that an undo or redo
    raises so that the record effect its own replay triggers is swallowed once.

    Read as one timeline `past + [present] + future`, undo and redo only move the cursor
    (`|past|`) along a fixed timeline, and recording cuts the timeline after the cursor. */
module History {
  import opened Graph

  datatype HistoryState = HistoryState(past: seq<Snapshot>, present: Snapshot,
                                       future: seq<Snapshot>, isHistoryAction: bool)

  function Timeline(h: HistoryState): seq<Snapshot> {
    h.past + [h.present] + h.future
  }

  /** The position of `present` in the timeline. */
  function Cursor(h: HistoryState): nat {
    |h.past|
  }

  /** The reducer's initial state: nothing to undo or redo, flag clear. The initial nodes and edges
      come from a module outside this model, so they are a parameter. */
  function Initial(present: Snapshot): (r: HistoryState)
    ensures Timeline(r) == [present] && Cursor(r) == 0 && !r.isHistoryAction
  {
    HistoryState([], present, [], false)
  }

  /** A state is determined by its timeline, its cursor and its flag. */
  lemma Determined(a: HistoryState, b: HistoryState)
    requires Timeline(a) == Timeline(b) && Cursor(a) == Cursor(b)
    requires a.isHistoryAction == b.isHistoryAction
    ensures a == b
  {
    var n := Cursor(a);
    assert a.past == Timeline(a)[..n] && b.past == Timeline(b)[..n];
    assert [a.present] + a.future == Timeline(a)[n..];
    assert [b.present] + b.future == Timeline(b)[n..];
    assert a.present == Timeline(a)[n] && a.future == Timeline(a)[n + 1..];
    assert b.present == Timeline(b)[n] && b.future == Timeline(b)[n + 1..];
  }

  /** `recordHistory`: with the flag raised, only the flag is cleared; otherwise the timeline is cut
      after the cursor, the payload is appended, and the cursor moves onto it. */
  function AfterRecord(h: HistoryState, payload: Snapshot): (r: HistoryState)
    ensures h.isHistoryAction ==> r == h.(isHistoryAction := false)
    ensures !h.isHistoryAction ==>
      && Timeline(r) == Timeline(h)[..Cursor(h) + 1] + [payload]
      && Cursor(r) == Cursor(h) + 1 && r.present == payload && r.future == []
      && !r.isHistoryAction
  {
    if h.isHistoryAction then h.(isHistoryAction := false)
    else
      var r := HistoryState(h.past + [h.present], payload, [], false);
      assert Timeline(h)[..Cursor(h) + 1] == h.past + [h.present];
      r
  }

  /** `undo`: nothing to undo changes nothing; otherwise the cursor steps back one place on the
      same timeline and the flag is raised. */
  function AfterUndo(h: HistoryState): (r: HistoryState)
    ensures |h.past| == 0 ==> r == h
    ensures |h.past| > 0 ==>
      Timeline(r) == Timeline(h) && Cursor(r) == Cursor(h) - 1 && r.isHistoryAction
  {
    if |h.past| == 0 then h
    else
      var n := |h.past|;
      var r := HistoryState(h.past[..n - 1], h.past[n - 1], [h.present] + h.future, true);
      assert h.past == h.past[..n - 1] + [h.past[n - 1]];
      r
  }

  /** `redo`: nothing to redo changes nothing; otherwise the cursor steps forward one place on the
      same timeline and the flag is raised. */
  function AfterRedo(h: HistoryState): (r: HistoryState)
    ensures |h.future| == 0 ==> r == h
    ensures |h.future| > 0 ==>
      Timeline(r) == Timeline(h) && Cursor(r) == Cursor(h) + 1 && r.isHistoryAction
  {
    if |h.future| == 0 then h
    else
      var r := HistoryState(h.past + [h.present], h.future[0], h.future[1..], true);
      assert h.future == [h.future[0]] + h.future[1..];
      r
  }

  /** `setIsHistoryAction`. */
  function SetFlag(h: HistoryState, b: bool): (r: HistoryState)
    ensures Timeline(r) == Timeline(h) && Cursor(r) == Cursor(h) && r.isHistoryAction == b
  {
    h.(isHistoryAction := b)
  }

  /** Undo then redo restores past, present and future exactly (the flag stays raised). */
  lemma UndoThenRedo(h: HistoryState)
    requires |h.past| > 0
    ensures AfterRedo(AfterUndo(h)) == h.(isHistoryAction := true)
  {
    var u := AfterUndo(h);
    assert |u.future| > 0;
    Determined(AfterRedo(u), h.(isHistoryAction := true));
  }

  /** Redo then undo restores past, present and future exactly (the flag stays raised). */
  lemma RedoThenUndo(h: HistoryState)
    requires |h.future| > 0
    ensures AfterUndo(AfterRedo(h)) == h.(isHistoryAction := true)
  {
    var r := AfterRedo(h);
    assert |r.past| > 0;
    Determined(AfterUndo(r), h.(isHistoryAction := true));
  }

  /** Undo and redo never lose or invent a snapshot: `|past| + |future|` is unchanged. */
  lemma ReplayKeepsSize(h: HistoryState)
    ensures |AfterUndo(h).past| + |AfterUndo(h).future| == |h.past| + |h.future|
    ensures |AfterRedo(h).past| + |AfterRedo(h).future| == |h.past| + |h.future|
  {
    assert |Timeline(AfterUndo(h))| == |Timeline(h)|;
    assert |Timeline(AfterRedo(h))| == |Timeline(h)|;
  }

  function UndoN(h: HistoryState, n: nat): HistoryState
    decreases n
  {
    if n == 0 then h else UndoN(AfterUndo(h), n - 1)
  }

  function RedoN(h: HistoryState, n: nat): HistoryState
    decreases n
  {
    if n == 0 then h else RedoN(AfterRedo(h), n - 1)
  }

  /** `n` undos walk `n` places back on the same timeline. */
  lemma {:induction false} UndoNWalksBack(h: HistoryState, n: nat)
    requires n <= |h.past|
    ensures Timeline(UndoN(h, n)) == Timeline(h) && Cursor(UndoN(h, n)) == Cursor(h) - n
    ensures n > 0 ==> UndoN(h, n).isHistoryAction
    decreases n
  {
    if n > 0 {
      UndoNWalksBack(AfterUndo(h), n - 1);
    }
  }

  /** `n` redos walk `n` places forward on the same timeline. */
  lemma {:induction false} RedoNWalksForward(h: HistoryState, n: nat)
    requires n <= |h.future|
    ensures Timeline(RedoN(h, n)) == Timeline(h) && Cursor(RedoN(h, n)) == Cursor(h) + n
    ensures n > 0 ==> RedoN(h, n).isHistoryAction
    decreases n
  {
    if n > 0 {
      assert |Timeline(h)| == |h.past| + 1 + |h.future|;
      RedoNWalksForward(AfterRedo(h), n - 1);
    }
  }

  /** Any number of undos, then as many redos, restores the history exactly. */
  lemma UndoNThenRedoN(h: HistoryState, n: nat)
    requires 0 < n <= |h.past|
    ensures RedoN(UndoN(h, n), n) == h.(isHistoryAction := true)
  {
    var u := UndoN(h, n);
    UndoNWalksBack(h, n);
    assert |Timeline(u)| == |u.past| + 1 + |u.future| == |h.past| + 1 + |h.future|;
    RedoNWalksForward(u, n);
    Determined(RedoN(u, n), h.(isHistoryAction := true));
  }

  /** The guard: the record that follows an undo is swallowed (only the flag is cleared), and the
      record after that one is taken. */
  lemma ReplayRecordSwallowedOnce(h: HistoryState, s1: Snapshot, s2: Snapshot)
    requires |h.past| > 0
    ensures AfterRecord(AfterUndo(h), s1) == AfterUndo(h).(isHistoryAction := false)
    ensures AfterRecord(AfterRecord(AfterUndo(h), s1), s2).present == s2
    ensures Cursor(AfterRecord(AfterRecord(AfterUndo(h), s1), s2)) == Cursor(h)
  {
  }

  /** The reducer state as a mutable store; each method mirrors the reducer's in-place updates. */
  class HistoryStore {
    var past: seq<Snapshot>
    var present: Snapshot
    var future: seq<Snapshot>
    var isHistoryAction: bool

    function State(): HistoryState
      reads this
    {
      HistoryState(past, present, future, isHistoryAction)
    }

    constructor (initial: Snapshot)
      ensures State() == Initial(initial)
    {
      past, present, future, isHistoryAction := [], initial, [], false;
    }

    method RecordHistory(payload: Snapshot)
      modifies this
      ensures old(isHistoryAction) ==>
        !isHistoryAction && past == old(past) && present == old(present) && future == old(future)
      ensures !old(isHistoryAction) ==>
        past == old(past) + [old(present)] && present == payload && future == [] && !isHistoryAction
      ensures State() == AfterRecord(old(State()), payload)
    {
      if isHistoryAction {
        isHistoryAction := false;
        return;
      }
      past := past + [present];
      present := payload;
      future := [];
    }

    method Undo()
      modifies this
      ensures old(past) == [] ==> State() == old(State())
      ensures old(past) != [] ==>
        && isHistoryAction
        && future == [old(present)] + old(future)
        && present == old(past)[|old(past)| - 1]
        && past == old(past)[..|old(past)| - 1]
      ensures State() == AfterUndo(old(State()))
    {
      if |past| == 0 {
        return;
      }
      isHistoryAction := true;
      future := [present] + future;
      present := past[|past| - 1];
      past := past[..|past| - 1];
    }

    method Redo()
      modifies this
      ensures old(future) == [] ==> State() == old(State())
      ensures old(future) != [] ==>
        && isHistoryAction
        && past == old(past) + [old(present)]
        && present == old(future)[0]
        && future == old(future)[1..]
      ensures State() == AfterRedo(old(State()))
    {
      if |future| == 0 {
        return;
      }
      isHistoryAction := true;
      past := past + [present];
      present := future[0];
      future := future[1..];
    }

    method SetIsHistoryAction(b: bool)
      modifies this
      ensures isHistoryAction == b
      ensures past == old(past) && present == old(present) && future == old(future)
    {
      isHistoryAction := b;
    }
  }
}
