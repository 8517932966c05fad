/** A canvas whose every mutation is checkpointed as an immutable memento
    into a pluggable history: a full undo stack (CanvasHistory) or a
    single-slot null object (NullHistory). A forwards iterator over the
    stack replays the recorded mementos in order.

    The first section holds the abstract values (datatypes) and the
    functions that specify every operation, and the second the lemmas
    about them. The classes of the third section are the objects of the
    program, each method proved against those functions; the last
    section runs the program's scenarios through the objects. */
module CanvasReplay {

  // ---------------------------------------------------------------------
  // Abstract values and the specification of every operation
  // ---------------------------------------------------------------------

  /** CanvasMemento: an immutable snapshot of the canvas shapes. */
  datatype CanvasMemento = CanvasMemento(shapes: seq<string>)

  /** The abstract state of a History, one variant per implementation. */
  datatype HistoryValue =
    | StackOf(oldStates: seq<CanvasMemento>)  // CanvasHistory
    | SlotOf(state: CanvasMemento)            // NullHistory

  /** History::addState */
  function HistoryAdd(h: HistoryValue, m: CanvasMemento): HistoryValue
  {
    match h
    case StackOf(states) => StackOf(states + [m])
    case SlotOf(_) => SlotOf(m)
  }

  /** CanvasHistory::undo pops and then reads the back of the vector, which
      is only defined when at least two snapshots are stored. */
  predicate CanUndo(h: HistoryValue)
  {
    h.StackOf? ==> |h.oldStates| >= 2
  }

  /** History::undo: the new history and the snapshot handed back. */
  function HistoryUndo(h: HistoryValue): (HistoryValue, CanvasMemento)
    requires CanUndo(h)
  {
    match h
    case StackOf(states) =>
      var rest := states[..|states| - 1];
      (StackOf(rest), rest[|rest| - 1])
    case SlotOf(m) => (h, m)
  }

  /** The history holds a most recent snapshot. */
  predicate HasLatest(h: HistoryValue)
  {
    h.StackOf? ==> h.oldStates != []
  }

  /** The most recently stored snapshot. */
  function Latest(h: HistoryValue): CanvasMemento
    requires HasLatest(h)
  {
    match h
    case StackOf(states) => states[|states| - 1]
    case SlotOf(m) => m
  }

  /** The abstract state of a Canvas together with its history. */
  datatype CanvasValue = CanvasValue(shapes: seq<string>, history: HistoryValue)

  /** Canvas::addShape */
  function CanvasAdd(c: CanvasValue, newShape: string): CanvasValue
  {
    var shapes := c.shapes + [newShape];
    CanvasValue(shapes, HistoryAdd(c.history, CanvasMemento(shapes)))
  }

  /** Canvas::clearAll */
  function CanvasClear(c: CanvasValue): CanvasValue
  {
    CanvasValue([], HistoryAdd(c.history, CanvasMemento([])))
  }

  /** Canvas::undo: adopt whatever the history hands back. */
  function CanvasUndo(c: CanvasValue): CanvasValue
    requires CanUndo(c.history)
  {
    var (h, m) := HistoryUndo(c.history);
    CanvasValue(m.shapes, h)
  }

  /** The canvas shows exactly the most recently stored snapshot. */
  predicate InSync(c: CanvasValue)
  {
    HasLatest(c.history) && Latest(c.history).shapes == c.shapes
  }

  /** A call a client makes on a Canvas. */
  datatype Op = AddShapeOp(shape: string) | ClearAllOp | UndoOp

  predicate Allowed(c: CanvasValue, op: Op)
  {
    op.UndoOp? ==> CanUndo(c.history)
  }

  function Step(c: CanvasValue, op: Op): CanvasValue
    requires Allowed(c, op)
  {
    match op
    case AddShapeOp(x) => CanvasAdd(c, x)
    case ClearAllOp => CanvasClear(c)
    case UndoOp => CanvasUndo(c)
  }

  /** Every undo in `ops` is defined when the calls are made in order from `c`. */
  predicate Permitted(c: CanvasValue, ops: seq<Op>)
    decreases |ops|
  {
    ops == [] || (Allowed(c, ops[0]) && Permitted(Step(c, ops[0]), ops[1..]))
  }

  /** The state after making the calls `ops` in order. */
  function Run(c: CanvasValue, ops: seq<Op>): CanvasValue
    requires Permitted(c, ops)
    decreases |ops|
  {
    if ops == [] then c else Run(Step(c, ops[0]), ops[1..])
  }

  function AddShapes(xs: seq<string>): (ops: seq<Op>)
    ensures |ops| == |xs|
    ensures forall i :: 0 <= i < |xs| ==> ops[i] == AddShapeOp(xs[i])
  {
    if xs == [] then [] else [AddShapeOp(xs[0])] + AddShapes(xs[1..])
  }

  function Undos(n: nat): (ops: seq<Op>)
    ensures |ops| == n
    ensures forall i :: 0 <= i < n ==> ops[i] == UndoOp
  {
    if n == 0 then [] else Undos(n - 1) + [UndoOp]
  }

  // ---------------------------------------------------------------------
  // Properties of the specification
  // ---------------------------------------------------------------------

  /** addShape appends the shape and records exactly one snapshot, equal to
      the new shapes; clearAll empties the shapes and records one empty
      snapshot. */
  lemma RecordsOneSnapshot(c: CanvasValue, x: string)
    requires c.history.StackOf?
    ensures CanvasAdd(c, x).shapes == c.shapes + [x]
    ensures CanvasAdd(c, x).history.oldStates == c.history.oldStates + [CanvasMemento(c.shapes + [x])]
    ensures CanvasClear(c).shapes == []
    ensures CanvasClear(c).history.oldStates == c.history.oldStates + [CanvasMemento([])]
  {
  }

  /** CanvasHistory::undo removes exactly the last snapshot, keeps the
      earlier ones, and hands back the new last one. */
  lemma StackUndoPopsOne(states: seq<CanvasMemento>)
    requires |states| >= 2
    ensures var (h, m) := HistoryUndo(StackOf(states));
            h.StackOf? && |h.oldStates| == |states| - 1 &&
            (forall i :: 0 <= i < |h.oldStates| ==> h.oldStates[i] == states[i]) &&
            m == states[|states| - 2] && m == Latest(h)
  {
  }

  /** Every single call leaves the canvas showing the latest stored snapshot. */
  lemma StepSyncs(c: CanvasValue, op: Op)
    requires Allowed(c, op)
    ensures InSync(Step(c, op))
  {
  }

  /** After any non-empty sequence of permitted calls, the shapes equal the
      most recently stored snapshot, whatever the starting state. */
  lemma {:induction false} RunSyncs(c: CanvasValue, ops: seq<Op>)
    requires Permitted(c, ops)
    requires ops != [] || InSync(c)
    ensures InSync(Run(c, ops))
    decreases |ops|
  {
    if ops != [] {
      StepSyncs(c, ops[0]);
      RunSyncs(Step(c, ops[0]), ops[1..]);
    }
  }

  /** Running `a` and then `b` is running `a + b`. */
  lemma {:induction false} RunAppend(c: CanvasValue, a: seq<Op>, b: seq<Op>)
    requires Permitted(c, a) && Permitted(Run(c, a), b)
    ensures Permitted(c, a + b)
    ensures Run(c, a + b) == Run(Run(c, a), b)
    decreases |a|
  {
    if a != [] {
      assert (a + b)[0] == a[0];
      assert (a + b)[1..] == a[1..] + b;
      RunAppend(Step(c, a[0]), a[1..], b);
    } else {
      assert a + b == b;
    }
  }

  /** With a CanvasHistory, undo right after addShape restores both the
      previous shapes and the previous history. */
  lemma UndoRevertsAdd(c: CanvasValue, x: string)
    requires c.history.StackOf? && InSync(c)
    ensures CanUndo(CanvasAdd(c, x).history)
    ensures CanvasUndo(CanvasAdd(c, x)) == c
  {
    var states := c.history.oldStates;
    assert (states + [CanvasMemento(c.shapes + [x])])[..|states|] == states;
  }

  /** With a CanvasHistory, adding n shapes and then undoing n times
      restores the canvas and its history exactly. */
  lemma {:induction false} UndoRevertsAdds(c: CanvasValue, xs: seq<string>)
    requires c.history.StackOf? && InSync(c)
    ensures Permitted(c, AddShapes(xs) + Undos(|xs|))
    ensures Run(c, AddShapes(xs) + Undos(|xs|)) == c
    decreases |xs|
  {
    if xs != [] {
      var c1 := CanvasAdd(c, xs[0]);
      var middle := AddShapes(xs[1..]) + Undos(|xs| - 1);
      UndoRevertsAdd(c, xs[0]);
      StepSyncs(c, AddShapeOp(xs[0]));
      UndoRevertsAdds(c1, xs[1..]);
      assert Run(c1, middle) == c1;
      assert Permitted(c1, middle + [UndoOp]) && Run(c1, middle + [UndoOp]) == c by {
        assert Permitted(c1, [UndoOp]) && Run(c1, [UndoOp]) == c;
        RunAppend(c1, middle, [UndoOp]);
      }
      var ops := AddShapes(xs) + Undos(|xs|);
      assert ops == [AddShapeOp(xs[0])] + (middle + [UndoOp]);
      assert ops[0] == AddShapeOp(xs[0]) && ops[1..] == middle + [UndoOp];
    }
  }

  /** A NullHistory in sync with the canvas makes undo a no-op. */
  lemma NullUndoIsNeutral(c: CanvasValue)
    requires c.history.SlotOf? && InSync(c)
    ensures CanvasUndo(c) == c
  {
  }

  /** With a NullHistory every sequence of calls is defined, the history
      stays a single slot, and undo afterwards never changes the shapes. */
  lemma {:induction false} NullHistoryNeverFails(c: CanvasValue, ops: seq<Op>)
    requires c.history.SlotOf?
    ensures Permitted(c, ops)
    ensures Run(c, ops).history.SlotOf?
    ensures ops != [] || InSync(c) ==> CanvasUndo(Run(c, ops)).shapes == Run(c, ops).shapes
    decreases |ops|
  {
    if ops != [] {
      NullHistoryNeverFails(Step(c, ops[0]), ops[1..]);
      RunSyncs(c, ops);
    }
  }

  // ---------------------------------------------------------------------
  // The objects
  // ---------------------------------------------------------------------

  /** The outcome of ForwardsIterator::next: the memento at the cursor, or
      the std::out_of_range that vector::at throws past the end. */
  datatype NextResult = Item(memento: CanvasMemento) | OutOfRange

  /** An index cursor over the live vector of a CanvasHistory. */
  class ForwardsIterator {
    var currentPosition: nat
    const history: CanvasHistory

    constructor (history: CanvasHistory)
      ensures this.history == history && currentPosition == 0
    {
      this.history := history;
      currentPosition := 0;
    }

    predicate IsFinished()
      reads this, history
    {
      currentPosition >= |history.oldStates|
    }

    method Next() returns (r: NextResult)
      modifies this
      ensures !old(IsFinished()) ==>
                r == Item(history.oldStates[old(currentPosition)]) && currentPosition == old(currentPosition) + 1
      ensures old(IsFinished()) ==> r == OutOfRange && currentPosition == old(currentPosition)
      ensures old(currentPosition <= |history.oldStates|) ==> currentPosition <= |history.oldStates|
    {
      if currentPosition < |history.oldStates| {
        r := Item(history.oldStates[currentPosition]);
        currentPosition := currentPosition + 1;
      } else {
        r := OutOfRange;
      }
    }
  }

  /** The undo stack: every recorded snapshot, oldest first. */
  class CanvasHistory {
    var oldStates: seq<CanvasMemento>

    constructor ()
      ensures oldStates == []
    {
      oldStates := [];
    }

    ghost function Value(): HistoryValue
      reads this
    {
      StackOf(oldStates)
    }

    method AddState(newState: CanvasMemento)
      modifies this
      ensures oldStates == old(oldStates) + [newState]
      ensures Value() == HistoryAdd(old(Value()), newState)
    {
      oldStates := oldStates + [newState];
    }

    method Undo() returns (previousState: CanvasMemento)
      requires |oldStates| >= 2
      modifies this
      ensures oldStates == old(oldStates)[..|old(oldStates)| - 1]
      ensures previousState == oldStates[|oldStates| - 1]
      ensures (Value(), previousState) == HistoryUndo(old(Value()))
    {
      oldStates := oldStates[..|oldStates| - 1];
      previousState := oldStates[|oldStates| - 1];
    }

    method GetForwardsIterator() returns (it: ForwardsIterator)
      ensures fresh(it) && it.history == this && it.currentPosition == 0
    {
      it := new ForwardsIterator(this);
    }
  }

  /** The null object: one slot, overwritten by addState, handed back by undo. */
  class NullHistory {
    var state: CanvasMemento

    constructor ()
      ensures state == CanvasMemento([])
    {
      state := CanvasMemento([]);
    }

    ghost function Value(): HistoryValue
      reads this
    {
      SlotOf(state)
    }

    method AddState(newState: CanvasMemento)
      modifies this
      ensures state == newState
      ensures Value() == HistoryAdd(old(Value()), newState)
    {
      state := newState;
    }

    method Undo() returns (previousState: CanvasMemento)
      ensures previousState == state
      ensures (Value(), previousState) == HistoryUndo(Value())
    {
      previousState := state;
    }
  }

  /** A `History *`: which implementation the canvas was given. */
  datatype HistoryRef = Full(stack: CanvasHistory) | NullObject(slot: NullHistory)
  {
    ghost function Obj(): object
    {
      match this
      case Full(h) => h
      case NullObject(n) => n
    }

    ghost function Value(): HistoryValue
      reads Obj()
    {
      match this
      case Full(h) => h.Value()
      case NullObject(n) => n.Value()
    }
  }

  class Canvas {
    var shapes: seq<string>
    const history: HistoryRef

    constructor (history: HistoryRef)
      ensures this.history == history && shapes == []
    {
      this.history := history;
      shapes := [];
    }

    ghost function Value(): CanvasValue
      reads this, history.Obj()
    {
      CanvasValue(shapes, history.Value())
    }

    method AddShape(newShape: string)
      modifies this, history.Obj()
      ensures shapes == old(shapes) + [newShape]
      ensures history.Full? ==> history.stack.oldStates == old(history.stack.oldStates) + [CanvasMemento(shapes)]
      ensures history.NullObject? ==> history.slot.state == CanvasMemento(shapes)
      ensures Value() == CanvasAdd(old(Value()), newShape)
      ensures InSync(Value())
    {
      shapes := shapes + [newShape];
      match history
      case Full(h) => h.AddState(CanvasMemento(shapes));
      case NullObject(n) => n.AddState(CanvasMemento(shapes));
    }

    method Undo()
      requires CanUndo(history.Value())
      modifies this, history.Obj()
      ensures history.Full? ==>
                history.stack.oldStates == old(history.stack.oldStates)[..|old(history.stack.oldStates)| - 1] &&
                shapes == history.stack.oldStates[|history.stack.oldStates| - 1].shapes
      ensures history.NullObject? ==> shapes == history.slot.state.shapes == old(history.slot.state.shapes)
      ensures Value() == CanvasUndo(old(Value()))
      ensures InSync(Value())
    {
      var previousState;
      match history {
        case Full(h) => previousState := h.Undo();
        case NullObject(n) => previousState := n.Undo();
      }
      shapes := previousState.shapes;
    }

    method ClearAll()
      modifies this, history.Obj()
      ensures shapes == []
      ensures history.Full? ==> history.stack.oldStates == old(history.stack.oldStates) + [CanvasMemento([])]
      ensures history.NullObject? ==> history.slot.state == CanvasMemento([])
      ensures Value() == CanvasClear(old(Value()))
      ensures InSync(Value())
    {
      shapes := [];
      match history
      case Full(h) => h.AddState(CanvasMemento(shapes));
      case NullObject(n) => n.AddState(CanvasMemento(shapes));
    }

    method GetShapes() returns (r: seq<string>)
      ensures r == shapes
    {
      r := shapes;
    }
  }

  /** Drives a forwards iterator over a CanvasHistory to the end, adopting
      each snapshot in turn. */
  class ReplayCanvas {
    var shapes: seq<string>
    const historyIterator: ForwardsIterator

    constructor (history: CanvasHistory)
      ensures fresh(historyIterator)
      ensures historyIterator.history == history && historyIterator.currentPosition == 0
      ensures shapes == []
    {
      var it := history.GetForwardsIterator();
      historyIterator := it;
      shapes := [];
    }

    /** Replays every snapshot from the cursor on. `shown` lists, in order,
        the shapes the source prints at each step. */
    method Replay() returns (shown: seq<seq<string>>)
      modifies this, historyIterator
      ensures historyIterator.IsFinished()
      ensures var states := historyIterator.history.oldStates;
              var start := old(historyIterator.currentPosition);
              if start < |states| then
                |shown| == |states| - start &&
                (forall k :: 0 <= k < |shown| ==> shown[k] == states[start + k].shapes) &&
                shapes == states[|states| - 1].shapes &&
                historyIterator.currentPosition == |states|
              else
                shown == [] && shapes == old(shapes) &&
                historyIterator.currentPosition == start
    {
      ghost var states := historyIterator.history.oldStates;
      ghost var start := historyIterator.currentPosition;
      shown := [];
      while !historyIterator.IsFinished()
        invariant historyIterator.history.oldStates == states
        invariant start < |states| ==> start <= historyIterator.currentPosition <= |states|
        invariant start >= |states| ==> historyIterator.currentPosition == start
        invariant |shown| == historyIterator.currentPosition - start
        invariant forall k :: 0 <= k < |shown| ==> shown[k] == states[start + k].shapes
        invariant shown == [] ==> shapes == old(shapes)
        invariant shown != [] ==> shapes == states[historyIterator.currentPosition - 1].shapes
        decreases |states| - historyIterator.currentPosition
      {
        var nextState := historyIterator.Next();
        assert nextState.Item?;
        shapes := nextState.memento.shapes;
        shown := shown + [shapes];
      }
    }
  }

  // ---------------------------------------------------------------------
  // The program's scenarios, driven through the objects
  // ---------------------------------------------------------------------

  /** The program's main: a canvas over a NullHistory, four shapes, three
      undos; undo never changes the shapes. */
  method NullCanvasScenario() returns (before: seq<string>, after: seq<string>)
    ensures before == ["rhombus", "triangle", "square", "circle"]
    ensures after == before
  {
    var history := new NullHistory();
    var canvas := new Canvas(NullObject(history));
    canvas.AddShape("rhombus");
    canvas.AddShape("triangle");
    canvas.AddShape("square");
    canvas.AddShape("circle");
    before := canvas.GetShapes();
    canvas.Undo();
    canvas.Undo();
    canvas.Undo();
    after := canvas.GetShapes();
  }

  /** The same calls over a CanvasHistory: each undo steps back one shape. */
  method StackCanvasScenario() returns (afterUndos: seq<seq<string>>)
    ensures afterUndos == [["rhombus", "triangle", "square"], ["rhombus", "triangle"], ["rhombus"]]
  {
    var history := new CanvasHistory();
    var canvas := new Canvas(Full(history));
    canvas.AddShape("rhombus");
    assert canvas.shapes == ["rhombus"];
    var m1, m2, m3 := CanvasMemento(["rhombus"]), CanvasMemento(["rhombus", "triangle"]),
                      CanvasMemento(["rhombus", "triangle", "square"]);
    assert history.oldStates == [m1];
    canvas.AddShape("triangle");
    assert canvas.shapes == ["rhombus", "triangle"];
    assert history.oldStates == [m1, m2];
    canvas.AddShape("square");
    assert canvas.shapes == ["rhombus", "triangle", "square"];
    assert history.oldStates == [m1, m2, m3];
    canvas.AddShape("circle");
    assert canvas.shapes == ["rhombus", "triangle", "square", "circle"];
    assert history.oldStates == [m1, m2, m3, CanvasMemento(["rhombus", "triangle", "square", "circle"])];
    canvas.Undo();
    assert history.oldStates == [m1, m2, m3];
    var s1 := canvas.GetShapes();
    canvas.Undo();
    assert history.oldStates == [m1, m2];
    var s2 := canvas.GetShapes();
    canvas.Undo();
    var s3 := canvas.GetShapes();
    afterUndos := [s1, s2, s3];
  }

  /** The iterator views the live vector: a snapshot recorded after the
      replay canvas was made is still replayed, after the earlier ones. */
  method ReplayScenario() returns (shown: seq<seq<string>>, last: seq<string>)
    ensures shown == [["rhombus"], ["rhombus", "triangle"], []]
    ensures last == []
  {
    var history := new CanvasHistory();
    var canvas := new Canvas(Full(history));
    canvas.AddShape("rhombus");
    assert canvas.shapes == ["rhombus"];
    canvas.AddShape("triangle");
    assert canvas.shapes == ["rhombus", "triangle"];
    var replay := new ReplayCanvas(history);
    canvas.ClearAll();
    assert history.oldStates == [CanvasMemento(["rhombus"]), CanvasMemento(["rhombus", "triangle"]), CanvasMemento([])];
    shown := replay.Replay();
    last := replay.shapes;
  }
}
