/**
 Editing the whiteboard (frontend/components/DrawingCanvas.tsx): hit testing, dragging, erasing, drawing and undo.
 Every handler sees the state left by the previous one, as it does when the component has re-rendered in between.
 */
module Canvas {
  import opened Options
  import opened Drawing
  import opened Strings

  /** What is drawn by pressing and releasing; text labels come from the text input. */
  type Drawn = k: Kind | k != TextLabel witness Rect

  datatype Tool = Select | PenTool | Eraser | TextTool | Draw(kind: Drawn)

  datatype State = State(
    items: seq<Item>,
    selected: Option<nat>,         // selectedId
    drawing: bool,                 // isDrawing
    start: Option<Point>,          // startPos
    offset: Option<Point>,         // dragOffset
    pen: Option<Item>,             // currentPen
    textInput: Option<Point>,      // where the open text input stands
    tool: Tool
  )

  const Initial := State([], None, false, None, None, None, None, Draw(Rect))

  const MARGIN := 8.0

  // ---------- The code ----------

  /** The point is in the shape's box, enlarged by the margin. */
  predicate Inside(i: Item, p: Point) {
    && i.Shape?
    && Min(i.x1, i.x2) - MARGIN <= p.x <= Max(i.x1, i.x2) + MARGIN
    && Min(i.y1, i.y2) - MARGIN <= p.y <= Max(i.y1, i.y2) + MARGIN
  }

  /** The item hitTest returns: the last one drawn among those at the point. */
  function TopHit(items: seq<Item>, p: Point): Option<Item> {
    if items == [] then None
    else if Inside(items[|items| - 1], p) then Some(items[|items| - 1])
    else TopHit(items[..|items| - 1], p)
  }

  function Without(items: seq<Item>, id: nat): seq<Item> {
    if items == [] then [] else
    Without(items[..|items| - 1], id) + if items[|items| - 1].id == id then [] else [items[|items| - 1]]
  }

  /** The updater of a drag: the selected shape's first corner goes to `corner`, its size stays. */
  function MoveTo(i: Item, id: nat, corner: Point): Item {
    if i.id != id || i.Pen? then i
    else i.(x1 := corner.x, y1 := corner.y, x2 := corner.x + (i.x2 - i.x1), y2 := corner.y + (i.y2 - i.y1))
  }

  function MoveAll(items: seq<Item>, id: nat, corner: Point): (r: seq<Item>)
    ensures |r| == |items|
  {
    seq(|items|, k requires 0 <= k < |items| => MoveTo(items[k], id, corner))
  }

  function Down(s: State, p: Point, newId: nat): State {
    match s.tool
    case Select =>
      var hit := TopHit(s.items, p);
      s.(selected := if hit.Some? then Some(hit.value.id) else None,
         offset := if hit.Some? && hit.value.Shape? then Some(Point(p.x - hit.value.x1, p.y - hit.value.y1)) else s.offset,
         drawing := hit.Some?, start := Some(p))
    case Eraser =>
      var hit := TopHit(s.items, p);
      if hit.Some? then s.(items := Without(s.items, hit.value.id)) else s
    case TextTool => s.(textInput := Some(p))
    case PenTool => s.(drawing := true, start := Some(p), pen := Some(Pen(newId, [p])))
    case Draw(_) => s.(drawing := true, start := Some(p))
  }

  function Move(s: State, p: Point): State {
    if !s.drawing || s.start.None? then s
    else if s.tool.Select? then
      if s.selected.Some? && s.offset.Some? then
        s.(items := MoveAll(s.items, s.selected.value, Point(p.x - s.offset.value.x, p.y - s.offset.value.y)))
      else s
    else if s.tool.PenTool? && s.pen.Some? && s.pen.value.Pen? then
      s.(pen := Some(s.pen.value.(points := s.pen.value.points + [p])))
    else s
  }

  function Distance(a: real, b: real): real {
    if a >= b then a - b else b - a
  }

  function Up(s: State, p: Point, newId: nat): State {
    if !s.drawing then s else
    var s1 := s.(drawing := false, start := None);
    if s.tool.PenTool? && s.pen.Some? then s1.(items := s.items + [s.pen.value], pen := None)
    else if s.tool.Select? then s1.(offset := None)
    else if s.start.None? || !s.tool.Draw? then s1
    else
      var q := s.start.value;
      if Distance(p.x, q.x) < 4.0 && Distance(p.y, q.y) < 4.0 then s1
      else s1.(items := s.items + [Shape(newId, s.tool.kind, q.x, q.y, p.x, p.y, None)])
  }

  function Undo(s: State): State {
    s.(items := if s.items == [] then [] else s.items[..|s.items| - 1], selected := None)
  }

  function Clear(s: State): State {
    s.(items := [], selected := None)
  }

  /** commitText; `size` is the font size. */
  function CommitText(s: State, value: string, size: real, newId: nat): State {
    var caption := Trim(value, IsSpace);
    var added := if caption != "" && s.textInput.Some? then
        var q := s.textInput.value;
        [Shape(newId, TextLabel, q.x, q.y, q.x + |value| as real * (size * 0.6), q.y + size, Some(caption))]
      else [];
    s.(items := s.items + added, textInput := None)
  }

  function DeleteSelected(s: State): State {
    if s.selected.Some? then s.(items := Without(s.items, s.selected.value), selected := None) else s
  }

  class Editor {
    var items: seq<Item>
    var selected: Option<nat>
    var drawing: bool
    var start: Option<Point>
    var offset: Option<Point>
    var pen: Option<Item>
    var textInput: Option<Point>
    var tool: Tool

    ghost function View(): State
      reads this
    {
      State(items, selected, drawing, start, offset, pen, textInput, tool)
    }

    constructor ()
      ensures View() == Initial
    {
      items, selected, drawing, start, offset, pen, textInput, tool := [], None, false, None, None, None, None, Draw(Rect);
    }

    /** The downward loop of hitTest. */
    method HitTest(p: Point) returns (hit: Option<Item>)
      ensures hit == TopHit(items, p)
    {
      var i := |items|;
      assert items[..|items|] == items;
      while i > 0
        invariant 0 <= i <= |items|
        invariant TopHit(items, p) == TopHit(items[..i], p)
      {
        i := i - 1;
        assert items[..i + 1][..i] == items[..i];
        var item := items[i];
        if item.Pen? {
          continue;
        }
        if Inside(item, p) {
          return Some(item);
        }
      }
      return None;
    }

    method OnPointerDown(p: Point, newId: nat)
      modifies this
      ensures View() == Down(old(View()), p, newId)
    {
      if tool == Select {
        var hit := HitTest(p);
        selected := if hit.Some? then Some(hit.value.id) else None;
        if hit.Some? && hit.value.Shape? {
          offset := Some(Point(p.x - hit.value.x1, p.y - hit.value.y1));
        }
        drawing := hit.Some?;
        start := Some(p);
        return;
      }
      if tool == Eraser {
        var hit := HitTest(p);
        if hit.Some? {
          items := Without(items, hit.value.id);
        }
        return;
      }
      if tool == TextTool {
        textInput := Some(p);
        return;
      }
      drawing := true;
      start := Some(p);
      if tool == PenTool {
        pen := Some(Pen(newId, [p]));
      }
    }

    method OnPointerMove(p: Point)
      modifies this
      ensures View() == Move(old(View()), p)
    {
      if !drawing || start.None? {
        return;
      }
      if tool == Select {
        if selected.Some? && offset.Some? {
          items := MoveAll(items, selected.value, Point(p.x - offset.value.x, p.y - offset.value.y));
        }
        return;
      }
      if tool == PenTool && pen.Some? && pen.value.Pen? {
        pen := Some(pen.value.(points := pen.value.points + [p]));
      }
    }

    method OnPointerUp(p: Point, newId: nat)
      modifies this
      ensures View() == Up(old(View()), p, newId)
    {
      if !drawing {
        return;
      }
      drawing := false;
      var from := start;
      start := None;
      if tool == PenTool && pen.Some? {
        items := items + [pen.value];
        pen := None;
        return;
      }
      if tool == Select {
        offset := None;
        return;
      }
      if from.None? || !tool.Draw? {
        return;
      }
      var q := from.value;
      if Distance(p.x, q.x) < 4.0 && Distance(p.y, q.y) < 4.0 {
        return;
      }
      items := items + [Shape(newId, tool.kind, q.x, q.y, p.x, p.y, None)];
    }

    method OnUndo()
      modifies this
      ensures View() == Undo(old(View()))
    {
      if |items| > 0 {
        items := items[..|items| - 1];
      }
      selected := None;
    }

    method OnClear()
      modifies this
      ensures View() == Clear(old(View()))
    {
      items := [];
      selected := None;
    }

    method OnCommitText(value: string, size: real, newId: nat)
      modifies this
      ensures View() == CommitText(old(View()), value, size, newId)
    {
      var caption := Trim(value, IsSpace);
      if caption != "" && textInput.Some? {
        var q := textInput.value;
        var added := Shape(newId, TextLabel, q.x, q.y, q.x + |value| as real * (size * 0.6), q.y + size, Some(caption));
        items := items + [added];
      }
      textInput := None;
    }

    method OnDelete()
      modifies this
      ensures View() == DeleteSelected(old(View()))
    {
      if selected.Some? {
        items := Without(items, selected.value);
        selected := None;
      }
    }
  }

  // ---------- Hit testing ----------

  /** The topmost hit: the item at `i` is at the point and no later one is. */
  predicate IsTop(items: seq<Item>, p: Point, i: nat) {
    i < |items| && Inside(items[i], p) && forall j :: i < j < |items| ==> !Inside(items[j], p)
  }

  lemma {:induction false} TopHitIff(items: seq<Item>, p: Point)
    ensures forall i: nat :: IsTop(items, p, i) ==> TopHit(items, p) == Some(items[i])
    ensures TopHit(items, p).Some? ==> exists i: nat :: IsTop(items, p, i) && items[i] == TopHit(items, p).value
    ensures TopHit(items, p) == None <==> forall i :: 0 <= i < |items| ==> !Inside(items[i], p)
  {
    hide Inside;
    if items != [] && !Inside(items[|items| - 1], p) {
      var n := |items| - 1;
      TopHitIff(items[..n], p);
      forall i: nat
        ensures IsTop(items, p, i) <==> IsTop(items[..n], p, i)
      {
      }
    } else if items != [] {
      assert IsTop(items, p, |items| - 1);
      forall i: nat | IsTop(items, p, i)
        ensures i == |items| - 1
      {
      }
    }
  }

  /** The box spanned by the two corners. */
  predicate InBox(i: Item, x: real, y: real) {
    i.Shape? && (i.x1 <= x <= i.x2 || i.x2 <= x <= i.x1) && (i.y1 <= y <= i.y2 || i.y2 <= y <= i.y1)
  }

  /** A point hits a shape exactly when some point of its box is at most eight pixels away along either axis. */
  lemma InsideIff(i: Item, p: Point)
    ensures Inside(i, p) <==>
      exists x, y :: InBox(i, x, y) && -8.0 <= p.x - x <= 8.0 && -8.0 <= p.y - y <= 8.0
  {
    if Inside(i, p) {
      var x := Max(Min(i.x1, i.x2), Min(p.x, Max(i.x1, i.x2)));
      var y := Max(Min(i.y1, i.y2), Min(p.y, Max(i.y1, i.y2)));
      assert InBox(i, x, y);
    }
  }

  // ---------- Dragging ----------

  function Moves(s: State, ps: seq<Point>): State {
    if ps == [] then s else Move(Moves(s, ps[..|ps| - 1]), ps[|ps| - 1])
  }

  /** Any sequence of moves has the effect of the last one alone. */
  lemma {:induction false} LastMoveDecides(s: State, ps: seq<Point>)
    requires s.tool.Select? && ps != []
    ensures Moves(s, ps) == Move(s, ps[|ps| - 1])
  {
    var n := |ps| - 1;
    if n == 0 {
      assert ps[..0] == [];
    } else {
      LastMoveDecides(s, ps[..n]);
      MoveOverwrites(s, ps[n - 1], ps[n]);
    }
  }

  lemma MoveOverwrites(s: State, p: Point, q: Point)
    requires s.tool.Select?
    ensures Move(Move(s, p), q) == Move(s, q)
  {
    if s.drawing && s.start.Some? && s.selected.Some? && s.offset.Some? {
      assert Move(Move(s, p), q).items == Move(s, q).items;
    }
  }

  predicate UniqueIds(items: seq<Item>) {
    forall i, j :: 0 <= i < j < |items| ==> items[i].id != items[j].id
  }

  function Translate(i: Item, dx: real, dy: real): Item
    requires i.Shape?
  {
    i.(x1 := i.x1 + dx, y1 := i.y1 + dy, x2 := i.x2 + dx, y2 := i.y2 + dy)
  }

  /** Pressing, moving and releasing with the select tool. */
  function Gesture(s: State, down: Point, moves: seq<Point>, up: Point): State {
    Up(Moves(Down(s, down, 0), moves), up, 0)
  }

  lemma MovesOnlyOne(items: seq<Item>, k: nat, corner: Point)
    requires UniqueIds(items) && k < |items|
    ensures MoveAll(items, items[k].id, corner) == items[k := MoveTo(items[k], items[k].id, corner)]
  {
    hide MoveTo;
    forall i | 0 <= i < |items| && i != k
      ensures items[i].id != items[k].id
    {
      assert i < k || k < i;
    }
    forall i | 0 <= i < |items| && i != k
      ensures MoveTo(items[i], items[k].id, corner) == items[i]
    {
      OthersStay(items[i], items[k].id, corner);
    }
  }

  lemma OthersStay(i: Item, id: nat, corner: Point)
    requires i.id != id
    ensures MoveTo(i, id, corner) == i
  {
  }

  /** Keeping the offset of the press moves the shape by the pointer's vector, and the pointer stays inside. */
  lemma OffsetTranslates(i: Item, p: Point, q: Point)
    requires Inside(i, p)
    ensures var moved := Translate(i, q.x - p.x, q.y - p.y);
      MoveTo(i, i.id, Point(q.x - (p.x - i.x1), q.y - (p.y - i.y1))) == moved && Inside(moved, q)
  {
  }

  /**
   A whole drag moves the topmost shape under the press by the vector from the press to the last move, leaves every
   other item and the drawing order alone, and the shape is still under the pointer.
   */
  lemma DragTranslates(s: State, down: Point, moves: seq<Point>, up: Point, k: nat)
    requires s.tool.Select? && UniqueIds(s.items) && moves != [] && IsTop(s.items, down, k)
    ensures var last := moves[|moves| - 1];
      var moved := Translate(s.items[k], last.x - down.x, last.y - down.y);
      && Gesture(s, down, moves, up).items == s.items[k := moved]
      && Gesture(s, down, moves, up).selected == Some(s.items[k].id)
      && Inside(moved, last)
  {
    hide Inside, MoveTo, MoveAll, TopHit, Translate;
    TopHitIff(s.items, down);
    var last, item := moves[|moves| - 1], s.items[k];
    LastMoveDecides(Down(s, down, 0), moves);
    InsideIsShape(item, down);
    OffsetTranslates(item, down, last);
    MovesOnlyOne(s.items, k, Point(last.x - (down.x - item.x1), last.y - (down.y - item.y1)));
  }

  lemma InsideIsShape(i: Item, p: Point)
    requires Inside(i, p)
    ensures i.Shape?
  {
  }

  /** Pressing where nothing is drawn deselects and moves nothing, whatever was dragged before. */
  lemma DragOnNothing(s: State, down: Point, moves: seq<Point>, up: Point)
    requires s.tool.Select? && forall i :: 0 <= i < |s.items| ==> !Inside(s.items[i], down)
    ensures Gesture(s, down, moves, up).items == s.items && Gesture(s, down, moves, up).selected == None
  {
    TopHitIff(s.items, down);
    if moves != [] {
      LastMoveDecides(Down(s, down, 0), moves);
    }
  }

  // ---------- Erasing, drawing and undo ----------

  lemma {:induction false} WithoutAbsent(items: seq<Item>, id: nat)
    requires forall i :: 0 <= i < |items| ==> items[i].id != id
    ensures Without(items, id) == items
  {
    if items != [] {
      WithoutAbsent(items[..|items| - 1], id);
    }
  }

  lemma {:induction false} WithoutOne(items: seq<Item>, k: nat)
    requires UniqueIds(items) && k < |items|
    ensures Without(items, items[k].id) == items[..k] + items[k + 1..]
  {
    var n := |items| - 1;
    if k == n {
      WithoutAbsent(items[..n], items[k].id);
    } else {
      WithoutOne(items[..n], k);
      assert items[..n][k + 1..] + [items[n]] == items[k + 1..];
    }
  }

  /** The eraser removes the topmost shape under the pointer and nothing else. */
  lemma EraserRemovesTop(s: State, p: Point, k: nat)
    requires s.tool.Eraser? && UniqueIds(s.items) && IsTop(s.items, p, k)
    ensures Down(s, p, 0) == s.(items := s.items[..k] + s.items[k + 1..])
  {
    TopHitIff(s.items, p);
    WithoutOne(s.items, k);
  }

  /** Where nothing is drawn it does nothing. */
  lemma EraserOnNothing(s: State, p: Point)
    requires s.tool.Eraser? && forall i :: 0 <= i < |s.items| ==> !Inside(s.items[i], p)
    ensures Down(s, p, 0) == s
  {
    TopHitIff(s.items, p);
  }

  /** Pressing, moving and releasing; `a` and `b` are the identifiers at hand for a stroke and for a shape. */
  function PressAndRelease(s: State, down: Point, moves: seq<Point>, up: Point, a: nat, b: nat): State {
    Up(Moves(Down(s, down, a), moves), up, b)
  }

  /**
   A shape of the chosen kind from the press to the release is added exactly when the pointer went at least four pixels
   along some axis, and undo takes it away again with the selection.
   */
  lemma DrawThenUndo(s: State, down: Point, moves: seq<Point>, up: Point, a: nat, b: nat)
    requires s.tool.Draw?
    ensures var drawn := PressAndRelease(s, down, moves, up, a, b);
      && drawn == s.(drawing := false, start := None, items :=
           if -4.0 < up.x - down.x < 4.0 && -4.0 < up.y - down.y < 4.0 then s.items
           else s.items + [Shape(b, s.tool.kind, down.x, down.y, up.x, up.y, None)])
      && (drawn.items != s.items ==> Undo(drawn) == s.(drawing := false, start := None, selected := None))
  {
    MovesKeepDrawing(Down(s, down, a), moves);
  }

  /** The pen adds one stroke through the press and every move, and undo takes it away again with the selection. */
  lemma StrokeThenUndo(s: State, down: Point, moves: seq<Point>, up: Point, a: nat, b: nat)
    requires s.tool.PenTool?
    ensures var drawn := PressAndRelease(s, down, moves, up, a, b);
      && drawn == s.(drawing := false, start := None, pen := None, items := s.items + [Pen(a, [down] + moves)])
      && Undo(drawn) == s.(drawing := false, start := None, pen := None, selected := None)
  {
    StrokeGrows(s, down, moves, a);
  }

  lemma {:induction false} StrokeGrows(s: State, down: Point, moves: seq<Point>, a: nat)
    requires s.tool.PenTool?
    ensures Moves(Down(s, down, a), moves) ==
      s.(drawing := true, start := Some(down), pen := Some(Pen(a, [down] + moves)))
  {
    var n := |moves|;
    if n == 0 {
      assert [down] + moves == [down];
    } else {
      StrokeGrows(s, down, moves[..n - 1], a);
      assert [down] + moves[..n - 1] + [moves[n - 1]] == [down] + moves;
    }
  }

  /** After the release the pointer moves nothing until the next press. */
  lemma {:induction false} NothingAfterRelease(s: State, up: Point, b: nat, moves: seq<Point>)
    ensures Moves(Up(s, up, b), moves) == Up(s, up, b)
  {
    if moves != [] {
      NothingAfterRelease(s, up, b, moves[..|moves| - 1]);
    }
  }

  /**
   A press with the text tool opens the input there, and what is typed is added there exactly when some character of it is
   no white space. Clicking at the same place then selects it, and undo takes it away again.
   */
  lemma TextThenUndo(s: State, value: string, size: real, newId: nat, p: Point)
    requires s.tool.TextTool?
    ensures var after := CommitText(Down(s, p, newId), value, size, newId);
      && after.textInput == None
      && (after.items == s.items <==> forall i :: 0 <= i < |value| ==> IsSpace(value[i]))
      && (after.items != s.items ==> after.items == s.items + [
           Shape(newId, TextLabel, p.x, p.y, p.x + |value| as real * (size * 0.6), p.y + size, Some(Trim(value, IsSpace)))])
      && (after.items != s.items ==>
        Undo(after).items == s.items && TopHit(after.items, p) == Some(after.items[|s.items|]))
  {
    hide Trim, IsSpace;
    TrimmedAwayIff(value, IsSpace);
  }

  /** Without an open input nothing is added. */
  lemma NoInputNoText(s: State, value: string, size: real, newId: nat)
    requires s.textInput == None
    ensures CommitText(s, value, size, newId) == s
  {
    hide Trim;
    assert s.items + [] == s.items;
  }

  lemma {:induction false} MovesKeepDrawing(s: State, ps: seq<Point>)
    requires s.tool.Draw?
    ensures Moves(s, ps) == s
  {
    if ps != [] {
      MovesKeepDrawing(s, ps[..|ps| - 1]);
    }
  }

  /** Deleting takes away exactly the selected item and the selection. */
  lemma DeleteRemovesSelected(s: State, k: nat)
    requires UniqueIds(s.items) && k < |s.items| && s.selected == Some(s.items[k].id)
    ensures DeleteSelected(s) == s.(items := s.items[..k] + s.items[k + 1..], selected := None)
  {
    WithoutOne(s.items, k);
  }

  /** With nothing selected, or something that is gone, deleting leaves the items alone. */
  lemma DeleteNothing(s: State)
    requires s.selected.Some? ==> forall i :: 0 <= i < |s.items| ==> s.items[i].id != s.selected.value
    ensures DeleteSelected(s) == s.(selected := None)
  {
    if s.selected.Some? {
      WithoutAbsent(s.items, s.selected.value);
    }
  }

  // ---------- Identifiers stay unique ----------

  datatype Event =
    | PointerDown(p: Point, newId: nat)
    | PointerMove(p: Point)
    | PointerUp(p: Point, newId: nat)
    | UndoKey
    | DeleteKey
    | ClearAll
    | Commit(value: string, size: real, newId: nat)
    | Choose(tool: Tool)

  function Step(s: State, e: Event): State {
    match e
    case PointerDown(p, newId) => Down(s, p, newId)
    case PointerMove(p) => Move(s, p)
    case PointerUp(p, newId) => Up(s, p, newId)
    case UndoKey => Undo(s)
    case DeleteKey => DeleteSelected(s)
    case ClearAll => Clear(s)
    case Commit(value, size, newId) => CommitText(s, value, size, newId)
    case Choose(tool) => s.(tool := tool)
  }

  function Run(s: State, es: seq<Event>): State {
    if es == [] then s else Step(Run(s, es[..|es| - 1]), es[|es| - 1])
  }

  /**
   After a clear, even in the middle of a drag, the board stays empty and nothing is selected until something is drawn or
   typed.
   */
  lemma {:induction false} ClearedUntilDrawn(s: State, es: seq<Event>)
    requires forall i :: 0 <= i < |es| ==> !es[i].PointerUp? && !es[i].Commit?
    ensures Run(Clear(s), es).items == [] && Run(Clear(s), es).selected == None
  {
    if es != [] {
      ClearedUntilDrawn(s, es[..|es| - 1]);
    }
  }

  predicate Absent(items: seq<Item>, id: nat) {
    forall i :: 0 <= i < |items| ==> items[i].id != id
  }

  /** No item and no unfinished stroke has the identifier. */
  predicate Unused(s: State, id: nat) {
    Absent(s.items, id) && (s.pen.Some? ==> s.pen.value.id != id)
  }

  /** Every new identifier is unused. */
  predicate FreshIds(s: State, es: seq<Event>) {
    es == [] ||
    var e := es[|es| - 1];
    && FreshIds(s, es[..|es| - 1])
    && (e.PointerDown? || e.PointerUp? || e.Commit? ==> Unused(Run(s, es[..|es| - 1]), e.newId))
  }

  predicate GoodIds(s: State) {
    UniqueIds(s.items) && (s.pen.Some? ==> Absent(s.items, s.pen.value.id))
  }

  lemma {:induction false} WithoutKeeps(items: seq<Item>, id: nat)
    requires UniqueIds(items)
    ensures UniqueIds(Without(items, id))
    ensures forall x :: Absent(items, x) ==> Absent(Without(items, id), x)
  {
    if items != [] {
      var n := |items| - 1;
      WithoutKeeps(items[..n], id);
      assert Absent(items[..n], items[n].id);
      forall x | Absent(items, x)
        ensures Absent(items[..n], x)
      {
      }
    }
  }

  lemma AppendKeeps(items: seq<Item>, item: Item)
    requires UniqueIds(items) && Absent(items, item.id)
    ensures UniqueIds(items + [item])
    ensures forall x :: Absent(items, x) && x != item.id ==> Absent(items + [item], x)
  {
  }

  lemma StepKeepsIds(s: State, e: Event)
    requires GoodIds(s)
    requires e.PointerDown? || e.PointerUp? || e.Commit? ==> Unused(s, e.newId)
    ensures GoodIds(Step(s, e))
  {
    match e
    case PointerDown(p, newId) =>
      if s.tool.Eraser? && TopHit(s.items, p).Some? {
        WithoutKeeps(s.items, TopHit(s.items, p).value.id);
      }
    case PointerUp(p, newId) =>
      if s.pen.Some? {
        AppendKeeps(s.items, s.pen.value);
      }
      if s.tool.Draw? && s.start.Some? {
        AppendKeeps(s.items, Shape(newId, s.tool.kind, s.start.value.x, s.start.value.y, p.x, p.y, None));
      }
    case DeleteKey =>
      if s.selected.Some? {
        WithoutKeeps(s.items, s.selected.value);
      }
    case Commit(value, size, newId) =>
      var after := Step(s, e).items;
      if after != s.items {
        AppendKeeps(s.items, after[|s.items|]);
        assert after == s.items + [after[|s.items|]];
      }
    case _ =>
  }

  /** However the board was edited, no two items share an identifier, as the lemmas above require. */
  lemma {:induction false} IdsStayUnique(es: seq<Event>)
    requires FreshIds(Initial, es)
    ensures GoodIds(Run(Initial, es))
  {
    hide Step, GoodIds, Unused;
    if es != [] {
      IdsStayUnique(es[..|es| - 1]);
      StepKeepsIds(Run(Initial, es[..|es| - 1]), es[|es| - 1]);
    } else {
      InitialIds();
    }
  }

  lemma InitialIds()
    ensures GoodIds(Initial)
  {
  }
}
