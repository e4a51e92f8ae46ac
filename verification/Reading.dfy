/**
 What the description of the whiteboard says (frontend/lib/contextDescription.ts), read off the drawing itself: which items
 have a line, where a component is said to stand, and which components an arrow is said to connect.
 */
module Reading {
  import opened Options
  import opened Drawing
  import opened Board
  import opened Fractions
  import opened Lists
  import opened Strings

  predicate IsBox(i: Item) {
    i.Shape? && i.kind in {Rect, Ellipse, Cylinder, Diamond}
  }

  predicate Connects(i: Item) {
    i.Shape? && i.kind in {Arrow, Arrow2}
  }

  predicate IsNote(i: Item) {
    i.Shape? && i.kind == TextLabel && Caption(i) != ""
  }

  predicate IsStroke(i: Item) {
    i.Pen?
  }

  function Caption(i: Item): string {
    match i
    case Shape(_, _, _, _, _, _, Some(text)) => Trim(text, IsSpace)
    case _ => ""
  }

  /** A component is called by its caption, or else by its kind. */
  function Called(i: Item): Name
    requires i.Shape?
  {
    if Caption(i) == "" then KindName(i.kind) else Label(Caption(i))
  }

  /** Twice the center. */
  function TwiceX(i: Item): real
    requires i.Shape?
  {
    i.x1 + i.x2
  }

  function TwiceY(i: Item): real
    requires i.Shape?
  {
    i.y1 + i.y2
  }

  /** The square of twice the distance from a point to the center. */
  function FourSquares(p: Point, i: Item): real
    requires i.Shape?
  {
    var dx, dy := 2.0 * p.x - TwiceX(i), 2.0 * p.y - TwiceY(i);
    dx * dx + dy * dy
  }

  /** Within 120 pixels. */
  predicate Near(p: Point, i: Item)
    requires i.Shape?
  {
    FourSquares(p, i) <= 240.0 * 240.0
  }

  /** Of all components none is nearer to the point than item `i`, and none before it as near. */
  ghost predicate NearestBox(items: seq<Item>, p: Point, i: nat) {
    && i < |items| && IsBox(items[i])
    && (forall j :: 0 <= j < |items| && IsBox(items[j]) ==> FourSquares(p, items[i]) <= FourSquares(p, items[j]))
    && (forall j :: 0 <= j < i && IsBox(items[j]) ==> FourSquares(p, items[i]) < FourSquares(p, items[j]))
  }

  ghost predicate NoBox(items: seq<Item>) {
    forall i :: 0 <= i < |items| ==> !IsBox(items[i])
  }

  /** An arrow's line: from the component nearest to its start to the one nearest to its end, if both are in reach. */
  ghost predicate ArrowSays(items: seq<Item>, a: Item, line: DescLine)
    requires a.Shape?
  {
    var start, end := Point(a.x1, a.y1), Point(a.x2, a.y2);
    && (NoBox(items) ==> line == LooseArrow(a.kind, Caption(a)))
    && (forall i: nat, j: nat :: NearestBox(items, start, i) && NearestBox(items, end, j) ==>
         line == if Near(start, items[i]) && Near(end, items[j])
                 then Connection(Called(items[i]), a.kind == Arrow2, Called(items[j]), Caption(a))
                 else LooseArrow(a.kind, Caption(a)))
  }

  /** The first, the second or the last third of the way from `lo` to `hi`, the borders being at 33 and 67 percent. */
  function Third(c: real, lo: real, hi: real): (third: nat)
    ensures third < 3
  {
    if lo == hi || 100.0 * (c - lo) < 33.0 * (hi - lo) then 0
    else if 100.0 * (c - lo) < 67.0 * (hi - lo) then 1
    else 2
  }

  /** The components `l`, `r`, `t` and `b` are a leftmost, a rightmost, a topmost and a lowest one. */
  ghost predicate Outermost(items: seq<Item>, l: nat, r: nat, t: nat, b: nat) {
    && l < |items| && r < |items| && t < |items| && b < |items|
    && IsBox(items[l]) && IsBox(items[r]) && IsBox(items[t]) && IsBox(items[b])
    && (forall i :: 0 <= i < |items| && IsBox(items[i]) ==> TwiceX(items[l]) <= TwiceX(items[i]) <= TwiceX(items[r]))
    && (forall i :: 0 <= i < |items| && IsBox(items[i]) ==> TwiceY(items[t]) <= TwiceY(items[i]) <= TwiceY(items[b]))
  }

  /** A component's line: its kind, its caption, and the thirds of the board in which its center stands. */
  ghost predicate BoxSays(items: seq<Item>, c: Item, line: DescLine)
    requires c.Shape?
  {
    forall l: nat, r: nat, t: nat, b: nat :: Outermost(items, l, r, t, b) ==>
      line == Component(c.kind, Caption(c), Position(
        [Top, Middle, Bottom][Third(TwiceY(c), TwiceY(items[t]), TwiceY(items[b]))],
        [Left, Center, Right][Third(TwiceX(c), TwiceX(items[l]), TwiceX(items[r]))]))
  }

  // ---------- Filters ----------

  lemma {:induction false} FilterPlaces(items: seq<Item>, keep: Item -> bool)
    ensures |Filter(items, keep)| == |Places(items, keep)|
    ensures forall k :: 0 <= k < |Filter(items, keep)| ==> Filter(items, keep)[k] == items[Places(items, keep)[k]]
  {
    if items != [] {
      FilterPlaces(items[..|items| - 1], keep);
    }
  }

  /** The filter of the source picks the items at these places. */
  lemma Picks(items: seq<Item>, keep: Item -> bool, spec: Item -> bool)
    requires forall i :: keep(i) == spec(i)
    ensures var kept, ps := Filter(items, keep), Places(items, spec);
      |kept| == |ps| && forall k :: 0 <= k < |kept| ==> kept[k] == items[ps[k]]
  {
    FilterPlaces(items, keep);
    PlacesAgree(items, keep, spec);
  }

  lemma SameKinds(i: Item)
    ensures IsComponent(i) == IsBox(i) && IsArrow(i) == Connects(i)
    ensures IsAnnotation(i) == IsNote(i) && IsPen(i) == IsStroke(i)
    ensures LabelOf(i) == Caption(i) && (i.Shape? ==> NameOf(i) == Called(i))
  {
    if i.Shape? {
      match i.kind
      case Rect =>
      case Ellipse =>
      case Cylinder =>
      case Diamond =>
      case _ =>
    }
  }

  /** The items at the places of `ps`. */
  predicate PickedAt(kept: seq<Item>, items: seq<Item>, ps: seq<nat>) {
    |kept| == |ps| && forall k :: 0 <= k < |kept| ==> ps[k] < |items| && kept[k] == items[ps[k]]
  }

  lemma ComponentsAt(items: seq<Item>)
    ensures PickedAt(Filter(items, IsComponent), items, Places(items, IsBox))
  {
    forall i: Item {
      SameKinds(i);
    }
    Picks(items, IsComponent, IsBox);
  }

  lemma ArrowsAt(items: seq<Item>)
    ensures PickedAt(Filter(items, IsArrow), items, Places(items, Connects))
  {
    forall i: Item {
      SameKinds(i);
    }
    Picks(items, IsArrow, Connects);
  }

  lemma NotesAt(items: seq<Item>)
    ensures PickedAt(Filter(items, IsAnnotation), items, Places(items, IsNote))
  {
    forall i: Item {
      SameKinds(i);
    }
    Picks(items, IsAnnotation, IsNote);
  }

  lemma StrokesAt(items: seq<Item>)
    ensures PickedAt(Filter(items, IsPen), items, Places(items, IsStroke))
  {
    forall i: Item {
      SameKinds(i);
    }
    Picks(items, IsPen, IsStroke);
  }

  // ---------- Arrows ----------

  lemma FourTimes(p: Point, i: Item)
    requires i.Shape?
    ensures FourSquares(p, i) == 4.0 * SquaredDist(p, CenterOf(i))
    ensures Near(p, i) == WithinReach(i, p)
  {
    var dx, dy := p.x - CenterOf(i).x, p.y - CenterOf(i).y;
    assert 2.0 * p.x - TwiceX(i) == 2.0 * dx && 2.0 * p.y - TwiceY(i) == 2.0 * dy;
    assert (2.0 * dx) * (2.0 * dx) == 4.0 * (dx * dx) && (2.0 * dy) * (2.0 * dy) == 4.0 * (dy * dy);
  }

  lemma NotFarther(items: seq<Item>, p: Point, i: nat, j: nat)
    requires NearestBox(items, p, i) && j < |items| && IsBox(items[j])
    ensures SquaredDist(p, CenterOf(items[i])) <= SquaredDist(p, CenterOf(items[j]))
    ensures j < i ==> SquaredDist(p, CenterOf(items[i])) < SquaredDist(p, CenterOf(items[j]))
  {
    hide FourSquares, SquaredDist, CenterOf;
    FourTimes(p, items[i]);
    FourTimes(p, items[j]);
  }

  lemma NearestAmong(items: seq<Item>, components: seq<Item>, ps: seq<nat>, p: Point, k: nat)
    requires PickedAt(components, items, ps) && k < |ps| && NearestBox(items, p, ps[k])
    requires forall j :: 0 <= j < |ps| ==> ps[j] < |items| && IsBox(items[ps[j]])
    requires forall j :: 0 <= j < k ==> ps[j] < ps[k]
    ensures forall j :: 0 <= j < |components| ==> components[j].Shape?
    ensures FirstNearest(components, p, k)
  {
    hide SquaredDist, CenterOf, NearestBox;
    forall j | 0 <= j < |components|
      ensures SquaredDist(p, Centers(components)[k]) <= SquaredDist(p, Centers(components)[j])
      ensures j < k ==> SquaredDist(p, Centers(components)[k]) < SquaredDist(p, Centers(components)[j])
    {
      NotFarther(items, p, ps[k], ps[j]);
    }
  }

  lemma EndIsNearest(items: seq<Item>, components: seq<Item>, ps: seq<nat>, p: Point, i: nat)
    requires ps == Places(items, IsBox) && PickedAt(components, items, ps) && NearestBox(items, p, i)
    ensures forall k :: 0 <= k < |components| ==> components[k].Shape?
    ensures Attached(components, p) == if Near(p, items[i]) then Some(Called(items[i])) else None
  {
    hide NearestBox, FirstNearest, Attached, Near, WithinReach, NameOf, Called, Places;
    NearestIsBox(items, p, i);
    var k := PlaceOf(items, i);
    NearestAmong(items, components, ps, p, k);
    AttachedToFirstNearest(components, p, k);
    FourTimes(p, items[i]);
    SameKinds(items[i]);
  }

  lemma ArrowLineSays(items: seq<Item>, components: seq<Item>, a: Item)
    requires components == Filter(items, IsComponent) && a.Shape?
    ensures ArrowSays(items, a, ArrowLine(components, a))
  {
    hide Attached, NearestBox, Near, Called, Caption, LabelOf, Filter, Places, IsBox;
    ComponentsAt(items);
    SameKinds(a);
    var start, end, ps := Point(a.x1, a.y1), Point(a.x2, a.y2), Places(items, IsBox);
    if NoBox(items) {
      if components != [] {
        SomeBox(items);
      }
      NothingAttached(start);
      NothingAttached(end);
    }
    forall i: nat, j: nat | NearestBox(items, start, i) && NearestBox(items, end, j)
      ensures i < |items| && j < |items| && items[i].Shape? && items[j].Shape?
      ensures ArrowLine(components, a) ==
        if Near(start, items[i]) && Near(end, items[j])
        then Connection(Called(items[i]), a.kind == Arrow2, Called(items[j]), Caption(a))
        else LooseArrow(a.kind, Caption(a))
    {
      NearestIsBox(items, start, i);
      NearestIsBox(items, end, j);
      EndIsNearest(items, components, ps, start, i);
      EndIsNearest(items, components, ps, end, j);
    }
  }

  lemma NearestIsBox(items: seq<Item>, p: Point, i: nat)
    requires NearestBox(items, p, i)
    ensures i < |items| && items[i].Shape? && IsBox(items[i])
  {
  }

  lemma SomeBox(items: seq<Item>)
    requires Filter(items, IsComponent) != []
    ensures !NoBox(items)
  {
    hide Filter;
    ComponentsAt(items);
    assert IsBox(items[Places(items, IsBox)[0]]);
  }

  lemma NothingAttached(p: Point)
    ensures Attached([], p) == None
  {
  }

  // ---------- Components ----------

  lemma {:induction false} LeastIs(xs: seq<real>, k: nat)
    requires k < |xs| && forall i :: 0 <= i < |xs| ==> xs[k] <= xs[i]
    ensures Least(xs) == xs[k]
  {
    var n := |xs| - 1;
    if n > 0 && k < n {
      LeastIs(xs[..n], k);
    } else if n > 0 {
      BetweenExtremes(xs, k);
      LeastIsThere(xs);
    }
  }

  lemma {:induction false} LeastIsThere(xs: seq<real>)
    requires xs != []
    ensures exists i :: 0 <= i < |xs| && xs[i] == Least(xs)
  {
    var n := |xs| - 1;
    if n == 0 {
      assert xs[0] == Least(xs);
    } else {
      LeastIsThere(xs[..n]);
      var i :| 0 <= i < n && xs[..n][i] == Least(xs[..n]);
      assert xs[i] == Least(xs[..n]);
      assert Least(xs) == xs[i] || Least(xs) == xs[n];
    }
  }

  lemma {:induction false} GreatestIs(xs: seq<real>, k: nat)
    requires k < |xs| && forall i :: 0 <= i < |xs| ==> xs[i] <= xs[k]
    ensures Greatest(xs) == xs[k]
  {
    var n := |xs| - 1;
    if n > 0 && k < n {
      GreatestIs(xs[..n], k);
    } else if n > 0 {
      BetweenExtremes(xs, k);
      GreatestIsThere(xs);
    }
  }

  lemma {:induction false} GreatestIsThere(xs: seq<real>)
    requires xs != []
    ensures exists i :: 0 <= i < |xs| && xs[i] == Greatest(xs)
  {
    var n := |xs| - 1;
    if n == 0 {
      assert xs[0] == Greatest(xs);
    } else {
      GreatestIsThere(xs[..n]);
      var i :| 0 <= i < n && xs[..n][i] == Greatest(xs[..n]);
      assert xs[i] == Greatest(xs[..n]);
      assert Greatest(xs) == xs[i] || Greatest(xs) == xs[n];
    }
  }

  lemma QuotientBelow(u: real, w: real, t: real)
    requires w > 0.0
    ensures u / w < t <==> u < t * w
  {
    var q := u / w;
    var d := t - q;
    assert u == q * w;
    Distributes(t, q, d, w);
    if d > 0.0 {
      Positive(d, w, d * w);
    } else if d < 0.0 {
      Positive(-d, w, -(d * w));
    }
  }

  lemma Distributes(t: real, q: real, d: real, w: real)
    requires d == t - q
    ensures d * w == t * w - q * w && (-d) * w == -(d * w)
  {
  }

  /** A relative coordinate is in the third where the center stands. */
  lemma RelativeThird(c: real, lo: real, hi: real, twice: real, twiceLo: real, twiceHi: real)
    requires lo <= c <= hi && twice == 2.0 * c && twiceLo == 2.0 * lo && twiceHi == 2.0 * hi
    ensures var rel := Relative(c, lo, hi);
      Third(twice, twiceLo, twiceHi) == if rel < 0.33 then 0 else if rel < 0.67 then 1 else 2
  {
    var w := hi - lo;
    if w == 0.0 {
      assert Relative(c, lo, hi) == 0.0;
    } else {
      QuotientBelow(c - lo, w, 0.33);
      QuotientBelow(c - lo, w, 0.67);
    }
  }

  predicate Surround(cs: seq<Point>, l: nat, r: nat, t: nat, b: nat) {
    && l < |cs| && r < |cs| && t < |cs| && b < |cs|
    && forall k :: 0 <= k < |cs| ==> cs[l].x <= cs[k].x <= cs[r].x && cs[t].y <= cs[k].y <= cs[b].y
  }

  lemma BoundsAre(cs: seq<Point>, l: nat, r: nat, t: nat, b: nat)
    requires Surround(cs, l, r, t, b)
    ensures BoundsOf(cs) == Bounds(cs[l].x, cs[r].x, cs[t].y, cs[b].y)
  {
    hide Least, Greatest;
    LeastIs(Xs(cs), l);
    GreatestIs(Xs(cs), r);
    LeastIs(Ys(cs), t);
    GreatestIs(Ys(cs), b);
  }

  lemma CentersSurround(items: seq<Item>, components: seq<Item>, ps: seq<nat>, l: nat, r: nat, t: nat, b: nat)
    requires PickedAt(components, items, ps) && forall k :: 0 <= k < |ps| ==> ps[k] < |items| && IsBox(items[ps[k]])
    requires l < |ps| && r < |ps| && t < |ps| && b < |ps| && Outermost(items, ps[l], ps[r], ps[t], ps[b])
    ensures forall k :: 0 <= k < |components| ==> components[k].Shape?
    ensures Surround(Centers(components), l, r, t, b)
  {
    hide Outermost, CenterOf;
    var cs := Centers(components);
    forall k | 0 <= k < |cs|
      ensures cs[l].x <= cs[k].x <= cs[r].x && cs[t].y <= cs[k].y <= cs[b].y
    {
      BetweenOutermost(items, ps[k], ps[l], ps[r], ps[t], ps[b]);
    }
  }

  lemma BoundsAreOutermost(items: seq<Item>, components: seq<Item>, l: nat, r: nat, t: nat, b: nat)
    requires components == Filter(items, IsComponent) && Outermost(items, l, r, t, b)
    ensures (forall k :: 0 <= k < |components| ==> components[k].Shape?) && components != []
    ensures BoundsOf(Centers(components)) ==
      Bounds(CenterOf(items[l]).x, CenterOf(items[r]).x, CenterOf(items[t]).y, CenterOf(items[b]).y)
  {
    ComponentsAt(items);
    var ps := Places(items, IsBox);
    var kl := PlaceOf(items, l);
    var kr := PlaceOf(items, r);
    var kt := PlaceOf(items, t);
    var kb := PlaceOf(items, b);
    hide Filter, Places, BoundsOf, Outermost, CenterOf, Surround;
    CentersSurround(items, components, ps, kl, kr, kt, kb);
    BoundsAre(Centers(components), kl, kr, kt, kb);
  }

  lemma PlaceOf(items: seq<Item>, i: nat) returns (k: nat)
    requires i < |items| && IsBox(items[i])
    ensures k < |Places(items, IsBox)| && Places(items, IsBox)[k] == i
  {
    assert i in Places(items, IsBox);
    k :| k < |Places(items, IsBox)| && Places(items, IsBox)[k] == i;
  }

  lemma BetweenOutermost(items: seq<Item>, i: nat, l: nat, r: nat, t: nat, b: nat)
    requires Outermost(items, l, r, t, b) && i < |items| && IsBox(items[i])
    ensures CenterOf(items[l]).x <= CenterOf(items[i]).x <= CenterOf(items[r]).x
    ensures CenterOf(items[t]).y <= CenterOf(items[i]).y <= CenterOf(items[b]).y
  {
  }

  lemma ComponentLineSays(items: seq<Item>, components: seq<Item>, k: nat)
    requires components == Filter(items, IsComponent) && k < |components|
    ensures components[k].Shape? && BoxSays(items, components[k], ComponentLine(components[k], BoardBounds(components)))
  {
    hide Filter, Places, Relative, Third, Caption, LabelOf, BoundsOf;
    var c := components[k];
    ComponentsAt(items);
    SameKinds(c);
    var i: nat := Places(items, IsBox)[k];
    forall l: nat, r: nat, t: nat, b: nat | Outermost(items, l, r, t, b)
      ensures l < |items| && r < |items| && t < |items| && b < |items|
      ensures IsBox(items[l]) && IsBox(items[r]) && IsBox(items[t]) && IsBox(items[b])
      ensures ComponentLine(c, BoardBounds(components)) == Component(c.kind, Caption(c), Position(
        [Top, Middle, Bottom][Third(TwiceY(c), TwiceY(items[t]), TwiceY(items[b]))],
        [Left, Center, Right][Third(TwiceX(c), TwiceX(items[l]), TwiceX(items[r]))]))
    {
      BoundsAreOutermost(items, components, l, r, t, b);
      BetweenOutermost(items, i, l, r, t, b);
      RelativeThird(CenterOf(c).x, CenterOf(items[l]).x, CenterOf(items[r]).x,
                    TwiceX(c), TwiceX(items[l]), TwiceX(items[r]));
      RelativeThird(CenterOf(c).y, CenterOf(items[t]).y, CenterOf(items[b]).y,
                    TwiceY(c), TwiceY(items[t]), TwiceY(items[b]));
    }
  }

  // ---------- The whole description ----------

  /** A heading stands over lines, and only over lines. */
  function Under(heading: DescLine, lines: seq<DescLine>): seq<DescLine> {
    if lines == [] then [] else [heading] + lines
  }

  /**
   What describeBoardItems says of a drawing with shapes: in the order of the items one line for each component, one for
   each arrow and one for each text that is not blank, and how many strokes there are.
   */
  lemma DescriptionSays(items: seq<Item>) returns (boxes: seq<DescLine>, arrows: seq<DescLine>, notes: seq<DescLine>)
    requires exists i :: 0 <= i < |items| && items[i].Shape?
    ensures var strokes := |Places(items, IsStroke)|;
      Describe(items) == Some(
        [BoardHeading] + Under(ComponentsHeading, boxes) + Under(ConnectionsHeading, arrows)
        + Under(AnnotationsHeading, notes) + (if strokes > 0 then [Strokes(strokes)] else []) + [ClosingRemark])
    ensures var ps := Places(items, IsBox);
      |boxes| == |ps| && forall k :: 0 <= k < |ps| ==> BoxSays(items, items[ps[k]], boxes[k])
    ensures var ps := Places(items, Connects);
      |arrows| == |ps| && forall k :: 0 <= k < |ps| ==> ArrowSays(items, items[ps[k]], arrows[k])
    ensures var ps := Places(items, IsNote);
      |notes| == |ps| && forall k :: 0 <= k < |ps| ==> notes[k] == Annotation(Caption(items[ps[k]]))
  {
    hide Filter, Places, BoxSays, ArrowSays, ArrowLine, ComponentLine, BoardBounds, Caption, LabelOf;
    var components := Filter(items, IsComponent);
    ComponentsAt(items);
    ArrowsAt(items);
    NotesAt(items);
    StrokesAt(items);
    ShapesRemain(items);
    boxes := ComponentLines(components, BoardBounds(components));
    arrows := ArrowLines(components, Filter(items, IsArrow));
    notes := NoteLines(Filter(items, IsAnnotation));
    forall k | 0 <= k < |boxes|
      ensures BoxSays(items, components[k], boxes[k])
    {
      ComponentLineSays(items, components, k);
    }
    forall k | 0 <= k < |arrows|
      ensures ArrowSays(items, Filter(items, IsArrow)[k], arrows[k])
    {
      ArrowLineSays(items, components, Filter(items, IsArrow)[k]);
    }
    forall k | 0 <= k < |notes|
      ensures notes[k] == Annotation(Caption(Filter(items, IsAnnotation)[k]))
    {
      SameKinds(Filter(items, IsAnnotation)[k]);
    }
  }

  lemma ShapesRemain(items: seq<Item>)
    ensures Filter(items, IsShape) != [] <==> exists i :: 0 <= i < |items| && items[i].Shape?
  {
    FilterPlaces(items, IsShape);
    hide Filter, Places;
    var ps := Places(items, IsShape);
    if ps != [] {
      assert items[ps[0]].Shape?;
    }
    if i :| 0 <= i < |items| && items[i].Shape? {
      assert i in ps;
    }
  }

  /** An empty board has no description, and one with strokes alone only their number. */
  lemma NothingToSay(items: seq<Item>)
    requires forall i :: 0 <= i < |items| ==> items[i].Pen?
    ensures Describe(items) == if items == [] then None else Some([BoardHeading, OnlyStrokes(|items|)])
  {
    ShapesRemain(items);
    AllKept(items);
  }

  lemma {:induction false} AllKept(items: seq<Item>)
    requires forall i :: 0 <= i < |items| ==> items[i].Pen?
    ensures Filter(items, IsPen) == items
  {
    if items != [] {
      AllKept(items[..|items| - 1]);
    }
  }
}
