/**
 The description of the whiteboard given to the interviewer model (frontend/lib/contextDescription.ts), over exact
 reals. A description is a list of lines; their fixed wording is left out.
 */
module Board {
  import opened Options
  import opened Drawing
  import opened Fractions
  import opened Strings

  datatype Column = Left | Center | Right
  datatype Row = Top | Middle | Bottom

  /** Where a component stands on the board; the source prints it as one of nine phrases. */
  datatype Position = Position(row: Row, column: Column)

  /** What a connected component is called: its label in quotes, or its kind. */
  datatype Name = Label(text: string) | KindName(kind: Kind)

  /** One line of the description; a heading or a closing remark has a fixed wording. */
  datatype DescLine =
    | BoardHeading
    | ComponentsHeading
    | ConnectionsHeading
    | AnnotationsHeading
    | ClosingRemark
    | Component(kind: Kind, caption: string, position: Position)
    | Connection(from: Name, twoWay: bool, to: Name, caption: string)
    | LooseArrow(kind: Kind, caption: string)
    | Annotation(text: string)
    | Strokes(count: nat)
    | OnlyStrokes(count: nat)

  const CONNECT_PX := 120.0

  // ---------- The code ----------

  predicate IsComponent(i: Item) {
    i.Shape? && i.kind !in {Arrow, Arrow2, Line, TextLabel}
  }

  predicate IsArrow(i: Item) {
    i.Shape? && i.kind in {Arrow, Arrow2}
  }

  predicate IsPen(i: Item) {
    i.Pen?
  }

  predicate IsShape(i: Item) {
    i.Shape?
  }

  /** The trimmed text of a shape, empty if it has none. */
  function LabelOf(i: Item): string {
    if i.Shape? && i.text.Some? then Trim(i.text.value, IsSpace) else ""
  }

  predicate IsAnnotation(i: Item) {
    i.Shape? && i.kind == TextLabel && LabelOf(i) != ""
  }

  function Filter(items: seq<Item>, keep: Item -> bool): (r: seq<Item>)
    ensures forall i :: 0 <= i < |r| ==> keep(r[i]) && r[i] in items
  {
    if items == [] then [] else
    Filter(items[..|items| - 1], keep) + if keep(items[|items| - 1]) then [items[|items| - 1]] else []
  }

  /** centerOf. */
  function CenterOf(i: Item): Point
    requires i.Shape?
  {
    Point((i.x1 + i.x2) / 2.0, (i.y1 + i.y2) / 2.0)
  }

  datatype Bounds = Bounds(minX: real, maxX: real, minY: real, maxY: real)

  function Least(xs: seq<real>): real
    requires xs != []
  {
    if |xs| == 1 then xs[0] else Min(Least(xs[..|xs| - 1]), xs[|xs| - 1])
  }

  function Greatest(xs: seq<real>): real
    requires xs != []
  {
    if |xs| == 1 then xs[0] else Max(Greatest(xs[..|xs| - 1]), xs[|xs| - 1])
  }

  function Xs(cs: seq<Point>): seq<real> {
    seq(|cs|, i requires 0 <= i < |cs| => cs[i].x)
  }

  function Ys(cs: seq<Point>): seq<real> {
    seq(|cs|, i requires 0 <= i < |cs| => cs[i].y)
  }

  /** The box around the centers. */
  function BoundsOf(cs: seq<Point>): Bounds
    requires cs != []
  {
    Bounds(Least(Xs(cs)), Greatest(Xs(cs)), Least(Ys(cs)), Greatest(Ys(cs)))
  }

  /** A width of 0 is replaced by 1. */
  function OrOne(w: real): real {
    if w == 0.0 then 1.0 else w
  }

  function Relative(c: real, lo: real, hi: real): real {
    (c - lo) / OrOne(hi - lo)
  }

  /** gridPos. */
  function GridPos(c: Point, b: Bounds): Position {
    var rx := Relative(c.x, b.minX, b.maxX);
    var ry := Relative(c.y, b.minY, b.maxY);
    Position(if ry < 0.33 then Top else if ry < 0.67 then Middle else Bottom,
             if rx < 0.33 then Left else if rx < 0.67 then Center else Right)
  }

  /** The square of dist; comparing squares is comparing distances. */
  function SquaredDist(p: Point, q: Point): real {
    (p.x - q.x) * (p.x - q.x) + (p.y - q.y) * (p.y - q.y)
  }

  /** The head of the components stably sorted by distance: the first of the nearest. */
  function Nearest(cs: seq<Point>, p: Point): (best: nat)
    requires cs != []
    ensures best < |cs|
    ensures forall i :: 0 <= i < |cs| ==> SquaredDist(p, cs[best]) <= SquaredDist(p, cs[i])
    ensures forall i :: 0 <= i < best ==> SquaredDist(p, cs[best]) < SquaredDist(p, cs[i])
  {
    var n := |cs| - 1;
    if n == 0 then 0 else
    var best := Nearest(cs[..n], p);
    assert forall i :: 0 <= i < n ==> cs[..n][i] == cs[i];
    if SquaredDist(p, cs[n]) < SquaredDist(p, cs[best]) then n else best
  }

  /** Every shape's center; only shapes reach this. */
  function Centers(items: seq<Item>): (cs: seq<Point>)
    requires forall i :: 0 <= i < |items| ==> items[i].Shape?
    ensures |cs| == |items|
  {
    seq(|items|, i requires 0 <= i < |items| => CenterOf(items[i]))
  }

  function NameOf(i: Item): Name
    requires i.Shape?
  {
    if LabelOf(i) != "" then Label(LabelOf(i)) else KindName(i.kind)
  }

  /** What an arrow's end is attached to: the nearest component if it is within reach. */
  function Attached(components: seq<Item>, p: Point): Option<Name>
    requires forall i :: 0 <= i < |components| ==> components[i].Shape?
  {
    if components == [] then None else
    var cs := Centers(components);
    var best := Nearest(cs, p);
    if SquaredDist(p, cs[best]) > CONNECT_PX * CONNECT_PX then None else Some(NameOf(components[best]))
  }

  predicate WithinReach(i: Item, p: Point)
    requires i.Shape?
  {
    SquaredDist(p, CenterOf(i)) <= CONNECT_PX * CONNECT_PX
  }

  /** No component is nearer, and none before it is as near. */
  ghost predicate FirstNearest(components: seq<Item>, p: Point, k: nat)
    requires forall i :: 0 <= i < |components| ==> components[i].Shape?
  {
    var cs := Centers(components);
    && k < |cs|
    && (forall i :: 0 <= i < |cs| ==> SquaredDist(p, cs[k]) <= SquaredDist(p, cs[i]))
    && (forall i :: 0 <= i < k ==> SquaredDist(p, cs[k]) < SquaredDist(p, cs[i]))
  }

  /**
   An arrow's end is attached exactly when the first of the nearest components is within 120 pixels, and then to it.
   */
  lemma AttachedToFirstNearest(components: seq<Item>, p: Point, k: nat)
    requires forall i :: 0 <= i < |components| ==> components[i].Shape?
    requires FirstNearest(components, p, k)
    ensures Attached(components, p) == if WithinReach(components[k], p) then Some(NameOf(components[k])) else None
  {
    hide SquaredDist, CenterOf, NameOf;
    var best := Nearest(Centers(components), p);
    assert best == k;
  }

  function ComponentLine(i: Item, b: Bounds): DescLine
    requires i.Shape?
  {
    Component(i.kind, LabelOf(i), GridPos(CenterOf(i), b))
  }

  function ArrowLine(components: seq<Item>, a: Item): DescLine
    requires a.Shape? && forall i :: 0 <= i < |components| ==> components[i].Shape?
  {
    var from, to := Attached(components, Point(a.x1, a.y1)), Attached(components, Point(a.x2, a.y2));
    if from.Some? && to.Some? then Connection(from.value, a.kind == Arrow2, to.value, LabelOf(a))
    else LooseArrow(a.kind, LabelOf(a))
  }

  /** With no component no line uses the bounds; the source then puts fixed ones. */
  function BoardBounds(components: seq<Item>): Bounds
    requires forall i :: 0 <= i < |components| ==> components[i].Shape?
  {
    if components == [] then Bounds(0.0, 800.0, 0.0, 500.0) else BoundsOf(Centers(components))
  }

  function ComponentLines(components: seq<Item>, b: Bounds): seq<DescLine>
    requires forall i :: 0 <= i < |components| ==> components[i].Shape?
  {
    seq(|components|, i requires 0 <= i < |components| => ComponentLine(components[i], b))
  }

  function ArrowLines(components: seq<Item>, arrows: seq<Item>): seq<DescLine>
    requires forall i :: 0 <= i < |components| ==> components[i].Shape?
    requires forall i :: 0 <= i < |arrows| ==> arrows[i].Shape?
  {
    seq(|arrows|, i requires 0 <= i < |arrows| => ArrowLine(components, arrows[i]))
  }

  function NoteLines(notes: seq<Item>): seq<DescLine> {
    seq(|notes|, i requires 0 <= i < |notes| => Annotation(LabelOf(notes[i])))
  }

  /** A heading stands only over lines. */
  function Headed(heading: DescLine, lines: seq<DescLine>): seq<DescLine> {
    if lines == [] then [] else [heading] + lines
  }

  function StrokeLines(pens: nat): seq<DescLine> {
    if pens > 0 then [Strokes(pens)] else []
  }

  /** describeBoardItems. */
  function Describe(items: seq<Item>): Option<seq<DescLine>> {
    if items == [] then None
    else if Filter(items, IsShape) == [] then Some([BoardHeading, OnlyStrokes(|Filter(items, IsPen)|)]) else
    var components := Filter(items, IsComponent);
    Some([BoardHeading]
         + Headed(ComponentsHeading, ComponentLines(components, BoardBounds(components)))
         + Headed(ConnectionsHeading, ArrowLines(components, Filter(items, IsArrow)))
         + Headed(AnnotationsHeading, NoteLines(Filter(items, IsAnnotation)))
         + StrokeLines(|Filter(items, IsPen)|)
         + [ClosingRemark])
  }

  method PushComponents(lines: seq<DescLine>, components: seq<Item>, bounds: Bounds) returns (out: seq<DescLine>)
    requires forall i :: 0 <= i < |components| ==> components[i].Shape?
    ensures out == lines + Headed(ComponentsHeading, ComponentLines(components, bounds))
  {
    out := lines;
    if |components| == 0 {
      return;
    }
    out := out + [ComponentsHeading];
    ghost var all := ComponentLines(components, bounds);
    for k := 0 to |components|
      invariant out == lines + [ComponentsHeading] + all[..k]
    {
      out := out + [ComponentLine(components[k], bounds)];
    }
  }

  method PushArrows(lines: seq<DescLine>, components: seq<Item>, arrows: seq<Item>) returns (out: seq<DescLine>)
    requires forall i :: 0 <= i < |components| ==> components[i].Shape?
    requires forall i :: 0 <= i < |arrows| ==> arrows[i].Shape?
    ensures out == lines + Headed(ConnectionsHeading, ArrowLines(components, arrows))
  {
    hide Attached;
    out := lines;
    if |arrows| == 0 {
      return;
    }
    out := out + [ConnectionsHeading];
    ghost var all := ArrowLines(components, arrows);
    for k := 0 to |arrows|
      invariant out == lines + [ConnectionsHeading] + all[..k]
    {
      out := out + [ArrowLine(components, arrows[k])];
    }
  }

  method PushNotes(lines: seq<DescLine>, notes: seq<Item>) returns (out: seq<DescLine>)
    ensures out == lines + Headed(AnnotationsHeading, NoteLines(notes))
  {
    out := lines;
    if |notes| == 0 {
      return;
    }
    out := out + [AnnotationsHeading];
    ghost var all := NoteLines(notes);
    for k := 0 to |notes|
      invariant out == lines + [AnnotationsHeading] + all[..k]
    {
      out := out + [Annotation(LabelOf(notes[k]))];
    }
  }

  /** describeBoardItems as the loops it consists of. */
  method DescribeBoardItems(items: seq<Item>) returns (lines: Option<seq<DescLine>>)
    ensures lines == Describe(items)
  {
    hide ComponentLines, ArrowLines, NoteLines, BoardBounds, Filter;
    if |items| == 0 {
      return None;
    }
    var shapes := Filter(items, IsShape);
    var pens := Filter(items, IsPen);
    if |shapes| == 0 {
      return Some([BoardHeading, OnlyStrokes(|pens|)]);
    }
    var components := Filter(items, IsComponent);
    var out := PushComponents([BoardHeading], components, BoardBounds(components));
    out := PushArrows(out, components, Filter(items, IsArrow));
    out := PushNotes(out, Filter(items, IsAnnotation));
    if |pens| > 0 {
      out := out + [Strokes(|pens|)];
    } else {
      assert out + StrokeLines(|pens|) == out;
    }
    out := out + [ClosingRemark];
    lines := Some(out);
  }

  // ---------- Moving and stretching the board ----------

  /** A change of both axes: x to a * x + b, y to c * y + d. */
  datatype Frame = Frame(a: real, b: real, c: real, d: real) {
    function X(x: real): real {
      a * x + b
    }

    function Y(y: real): real {
      c * y + d
    }

    function At(p: Point): Point {
      Point(X(p.x), Y(p.y))
    }

    function Of(i: Item): Item {
      match i
      case Shape(id, kind, x1, y1, x2, y2, text) =>
        Shape(id, kind, X(x1), Y(y1), X(x2), Y(y2), text)
      case Pen(id, points) => Pen(id, seq(|points|, k requires 0 <= k < |points| => At(points[k])))
    }

    function All(items: seq<Item>): (r: seq<Item>)
      ensures |r| == |items|
    {
      seq(|items|, k requires 0 <= k < |items| => Of(items[k]))
    }
  }

  lemma FrameKeepsKind(f: Frame, i: Item)
    ensures IsComponent(f.Of(i)) == IsComponent(i) && IsArrow(f.Of(i)) == IsArrow(i)
    ensures IsAnnotation(f.Of(i)) == IsAnnotation(i) && f.Of(i).Pen? == i.Pen? && LabelOf(f.Of(i)) == LabelOf(i)
    ensures i.Shape? ==> f.Of(i).kind == i.kind && CenterOf(f.Of(i)) == f.At(CenterOf(i))
  {
    if i.Shape? {
      Halve(f.a, f.b, i.x1, i.x2);
      Halve(f.c, f.d, i.y1, i.y2);
    }
  }

  lemma Halve(a: real, b: real, u: real, v: real)
    ensures (a * u + b + (a * v + b)) / 2.0 == a * ((u + v) / 2.0) + b
  {
  }

  lemma {:induction false} FilterCommutes(f: Frame, items: seq<Item>, keep: Item -> bool)
    requires forall i :: keep(f.Of(i)) == keep(i)
    ensures Filter(f.All(items), keep) == f.All(Filter(items, keep))
  {
    if items != [] {
      var n := |items| - 1;
      FilterCommutes(f, items[..n], keep);
      assert f.All(items)[..n] == f.All(items[..n]);
    }
  }

  ghost predicate Rising(g: real -> real) {
    forall u, v :: u <= v ==> g(u) <= g(v)
  }

  lemma {:induction false} ExtremesMove(g: real -> real, xs: seq<real>, ys: seq<real>)
    requires Rising(g) && |xs| == |ys| > 0 && forall i :: 0 <= i < |xs| ==> ys[i] == g(xs[i])
    ensures Least(ys) == g(Least(xs)) && Greatest(ys) == g(Greatest(xs))
  {
    if |xs| > 1 {
      var n := |xs| - 1;
      ExtremesMove(g, xs[..n], ys[..n]);
    }
  }

  lemma {:induction false} BetweenExtremes(xs: seq<real>, k: nat)
    requires k < |xs|
    ensures Least(xs) <= xs[k] <= Greatest(xs)
  {
    if k < |xs| - 1 {
      BetweenExtremes(xs[..|xs| - 1], k);
    }
  }

  lemma FrameRises(f: Frame)
    requires f.a > 0.0 && f.c > 0.0
    ensures Rising(x => f.X(x)) && Rising(y => f.Y(y))
  {
    forall u: real, v: real | u <= v
      ensures f.X(u) <= f.X(v) && f.Y(u) <= f.Y(v)
    {
      assert f.a * (v - u) >= 0.0 && f.c * (v - u) >= 0.0;
    }
  }

  lemma RelativeScaled(a: real, b: real, c: real, lo: real, hi: real, c': real, lo': real, hi': real)
    requires a > 0.0 && lo <= c <= hi
    requires c' == a * c + b && lo' == a * lo + b && hi' == a * hi + b
    ensures Relative(c', lo', hi') == Relative(c, lo, hi)
  {
    var w, u := hi - lo, c - lo;
    Stretched(a, b, lo, hi, lo', hi');
    Stretched(a, b, lo, c, lo', c');
    if w == 0.0 {
      assert u == 0.0;
    } else {
      Positive(a, w, hi' - lo');
      CancelFactor(a, u, w, c' - lo', hi' - lo');
    }
  }

  lemma RelativeKept(f: Frame, p: Point, b: Bounds)
    requires f.a > 0.0 && f.c > 0.0 && b.minX <= p.x <= b.maxX && b.minY <= p.y <= b.maxY
    ensures Relative(f.X(p.x), f.X(b.minX), f.X(b.maxX)) == Relative(p.x, b.minX, b.maxX)
    ensures Relative(f.Y(p.y), f.Y(b.minY), f.Y(b.maxY)) == Relative(p.y, b.minY, b.maxY)
  {
    hide Relative;
    RelativeScaled(f.a, f.b, p.x, b.minX, b.maxX, f.X(p.x), f.X(b.minX), f.X(b.maxX));
    RelativeScaled(f.c, f.d, p.y, b.minY, b.maxY, f.Y(p.y), f.Y(b.minY), f.Y(b.maxY));
  }

  lemma Stretched(a: real, b: real, u: real, v: real, u': real, v': real)
    requires u' == a * u + b && v' == a * v + b
    ensures v' - u' == a * (v - u)
  {
  }

  lemma CancelFactor(a: real, u: real, w: real, au: real, aw: real)
    requires w > 0.0 && aw > 0.0 && au == a * u && aw == a * w
    ensures au / aw == u / w
  {
    var q := u / w;
    assert u == q * w;
    assert au == q * aw;
  }

  /** Every component's relative position lies between 0 and 1. */
  lemma RelativeInRange(c: real, lo: real, hi: real)
    requires lo <= c <= hi
    ensures 0.0 <= Relative(c, lo, hi) <= 1.0
  {
    PartOfWhole(c - lo, OrOne(hi - lo));
  }

  /** Stretching and moving both axes leaves every component's phrase as it was. */
  lemma PositionsKept(f: Frame, cs: seq<Point>, ds: seq<Point>, k: nat)
    requires f.a > 0.0 && f.c > 0.0 && k < |cs|
    requires |ds| == |cs| && forall i :: 0 <= i < |cs| ==> ds[i] == f.At(cs[i])
    ensures GridPos(ds[k], BoundsOf(ds)) == GridPos(cs[k], BoundsOf(cs))
  {
    hide Least, Greatest, Relative, Frame.X, Frame.Y;
    FrameRises(f);
    ExtremesMove(x => f.X(x), Xs(cs), Xs(ds));
    ExtremesMove(y => f.Y(y), Ys(cs), Ys(ds));
    BetweenExtremes(Xs(cs), k);
    BetweenExtremes(Ys(cs), k);
    assert ds[k] == f.At(cs[k]);
    RelativeKept(f, cs[k], BoundsOf(cs));
  }

  /**
   The phrases mean what they say: the leftmost component is on the left, the rightmost on the right if they differ,
   the topmost at the top and the lowest at the bottom; a component alone is at the top left.
   */
  lemma ExtremePhrases(cs: seq<Point>, k: nat)
    requires k < |cs|
    ensures var p, b := GridPos(cs[k], BoundsOf(cs)), BoundsOf(cs);
      && (cs[k].x == b.minX ==> p.column == Left)
      && (cs[k].x == b.maxX > b.minX ==> p.column == Right)
      && (cs[k].y == b.minY ==> p.row == Top)
      && (cs[k].y == b.maxY > b.minY ==> p.row == Bottom)
      && (|cs| == 1 ==> p == Position(Top, Left))
  {
    var b := BoundsOf(cs);
    WholeWidth(b.maxX - b.minX);
    WholeWidth(b.maxY - b.minY);
  }

  lemma WholeWidth(w: real)
    ensures 0.0 / OrOne(w) == 0.0 && (w != 0.0 ==> w / OrOne(w) == 1.0)
  {
  }

  // ---------- Translation ----------

  function Translation(dx: real, dy: real): Frame {
    Frame(1.0, dx, 1.0, dy)
  }

  lemma DistanceKept(dx: real, dy: real, p: Point, q: Point)
    ensures SquaredDist(Translation(dx, dy).At(p), Translation(dx, dy).At(q)) == SquaredDist(p, q)
  {
    var f := Translation(dx, dy);
    assert f.X(p.x) - f.X(q.x) == p.x - q.x && f.Y(p.y) - f.Y(q.y) == p.y - q.y;
  }

  /** Moving a point and every component together keeps all distances, so the same component is nearest. */
  lemma {:induction false} NearestKept(dx: real, dy: real, cs: seq<Point>, ds: seq<Point>, p: Point)
    requires |ds| == |cs| > 0 && forall i :: 0 <= i < |cs| ==> ds[i] == Translation(dx, dy).At(cs[i])
    ensures Nearest(ds, Translation(dx, dy).At(p)) == Nearest(cs, p)
  {
    hide SquaredDist, Frame.At;
    if |cs| > 1 {
      var n := |cs| - 1;
      NearestKept(dx, dy, cs[..n], ds[..n], p);
      DistanceKept(dx, dy, p, cs[n]);
      DistanceKept(dx, dy, p, cs[Nearest(cs[..n], p)]);
    }
  }

  lemma CentersMove(f: Frame, items: seq<Item>)
    requires forall i :: 0 <= i < |items| ==> items[i].Shape?
    ensures var ds := Centers(f.All(items));
      |ds| == |items| && forall i :: 0 <= i < |items| ==> ds[i] == f.At(Centers(items)[i])
  {
    forall i | 0 <= i < |items|
      ensures Centers(f.All(items))[i] == f.At(Centers(items)[i])
    {
      FrameKeepsKind(f, items[i]);
    }
  }

  lemma AttachedKept(dx: real, dy: real, components: seq<Item>, p: Point)
    requires forall i :: 0 <= i < |components| ==> components[i].Shape?
    ensures Attached(Translation(dx, dy).All(components), Translation(dx, dy).At(p)) == Attached(components, p)
  {
    hide SquaredDist, Frame.At, Nearest, CenterOf;
    if components != [] {
      var f := Translation(dx, dy);
      var cs := Centers(components);
      CentersMove(f, components);
      NearestKept(dx, dy, cs, Centers(f.All(components)), p);
      var best := Nearest(cs, p);
      DistanceKept(dx, dy, p, cs[best]);
      FrameKeepsKind(f, components[best]);
    }
  }

  lemma ComponentLinesKept(f: Frame, components: seq<Item>)
    requires f.a > 0.0 && f.c > 0.0
    requires forall i :: 0 <= i < |components| ==> components[i].Shape?
    ensures ComponentLines(f.All(components), BoardBounds(f.All(components)))
            == ComponentLines(components, BoardBounds(components))
  {
    hide GridPos, BoundsOf, LabelOf, CenterOf, Frame.At;
    var moved := f.All(components);
    forall i | 0 <= i < |components|
      ensures ComponentLine(moved[i], BoardBounds(moved)) == ComponentLine(components[i], BoardBounds(components))
    {
      FrameKeepsKind(f, components[i]);
      CentersMove(f, components);
      PositionsKept(f, Centers(components), Centers(moved), i);
    }
  }

  lemma ArrowLinesKept(dx: real, dy: real, components: seq<Item>, arrows: seq<Item>)
    requires forall i :: 0 <= i < |components| ==> components[i].Shape?
    requires forall i :: 0 <= i < |arrows| ==> arrows[i].Shape?
    ensures var f := Translation(dx, dy);
      ArrowLines(f.All(components), f.All(arrows)) == ArrowLines(components, arrows)
  {
    hide Attached, LabelOf;
    var f := Translation(dx, dy);
    forall i | 0 <= i < |arrows|
      ensures ArrowLine(f.All(components), f.All(arrows)[i]) == ArrowLine(components, arrows[i])
    {
      var a := arrows[i];
      FrameKeepsKind(f, a);
      AttachedKept(dx, dy, components, Point(a.x1, a.y1));
      AttachedKept(dx, dy, components, Point(a.x2, a.y2));
    }
  }

  lemma NoteLinesKept(f: Frame, notes: seq<Item>)
    ensures NoteLines(f.All(notes)) == NoteLines(notes)
  {
    hide LabelOf;
    forall i | 0 <= i < |notes|
      ensures LabelOf(f.All(notes)[i]) == LabelOf(notes[i])
    {
      FrameKeepsKind(f, notes[i]);
    }
  }

  /** Moving the whole drawing leaves its description as it was. */
  lemma DescriptionTranslationInvariant(items: seq<Item>, dx: real, dy: real)
    ensures Describe(Translation(dx, dy).All(items)) == Describe(items)
  {
    hide Filter, ComponentLines, ArrowLines, NoteLines, BoardBounds, LabelOf;
    var f := Translation(dx, dy);
    forall i: Item {
      FrameKeepsKind(f, i);
    }
    FilterCommutes(f, items, IsComponent);
    FilterCommutes(f, items, IsArrow);
    FilterCommutes(f, items, IsAnnotation);
    FilterCommutes(f, items, IsPen);
    FilterCommutes(f, items, IsShape);
    ComponentLinesKept(f, Filter(items, IsComponent));
    ArrowLinesKept(dx, dy, Filter(items, IsComponent), Filter(items, IsArrow));
    NoteLinesKept(f, Filter(items, IsAnnotation));
  }
}
