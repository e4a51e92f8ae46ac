/** The items of the whiteboard, shared by the canvas and by the description of the board. */
module Drawing {
  import opened Options

  datatype Kind = Rect | Ellipse | Line | Arrow | Arrow2 | Cylinder | Diamond | TextLabel

  datatype Point = Point(x: real, y: real)

  /** Colour and stroke width are left out: nothing modelled here reads them. */
  datatype Item =
    | Shape(id: nat, kind: Kind, x1: real, y1: real, x2: real, y2: real, text: Option<string>)
    | Pen(id: nat, points: seq<Point>)

  function Min(a: real, b: real): real {
    if a <= b then a else b
  }

  function Max(a: real, b: real): real {
    if a >= b then a else b
  }
}
