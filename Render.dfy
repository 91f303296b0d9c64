/** The compositing renderer. For every moving layer it first promotes the
    next position to the current one (keeping the old current position as the
    last one), then repaints that layer's bounding box pixel by pixel, row by
    row: each pixel takes the colour of the first layer of the scene list whose
    shape covers it, or the background colour when none does. The display is
    modelled as the sequence of colours written to it. */
module Render {
  import opened Geometry
  import opened Scene

  /** What the renderer reads of a layer. */
  datatype LayerView = LayerView(shape: Shape, pos: Vec2, color: Color)

  function View(l: Layer): LayerView
    reads l
  {
    LayerView(l.shape, l.pos, l.color)
  }

  /** The scene list as the renderer sees it, in list order. */
  function Views(ls: seq<Layer>): seq<LayerView>
    reads ls
  {
    seq(|ls|, i requires 0 <= i < |ls| reads ls => View(ls[i]))
  }

  /** The bounding box of a layer at its current position. */
  function LayerBounds(l: Layer): Region
    reads l
  {
    l.shape.bounds(l.pos)
  }

  /** The bounding boxes of the moving layers, in list order. */
  function Boxes(ms: seq<MovLayer>): seq<Region>
    reads set m | m in ms :: m.layer
  {
    seq(|ms|, i requires 0 <= i < |ms| reads set m | m in ms :: m.layer => LayerBounds(ms[i].layer))
  }

  /** Whether layer `v` covers pixel `p`. */
  predicate Covers(v: LayerView, p: Vec2) {
    v.shape.contains(v.pos, p)
  }

  /** The colour of pixel `p`: that of the first layer of `scene` covering it,
      else `bg`. */
  function Probe(scene: seq<LayerView>, p: Vec2, bg: Color): Color {
    if scene == [] then bg
    else if Covers(scene[0], p) then scene[0].color
    else Probe(scene[1..], p, bg)
  }

  /** Number of columns, and of rows, of a region (0 when it is empty). */
  function Width(r: Region): nat {
    if r.botRight.x < r.topLeft.x then 0 else r.botRight.x - r.topLeft.x + 1
  }

  function Height(r: Region): nat {
    if r.botRight.y < r.topLeft.y then 0 else r.botRight.y - r.topLeft.y + 1
  }

  /** The colours of row `y`, columns `x0` to `x1` inclusive, left to right. */
  function RowColors(scene: seq<LayerView>, bg: Color, y: int, x0: int, x1: int): seq<Color>
    decreases x1 - x0
  {
    if x1 < x0 then [] else RowColors(scene, bg, y, x0, x1 - 1) + [Probe(scene, Vec2(x1, y), bg)]
  }

  /** The colours of the rows of `r` from its top row to row `y1`, top to bottom. */
  function BoxColors(scene: seq<LayerView>, bg: Color, r: Region, y1: int): seq<Color>
    decreases y1 - r.topLeft.y
  {
    if y1 < r.topLeft.y then []
    else BoxColors(scene, bg, r, y1 - 1) + RowColors(scene, bg, y1, r.topLeft.x, r.botRight.x)
  }

  /** The colours written when region `r` is repainted. */
  function Paint(scene: seq<LayerView>, bg: Color, r: Region): seq<Color> {
    BoxColors(scene, bg, r, r.botRight.y)
  }

  /** The colours written when the boxes are repainted one after another. */
  function Frame(scene: seq<LayerView>, boxes: seq<Region>, bg: Color): seq<Color> {
    if boxes == [] then []
    else Frame(scene, boxes[..|boxes| - 1], bg) + Paint(scene, bg, boxes[|boxes| - 1])
  }

  /** First match: a pixel covered by layer `i` and by no earlier layer takes
      layer `i`'s colour, whatever the later layers are. */
  lemma {:induction false} ProbeFirstMatch(scene: seq<LayerView>, p: Vec2, bg: Color, i: nat)
    requires i < |scene| && Covers(scene[i], p)
    requires forall j :: 0 <= j < i ==> !Covers(scene[j], p)
    ensures Probe(scene, p, bg) == scene[i].color
  {
    if i > 0 {
      assert !Covers(scene[0], p);
      ProbeFirstMatch(scene[1..], p, bg, i - 1);
    }
  }

  /** A pixel that no layer covers takes the background colour. */
  lemma {:induction false} ProbeNoMatch(scene: seq<LayerView>, p: Vec2, bg: Color)
    requires forall j :: 0 <= j < |scene| ==> !Covers(scene[j], p)
    ensures Probe(scene, p, bg) == bg
  {
    if scene != [] {
      assert !Covers(scene[0], p);
      ProbeNoMatch(scene[1..], p, bg);
    }
  }

  /** A row holds one colour per column, column `x0 + k` at index `k`. */
  lemma {:induction false} RowColorsAt(scene: seq<LayerView>, bg: Color, y: int, x0: int, x1: int)
    ensures |RowColors(scene, bg, y, x0, x1)| == if x1 < x0 then 0 else x1 - x0 + 1
    ensures forall k :: 0 <= k < |RowColors(scene, bg, y, x0, x1)| ==>
      RowColors(scene, bg, y, x0, x1)[k] == Probe(scene, Vec2(x0 + k, y), bg)
    decreases x1 - x0
  {
    if x0 <= x1 {
      RowColorsAt(scene, bg, y, x0, x1 - 1);
    }
  }

  lemma MulStep(a: int, w: int)
    ensures (a + 1) * w == a * w + w
  {
  }

  lemma MulMonotone(a: int, b: int, w: int)
    requires a <= b && 0 <= w
    ensures a * w <= b * w
  {
  }

  /** The rows painted so far hold one colour per pixel of those rows. */
  lemma {:induction false} BoxColorsLength(scene: seq<LayerView>, bg: Color, r: Region, y1: int)
    requires r.topLeft.y - 1 <= y1
    ensures |BoxColors(scene, bg, r, y1)| == (y1 - r.topLeft.y + 1) * Width(r)
    decreases y1 - r.topLeft.y
  {
    if r.topLeft.y <= y1 {
      BoxColorsLength(scene, bg, r, y1 - 1);
      RowColorsAt(scene, bg, y1, r.topLeft.x, r.botRight.x);
      MulStep(y1 - r.topLeft.y, Width(r));
    }
  }

  /** The pixel in row `i` below the top and column `k` from the left is at
      index `i * W + k` of the rows painted so far, `W` being the width. */
  lemma {:induction false} BoxColorsAt(scene: seq<LayerView>, bg: Color, r: Region, y1: int, i: int, k: int)
    requires 0 <= i <= y1 - r.topLeft.y && 0 <= k < Width(r)
    ensures i * Width(r) + k < |BoxColors(scene, bg, r, y1)|
    ensures BoxColors(scene, bg, r, y1)[i * Width(r) + k] == Probe(scene, Vec2(r.topLeft.x + k, r.topLeft.y + i), bg)
    decreases y1 - r.topLeft.y
  {
    var w := Width(r);
    var n := y1 - r.topLeft.y;
    var prev := BoxColors(scene, bg, r, y1 - 1);
    var row := RowColors(scene, bg, y1, r.topLeft.x, r.botRight.x);
    assert BoxColors(scene, bg, r, y1) == prev + row;
    BoxColorsLength(scene, bg, r, y1 - 1);
    RowColorsAt(scene, bg, y1, r.topLeft.x, r.botRight.x);
    assert |prev| == n * w && |row| == w;
    if i < n {
      BoxColorsAt(scene, bg, r, y1 - 1, i, k);
      MulStep(i, w);
      MulMonotone(i + 1, n, w);
    } else {
      assert (prev + row)[i * w + k] == row[k];
    }
  }

  /** Repainting region `r` writes exactly one colour per pixel of `r`, in
      row-major order from the top-left corner to the bottom-right corner
      inclusive, and the pixel `k` columns right of and `i` rows below the
      top-left corner gets the scene's first-match colour. */
  lemma PaintAt(scene: seq<LayerView>, bg: Color, r: Region, i: int, k: int)
    requires 0 <= i < Height(r) && 0 <= k < Width(r)
    ensures |Paint(scene, bg, r)| == Height(r) * Width(r)
    ensures i * Width(r) + k < |Paint(scene, bg, r)|
    ensures Paint(scene, bg, r)[i * Width(r) + k] == Probe(scene, Vec2(r.topLeft.x + k, r.topLeft.y + i), bg)
  {
    BoxColorsLength(scene, bg, r, r.botRight.y);
    BoxColorsAt(scene, bg, r, r.botRight.y, i, k);
  }

  /** Repainting an empty region writes nothing. */
  lemma PaintEmpty(scene: seq<LayerView>, bg: Color, r: Region)
    requires Height(r) == 0 || Width(r) == 0
    ensures Paint(scene, bg, r) == []
  {
    if Height(r) != 0 {
      BoxColorsLength(scene, bg, r, r.botRight.y);
    }
  }

  /** The colour of `pixel` by probing the scene list in order (the innermost
      loop of the renderer). */
  method ProbeLayers(layers: seq<Layer>, pixel: Vec2, bgColor: Color) returns (color: Color)
    ensures color == Probe(Views(layers), pixel, bgColor)
  {
    ghost var scene := Views(layers);
    color := bgColor;
    var j := 0;
    while j < |layers|
      invariant 0 <= j <= |layers| && color == bgColor
      invariant Probe(scene, pixel, bgColor) == Probe(scene[j..], pixel, bgColor)
    {
      if layers[j].shape.contains(layers[j].pos, pixel) {
        color := layers[j].color;
        assert scene[j..][0] == scene[j];
        break;
      }
      assert scene[j..][1..] == scene[j + 1..];
      j := j + 1;
    }
  }

  /** The colours of row `row`, columns `x0` to `x1` inclusive, left to right. */
  method PaintRow(layers: seq<Layer>, bgColor: Color, row: int, x0: int, x1: int) returns (out: seq<Color>)
    ensures out == RowColors(Views(layers), bgColor, row, x0, x1)
  {
    ghost var scene := Views(layers);
    out := [];
    var col := x0;
    while col <= x1
      invariant x0 <= col && (col <= x1 + 1 || col == x0)
      invariant out == RowColors(scene, bgColor, row, x0, col - 1)
    {
      var color := ProbeLayers(layers, Vec2(col, row), bgColor);
      out := out + [color];
      col := col + 1;
    }
  }

  /** The colours of region `bounds`, rows top to bottom. */
  method PaintRegion(layers: seq<Layer>, bgColor: Color, bounds: Region) returns (out: seq<Color>)
    ensures out == Paint(Views(layers), bgColor, bounds)
  {
    ghost var scene := Views(layers);
    out := [];
    var row := bounds.topLeft.y;
    while row <= bounds.botRight.y
      invariant bounds.topLeft.y <= row && (row <= bounds.botRight.y + 1 || row == bounds.topLeft.y)
      invariant out == BoxColors(scene, bgColor, bounds, row - 1)
    {
      var colors := PaintRow(layers, bgColor, row, bounds.topLeft.x, bounds.botRight.x);
      out := out + colors;
      row := row + 1;
    }
  }

  /** Second phase of the renderer: repaint the bounding box of every moving
      layer, in list order, rows top to bottom and columns left to right. */
  method PaintBoxes(movLayers: seq<MovLayer>, layers: seq<Layer>, bgColor: Color) returns (out: seq<Color>)
    ensures out == Frame(Views(layers), Boxes(movLayers), bgColor)
  {
    ghost var boxes := Boxes(movLayers);
    out := [];
    for i := 0 to |movLayers|
      invariant out == Frame(Views(layers), boxes[..i], bgColor)
    {
      var bounds := LayerBounds(movLayers[i].layer);
      var colors := PaintRegion(layers, bgColor, bounds);
      out := out + colors;
      assert boxes[..i + 1][..i] == boxes[..i];
    }
    assert boxes[..|movLayers|] == boxes;
  }

  /** First phase of the renderer: every moving layer takes its next position
      as its current one and remembers the previous current one as its last. */
  method SwapPositions(movLayers: seq<MovLayer>)
    requires DistinctLayers(movLayers)
    modifies (set m | m in movLayers :: m.layer)`pos, (set m | m in movLayers :: m.layer)`posLast
    ensures forall i :: 0 <= i < |movLayers| ==>
      movLayers[i].layer.posLast == old(movLayers[i].layer.pos) &&
      movLayers[i].layer.pos == old(movLayers[i].layer.posNext)
  {
    for i := 0 to |movLayers|
      invariant forall j :: 0 <= j < i ==>
        movLayers[j].layer.posLast == old(movLayers[j].layer.pos) &&
        movLayers[j].layer.pos == old(movLayers[j].layer.posNext)
      invariant forall j :: i <= j < |movLayers| ==>
        movLayers[j].layer.pos == old(movLayers[j].layer.pos)
    {
      var l := movLayers[i].layer;
      l.posLast := l.pos;
      l.pos := l.posNext;
    }
  }

  /** One redraw of a moving-layer list over the scene list: the position
      swap, then the repaint. The output is the first-match colour of every
      pixel of every moving layer's new bounding box; when no moving layer had
      a pending move, it is exactly what the same redraw would have produced
      before the swap, so redrawing an unchanged scene repeats the output. */
  method MovLayerDraw(movLayers: seq<MovLayer>, layers: seq<Layer>, bgColor: Color) returns (out: seq<Color>)
    requires DistinctLayers(movLayers)
    modifies (set m | m in movLayers :: m.layer)`pos, (set m | m in movLayers :: m.layer)`posLast
    ensures forall i :: 0 <= i < |movLayers| ==>
      movLayers[i].layer.posLast == old(movLayers[i].layer.pos) &&
      movLayers[i].layer.pos == old(movLayers[i].layer.posNext) &&
      movLayers[i].layer.posNext == old(movLayers[i].layer.posNext)
    ensures out == Frame(Views(layers), Boxes(movLayers), bgColor)
    ensures (forall i :: 0 <= i < |movLayers| ==> old(movLayers[i].layer.pos) == old(movLayers[i].layer.posNext)) ==>
      out == old(Frame(Views(layers), Boxes(movLayers), bgColor))
  {
    SwapPositions(movLayers);
    out := PaintBoxes(movLayers, layers, bgColor);
    if forall i :: 0 <= i < |movLayers| ==> old(movLayers[i].layer.pos) == old(movLayers[i].layer.posNext) {
      forall l | l in layers
        ensures l.pos == old(l.pos) && l.color == old(l.color)
      {
        if i :| 0 <= i < |movLayers| && movLayers[i].layer == l {
        }
      }
      assert Views(layers) == old(Views(layers));
      assert Boxes(movLayers) == old(Boxes(movLayers));
    }
  }
}
