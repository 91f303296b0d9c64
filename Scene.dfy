/** The scene: layers (positioned, coloured shapes with a double-buffered
    position) and moving layers (a layer paired with a velocity). The linked
    lists of the program become sequences whose order is the list order. */
module Scene {
  import opened Geometry

  /** A drawable shape instance. `pos` is what is on screen, `posNext` the
      position the simulation wants next, `posLast` the previous `pos`. */
  class Layer {
    const shape: Shape
    var pos: Vec2
    var posLast: Vec2
    var posNext: Vec2
    var color: Color

    constructor (shape: Shape, pos: Vec2, posLast: Vec2, posNext: Vec2, color: Color)
      ensures this.shape == shape && this.pos == pos && this.posLast == posLast
      ensures this.posNext == posNext && this.color == color
    {
      this.shape := shape;
      this.pos := pos;
      this.posLast := posLast;
      this.posNext := posNext;
      this.color := color;
    }
  }

  /** A layer taking part in the simulation, with its per-step velocity. */
  class MovLayer {
    const layer: Layer
    var velocity: Vec2

    constructor (layer: Layer, velocity: Vec2)
      ensures this.layer == layer && this.velocity == velocity
    {
      this.layer := layer;
      this.velocity := velocity;
    }
  }

  /** No layer is referenced by two entries of a moving-layer list. */
  predicate DistinctLayers(ms: seq<MovLayer>) {
    forall i, j :: 0 <= i < j < |ms| ==> ms[i].layer != ms[j].layer
  }
}
