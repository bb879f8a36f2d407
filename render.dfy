/**
  `draw_array`: one byte buffer drawn as a single polyline across a 2D
  drawing context. Coordinates are exact rationals; the host computes them
  in floating point.

  The first vertex takes its height straight from the sample, every later
  vertex from `255 - sample` (the axis is inverted for all but the first
  vertex). The model keeps that asymmetry as it stands.
 */
module Render {

  type Byte = x: int | 0 <= x < 256

  /** A vertex of a path: (x, y) in pixels, y growing downwards. */
  type Point = (real, real)

  /**
    The drawing context of one canvas: its pixel size, the polylines stroked
    onto the surface since it was last cleared, and the subpaths of the path
    under construction. Line width and stroke colour are not modelled.
   */
  class Context2D {
    var width: nat
    var height: nat
    var image: seq<seq<Point>>
    var path: seq<seq<Point>>

    constructor (width: nat, height: nat)
      ensures this.width == width && this.height == height
      ensures image == [] && path == []
    {
      this.width := width;
      this.height := height;
      image := [];
      path := [];
    }

    /** `clearRect(0, 0, width, height)`: the whole surface is blank again. */
    method ClearSurface()
      modifies this
      ensures image == []
      ensures width == old(width) && height == old(height) && path == old(path)
    {
      image := [];
    }

    /** `beginPath()`: the current path is emptied. */
    method BeginPath()
      modifies this
      ensures path == []
      ensures width == old(width) && height == old(height) && image == old(image)
    {
      path := [];
    }

    /** `moveTo(x, y)`: a new subpath starts at (x, y). */
    method MoveTo(x: real, y: real)
      modifies this
      ensures path == old(path) + [[(x, y)]]
      ensures width == old(width) && height == old(height) && image == old(image)
    {
      path := path + [[(x, y)]];
    }

    /** `lineTo(x, y)`: the last subpath is extended to (x, y); with no subpath, one starts there. */
    method LineTo(x: real, y: real)
      modifies this
      ensures old(path) == [] ==> path == [[(x, y)]]
      ensures old(path) != [] ==> path == old(path)[..|old(path)| - 1] + [old(path)[|old(path)| - 1] + [(x, y)]]
      ensures width == old(width) && height == old(height) && image == old(image)
    {
      if path == [] {
        path := [[(x, y)]];
      } else {
        path := path[..|path| - 1] + [path[|path| - 1] + [(x, y)]];
      }
    }

    /** `stroke()`: the subpaths of the current path are drawn onto the surface. */
    method Stroke()
      modifies this
      ensures image == old(image) + path
      ensures width == old(width) && height == old(height) && path == old(path)
    {
      image := image + path;
    }
  }

  /** The x coordinate of vertex `i` of `count` across a surface `width` pixels wide. */
  function VertexX(i: nat, count: nat, width: nat): real
    requires count > 0
  {
    (i as real) * (width as real) / (count as real)
  }

  /** The y coordinate of vertex `i`: the sample itself for the first, its complement for the rest. */
  function VertexY(data: seq<Byte>, i: nat, height: nat): real
    requires i < |data|
  {
    if i == 0 then (data[0] as real) * (height as real) / 256.0
    else ((255 - data[i]) as real) * (height as real) / 256.0
  }

  /** The polyline `draw_array` traces for `data` on a `width` by `height` surface. */
  function Polyline(data: seq<Byte>, width: nat, height: nat): (line: seq<Point>)
    requires |data| > 0
    ensures |line| == |data|
  {
    seq(|data|, i requires 0 <= i < |data| => (VertexX(i, |data|, width), VertexY(data, i, height)))
  }

  /**
    `draw_array(data, context)`: clears the surface, then traces and strokes
    one polyline through the samples, stepping `x` by `width / |data|`.
    Whatever the surface showed before, afterwards it shows exactly that
    polyline, so drawing the same buffer again gives the same image.
    An empty buffer has no first sample: `moveTo` then receives a NaN
    coordinate, which a 2D context ignores, the loop does not run, and the
    stroke draws nothing, so the surface is left blank.
   */
  method DrawArray(data: seq<Byte>, ctx: Context2D)
    modifies ctx
    ensures ctx.width == old(ctx.width) && ctx.height == old(ctx.height)
    ensures |data| == 0 ==> ctx.image == [] && ctx.path == []
    ensures |data| > 0 ==> ctx.image == [Polyline(data, ctx.width, ctx.height)]
    ensures |data| > 0 ==> ctx.path == [Polyline(data, ctx.width, ctx.height)]
  {
    var width := ctx.width;
    var height := ctx.height;

    ctx.ClearSurface();
    ctx.BeginPath();

    if |data| > 0 {
      var dx := (width as real) / (|data| as real);
      ghost var line := Polyline(data, width, height);
      ctx.MoveTo(0.0, (data[0] as real) * (height as real) / 256.0);

      PolylineVertices(data, width, height, 0);
      assert line[..1] == [(0.0, (data[0] as real) * (height as real) / 256.0)];
      var i := 1;
      var x := dx;
      while i < |data|
        invariant 1 <= i <= |data|
        invariant x == (i as real) * dx
        invariant ctx.width == width && ctx.height == height
        invariant ctx.image == []
        invariant ctx.path == [line[..i]]
      {
        var y := ((255 - data[i]) as real) * (height as real) / 256.0;
        ctx.LineTo(x, y);
        assert line[i] == (x, y) by {
          PolylineVertices(data, width, height, i);
          assert (i as real) * dx == (i as real) * (width as real) / (|data| as real);
        }
        assert line[..i + 1] == line[..i] + [(x, y)];
        i, x := i + 1, x + dx;
      }
      assert line[..i] == line;
    }
    ctx.Stroke();
  }

  /** One vertex per sample, at the sample's position and height. */
  lemma PolylineVertices(data: seq<Byte>, width: nat, height: nat, i: nat)
    requires |data| > 0 && i < |data|
    ensures Polyline(data, width, height)[i].0 == (i as real) * (width as real) / (|data| as real)
    ensures i == 0 ==> Polyline(data, width, height)[i].1 == (data[0] as real) * (height as real) / 256.0
    ensures i > 0 ==> Polyline(data, width, height)[i].1 == ((255 - data[i]) as real) * (height as real) / 256.0
  {
  }

  /** On a surface of positive width the x coordinates strictly increase and stay left of the right edge. */
  lemma {:induction false} XStrictlyIncreasing(data: seq<Byte>, width: nat, height: nat, i: nat, j: nat)
    requires |data| > 0 && width > 0 && i < j < |data|
    ensures 0.0 <= Polyline(data, width, height)[i].0 < Polyline(data, width, height)[j].0 < width as real
  {
    var n := |data| as real;
    var w := width as real;
    var line := Polyline(data, width, height);
    assert line[i].0 == (i as real) * (w / n);
    assert line[j].0 == (j as real) * (w / n);
    assert w / n > 0.0;
    assert (j as real) * (w / n) < n * (w / n);
    assert n * (w / n) == w;
  }

  /** Every y coordinate lies between the top edge and 255/256 of the height. */
  lemma YBounds(data: seq<Byte>, width: nat, height: nat, i: nat)
    requires |data| > 0 && i < |data|
    ensures 0.0 <= Polyline(data, width, height)[i].1 <= 255.0 * (height as real) / 256.0
  {
    var h := height as real;
    var s := if i == 0 then data[0] as real else (255 - data[i]) as real;
    assert 0.0 <= s <= 255.0;
    assert Polyline(data, width, height)[i].1 == s * h / 256.0;
    assert s * h <= 255.0 * h;
  }

  /** The four samples 0, 85, 170, 255 on a 400 by 200 surface. */
  lemma RampExample()
    ensures Polyline([0, 85, 170, 255], 400, 200) == [(0.0, 0.0), (100.0, 132.8125), (200.0, 66.40625), (300.0, 0.0)]
  {
  }

  /** The same samples reversed: the first vertex is not inverted, the others are. */
  lemma ReversedRampExample()
    ensures Polyline([255, 170, 85, 0], 400, 200) == [(0.0, 199.21875), (100.0, 66.40625), (200.0, 132.8125), (300.0, 199.21875)]
  {
  }
}
