/** Full-canvas bitmaps and the widget record layered by the compositor. */
module Widgets {
  import opened Wrappers

  /** One 8-bit pixel sample. */
  newtype Byte = b: int | 0 <= b < 256

  /** A bitmap as rows of pixels: `b[y][x]` is the pixel in column `x` of row `y`. */
  type Bitmap = seq<seq<Byte>>

  /** The display's canvas size. */
  const WIDTH: nat := 800
  const HEIGHT: nat := 480

  /** A white, unset pixel of a bilevel image. */
  const UNSET: Byte := 255

  predicate HasSize(b: Bitmap, width: nat, height: nat)
  {
    |b| == height && forall y :: 0 <= y < |b| ==> |b[y]| == width
  }

  /** A bitmap covering the whole display. */
  predicate IsCanvas(b: Bitmap)
  {
    HasSize(b, WIDTH, HEIGHT)
  }

  /** `blank()`: a new bilevel WIDTH x HEIGHT image filled with 255. */
  function Blank(): (b: Bitmap)
    ensures IsCanvas(b)
    ensures |b| * |b[0]| == WIDTH * HEIGHT == 384000
    ensures forall y, x :: 0 <= y < HEIGHT && 0 <= x < WIDTH ==> b[y][x] == UNSET
  {
    seq(HEIGHT, _ => seq(WIDTH, _ => UNSET))
  }

  /** A named layer pair with its stacking key (lower `z` is drawn first). */
  datatype Widget = Widget(name: string, z: int, bw: Bitmap, red: Bitmap)

  /** The dataclass constructor: a layer that is not supplied defaults to `blank()`. */
  function New(name: string, z: int, bw: Option<Bitmap>, red: Option<Bitmap>): (w: Widget)
    ensures w.name == name && w.z == z
    ensures bw.Some? ==> w.bw == bw.value
    ensures bw.None? ==> w.bw == Blank()
    ensures red.Some? ==> w.red == red.value
    ensures red.None? ==> w.red == Blank()
  {
    Widget(name, z,
           match bw case Some(b) => b case None => Blank(),
           match red case Some(r) => r case None => Blank())
  }

  /** A widget built from a name and `z` alone is two unset full canvases. */
  lemma DefaultLayersAreBlank(name: string, z: int)
    ensures var w := New(name, z, None, None);
      && IsCanvas(w.bw) && IsCanvas(w.red)
      && forall y, x :: 0 <= y < HEIGHT && 0 <= x < WIDTH ==> w.bw[y][x] == UNSET && w.red[y][x] == UNSET
  {
  }
}
