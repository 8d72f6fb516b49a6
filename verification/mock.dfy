/** The mock display: merges the bw and red planes into one simulated colour image. */
module MockDisplay {
  import opened Widgets

  datatype Rgb = Rgb(r: Byte, g: Byte, b: Byte)

  const RED: Rgb := Rgb(255, 0, 0)
  const BLACK: Rgb := Rgb(0, 0, 0)
  const WHITE: Rgb := Rgb(255, 255, 255)

  /** The mock's advertised resolution. */
  const MOCK_WIDTH: nat := 800
  const MOCK_HEIGHT: nat := 480

  /**
   * The mock is exactly the size of the widgets' canvas, so `Display` accepts
   * precisely the planes that have the shape of `blank()`.
   */
  lemma MockMatchesCanvas(b: Bitmap)
    ensures HasSize(b, MOCK_WIDTH, MOCK_HEIGHT) <==> IsCanvas(b)
  {
  }

  /** One output pixel: red ink wins over black ink, which wins over white paper. */
  function MergePixel(bw: Byte, red: Byte): (c: Rgb)
    ensures c == RED <==> red != UNSET
    ensures c == BLACK <==> red == UNSET && bw != UNSET
    ensures c == WHITE <==> red == UNSET && bw == UNSET
  {
    if red != UNSET then RED
    else if bw != UNSET then BLACK
    else WHITE
  }

  /** The output palette has exactly three colours. */
  lemma MergeUsesThreeColours(bw: Byte, red: Byte)
    ensures MergePixel(bw, red) in {RED, BLACK, WHITE}
    ensures RED != BLACK && BLACK != WHITE && RED != WHITE
  {
  }

  /**
   * The pixel loop of `MockEPD.display`: starting from a white image, every pixel
   * is set from the two planes' pixels at the same position, and from nothing else.
   */
  method Display(bw: Bitmap, red: Bitmap) returns (combined: seq<seq<Rgb>>)
    requires HasSize(bw, MOCK_WIDTH, MOCK_HEIGHT) && HasSize(red, MOCK_WIDTH, MOCK_HEIGHT)
    ensures |combined| == MOCK_HEIGHT
    ensures forall y :: 0 <= y < MOCK_HEIGHT ==> |combined[y]| == MOCK_WIDTH
    ensures forall y, x :: 0 <= y < MOCK_HEIGHT && 0 <= x < MOCK_WIDTH ==>
              combined[y][x] == MergePixel(bw[y][x], red[y][x])
  {
    combined := seq(MOCK_HEIGHT, _ => seq(MOCK_WIDTH, _ => WHITE));
    var y := 0;
    while y < MOCK_HEIGHT
      invariant 0 <= y <= MOCK_HEIGHT
      invariant |combined| == MOCK_HEIGHT
      invariant forall r :: 0 <= r < MOCK_HEIGHT ==> |combined[r]| == MOCK_WIDTH
      invariant forall r, c :: 0 <= r < y && 0 <= c < MOCK_WIDTH ==>
                  combined[r][c] == MergePixel(bw[r][c], red[r][c])
    {
      var x := 0;
      while x < MOCK_WIDTH
        invariant 0 <= x <= MOCK_WIDTH
        invariant |combined| == MOCK_HEIGHT
        invariant forall r :: 0 <= r < MOCK_HEIGHT ==> |combined[r]| == MOCK_WIDTH
        invariant forall r, c :: 0 <= r < y && 0 <= c < MOCK_WIDTH ==>
                    combined[r][c] == MergePixel(bw[r][c], red[r][c])
        invariant forall c :: 0 <= c < x ==> combined[y][c] == MergePixel(bw[y][c], red[y][c])
      {
        var pixel: Rgb;
        if red[y][x] != UNSET {
          pixel := RED;
        } else if bw[y][x] != UNSET {
          pixel := BLACK;
        } else {
          pixel := WHITE;
        }
        combined := combined[y := combined[y][x := pixel]];
        x := x + 1;
      }
      y := y + 1;
    }
  }
}
