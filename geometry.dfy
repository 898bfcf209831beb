/** Pixel and tile geometry shared by the board, the movement engine and the ghosts.

    Positions are pixels; a tile is 8 pixels wide. The centre of tile (row r, column c)
    is the pixel (8 * c + 7, 8 * r + 5), which is why the source tests alignment with
    the offsets 15 and 13. */
module Geometry {

  /** The direction enumeration of pacman.cpp: RIGHT, LEFT, UP, DOWN and DEFAULT
      (ordinals 0 to 4). DEFAULT means "no direction". */
  datatype Direction = Right | Left | Up | Down | Default

  /** The 180-degree reversal of a direction; DEFAULT has none. */
  function Reverse(d: Direction): (r: Direction)
    ensures (r == Default) == (d == Default)
    ensures d != Default ==> r != d
  {
    match d
    case Right => Left
    case Left => Right
    case Up => Down
    case Down => Up
    case Default => Default
  }

  /** Reversing twice gives the direction back. */
  lemma ReverseInvolutive(d: Direction)
    ensures Reverse(Reverse(d)) == d
  {
  }

  /** C++ integer division by 8, which rounds toward zero (Dafny's `/` rounds down). */
  function Div8(a: int): (q: int)
    ensures 0 <= a ==> 8 * q <= a < 8 * q + 8
    ensures a < 0 ==> 8 * q - 8 < a <= 8 * q
  {
    if a >= 0 then a / 8 else -((-a) / 8)
  }

  /** C++ remainder of division by 8: it takes the sign of the dividend. It is zero
      exactly when the Euclidean remainder is zero. */
  function Rem8(a: int): (r: int)
    ensures -8 < r < 8
    ensures 0 <= a ==> 0 <= r
    ensures a < 0 ==> r <= 0
    ensures r == 0 <==> a % 8 == 0
  {
    var q := Div8(a);
    assert a < 0 ==> a + 8 * ((-a) / 8) == -((-a) % 8);
    a - 8 * q
  }

  /** `abs` from the C library, as the ghosts use it for Manhattan distances. */
  function Abs(n: int): (r: nat)
    ensures r == n || r == -n
  {
    if n > 0 then n else -n
  }

  /** The tile index of a pixel coordinate, `(coord - 4) / 8` in the source. Every pixel
      from -3 up to 11 falls in tile 0, because the division truncates toward zero; from
      pixel 4 up, each tile spans 8 pixels. */
  function TileIndex(coord: int): (r: int)
    ensures -3 <= coord <= 11 ==> r == 0
    ensures 4 <= coord ==> 8 * r + 4 <= coord < 8 * r + 12
    ensures coord < -3 ==> r < 0
  {
    Div8(coord - 4)
  }

  /** The horizontal half of the alignment test, `(x - 15) % 8 == 0`. The C++ remainder
      is zero exactly when the Euclidean one is (see `Rem8`), so either may be used. */
  predicate XAligned(x: int)
  {
    (x - 15) % 8 == 0
  }

  /** The vertical half of the alignment test, `(y - 13) % 8 == 0`. */
  predicate YAligned(y: int)
  {
    (y - 13) % 8 == 0
  }

  /** An entity stands exactly on a tile centre. */
  predicate Aligned(x: int, y: int)
  {
    XAligned(x) && YAligned(y)
  }

  /** A tile centre has odd pixel coordinates. */
  lemma AlignedIsOdd(x: int, y: int)
    ensures XAligned(x) ==> x % 2 == 1
    ensures YAligned(y) ==> y % 2 == 1
  {
    if XAligned(x) {
      OddCentre(x - 15);
    }
    if YAligned(y) {
      OddCentre(y - 13);
    }
  }

  lemma OddCentre(d: int)
    requires d % 8 == 0
    ensures (d + 15) % 2 == 1 && (d + 13) % 2 == 1
  {
    var k := d / 8;
    assert d == 8 * k;
    OddForm(4 * k + 7);
    OddForm(4 * k + 6);
  }

  lemma OddForm(m: int)
    ensures (2 * m + 1) % 2 == 1
  {
  }
}
