/**
 * The vertical flip applied to each captured RGBA frame before it goes to
 * the GIF writer. glReadPixels delivers rows bottom-up, so the render loop
 * swaps row y with row height-1-y, pixel by pixel and channel by channel,
 * in place. A row of a frame holds width * 4 bytes.
 */
module Frame {

  newtype Byte = x: int | 0 <= x < 256

  /** Where row r starts, rows being R bytes long: r * R, counted row by row. */
  function RowStart(r: nat, R: nat): nat {
    if r == 0 then 0 else RowStart(r - 1, R) + R
  }

  lemma {:induction false} RowStartIsProduct(r: nat, R: nat)
    ensures RowStart(r, R) == r * R
  {
    if r > 0 {
      RowStartIsProduct(r - 1, R);
      assert (r - 1) * R + R == r * R;
    }
  }

  /** A later row starts at least a whole row further on. */
  lemma {:induction false} RowsApart(r: nat, r2: nat, R: nat)
    requires r < r2
    ensures RowStart(r, R) + R <= RowStart(r2, R)
    decreases r2
  {
    if r + 1 < r2 {
      RowsApart(r, r2 - 1, R);
    }
  }

  /** The position of byte c of row r, rows being R bytes long, in a buffer of H rows. */
  function Cell(r: int, c: int, R: nat, H: nat): (i: int)
    requires 0 <= r < H && 0 <= c < R
    ensures 0 <= i && i - c + R <= RowStart(H, R)
  {
    RowsApart(r, H, R);
    RowStart(r, R) + c
  }

  /** Distinct (row, column) pairs occupy distinct bytes. */
  lemma CellInjective(r: int, c: int, r2: int, c2: int, R: nat, H: nat)
    requires 0 <= r < H && 0 <= c < R && 0 <= r2 < H && 0 <= c2 < R
    ensures Cell(r, c, R, H) == Cell(r2, c2, R, H) <==> r == r2 && c == c2
  {
    if r < r2 {
      RowsApart(r, r2, R);
    } else if r2 < r {
      RowsApart(r2, r, R);
    }
  }

  /**
   * The rows of s, each R bytes long, in reverse order: the last row comes
   * first. A buffer of at most one row is its own flip.
   */
  function Flipped(s: seq<Byte>, R: nat): (t: seq<Byte>)
    ensures |t| == |s|
    decreases |s|
  {
    if R == 0 || |s| <= R then s
    else s[|s| - R..] + Flipped(s[..|s| - R], R)
  }

  /** A buffer of more than one row flips into its last row followed by the flip of the others. */
  lemma FlippedSplit(s: seq<Byte>, R: nat, H: nat)
    requires |s| == RowStart(H, R) && H > 1 && R > 0
    ensures Flipped(s, R) == s[RowStart(H - 1, R)..] + Flipped(s[..RowStart(H - 1, R)], R)
  {
    RowsApart(0, H - 1, R);
  }

  /** The first row of the flipped buffer is the last row of the original. */
  lemma FlippedTopRow(s: seq<Byte>, R: nat, H: nat, c: int)
    requires |s| == RowStart(H, R) && H > 1 && 0 <= c < R
    ensures Flipped(s, R)[c] == s[RowStart(H - 1, R) + c]
  {
    FlippedSplit(s, R, H);
  }

  /** Past the first row, the flipped buffer is the flip of the original without its last row. */
  lemma FlippedShift(s: seq<Byte>, R: nat, H: nat, i: int)
    requires |s| == RowStart(H, R) && H > 1 && R > 0
    requires 0 <= i < RowStart(H - 1, R)
    ensures Flipped(s, R)[R + i] == Flipped(s[..RowStart(H - 1, R)], R)[i]
  {
    FlippedSplit(s, R, H);
  }

  /** Byte c of row r of the flipped buffer is byte c of row H-1-r of the original. */
  lemma {:induction false} FlippedCell(s: seq<Byte>, R: nat, H: nat, r: int, c: int)
    requires |s| == RowStart(H, R)
    requires 0 <= r < H && 0 <= c < R
    ensures Flipped(s, R)[Cell(r, c, R, H)] == s[Cell(H - 1 - r, c, R, H)]
    decreases H
  {
    if H == 1 {
      assert Flipped(s, R) == s;
    } else if r == 0 {
      FlippedTopRow(s, R, H, c);
    } else {
      var k := RowStart(H - 1, R);
      var rest := s[..k];
      var i := Cell(r - 1, c, R, H - 1);
      var j := Cell(H - 1 - r, c, R, H);
      FlippedCell(rest, R, H - 1, r - 1, c);
      assert j == Cell(H - 1 - 1 - (r - 1), c, R, H - 1);
      FlippedShift(s, R, H, i);
      assert Flipped(s, R)[R + i] == rest[j];
    }
  }

  /** Every byte of a buffer of H rows of R bytes is some Cell(r, c). */
  lemma {:induction false} CellCovers(i: int, R: nat, H: nat) returns (r: int, c: int)
    requires 0 <= i < RowStart(H, R)
    ensures 0 <= r < H && 0 <= c < R && Cell(r, c, R, H) == i
    decreases H
  {
    var k := RowStart(H - 1, R);
    if i >= k {
      r, c := H - 1, i - k;
    } else {
      r, c := CellCovers(i, R, H - 1);
      assert Cell(r, c, R, H - 1) == Cell(r, c, R, H);
    }
  }

  /** A buffer that agrees with the mirrored original cell by cell is the flipped buffer. */
  lemma FlippedByCells(orig: seq<Byte>, cur: seq<Byte>, R: nat, H: nat)
    requires |orig| == RowStart(H, R) && |cur| == RowStart(H, R)
    requires forall r, c | 0 <= r < H && 0 <= c < R :: cur[Cell(r, c, R, H)] == orig[Cell(H - 1 - r, c, R, H)]
    ensures cur == Flipped(orig, R)
  {
    var t := Flipped(orig, R);
    forall i | 0 <= i < |cur|
      ensures cur[i] == t[i]
    {
      var r, c := CellCovers(i, R, H);
      FlippedCell(orig, R, H, r, c);
    }
  }

  /** Flipping a buffer of whole rows twice gives back the original buffer. */
  lemma FlipTwice(s: seq<Byte>, R: nat, H: nat)
    requires |s| == H * R
    ensures Flipped(Flipped(s, R), R) == s
  {
    RowStartIsProduct(H, R);
    var t := Flipped(s, R);
    forall r, c | 0 <= r < H && 0 <= c < R
      ensures s[Cell(r, c, R, H)] == t[Cell(H - 1 - r, c, R, H)]
    {
      FlippedCell(s, R, H, H - 1 - r, c);
    }
    FlippedByCells(t, s, R, H);
  }

  /** Flipping only reorders the bytes. */
  lemma {:induction false} FlipPermutes(s: seq<Byte>, R: nat)
    ensures multiset(Flipped(s, R)) == multiset(s)
    decreases |s|
  {
    if R > 0 && |s| > R {
      var k := |s| - R;
      assert s == s[..k] + s[k..];
      FlipPermutes(s[..k], R);
    }
  }

  /** Byte c of row r is settled after rows 0 .. y-1 and the first k bytes of row y are swapped. */
  predicate Done(r: int, c: int, H: int, y: int, k: int) {
    r < y || r > H - 1 - y || ((r == y || r == H - 1 - y) && c < k)
  }

  /** Every settled byte holds the mirrored original, every other byte its original. */
  ghost predicate Progress(orig: seq<Byte>, cur: seq<Byte>, R: nat, H: nat, y: int, k: int)
    requires |orig| == RowStart(H, R) && |cur| == RowStart(H, R)
  {
    forall r, c {:trigger cur[Cell(r, c, R, H)]} | 0 <= r < H && 0 <= c < R ::
      cur[Cell(r, c, R, H)]
        == if Done(r, c, H, y, k) then orig[Cell(H - 1 - r, c, R, H)] else orig[Cell(r, c, R, H)]
  }

  /**
   * Swapping byte k of row y with byte k of its mirror row settles one more
   * byte of both rows.
   */
  lemma SwapByte(orig: seq<Byte>, prev: seq<Byte>, R: nat, H: nat, y: int, k: int)
    requires |orig| == RowStart(H, R) && |prev| == RowStart(H, R)
    requires 0 <= y && y < H - 1 - y
    requires 0 <= k < R
    requires Progress(orig, prev, R, H, y, k)
    ensures var top := Cell(y, k, R, H);
            var bottom := Cell(H - 1 - y, k, R, H);
            Progress(orig, prev[top := prev[bottom]][bottom := prev[top]], R, H, y, k + 1)
  {
    var top := Cell(y, k, R, H);
    var bottom := Cell(H - 1 - y, k, R, H);
    var next := prev[top := prev[bottom]][bottom := prev[top]];
    assert prev[bottom] == orig[bottom] && prev[top] == orig[top];
    forall r, c {:trigger next[Cell(r, c, R, H)]} | 0 <= r < H && 0 <= c < R
      ensures next[Cell(r, c, R, H)]
        == if Done(r, c, H, y, k + 1) then orig[Cell(H - 1 - r, c, R, H)] else orig[Cell(r, c, R, H)]
    {
      CellInjective(r, c, y, k, R, H);
      CellInjective(r, c, H - 1 - y, k, R, H);
      var i := Cell(r, c, R, H);
      if i == top {
        assert r == y && c == k;
      } else if i == bottom {
        assert r == H - 1 - y && c == k;
      } else {
        assert next[i] == prev[i];
      }
    }
    assert Progress(orig, next, R, H, y, k + 1);
  }

  /**
   * The flip loop of the render loop, for a frame of the given size:
   * row y is swapped with row height-1-y for y < height / 2, four bytes per
   * pixel.
   */
  method FlipFrame(frame: array<Byte>, width: nat, height: nat)
    requires frame.Length == width * 4 * height
    modifies frame
    ensures frame[..] == Flipped(old(frame[..]), width * 4)
  {
    ghost var orig := frame[..];
    ghost var R := width * 4;
    RowStartIsProduct(height, R);
    var y := 0;
    while y < height / 2
      invariant 0 <= y <= height / 2
      invariant Progress(orig, frame[..], R, height, y, 0)
    {
      FlipRow(frame, width, height, y, orig);
      SettleRow(orig, frame[..], R, height, y);
      y := y + 1;
    }
    Finish(orig, frame[..], R, height);
  }

  /** The inner loop of the flip: every pixel of row y trades places with its mirror. */
  method FlipRow(frame: array<Byte>, width: nat, height: nat, y: nat, ghost orig: seq<Byte>)
    requires |orig| == RowStart(height, width * 4) && frame.Length == RowStart(height, width * 4)
    requires y < height / 2
    requires Progress(orig, frame[..], width * 4, height, y, 0)
    modifies frame
    ensures Progress(orig, frame[..], width * 4, height, y, width * 4)
  {
    var x := 0;
    while x < width
      invariant 0 <= x <= width
      invariant Progress(orig, frame[..], width * 4, height, y, 4 * x)
    {
      var topIndex := (y * width + x) * 4;
      var bottomIndex := ((height - y - 1) * width + x) * 4;
      PixelIndex(y, x, width, height);
      PixelIndex(height - 1 - y, x, width, height);
      SwapBytes(frame, topIndex, bottomIndex, orig, width * 4, height, y, 4 * x);
      SwapBytes(frame, topIndex + 1, bottomIndex + 1, orig, width * 4, height, y, 4 * x + 1);
      SwapBytes(frame, topIndex + 2, bottomIndex + 2, orig, width * 4, height, y, 4 * x + 2);
      SwapBytes(frame, topIndex + 3, bottomIndex + 3, orig, width * 4, height, y, 4 * x + 3);
      x := x + 1;
    }
  }

  /** The byte offset of pixel x of row y is byte 4x of that row. */
  lemma PixelIndex(y: int, x: int, width: nat, H: nat)
    requires 0 <= y < H && 0 <= x < width
    ensures (y * width + x) * 4 == Cell(y, 4 * x, width * 4, H)
  {
    RowStartIsProduct(y, width * 4);
    assert y * (width * 4) == (y * width) * 4;
  }

  /**
   * One std::swap of the flip loop: byte k of row y trades places with byte
   * k of the mirror row, and nothing else in the buffer changes.
   */
  method SwapBytes(frame: array<Byte>, i: int, j: int, ghost orig: seq<Byte>, ghost R: nat, ghost H: nat, ghost y: int, ghost k: int)
    requires |orig| == RowStart(H, R) && frame.Length == RowStart(H, R)
    requires 0 <= y && y < H - 1 - y && 0 <= k < R
    requires i == Cell(y, k, R, H) && j == Cell(H - 1 - y, k, R, H)
    requires Progress(orig, frame[..], R, H, y, k)
    modifies frame
    ensures frame[..] == old(frame[..])[i := old(frame[j])][j := old(frame[i])]
    ensures Progress(orig, frame[..], R, H, y, k + 1)
  {
    SwapByte(orig, frame[..], R, H, y, k);
    frame[i], frame[j] := frame[j], frame[i];
  }

  /** Once the whole of row y is swapped, the next row can start. */
  lemma SettleRow(orig: seq<Byte>, cur: seq<Byte>, R: nat, H: nat, y: int)
    requires |orig| == RowStart(H, R) && |cur| == RowStart(H, R)
    requires Progress(orig, cur, R, H, y, R)
    ensures Progress(orig, cur, R, H, y + 1, 0)
  {
    forall r, c | 0 <= r < H && 0 <= c < R
      ensures cur[Cell(r, c, R, H)]
        == if Done(r, c, H, y + 1, 0) then orig[Cell(H - 1 - r, c, R, H)] else orig[Cell(r, c, R, H)]
    {
      assert cur[Cell(r, c, R, H)]
        == if Done(r, c, H, y, R) then orig[Cell(H - 1 - r, c, R, H)] else orig[Cell(r, c, R, H)];
    }
  }

  /** With every row pair swapped, the buffer is the flipped original. */
  lemma Finish(orig: seq<Byte>, cur: seq<Byte>, R: nat, H: nat)
    requires |orig| == RowStart(H, R) && |cur| == RowStart(H, R)
    requires Progress(orig, cur, R, H, H / 2, 0)
    ensures cur == Flipped(orig, R)
  {
    forall r, c | 0 <= r < H && 0 <= c < R
      ensures cur[Cell(r, c, R, H)] == orig[Cell(H - 1 - r, c, R, H)]
    {
      if !Done(r, c, H, H / 2, 0) {
        assert r == H - 1 - r;
      }
    }
    FlippedByCells(orig, cur, R, H);
  }
}
