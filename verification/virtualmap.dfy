/**
 * The virtual transpose mapper `vmap_buffer(i, width, height, depth)`: for an
 * offset `i` of the transposed buffer it gives the offset of the source
 * buffer that the materialised transpose copies there, without building
 * either buffer.
 */
module VirtualMap {
  import opened Errors
  import opened Codec
  import Arith

  /**
   * Output offset `i` is channel `k` of column `col` of row `row` of the
   * transposed grid (`width` columns); the source holds that sample at row
   * `col`, column `row` of a grid `height` columns wide.
   */
  function SourceOffset(i: nat, width: nat, height: nat, depth: nat): (s: nat)
    requires width > 0 && depth > 0
    ensures i < width * height * depth ==> s < width * height * depth
  {
    var row := i / (width * depth);
    var col := (i / depth) % width;
    var k := i % depth;
    var offset := LinearOffset(row, col, k, height, depth);
    if i < width * height * depth then
      Arith.DivDiv(i, width, depth);
      CoordsInGrid(i, width, height, depth);
      LinearOffsetInGrid(row, col, k, height, width, depth);
      offset
    else
      offset
  }

  /** The mapper decodes against the transposed shape and re-encodes against the source shape. */
  lemma {:induction false} SourceOffsetAt(col: nat, row: nat, k: nat, width: nat, height: nat, depth: nat)
    requires col < width && k < depth
    ensures SourceOffset(LinearOffset(col, row, k, width, depth), width, height, depth) ==
            LinearOffset(row, col, k, height, depth)
  {
    Arith.LayoutDecode(row, col, k, width, depth);
    LinearOffsetLayout(col, row, k, width, depth);
    LinearOffsetLayout(row, col, k, height, depth);
  }

  /** Mapping with width and height exchanged undoes the mapping: it is a permutation of the grid's offsets. */
  lemma {:induction false} SourceOffsetInverse(i: nat, width: nat, height: nat, depth: nat)
    requires i < width * height * depth
    ensures width > 0 && height > 0 && depth > 0
    ensures SourceOffset(SourceOffset(i, width, height, depth), height, width, depth) == i
  {
    CoordsInGrid(i, width, height, depth);
    var c := Coords(i, width, depth);
    SourceOffsetAt(c.x, c.y, c.z, width, height, depth);
    SourceOffsetAt(c.y, c.x, c.z, height, width, depth);
  }

  /**
   * `vmap_buffer(i, width, height, depth)`: i, width and height are
   * `unsigned int`, depth is `unsigned short`; `width * depth` and `depth`
   * are divisors.
   */
  function VmapBuffer(i: int, width: int, height: int, depth: int): (r: Result<nat>)
    ensures r.Success? <==> IsU32(i) && IsU32(width) && IsU32(height) && IsU16(depth) && width > 0 && depth > 0
    ensures !IsU32(i) ==> r == Failure(OverflowError(Index))
    ensures IsU32(i) && !IsU32(width) ==> r == Failure(OverflowError(Width))
    ensures IsU32(i) && IsU32(width) && !IsU32(height) ==> r == Failure(OverflowError(Height))
    ensures IsU32(i) && IsU32(width) && IsU32(height) && !IsU16(depth) ==> r == Failure(OverflowError(Depth))
    ensures IsU32(i) && IsU32(width) && IsU32(height) && IsU16(depth) && (width == 0 || depth == 0) ==>
      r == Failure(ZeroDivisionError)
    ensures r.Success? ==> r.value == SourceOffset(i, width, height, depth)
    ensures r.Success? && i < width * height * depth ==>
      r.value < width * height * depth &&
      var c := Coords(i, width, depth); r.value == LinearOffset(c.y, c.x, c.z, height, depth)
  {
    var args := [Arg(Index, i, U32_MAX), Arg(Width, width, U32_MAX), Arg(Height, height, U32_MAX),
                 Arg(Depth, depth, U16_MAX)];
    match FirstOverflow(args)
    case Some(p) =>
      assert !Fits(args[0]) ==> p == Index;
      assert Fits(args[0]) && !Fits(args[1]) ==> p == Width;
      assert Fits(args[0]) && Fits(args[1]) && !Fits(args[2]) ==> p == Height;
      Failure(OverflowError(p))
    case None =>
      assert Fits(args[0]) && Fits(args[1]) && Fits(args[2]) && Fits(args[3]);
      if width * depth == 0 then
        Failure(ZeroDivisionError)
      else
        var c := Coords(i, width, depth);
        SourceOffsetAt(c.x, c.y, c.z, width, height, depth);
        Success(SourceOffset(i, width, height, depth))
  }

  /** Output offset 3 of a 3 x 3 RGB grid is read from source offset 9: the first row/column swap. */
  lemma VmapBufferExample()
    ensures VmapBuffer(3, 3, 3, 3) == Success(9)
  {
    assert SourceOffset(3, 3, 3, 3) == 9;
    assert VmapBuffer(3, 3, 3, 3).Success?;
  }
}
