/**
 * The buffer transposer `vfb` / `vfb_rgb` / `vfb_rgba`: the source buffer,
 * read as an array of shape `(width, height, depth)`, has its first two axes
 * swapped and is flattened back into the caller's target buffer.  Depth is
 * 1 for `vfb`, 3 for `vfb_rgb` and 4 for `vfb_rgba`; channel order within a
 * pixel is kept.
 */
module Transposer {
  import opened Errors
  import opened Codec
  import opened VirtualMap

  /**
   * `out` is `src` with its first two axes swapped: cell `(col, row, k)` of the
   * output grid (`width` columns) holds cell `(row, col, k)` of the source
   * grid (`height` columns).
   */
  ghost predicate IsTransposeOf(out: seq<bv8>, src: seq<bv8>, width: nat, height: nat, depth: nat)
  {
    |src| == width * height * depth && |out| == width * height * depth &&
    forall col, row, k | 0 <= col < width && 0 <= row < height && 0 <= k < depth ::
      && LinearOffset(col, row, k, width, depth) < |out|
      && LinearOffset(row, col, k, height, depth) < |src|
      && out[LinearOffset(col, row, k, width, depth)] == src[LinearOffset(row, col, k, height, depth)]
  }

  /** The transpose as a value: every output offset copies the source offset the virtual mapper names. */
  function Transposed(src: seq<bv8>, width: nat, height: nat, depth: nat): (out: seq<bv8>)
    requires |src| == width * height * depth
    ensures IsTransposeOf(out, src, width, height, depth)
  {
    var out := seq(|src|, n requires 0 <= n < |src| =>
      CoordsInGrid(n, width, height, depth);
      src[SourceOffset(n, width, height, depth)]);
    forall col, row, k | 0 <= col < width && 0 <= row < height && 0 <= k < depth
      ensures && LinearOffset(col, row, k, width, depth) < |out|
              && LinearOffset(row, col, k, height, depth) < |src|
              && out[LinearOffset(col, row, k, width, depth)] == src[LinearOffset(row, col, k, height, depth)]
    {
      var n := LinearOffset(col, row, k, width, depth);
      LinearOffsetInGrid(col, row, k, width, height, depth);
      LinearOffsetInGrid(row, col, k, height, width, depth);
      CoordsInGrid(n, width, height, depth);
      assert out[n] == src[SourceOffset(n, width, height, depth)];
      SourceOffsetAt(col, row, k, width, height, depth);
    }
    out
  }

  /** The transpose is unique: whatever the target held before, only one result qualifies. */
  lemma {:induction false} TransposeUnique(out: seq<bv8>, src: seq<bv8>, width: nat, height: nat, depth: nat)
    requires IsTransposeOf(out, src, width, height, depth)
    ensures out == Transposed(src, width, height, depth)
  {
    var t := Transposed(src, width, height, depth);
    forall n | 0 <= n < |out| ensures out[n] == t[n] {
      CoordsInGrid(n, width, height, depth);
      var c := Coords(n, width, depth);
      LinearOffsetInGrid(c.x, c.y, c.z, width, height, depth);
    }
  }

  /** Transposing twice, with width and height exchanged the second time, gives back the source. */
  lemma {:induction false} TransposeTwice(src: seq<bv8>, width: nat, height: nat, depth: nat)
    requires |src| == width * height * depth
    ensures height * width * depth == |src|
    ensures Transposed(Transposed(src, width, height, depth), height, width, depth) == src
  {
    var t := Transposed(src, width, height, depth);
    var u := Transposed(t, height, width, depth);
    forall n | 0 <= n < |src| ensures u[n] == src[n] {
      CoordsInGrid(n, height, width, depth);
      var c := Coords(n, height, depth);
      LinearOffsetInGrid(c.y, c.x, c.z, width, height, depth);
      assert u[LinearOffset(c.x, c.y, c.z, height, depth)] == t[LinearOffset(c.y, c.x, c.z, width, depth)];
    }
  }

  /**
   * The virtual mapper agrees with the materialised transpose: output offset
   * `i` holds the source sample at `vmap_buffer(i, width, height, depth)`.
   */
  lemma {:induction false} VmapBufferAgrees(out: seq<bv8>, src: seq<bv8>, i: nat, width: nat, height: nat, depth: nat)
    requires IsTransposeOf(out, src, width, height, depth)
    requires i < |out| && IsU32(i) && IsU32(width) && IsU32(height) && IsU16(depth)
    ensures VmapBuffer(i, width, height, depth).Success?
    ensures var s := VmapBuffer(i, width, height, depth).value; s < |src| && out[i] == src[s]
  {
    CoordsInGrid(i, width, height, depth);
    TransposeUnique(out, src, width, height, depth);
  }

  /** In a 3 x 3 RGB transpose, output offset 3 (second pixel of the first row) comes from source offset 9. */
  lemma RgbRowSwapExample(out: seq<bv8>, src: seq<bv8>)
    requires IsTransposeOf(out, src, 3, 3, 3)
    ensures out[3] == src[9]
  {
    assert LinearOffset(1, 0, 0, 3, 3) == 3 && LinearOffset(0, 1, 0, 3, 3) == 9;
  }

  /**
   * One pass over the target: each target byte is copied from the source
   * offset the virtual mapper gives for it.
   */
  method TransposeInto(source: array<bv8>, target: array<bv8>, width: nat, height: nat, depth: nat)
    requires source != target
    requires source.Length == width * height * depth && target.Length == width * height * depth
    modifies target
    ensures target[..] == Transposed(old(source[..]), width, height, depth)
  {
    var n := 0;
    while n < target.Length
      invariant 0 <= n <= target.Length
      invariant forall m :: 0 <= m < n ==>
        (CoordsInGrid(m, width, height, depth);
         target[m] == source[SourceOffset(m, width, height, depth)])
    {
      CoordsInGrid(n, width, height, depth);
      target[n] := source[SourceOffset(n, width, height, depth)];
      n := n + 1;
    }
    assert target[..] == Transposed(source[..], width, height, depth);
  }

  /**
   * Shared entry: width and height are `unsigned int` and are converted,
   * width first, before any buffer is touched; on success the target buffer
   * holds the transpose and is returned.
   */
  method TransposeChecked(source: array<bv8>, target: array<bv8>, width: int, height: int, depth: nat)
    returns (r: Result<array<bv8>>)
    requires source != target
    requires IsU32(width) && IsU32(height) ==>
      source.Length == width * height * depth && target.Length == width * height * depth
    modifies target
    ensures !IsU32(width) ==> r == Failure(OverflowError(Width)) && unchanged(target)
    ensures IsU32(width) && !IsU32(height) ==> r == Failure(OverflowError(Height)) && unchanged(target)
    ensures IsU32(width) && IsU32(height) ==>
      r == Success(target) && target[..] == Transposed(old(source[..]), width, height, depth)
  {
    if !IsU32(width) {
      return Failure(OverflowError(Width));
    }
    if !IsU32(height) {
      return Failure(OverflowError(Height));
    }
    TransposeInto(source, target, width, height, depth);
    r := Success(target);
  }

  /** `vfb(source, target, width, height)`: one channel per pixel. */
  method Vfb(source: array<bv8>, target: array<bv8>, width: int, height: int) returns (r: Result<array<bv8>>)
    requires source != target
    requires IsU32(width) && IsU32(height) ==> source.Length == width * height && target.Length == width * height
    modifies target
    ensures !IsU32(width) ==> r == Failure(OverflowError(Width)) && unchanged(target)
    ensures IsU32(width) && !IsU32(height) ==> r == Failure(OverflowError(Height)) && unchanged(target)
    ensures IsU32(width) && IsU32(height) ==>
      r == Success(target) && IsTransposeOf(target[..], old(source[..]), width, height, 1)
  {
    r := TransposeChecked(source, target, width, height, 1);
  }

  /** `vfb_rgb(source, target, width, height)`: three channels per pixel. */
  method VfbRgb(source: array<bv8>, target: array<bv8>, width: int, height: int) returns (r: Result<array<bv8>>)
    requires source != target
    requires IsU32(width) && IsU32(height) ==> source.Length == width * height * 3 && target.Length == width * height * 3
    modifies target
    ensures !IsU32(width) ==> r == Failure(OverflowError(Width)) && unchanged(target)
    ensures IsU32(width) && !IsU32(height) ==> r == Failure(OverflowError(Height)) && unchanged(target)
    ensures IsU32(width) && IsU32(height) ==>
      r == Success(target) && IsTransposeOf(target[..], old(source[..]), width, height, 3)
  {
    r := TransposeChecked(source, target, width, height, 3);
  }

  /** `vfb_rgba(source, target, width, height)`: four channels per pixel. */
  method VfbRgba(source: array<bv8>, target: array<bv8>, width: int, height: int) returns (r: Result<array<bv8>>)
    requires source != target
    requires IsU32(width) && IsU32(height) ==> source.Length == width * height * 4 && target.Length == width * height * 4
    modifies target
    ensures !IsU32(width) ==> r == Failure(OverflowError(Width)) && unchanged(target)
    ensures IsU32(width) && !IsU32(height) ==> r == Failure(OverflowError(Height)) && unchanged(target)
    ensures IsU32(width) && IsU32(height) ==>
      r == Success(target) && IsTransposeOf(target[..], old(source[..]), width, height, 4)
  {
    r := TransposeChecked(source, target, width, height, 4);
  }
}
