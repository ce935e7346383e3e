/**
 * Non-linear facts about the row-major layout `(row * cols + col) * chans + ch`
 * that the solver does not find on its own.  Every index formula of the
 * library is an instance of this layout, so the codec, the virtual mapper
 * and the transposer all rest on the three lemmas below.
 */
module Arith {

  /** Division with remainder has exactly one solution. */
  lemma DivModUnique(n: int, d: int, q: int, r: int)
    requires d > 0 && 0 <= r < d && n == q * d + r
    ensures n / d == q && n % d == r
  {
    var q', r' := n / d, n % d;
    assert n == q' * d + r';
    assert (q - q') * d == r' - r;
    if q > q' {
      assert (q - q') * d >= d by { MulAtLeast(q - q', d); }
    } else if q < q' {
      assert (q' - q) * d >= d by { MulAtLeast(q' - q, d); }
    }
  }

  lemma MulAtLeast(a: int, d: int)
    requires a >= 1 && d > 0
    ensures a * d >= d
  {
    assert a * d == (a - 1) * d + d;
  }

  /** A cell of a `rows x cols x chans` grid lies inside the grid. */
  lemma LayoutBound(row: int, col: int, ch: int, rows: int, cols: int, chans: int)
    requires 0 <= row < rows && 0 <= col < cols && 0 <= ch < chans
    ensures 0 <= (row * cols + col) * chans + ch < rows * cols * chans
  {
    var cell := row * cols + col;
    assert 0 <= cell <= rows * cols - 1 by {
      assert row * cols <= (rows - 1) * cols by { MulMono(row, rows - 1, cols); }
      assert (rows - 1) * cols + cols == rows * cols;
    }
    assert cell * chans <= (rows * cols - 1) * chans by { MulMono(cell, rows * cols - 1, chans); }
    assert (rows * cols - 1) * chans + chans == rows * cols * chans;
  }

  /** Conversely, a cell whose offset lies inside the grid has its row inside the grid. */
  lemma LayoutRowBound(row: int, col: int, ch: int, rows: int, cols: int, chans: int)
    requires row >= 0 && col >= 0 && ch >= 0 && cols >= 0 && chans >= 0
    requires (row * cols + col) * chans + ch < rows * cols * chans
    ensures row < rows
  {
    if row >= rows {
      assert (row * cols + col) * chans >= row * cols * chans by {
        assert (row * cols + col) * chans == row * cols * chans + col * chans;
      }
      MulMono(rows, row, cols * chans);
    }
  }

  lemma MulMono(a: int, b: int, c: int)
    requires 0 <= a <= b && c >= 0
    ensures 0 <= a * c <= b * c
  {
    assert b * c == a * c + (b - a) * c;
  }

  /** Reading the layout back: the remainder and quotients recover channel, column and row. */
  lemma LayoutDecode(row: int, col: int, ch: int, cols: int, chans: int)
    requires 0 <= row && 0 <= col < cols && 0 <= ch < chans
    ensures var n := (row * cols + col) * chans + ch;
      n % chans == ch && (n / chans) % cols == col && (n / chans) / cols == row &&
      n / (cols * chans) == row
  {
    var n := (row * cols + col) * chans + ch;
    DivModUnique(n, chans, row * cols + col, ch);
    DivModUnique(row * cols + col, cols, row, col);
    assert n == row * (cols * chans) + (col * chans + ch);
    assert col * chans + ch < cols * chans by {
      MulMono(col, cols - 1, chans);
      assert (cols - 1) * chans + chans == cols * chans;
    }
    DivModUnique(n, cols * chans, row, col * chans + ch);
  }

  lemma DivAtMost(n: int, d: int)
    requires n >= 0 && d > 0
    ensures 0 <= n / d <= n
  {
    MulMono(1, d, n / d);
    assert n == n / d * d + n % d;
  }

  /** Dividing by `cols * chans` is dividing by `chans`, then by `cols`. */
  lemma DivDiv(n: int, cols: int, chans: int)
    requires n >= 0 && cols > 0 && chans > 0
    ensures n / (cols * chans) == (n / chans) / cols
  {
    LayoutSplit(n, cols, chans);
    LayoutDecode((n / chans) / cols, (n / chans) % cols, n % chans, cols, chans);
  }

  /** Every non-negative index is a cell of the layout, with the coordinates division gives. */
  lemma LayoutSplit(n: int, cols: int, chans: int)
    requires n >= 0 && cols > 0 && chans > 0
    ensures n / chans >= 0 && 0 <= (n / chans) % cols < cols && 0 <= n % chans < chans
    ensures n == ((n / chans) / cols * cols + (n / chans) % cols) * chans + n % chans
  {
  }
}
