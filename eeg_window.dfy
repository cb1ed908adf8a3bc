/** The channel-by-time sample window of the BrainFlow demo
    (`EEGDataVisualizer.data_buffer`, a 2-D numpy array) and the three
    things done to it: picking the EEG rows out of a board chunk, sliding
    the window by a chunk, and resizing it while keeping its newest columns.

    A window is stored column by column (one column per sample time, one
    entry per channel) with its row count kept apart, so that a window of
    C channels and no samples yet still has C rows, as the numpy array
    `(C, 0)` does. */
module EegWindow {
  import opened PyText

  datatype Grid = Grid(height: nat, columns: seq<seq<real>>)

  predicate Rectangular(g: Grid)
  {
    forall j :: 0 <= j < |g.columns| ==> |g.columns[j]| == g.height
  }

  /** A numpy 2-D array: every column has one entry per row. */
  type Matrix = g: Grid | Rectangular(g) witness Grid(0, [])

  function Width(m: Matrix): nat
  {
    |m.columns|
  }

  function ZeroColumn(height: nat): seq<real>
  {
    seq(height, _ => 0.0)
  }

  function ZeroColumns(height: nat, count: nat): (cs: seq<seq<real>>)
    ensures |cs| == count
    ensures forall j :: 0 <= j < count ==> cs[j] == ZeroColumn(height)
  {
    seq(count, _ => ZeroColumn(height))
  }

  /** `np.zeros((height, width))`. */
  function Zeros(height: nat, width: nat): (m: Matrix)
    ensures m.height == height && Width(m) == width
  {
    Grid(height, ZeroColumns(height, width))
  }

  function Last<T>(n: nat, s: seq<T>): seq<T>
    requires n <= |s|
  {
    s[|s| - n..]
  }

  function Max(a: nat, b: nat): nat
  {
    if a < b then b else a
  }

  function Min(a: nat, b: nat): nat
  {
    if a < b then a else b
  }

  // ---------------------------------------------------------------------
  // Picking the EEG rows out of a board chunk

  predicate RowsInRange(board: Matrix, rows: seq<nat>)
  {
    forall i :: 0 <= i < |rows| ==> rows[i] < board.height
  }

  /** `board[rows, :]`: the listed rows in the listed order; numpy raises
      IndexError when a listed row is not in the board. */
  function SelectRows(board: Matrix, rows: seq<nat>): (r: Option<Matrix>)
    ensures r.None? <==> !RowsInRange(board, rows)
    ensures r.Some? ==> r.value.height == |rows| && Width(r.value) == Width(board)
    ensures r.Some? ==> forall j, i :: 0 <= j < Width(board) && 0 <= i < |rows| ==>
      r.value.columns[j][i] == board.columns[j][rows[i]]
  {
    if RowsInRange(board, rows) then
      Some(Grid(|rows|, seq(Width(board), j requires 0 <= j < Width(board) =>
        seq(|rows|, i requires 0 <= i < |rows| => board.columns[j][rows[i]]))))
    else None
  }

  /** Selecting every row of the board in order gives the board back. */
  lemma SelectAllRows(board: Matrix, rows: seq<nat>)
    requires |rows| == board.height
    requires forall i :: 0 <= i < |rows| ==> rows[i] == i
    ensures SelectRows(board, rows) == Some(board)
  {
    var r := SelectRows(board, rows).value;
    forall j | 0 <= j < Width(board)
      ensures r.columns[j] == board.columns[j]
    {
      assert |r.columns[j]| == |board.columns[j]|;
    }
    assert r.columns == board.columns;
  }

  // ---------------------------------------------------------------------
  // The slide of `timerEvent`

  /** `np.hstack((buf[:, k:], chunk))` with k the chunk's width: drop the
      chunk's width of leading columns, then append the chunk. hstack
      demands the same number of rows. */
  function Slide(buf: Matrix, chunk: Matrix): (r: Matrix)
    requires chunk.height == buf.height
    ensures r.height == buf.height
    ensures Width(r) == Max(Width(buf), Width(chunk))
    ensures r.columns == Last(Width(r), buf.columns + chunk.columns)
    ensures r.columns[Width(r) - Width(chunk)..] == chunk.columns
  {
    var kept := Slice(buf.columns, Width(chunk), Width(buf));
    var r: Matrix := Grid(buf.height, kept + chunk.columns);
    assert r.columns == Last(|r.columns|, buf.columns + chunk.columns) by {
      if Width(chunk) <= Width(buf) {
        assert kept == buf.columns[Width(chunk)..];
      }
    }
    r
  }

  /** The window after sliding by each chunk in turn. */
  function SlideAll(buf: Matrix, chunks: seq<Matrix>): Matrix
    requires forall c :: c in chunks ==> c.height == buf.height
    decreases |chunks|
  {
    if chunks == [] then buf else SlideAll(Slide(buf, chunks[0]), chunks[1..])
  }

  /** The columns of the chunks, one after the other. */
  function Stream(chunks: seq<Matrix>): seq<seq<real>>
    decreases |chunks|
  {
    if chunks == [] then [] else chunks[0].columns + Stream(chunks[1..])
  }

  /** Taking the last n of a + b and then appending c keeps the same last n
      as appending all of b + c to a. */
  lemma LastOfLast<T>(n: nat, a: seq<T>, b: seq<T>, c: seq<T>)
    requires n <= |a| + |b|
    ensures Last(n, Last(n, a + b) + c) == Last(n, a + (b + c))
  {
    var x := Last(n, a + b) + c;
    var y := a + (b + c);
    forall k | 0 <= k < n
      ensures Last(n, x)[k] == Last(n, y)[k]
    {
      var p := |x| - n + k;
      if p < n {
        assert x[p] == (a + b)[|a| + |b| - n + p];
      }
    }
  }

  /** A window fed chunks no wider than itself keeps its width and always
      shows the newest columns of everything it has seen. */
  lemma {:induction false} SlidesShowNewest(buf: Matrix, chunks: seq<Matrix>)
    requires forall c :: c in chunks ==> c.height == buf.height && Width(c) <= Width(buf)
    ensures Width(SlideAll(buf, chunks)) == Width(buf)
    ensures SlideAll(buf, chunks).columns == Last(Width(buf), buf.columns + Stream(chunks))
    decreases |chunks|
  {
    if chunks != [] {
      var next := Slide(buf, chunks[0]);
      assert chunks[0] in chunks;
      assert Width(next) == Width(buf);
      assert next.columns == Last(Width(buf), buf.columns + chunks[0].columns);
      assert forall c :: c in chunks[1..] ==> c in chunks;
      SlidesShowNewest(next, chunks[1..]);
      assert SlideAll(buf, chunks) == SlideAll(next, chunks[1..]);
      var a, b, c := buf.columns, chunks[0].columns, Stream(chunks[1..]);
      assert Stream(chunks) == b + c;
      LastOfLast(Width(buf), a, b, c);
    }
  }

  // ---------------------------------------------------------------------
  // The resize of `update_buffer_size`

  /** The evident intent of the resize: a window of the new width whose last
      min(W, size) columns are the old window's last ones, zeros before. */
  function KeepTail(buf: Matrix, size: nat): (r: Matrix)
    ensures r.height == buf.height && Width(r) == size
    ensures var m := Min(Width(buf), size);
      && r.columns[size - m..] == Last(m, buf.columns)
      && forall j :: 0 <= j < size - m ==> r.columns[j] == ZeroColumn(buf.height)
  {
    var m := Min(Width(buf), size);
    Grid(buf.height, ZeroColumns(buf.height, size - m) + buf.columns[Width(buf) - m..])
  }

  /** Resizing to the current width changes nothing. */
  lemma KeepTailSameWidth(buf: Matrix)
    ensures KeepTail(buf, Width(buf)) == buf
  {
    assert KeepTail(buf, Width(buf)).columns == buf.columns;
  }

  /** Growing a window and shrinking it back gives the window back. */
  lemma KeepTailGrowShrink(buf: Matrix, size: nat)
    requires Width(buf) <= size
    ensures KeepTail(KeepTail(buf, size), Width(buf)) == buf
  {
    var grown := KeepTail(buf, size);
    assert Last(Width(buf), grown.columns) == buf.columns;
    assert KeepTail(grown, Width(buf)).columns == buf.columns;
  }

  /** Shrinking in two steps is shrinking in one. */
  lemma KeepTailShrinkTwice(buf: Matrix, s1: nat, s2: nat)
    requires s2 <= s1 <= Width(buf)
    ensures KeepTail(KeepTail(buf, s1), s2) == KeepTail(buf, s2)
  {
    assert KeepTail(KeepTail(buf, s1), s2).columns == KeepTail(buf, s2).columns;
  }

  /** `update_buffer_size` as written, for an existing window:
      `new = zeros((C, size)); new[:, -m:] = buf[:, -m:]` with
      m = min(W, size). The two slices follow Python's bounds, so for m = 0
      both are whole rows (`-0` is `0`); numpy then assigns when the widths
      agree, broadcasts a source of width 1, and raises ValueError
      otherwise. */
  function ResizeAsWritten(buf: Matrix, size: nat): (r: Option<Matrix>)
    ensures r.Some? ==> r.value.height == buf.height && Width(r.value) == size
  {
    var m := Min(Width(buf), size);
    var target := SliceBound(-(m as int), size);
    var source := SliceBound(-(m as int), Width(buf));
    var zeros := ZeroColumns(buf.height, target);
    if size - target == Width(buf) - source then
      Some(Grid(buf.height, zeros + buf.columns[source..]))
    else if Width(buf) - source == 1 then
      Some(Grid(buf.height, zeros + seq(size - target, _ => buf.columns[source])))
    else None
  }

  /** The resize raises exactly when nothing is kept (m = 0) and the whole
      source row can neither be copied nor broadcast; otherwise it is the
      intended resize. */
  lemma ResizeAsWrittenCases(buf: Matrix, size: nat)
    ensures ResizeAsWritten(buf, size).None? <==>
      Min(Width(buf), size) == 0 && Width(buf) != size && Width(buf) != 1
    ensures ResizeAsWritten(buf, size).Some? ==> ResizeAsWritten(buf, size).value == KeepTail(buf, size)
  {
    var m := Min(Width(buf), size);
    if m > 0 {
      assert SliceBound(-(m as int), size) == size - m;
      assert SliceBound(-(m as int), Width(buf)) == Width(buf) - m;
    } else if Width(buf) == 1 && size == 0 {
      assert ResizeAsWritten(buf, size).value.columns == [];
    }
  }

  /** Finding, as written: a window with no columns yet (the first board
      chunk was empty) makes any later resize to a positive width raise;
      the intended resize is an all-zero window of the new width. */
  lemma EmptyWindowResizeRaises(height: nat, size: nat)
    requires size > 0
    ensures ResizeAsWritten(Zeros(height, 0), size).None?
    ensures KeepTail(Zeros(height, 0), size) == Zeros(height, size)
  {
    ResizeAsWrittenCases(Zeros(height, 0), size);
    assert KeepTail(Zeros(height, 0), size).columns == Zeros(height, size).columns;
  }
}
