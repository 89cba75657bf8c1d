/** Geometry of the grid mode of the log output: one bordered pane per
    command, two panes per row. Every quantity is a percentage of the
    terminal screen, kept as an exact rational rather than a float. */
module GridLayout {

  /** Position and size of one pane, in percent of the screen. */
  datatype Pane = Pane(left: real, width: real, top: real, height: real)

  /** The pane lies within the screen and is not degenerate. */
  predicate OnScreen(p: Pane)
  {
    0.0 <= p.left && 0.0 < p.width && p.left + p.width <= 100.0 &&
    0.0 <= p.top && 0.0 < p.height && p.top + p.height <= 100.0
  }

  /** The two panes share some area (their interiors intersect). */
  predicate Overlap(a: Pane, b: Pane)
  {
    a.left < b.left + b.width && b.left < a.left + a.width &&
    a.top < b.top + b.height && b.top < a.top + a.height
  }

  /** (x, y) is a point of the screen. */
  predicate OnScreenPoint(x: real, y: real)
  {
    0.0 <= x < 100.0 && 0.0 <= y < 100.0
  }

  /** The point (x, y) of the screen lies in the pane (left and top edges inclusive). */
  predicate Contains(p: Pane, x: real, y: real)
  {
    p.left <= x < p.left + p.width && p.top <= y < p.top + p.height
  }

  /** Number of grid rows for n commands: n halved and rounded up. */
  function NumberOfRows(n: nat): (rows: nat)
    ensures (n as real) / 2.0 <= rows as real < (n as real) / 2.0 + 1.0
  {
    (n + 1) / 2
  }

  /** Row of the pane at `index`: the index halved and rounded down. */
  function CommandRowNr(index: nat): (row: nat)
    ensures row as real <= (index as real) / 2.0 < row as real + 1.0
  {
    index / 2
  }

  /** Left edge: even indices take the left column, odd ones the right. */
  function LeftPosition(index: nat): (left: real)
    ensures left == 0.0 <==> index % 2 == 0
    ensures left == 50.0 <==> index % 2 == 1
  {
    if index % 2 == 0 then 0.0 else 50.0
  }

  /** Height shared by every pane; only computed once there is a command. */
  function RowHeight(n: nat): (height: real)
    requires n > 0
    ensures height > 0.0
    ensures height * NumberOfRows(n) as real == 100.0
  {
    100.0 / NumberOfRows(n) as real
  }

  /** Top edge of the pane at `index`: its row times the row height. */
  function TopPosition(index: nat, n: nat): (top: real)
    requires index < n
    ensures 0.0 <= top
    ensures top + RowHeight(n) <= 100.0
  {
    var row, height := CommandRowNr(index), RowHeight(n);
    StackedRows(row, NumberOfRows(n), height);
    row as real * height
  }

  /** The last pane of an odd number of commands spans both columns. */
  predicate IsFullWidth(index: nat, n: nat)
    ensures IsFullWidth(index, n) ==>
      index % 2 == 0 && CommandRowNr(index) == NumberOfRows(n) - 1
  {
    n == index + 1 && n % 2 != 0
  }

  /** Width of the pane at `index`: half the screen, or all of it for the full-width pane. */
  function BoxWidth(index: nat, n: nat): (width: real)
    ensures width == 100.0 || width == 50.0
    ensures LeftPosition(index) + width <= 100.0
  {
    if IsFullWidth(index, n) then 100.0 else 50.0
  }

  /** The pane given to the command at `index` out of n. */
  function Layout(index: nat, n: nat): (pane: Pane)
    requires index < n
    ensures OnScreen(pane)
  {
    Pane(LeftPosition(index), BoxWidth(index, n), TopPosition(index, n), RowHeight(n))
  }

  /** No other pane of the n shares the row of the pane at `index`. */
  predicate SoleOccupant(index: nat, n: nat)
  {
    forall j: nat :: j < n && j != index ==> CommandRowNr(j) != CommandRowNr(index)
  }

  /** Rows a below b end no lower than where b starts. */
  lemma StackedRows(a: nat, b: nat, h: real)
    requires a < b && h > 0.0
    ensures a as real * h + h <= b as real * h
  {
  }

  /** A pane in a higher row ends no lower than where a pane of a later row starts. */
  lemma RowAbove(i: nat, j: nat, n: nat)
    requires i < n && j < n && CommandRowNr(i) < CommandRowNr(j)
    ensures Layout(i, n).top + Layout(i, n).height <= Layout(j, n).top
  {
    var h := RowHeight(n);
    calc {
      Layout(i, n).top + Layout(i, n).height;
    ==
      CommandRowNr(i) as real * h + h;
    <=  { StackedRows(CommandRowNr(i), CommandRowNr(j), h); }
      CommandRowNr(j) as real * h;
    ==
      Layout(j, n).top;
    }
  }

  /** Every pane's row is below the row count, and the last pane sits in the last row:
      only ceil(n/2) rows of two columns are used. */
  lemma RowsUsed(index: nat, n: nat)
    requires index < n
    ensures CommandRowNr(index) < NumberOfRows(n)
    ensures CommandRowNr(n - 1) == NumberOfRows(n) - 1
  {
  }

  /** Even indices are in the left column (left 0%), odd ones in the right column (left 50%). */
  lemma ColumnByParity(index: nat, n: nat)
    requires index < n
    ensures Layout(index, n).left == 0.0 <==> index % 2 == 0
    ensures Layout(index, n).left == 50.0 <==> index % 2 == 1
  {
  }

  /** A pane is full width exactly when it is the last of an odd count, and half width
      otherwise; the full-width pane is therefore in the left column. */
  lemma FullWidthExactly(index: nat, n: nat)
    requires index < n
    ensures Layout(index, n).width == 100.0 <==> index == n - 1 && n % 2 == 1
    ensures Layout(index, n).width != 100.0 ==> Layout(index, n).width == 50.0
    ensures Layout(index, n).width == 100.0 ==> index % 2 == 0 && Layout(index, n).left == 0.0
  {
  }

  /** The full-width pane is exactly the one that is alone in its row, and that row is the last. */
  lemma {:induction false} FullWidthIsSoleOccupant(index: nat, n: nat)
    requires index < n
    ensures Layout(index, n).width == 100.0 <==> SoleOccupant(index, n)
    ensures Layout(index, n).width == 100.0 ==> CommandRowNr(index) == NumberOfRows(n) - 1
  {
    if IsFullWidth(index, n) {
      forall j: nat | j < n && j != index
        ensures CommandRowNr(j) != CommandRowNr(index)
      {
        assert j < index;
      }
    } else if index % 2 == 1 {
      assert CommandRowNr(index - 1) == CommandRowNr(index);
    } else {
      assert index + 1 < n;
      assert CommandRowNr(index + 1) == CommandRowNr(index);
    }
  }

  /** Two distinct panes never share any area. */
  lemma {:induction false} NoOverlap(i: nat, j: nat, n: nat)
    requires i < n && j < n && i != j
    ensures !Overlap(Layout(i, n), Layout(j, n))
  {
    var ri, rj := CommandRowNr(i), CommandRowNr(j);
    if ri < rj {
      RowAbove(i, j, n);
    } else if rj < ri {
      RowAbove(j, i, n);
    } else {
      // Same row: one index is 2r and the other 2r+1, so neither is the last of an odd count.
      var e, o := if i % 2 == 0 then i else j, if i % 2 == 0 then j else i;
      assert o == e + 1 && e % 2 == 0;
      assert !IsFullWidth(e, n);
      assert Layout(e, n).left + Layout(e, n).width <= Layout(o, n).left;
    }
  }

  /** Multiplying by a positive height keeps a strict order, in both directions. */
  lemma ScaleStrict(a: real, b: real, h: real)
    requires h > 0.0
    ensures a < b <==> a * h < b * h
  {
  }

  /** The row whose band of the screen holds the height y. */
  lemma RowOfPoint(y: real, n: nat) returns (r: nat)
    requires n > 0 && 0.0 <= y < 100.0
    ensures r < NumberOfRows(n)
    ensures r as real * RowHeight(n) <= y < r as real * RowHeight(n) + RowHeight(n)
  {
    var rows, h := NumberOfRows(n), RowHeight(n);
    var q := y / h;
    assert q * h == y;
    ScaleStrict(q, rows as real, h);
    ScaleStrict(q, (q.Floor + 1) as real, h);
    ScaleStrict(q.Floor as real, q, h);
    r := q.Floor;
    assert (r + 1) as real * h == r as real * h + h;
  }

  /** The panes leave no gap: every point of the screen lies in some pane. */
  lemma {:induction false} Covers(x: real, y: real, n: nat)
    requires n > 0 && OnScreenPoint(x, y)
    ensures exists i: nat :: i < n && Contains(Layout(i, n), x, y)
  {
    var r := RowOfPoint(y, n);
    var i: nat := if x < 50.0 || 2 * r + 1 >= n then 2 * r else 2 * r + 1;
    assert i < n;
    assert CommandRowNr(i) == r;
    assert Layout(i, n).top == r as real * RowHeight(n);
    assert Contains(Layout(i, n), x, y);
  }

  /** Five commands: three rows; the fifth pane alone spans the bottom third. */
  lemma FiveCommands()
    ensures NumberOfRows(5) == 3
    ensures Layout(4, 5) == Pane(0.0, 100.0, 200.0 / 3.0, 100.0 / 3.0)
    ensures forall i: nat :: i < 4 ==> Layout(i, 5).width == 50.0
  {
  }
}
