/**
  * `_FlowLayout`, the row packing behind `FlexibleChips`: items, measured one by one,
  * fill a row left to right and wrap to a new row when the next one would not fit.
  * Items are numbered by position; a row is the list of item numbers it holds.
  */
module FlexibleChips {

  /** A measured size; widths and heights are whole points here. */
  datatype Size = Size(width: nat, height: nat)

  /** `intrinsicSize()`: a measurement of exactly zero becomes 1×1, so no item measures 0×0. */
  function IntrinsicSize(measured: Size): (r: Size)
    ensures r != Size(0, 0)
    ensures measured == Size(0, 0) ==> r == Size(1, 1)
    ensures measured != Size(0, 0) ==> r == measured
    ensures r.width == 0 ==> r == measured && measured.height > 0
  {
    if measured == Size(0, 0) then Size(1, 1) else measured
  }

  /**
    * The widths the loop works with: each item's `intrinsicSize().width`. A width is the
    * measured one except for a 0×0 item, which counts as 1 wide; so a zero width comes only
    * from an item measured 0 wide with a positive height.
    */
  function Widths(measured: seq<Size>): (ws: seq<nat>)
    ensures |ws| == |measured|
    ensures forall i :: 0 <= i < |measured| && measured[i] != Size(0, 0) ==> ws[i] == measured[i].width
    ensures forall i :: 0 <= i < |measured| && measured[i] == Size(0, 0) ==> ws[i] == 1
    ensures forall i :: 0 <= i < |measured| ==> (ws[i] == 0 <==> measured[i].width == 0 && measured[i].height > 0)
  {
    seq(|measured|, i requires 0 <= i < |measured| => IntrinsicSize(measured[i]).width)
  }

  /** How the loop decides that the next item opens the current row without a fit check. */
  datatype RowTest =
    | WidthIsZero  // as written: the running width is 0
    | RowIsEmpty   // as intended: the current row holds nothing yet

  /** The loop state: the rows so far and the running width of the last one. */
  datatype Packing = Packing(rows: seq<seq<nat>>, width: nat)

  function Last<T>(s: seq<T>): T
    requires s != []
  {
    s[|s| - 1]
  }

  /** `rows[rows.count - 1].append(i)`. */
  function AppendToLast(rows: seq<seq<nat>>, i: nat): seq<seq<nat>>
    requires rows != []
  {
    rows[..|rows| - 1] + [Last(rows) + [i]]
  }

  /** Appending to the last row keeps the earlier rows and extends the last by `i`. */
  lemma AppendToLastShape(rows: seq<seq<nat>>, i: nat)
    requires rows != []
    ensures var r := AppendToLast(rows, i);
      |r| == |rows| && r[..|r| - 1] == rows[..|rows| - 1] && Last(r) == Last(rows) + [i]
  {
    var r := AppendToLast(rows, i);
    assert r[..|r| - 1] == rows[..|rows| - 1];
  }

  lemma AppendToLastSingle(row: seq<nat>, i: nat)
    ensures AppendToLast([row], i) == [row + [i]]
  {
    assert [row][..0] == [];
  }

  predicate StartsRow(p: Packing, test: RowTest)
    requires p.rows != []
  {
    match test
    case WidthIsZero => p.width == 0
    case RowIsEmpty => Last(p.rows) == []
  }

  /** One iteration of the loop for item `i` of width `w`. */
  function Place(p: Packing, i: nat, w: nat, spacing: nat, maxWidth: nat, test: RowTest): (r: Packing)
    requires p.rows != []
    ensures r.rows != []
  {
    if StartsRow(p, test) then Packing(AppendToLast(p.rows, i), w)
    else if p.width + spacing + w <= maxWidth then Packing(AppendToLast(p.rows, i), p.width + spacing + w)
    else Packing(p.rows + [[i]], w)
  }

  /** The loop state after the first `k` items, starting from `width = 0`, `rows = [[]]`. */
  function PackPrefix(ws: seq<nat>, k: nat, spacing: nat, maxWidth: nat, test: RowTest): (p: Packing)
    requires k <= |ws|
    ensures p.rows != []
  {
    if k == 0 then Packing([[]], 0)
    else Place(PackPrefix(ws, k - 1, spacing, maxWidth, test), k - 1, ws[k - 1], spacing, maxWidth, test)
  }

  function Pack(ws: seq<nat>, spacing: nat, maxWidth: nat, test: RowTest): (p: Packing)
    ensures p.rows != []
  {
    PackPrefix(ws, |ws|, spacing, maxWidth, test)
  }

  /** The rows read one after the other. */
  function Flatten(rows: seq<seq<nat>>): seq<nat> {
    if rows == [] then [] else Flatten(rows[..|rows| - 1]) + Last(rows)
  }

  function Range(n: nat): (r: seq<nat>)
    ensures |r| == n && forall i :: 0 <= i < n ==> r[i] == i
  {
    seq(n, i requires 0 <= i < n => i)
  }

  lemma RangeExtend(n: nat)
    ensures Range(n) + [n] == Range(n + 1)
  {
  }

  lemma FlattenAppendToLast(rows: seq<seq<nat>>, i: nat)
    requires rows != []
    ensures Flatten(AppendToLast(rows, i)) == Flatten(rows) + [i]
  {
    var r := AppendToLast(rows, i);
    assert r[..|r| - 1] == rows[..|rows| - 1];
  }

  lemma FlattenAppendRow(rows: seq<seq<nat>>, row: seq<nat>)
    ensures Flatten(rows + [row]) == Flatten(rows) + row
  {
    assert (rows + [row])[..|rows|] == rows;
  }

  /** One iteration adds the item at the end of the rows read in order. */
  lemma PlaceFlatten(p: Packing, i: nat, w: nat, spacing: nat, maxWidth: nat, test: RowTest)
    requires p.rows != []
    ensures Flatten(Place(p, i, w, spacing, maxWidth, test).rows) == Flatten(p.rows) + [i]
  {
    if Place(p, i, w, spacing, maxWidth, test).rows == AppendToLast(p.rows, i) {
      FlattenAppendToLast(p.rows, i);
    } else {
      FlattenAppendRow(p.rows, [i]);
    }
  }

  /** Reading the rows in order gives every item exactly once, in input order. */
  lemma {:induction false} PackPrefixFlatten(ws: seq<nat>, k: nat, spacing: nat, maxWidth: nat, test: RowTest)
    requires k <= |ws|
    ensures Flatten(PackPrefix(ws, k, spacing, maxWidth, test).rows) == Range(k)
  {
    if k == 0 {
      var empty: seq<seq<nat>> := [[]];
      assert empty[..0] == [];
    } else {
      PackPrefixFlatten(ws, k - 1, spacing, maxWidth, test);
      PackPrefixFlattenStep(ws, k, spacing, maxWidth, test);
    }
  }

  /** The inductive step of `PackPrefixFlatten`, stated on `PackPrefix`. */
  lemma PackPrefixFlattenStep(ws: seq<nat>, k: nat, spacing: nat, maxWidth: nat, test: RowTest)
    requires 0 < k <= |ws|
    requires Flatten(PackPrefix(ws, k - 1, spacing, maxWidth, test).rows) == Range(k - 1)
    ensures Flatten(PackPrefix(ws, k, spacing, maxWidth, test).rows) == Range(k)
  {
    var p := PackPrefix(ws, k - 1, spacing, maxWidth, test);
    PlaceFlatten(p, k - 1, ws[k - 1], spacing, maxWidth, test);
    RangeExtend(k - 1);
    assert PackPrefix(ws, k, spacing, maxWidth, test) == Place(p, k - 1, ws[k - 1], spacing, maxWidth, test);
  }

  /** An iteration either extends the last row or opens a new row holding just the item. */
  lemma PlaceCases(p: Packing, i: nat, w: nat, spacing: nat, maxWidth: nat, test: RowTest)
    requires p.rows != []
    ensures Place(p, i, w, spacing, maxWidth, test).rows == AppendToLast(p.rows, i)
         || Place(p, i, w, spacing, maxWidth, test).rows == p.rows + [[i]]
  {
  }

  /** A row after extending the last one is that extended row or an earlier, untouched row. */
  lemma MemberAppendToLast(rows: seq<seq<nat>>, i: nat, r: seq<nat>)
    requires rows != [] && r in AppendToLast(rows, i)
    ensures r == Last(rows) + [i] || r in rows[..|rows| - 1]
  {
    var a := AppendToLast(rows, i);
    var m :| 0 <= m < |a| && a[m] == r;
    if m < |a| - 1 {
      assert a[m] == a[..|a| - 1][m];
    }
  }

  /** A row after opening a new one is the new row or an earlier, untouched row. */
  lemma MemberAppendRow(rows: seq<seq<nat>>, i: nat, r: seq<nat>)
    requires r in rows + [[i]]
    ensures r == [i] || r in rows
  {
  }

  /** With no items there is one empty row; with items, no row is empty. */
  lemma {:induction false} PackPrefixRowsNonEmpty(ws: seq<nat>, k: nat, spacing: nat, maxWidth: nat, test: RowTest)
    requires 0 < k <= |ws|
    ensures forall r :: r in PackPrefix(ws, k, spacing, maxWidth, test).rows ==> r != []
  {
    var p := PackPrefix(ws, k - 1, spacing, maxWidth, test);
    var q := PackPrefix(ws, k, spacing, maxWidth, test);
    assert q == Place(p, k - 1, ws[k - 1], spacing, maxWidth, test);
    PlaceCases(p, k - 1, ws[k - 1], spacing, maxWidth, test);
    if k > 1 {
      PackPrefixRowsNonEmpty(ws, k - 1, spacing, maxWidth, test);
    } else {
      assert p.rows == [[]];
    }
    forall r | r in q.rows ensures r != [] {
      if q.rows == AppendToLast(p.rows, k - 1) {
        MemberAppendToLast(p.rows, k - 1, r);
        if r != Last(p.rows) + [k - 1] {
          assert r in p.rows;
        }
      } else {
        MemberAppendRow(p.rows, k - 1, r);
      }
    }
  }

  /** Every item number in `row` is below `n`. */
  predicate RowBelow(row: seq<nat>, n: nat) {
    forall j :: 0 <= j < |row| ==> row[j] < n
  }

  /** Every item number in `rows` is below `n`. */
  predicate IndicesBelow(rows: seq<seq<nat>>, n: nat) {
    forall r :: r in rows ==> RowBelow(r, n)
  }

  /** Width of a row as laid out: its items' widths with one spacing between neighbours. */
  function RowWidth(row: seq<nat>, ws: seq<nat>, spacing: nat): nat
    requires RowBelow(row, |ws|)
  {
    if row == [] then 0
    else if |row| == 1 then ws[row[0]]
    else RowWidth(row[..|row| - 1], ws, spacing) + spacing + ws[Last(row)]
  }

  lemma RowWidthAppend(row: seq<nat>, i: nat, ws: seq<nat>, spacing: nat)
    requires row != [] && i < |ws| && RowBelow(row, |ws|)
    ensures RowBelow(row + [i], |ws|)
    ensures RowWidth(row + [i], ws, spacing) == RowWidth(row, ws, spacing) + spacing + ws[i]
  {
    assert (row + [i])[..|row|] == row;
  }

  /** The running width is the laid-out width of the last row. */
  predicate WidthTracksLastRow(p: Packing, ws: seq<nat>, spacing: nat)
    requires p.rows != [] && IndicesBelow(p.rows, |ws|)
  {
    p.width == RowWidth(Last(p.rows), ws, spacing)
  }

  /** Every row of two or more items fits in `maxWidth` (a lone item may be wider). */
  predicate RowsFit(rows: seq<seq<nat>>, ws: seq<nat>, spacing: nat, maxWidth: nat)
    requires IndicesBelow(rows, |ws|)
  {
    forall r :: r in rows && |r| >= 2 ==> RowWidth(r, ws, spacing) <= maxWidth
  }

  /** One iteration keeps every item number below `n` when the placed item is. */
  lemma PlaceKeepsIndices(p: Packing, i: nat, w: nat, spacing: nat, maxWidth: nat, test: RowTest, n: nat)
    requires p.rows != [] && IndicesBelow(p.rows, n) && i < n
    ensures IndicesBelow(Place(p, i, w, spacing, maxWidth, test).rows, n)
  {
    var q := Place(p, i, w, spacing, maxWidth, test);
    PlaceCases(p, i, w, spacing, maxWidth, test);
    forall r | r in q.rows ensures RowBelow(r, n) {
      if q.rows == AppendToLast(p.rows, i) {
        MemberAppendToLast(p.rows, i, r);
        if r == Last(p.rows) + [i] {
          assert Last(p.rows) in p.rows;
        } else {
          assert r in p.rows;
        }
      } else {
        MemberAppendRow(p.rows, i, r);
      }
    }
  }

  /** Packing only mentions items already placed. */
  lemma {:induction false} PackPrefixIndices(ws: seq<nat>, k: nat, spacing: nat, maxWidth: nat, test: RowTest)
    requires k <= |ws|
    ensures IndicesBelow(PackPrefix(ws, k, spacing, maxWidth, test).rows, k)
  {
    if k > 0 {
      var p := PackPrefix(ws, k - 1, spacing, maxWidth, test);
      PackPrefixIndices(ws, k - 1, spacing, maxWidth, test);
      assert IndicesBelow(p.rows, k) by {
        forall r | r in p.rows ensures RowBelow(r, k) {
          assert RowBelow(r, k - 1);
        }
      }
      PlaceKeepsIndices(p, k - 1, ws[k - 1], spacing, maxWidth, test, k);
    }
  }

  /** The state the intended loop keeps: width of the last row tracked, every multi-item row fits. */
  predicate IntendedInvariant(p: Packing, ws: seq<nat>, spacing: nat, maxWidth: nat) {
    && p.rows != []
    && IndicesBelow(p.rows, |ws|)
    && WidthTracksLastRow(p, ws, spacing)
    && RowsFit(p.rows, ws, spacing, maxWidth)
  }

  /** The loop's starting state satisfies `IntendedInvariant`. */
  lemma IntendedInvariantAtStart(ws: seq<nat>, spacing: nat, maxWidth: nat)
    ensures IntendedInvariant(Packing([[]], 0), ws, spacing, maxWidth)
  {
    var rows: seq<seq<nat>> := [[]];
    assert forall r :: r in rows ==> r == [];
  }

  /** One iteration with the intended test keeps `IntendedInvariant`. */
  lemma PlaceKeepsIntendedInvariant(p: Packing, i: nat, ws: seq<nat>, spacing: nat, maxWidth: nat)
    requires IntendedInvariant(p, ws, spacing, maxWidth) && i < |ws|
    ensures IntendedInvariant(Place(p, i, ws[i], spacing, maxWidth, RowIsEmpty), ws, spacing, maxWidth)
  {
    var q := Place(p, i, ws[i], spacing, maxWidth, RowIsEmpty);
    PlaceKeepsIndices(p, i, ws[i], spacing, maxWidth, RowIsEmpty, |ws|);
    var last := Last(p.rows);
    if last == [] {
      assert q.rows == AppendToLast(p.rows, i) && Last(q.rows) == [i];
      forall r | r in q.rows && |r| >= 2 ensures RowWidth(r, ws, spacing) <= maxWidth {
        MemberAppendToLast(p.rows, i, r);
        assert r in p.rows;
      }
    } else if p.width + spacing + ws[i] <= maxWidth {
      assert q.rows == AppendToLast(p.rows, i);
      assert last in p.rows;
      RowWidthAppend(last, i, ws, spacing);
      forall r | r in q.rows && |r| >= 2 ensures RowWidth(r, ws, spacing) <= maxWidth {
        MemberAppendToLast(p.rows, i, r);
        if r != last + [i] {
          assert r in p.rows;
        }
      }
    } else {
      assert q.rows == p.rows + [[i]];
      forall r | r in q.rows && |r| >= 2 ensures RowWidth(r, ws, spacing) <= maxWidth {
        MemberAppendRow(p.rows, i, r);
      }
    }
  }

  /** One more item with the intended test keeps `IntendedInvariant`, stated on `PackPrefix`. */
  lemma PackPrefixKeepsIntendedInvariant(ws: seq<nat>, k: nat, spacing: nat, maxWidth: nat)
    requires 0 < k <= |ws|
    requires IntendedInvariant(PackPrefix(ws, k - 1, spacing, maxWidth, RowIsEmpty), ws, spacing, maxWidth)
    ensures IntendedInvariant(PackPrefix(ws, k, spacing, maxWidth, RowIsEmpty), ws, spacing, maxWidth)
  {
    var p := PackPrefix(ws, k - 1, spacing, maxWidth, RowIsEmpty);
    PlaceKeepsIntendedInvariant(p, k - 1, ws, spacing, maxWidth);
    assert PackPrefix(ws, k, spacing, maxWidth, RowIsEmpty) == Place(p, k - 1, ws[k - 1], spacing, maxWidth, RowIsEmpty);
  }

  /**
    * With the intended row test, the running width always equals the laid-out width of the
    * last row, and every row of two or more items fits.
    */
  lemma {:induction false} IntendedPackingInvariant(ws: seq<nat>, k: nat, spacing: nat, maxWidth: nat)
    requires k <= |ws|
    ensures IntendedInvariant(PackPrefix(ws, k, spacing, maxWidth, RowIsEmpty), ws, spacing, maxWidth)
  {
    if k == 0 {
      IntendedInvariantAtStart(ws, spacing, maxWidth);
    } else {
      IntendedPackingInvariant(ws, k - 1, spacing, maxWidth);
      PackPrefixKeepsIntendedInvariant(ws, k, spacing, maxWidth);
    }
  }

  /** A non-empty row is at least as wide as its last item. */
  lemma RowWidthAtLeastLast(row: seq<nat>, ws: seq<nat>, spacing: nat)
    requires row != [] && RowBelow(row, |ws|)
    ensures RowWidth(row, ws, spacing) >= ws[Last(row)]
  {
  }

  /** When every item has a positive width, the as-written test and the intended one agree. */
  lemma {:induction false} TestsAgreeOnPositiveWidths(ws: seq<nat>, k: nat, spacing: nat, maxWidth: nat)
    requires k <= |ws|
    requires forall i :: 0 <= i < |ws| ==> ws[i] > 0
    ensures PackPrefix(ws, k, spacing, maxWidth, WidthIsZero) == PackPrefix(ws, k, spacing, maxWidth, RowIsEmpty)
  {
    if k > 0 {
      var p := PackPrefix(ws, k - 1, spacing, maxWidth, RowIsEmpty);
      TestsAgreeOnPositiveWidths(ws, k - 1, spacing, maxWidth);
      IntendedPackingInvariant(ws, k - 1, spacing, maxWidth);
      StartsRowAgree(p, ws, spacing, maxWidth);
      assert PackPrefix(ws, k, spacing, maxWidth, RowIsEmpty) == Place(p, k - 1, ws[k - 1], spacing, maxWidth, RowIsEmpty);
      assert PackPrefix(ws, k, spacing, maxWidth, WidthIsZero) == Place(p, k - 1, ws[k - 1], spacing, maxWidth, WidthIsZero);
    }
  }

  /** Under the intended invariant with positive widths, a zero running width means an empty last row. */
  lemma StartsRowAgree(p: Packing, ws: seq<nat>, spacing: nat, maxWidth: nat)
    requires IntendedInvariant(p, ws, spacing, maxWidth)
    requires forall i :: 0 <= i < |ws| ==> ws[i] > 0
    ensures StartsRow(p, WidthIsZero) == StartsRow(p, RowIsEmpty)
  {
    if Last(p.rows) != [] {
      assert Last(p.rows) in p.rows;
      RowWidthAtLeastLast(Last(p.rows), ws, spacing);
    }
  }

  /**
    * The loop of `_FlowLayout.body` over the measured items, as written: it packs as `Pack`
    * with the `width == 0` test, reading the rows back gives every item once in order, and
    * with no items there is one empty row while otherwise no row is empty.
    */
  method PackRows(measured: seq<Size>, spacing: nat, maxWidth: nat) returns (rows: seq<seq<nat>>, width: nat)
    ensures Packing(rows, width) == Pack(Widths(measured), spacing, maxWidth, WidthIsZero)
    ensures Flatten(rows) == Range(|measured|)
    ensures measured == [] ==> rows == [[]]
    ensures measured != [] ==> forall r :: r in rows ==> r != []
  {
    ghost var ws := Widths(measured);
    width := 0;
    rows := [[]];
    var k := 0;
    while k < |measured|
      invariant k <= |measured|
      invariant Packing(rows, width) == PackPrefix(ws, k, spacing, maxWidth, WidthIsZero)
    {
      var itemWidth := IntrinsicSize(measured[k]).width;
      assert itemWidth == ws[k];
      assert PackPrefix(ws, k + 1, spacing, maxWidth, WidthIsZero)
          == Place(Packing(rows, width), k, itemWidth, spacing, maxWidth, WidthIsZero);
      if width == 0 {
        rows := rows[..|rows| - 1] + [rows[|rows| - 1] + [k]];
        width := itemWidth;
      } else if width + spacing + itemWidth <= maxWidth {
        rows := rows[..|rows| - 1] + [rows[|rows| - 1] + [k]];
        width := width + spacing + itemWidth;
      } else {
        rows := rows + [[k]];
        width := itemWidth;
      }
      k := k + 1;
    }
    PackPrefixFlatten(ws, k, spacing, maxWidth, WidthIsZero);
    if k > 0 {
      PackPrefixRowsNonEmpty(ws, k, spacing, maxWidth, WidthIsZero);
    }
  }

  /**
    * As written, an item of zero width (a measurement of 0×20 is not replaced) leaves the
    * running width at 0, so the next item joins its row unchecked: with spacing 8 and room
    * for 10, items measuring 0×20 and 10×20 share a row 18 wide.
    */
  lemma ZeroWidthItemOverfillsRow()
    ensures Pack(Widths([Size(0, 20), Size(10, 20)]), 8, 10, WidthIsZero).rows == [[0, 1]]
    ensures RowWidth([0, 1], Widths([Size(0, 20), Size(10, 20)]), 8) == 18
  {
    var ws := Widths([Size(0, 20), Size(10, 20)]);
    assert ws == [0, 10];
    var empty: seq<nat> := [];
    var start := Packing([empty], 0);
    assert PackPrefix(ws, 0, 8, 10, WidthIsZero) == start;
    assert StartsRow(start, WidthIsZero);
    AppendToLastSingle(empty, 0);
    assert empty + [0] == [0];
    assert Place(start, 0, 0, 8, 10, WidthIsZero) == Packing([[0]], 0);
    assert PackPrefix(ws, 1, 8, 10, WidthIsZero) == Packing([[0]], 0);
    AppendToLastSingle([0], 1);
    assert [0] + [1] == [0, 1];
    assert Place(Packing([[0]], 0), 1, 10, 8, 10, WidthIsZero) == Packing([[0, 1]], 10);
    assert PackPrefix(ws, 2, 8, 10, WidthIsZero) == Packing([[0, 1]], 10);
    assert [0, 1][..1] == [0];
  }

  /** With the intended test the same items go on two rows, each within the room. */
  lemma ZeroWidthItemWrapsWhenIntended()
    ensures Pack(Widths([Size(0, 20), Size(10, 20)]), 8, 10, RowIsEmpty).rows == [[0], [1]]
  {
    var ws := Widths([Size(0, 20), Size(10, 20)]);
    assert ws == [0, 10];
    var empty: seq<nat> := [];
    var start := Packing([empty], 0);
    assert PackPrefix(ws, 0, 8, 10, RowIsEmpty) == start;
    assert StartsRow(start, RowIsEmpty);
    AppendToLastSingle(empty, 0);
    assert empty + [0] == [0];
    assert Place(start, 0, 0, 8, 10, RowIsEmpty) == Packing([[0]], 0);
    assert PackPrefix(ws, 1, 8, 10, RowIsEmpty) == Packing([[0]], 0);
  }
}
