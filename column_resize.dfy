/** Column widths of the adaptive table: the even initial allocation and the
    two-slot resize that the `useColumnResize` hook performs. Widths are
    exact reals. A width assignment has one slot per column, plus a leading
    checkbox slot of fixed width when the table has a checkbox column. */
module ColumnResize {
  import opened Widths

  /** Width reserved for the leading checkbox slot. */
  const CheckboxWidth: real := 40.0
  /** Minimum width of a column whose `minWidth` is absent or zero. */
  const DefaultMinWidth: real := 50.0

  datatype Option<T> = None | Some(value: T)

  /** A column descriptor; only its optional minimum width matters here. */
  datatype Column = Column(minWidth: Option<real>)

  /** The outcome of a resize: either the previous widths are kept as they
      were (and nobody is notified), or a new assignment replaces them. */
  datatype ResizeResult = Unchanged | Changed(widths: seq<real>)
  {
    /** The assignment in effect after the resize. */
    function Apply(prev: seq<real>): seq<real>
    {
      if Changed? then widths else prev
    }
  }

  /** Number of leading checkbox slots (0 or 1). */
  function CheckboxSlots(hasCheckbox: bool): nat
  {
    if hasCheckbox then 1 else 0
  }

  /** The column descriptor index behind a width slot: the checkbox slot,
      when present, shifts every column one slot to the right, and the
      checkbox slot itself maps to -1, which names no column. */
  function ColumnIndex(slot: nat, hasCheckbox: bool): (r: int)
    ensures r + CheckboxSlots(hasCheckbox) == slot
    ensures r >= -1 && (r == -1 <==> hasCheckbox && slot == 0)
  {
    if hasCheckbox then slot - 1 else slot
  }

  /** The minimum width of column `i`: its `minWidth`, unless the column does
      not exist or its `minWidth` is absent or zero, in which case 50. */
  function MinWidth(columns: seq<Column>, i: int): (r: real)
    ensures r != 0.0
    ensures r != DefaultMinWidth ==> 0 <= i < |columns| && columns[i].minWidth == Some(r)
    ensures 0 <= i < |columns| && columns[i].minWidth.Some? && columns[i].minWidth.value != 0.0
            ==> r == columns[i].minWidth.value
  {
    if 0 <= i < |columns| && columns[i].minWidth.Some? && columns[i].minWidth.value != 0.0
    then columns[i].minWidth.value
    else DefaultMinWidth
  }

  /** The minimum width of the column behind slot `slot`; the checkbox slot
      has no column behind it and so gets the default. */
  function SlotMinWidth(columns: seq<Column>, hasCheckbox: bool, slot: nat): (r: real)
    ensures r != 0.0
    ensures hasCheckbox && slot == 0 ==> r == DefaultMinWidth
    ensures r != DefaultMinWidth ==>
      var i := slot - CheckboxSlots(hasCheckbox);
      0 <= i < |columns| && columns[i].minWidth == Some(r)
    ensures var i := slot - CheckboxSlots(hasCheckbox);
      0 <= i < |columns| && columns[i].minWidth.Some? && columns[i].minWidth.value != 0.0
      ==> r == columns[i].minWidth.value
  {
    MinWidth(columns, ColumnIndex(slot, hasCheckbox))
  }

  /** The larger of two widths, as `Math.max` gives it for numbers that are
      not `NaN`. */
  function Max(a: real, b: real): (r: real)
    ensures r >= a && r >= b && (r == a || r == b)
  {
    if a >= b then a else b
  }

  /** Every slot respects its bound: the checkbox slot holds exactly 40 and
      every column slot is at least that column's minimum width. */
  predicate WithinMinimums(widths: seq<real>, columns: seq<Column>, hasCheckbox: bool)
  {
    forall slot: nat :: slot < |widths| ==>
      if hasCheckbox && slot == 0 then widths[slot] == CheckboxWidth
      else widths[slot] >= SlotMinWidth(columns, hasCheckbox, slot)
  }

  // ---------------------------------------------------------------------
  // Initial allocation

  /** The widths the hook starts from: an optional 40-wide checkbox slot,
      then `tableWidth` minus that slot split evenly over the columns. With
      no columns the (undefined) even share is never used. */
  function InitialWidths(columns: seq<Column>, tableWidth: real, hasCheckbox: bool): (r: seq<real>)
    ensures |r| == CheckboxSlots(hasCheckbox) + |columns|
    ensures hasCheckbox ==> r[0] == CheckboxWidth
    ensures forall i :: CheckboxSlots(hasCheckbox) <= i < |r| ==>
      r[i] * |columns| as real == tableWidth - CheckboxSlots(hasCheckbox) as real * CheckboxWidth
  {
    var checkboxWidth := if hasCheckbox then CheckboxWidth else 0.0;
    var availableWidth := tableWidth - checkboxWidth;
    var equalWidth := if |columns| == 0 then 0.0 else availableWidth / |columns| as real;
    var shares := seq(|columns|, _ => equalWidth);
    if hasCheckbox then [checkboxWidth] + shares else shares
  }

  /** All column slots of the initial allocation get the same width. */
  lemma InitialWidthsEven(columns: seq<Column>, tableWidth: real, hasCheckbox: bool, i: nat, j: nat)
    requires CheckboxSlots(hasCheckbox) <= i < CheckboxSlots(hasCheckbox) + |columns|
    requires CheckboxSlots(hasCheckbox) <= j < CheckboxSlots(hasCheckbox) + |columns|
    ensures InitialWidths(columns, tableWidth, hasCheckbox)[i] == InitialWidths(columns, tableWidth, hasCheckbox)[j]
  {
  }

  /** With at least one column, the column slots add up to the table width
      minus the checkbox slot, and the whole assignment to the table width. */
  lemma InitialWidthsTotal(columns: seq<Column>, tableWidth: real, hasCheckbox: bool)
    requires |columns| > 0
    ensures var r := InitialWidths(columns, tableWidth, hasCheckbox);
      Sum(r[CheckboxSlots(hasCheckbox)..]) == tableWidth - CheckboxSlots(hasCheckbox) as real * CheckboxWidth &&
      Sum(r) == tableWidth
  {
    var r := InitialWidths(columns, tableWidth, hasCheckbox);
    var k := CheckboxSlots(hasCheckbox);
    var available := tableWidth - k as real * CheckboxWidth;
    var shares := r[k..];
    var e := available / |columns| as real;
    forall i | 0 <= i < |shares| ensures shares[i] == e {
      assert r[k + i] * |columns| as real == available;
    }
    SumUniform(shares, e);
    assert |shares| as real * e == available;
    assert r == r[..k] + shares;
    SumConcat(r[..k], shares);
    if hasCheckbox {
      assert r[..k] == [CheckboxWidth];
      assert Sum(r[..k]) == CheckboxWidth + Sum(r[..k][1..]);
    } else {
      assert r[..k] == [];
    }
  }

  /** With no columns the allocation holds only the checkbox slot, if any. */
  lemma InitialWidthsNoColumns(tableWidth: real, hasCheckbox: bool)
    ensures InitialWidths([], tableWidth, hasCheckbox) == if hasCheckbox then [CheckboxWidth] else []
  {
  }

  /** The initial allocation respects every minimum exactly when the even
      share is at least each column's minimum. */
  lemma InitialWidthsWithinMinimums(columns: seq<Column>, tableWidth: real, hasCheckbox: bool)
    requires |columns| > 0
    ensures var e := (tableWidth - CheckboxSlots(hasCheckbox) as real * CheckboxWidth) / |columns| as real;
      WithinMinimums(InitialWidths(columns, tableWidth, hasCheckbox), columns, hasCheckbox)
      <==> forall i :: 0 <= i < |columns| ==> MinWidth(columns, i) <= e
  {
    var k := CheckboxSlots(hasCheckbox);
    var r := InitialWidths(columns, tableWidth, hasCheckbox);
    var e := (tableWidth - k as real * CheckboxWidth) / |columns| as real;
    forall slot: nat | k <= slot < |r| ensures r[slot] == e {
      assert r[slot] * |columns| as real == tableWidth - k as real * CheckboxWidth;
    }
    if WithinMinimums(r, columns, hasCheckbox) {
      forall i | 0 <= i < |columns| ensures MinWidth(columns, i) <= e {
        assert ColumnIndex(i + k, hasCheckbox) == i;
        assert r[i + k] >= SlotMinWidth(columns, hasCheckbox, i + k);
      }
    }
  }

  /** The initial allocation alone does not establish the minimum widths:
      one default column in a 30-wide table gets a 30-wide slot. */
  lemma InitialWidthsMayUndercutMinimum()
    ensures InitialWidths([Column(None)], 30.0, false) == [30.0]
    ensures !WithinMinimums(InitialWidths([Column(None)], 30.0, false), [Column(None)], false)
  {
    var r := InitialWidths([Column(None)], 30.0, false);
    assert r[0] * 1.0 == 30.0;
    assert r[0] < SlotMinWidth([Column(None)], false, 0);
  }

  // ---------------------------------------------------------------------
  // Two-slot resize

  /** The resize of slot `index` to `newWidth`, as a function of the
      previous assignment. The request is raised to the column's minimum;
      the difference is taken from the next slot, which must stay at or
      above its own minimum; at the last slot only a shrink is accepted.
      Requests on the checkbox slot, requests that change nothing, and
      requests that break a constraint leave the assignment unchanged. */
  function Resize(prev: seq<real>, columns: seq<Column>, hasCheckbox: bool, index: nat, newWidth: real): (r: ResizeResult)
    requires index < |prev|
    ensures r.Changed? ==> |r.widths| == |prev|
    ensures r.Changed? ==> forall j :: 0 <= j < |prev| && j != index && j != index + 1 ==> r.widths[j] == prev[j]
  {
    if index == 0 && hasCheckbox then Unchanged
    else
      var clamped := Max(newWidth, SlotMinWidth(columns, hasCheckbox, index));
      var delta := clamped - prev[index];
      if delta == 0.0 then Unchanged
      else if index + 1 < |prev| then
        var nextWidth := prev[index + 1] - delta;
        if nextWidth >= SlotMinWidth(columns, hasCheckbox, index + 1)
        then Changed(prev[index := clamped][index + 1 := nextWidth])
        else Unchanged
      else if delta > 0.0 then Unchanged
      else Changed(prev[index := clamped])
  }

  /** When a resize is accepted, and only then: the slot is not the checkbox,
      the request raised to the minimum differs from the current width, and
      the neighbour can absorb the difference (or, at the last slot, the
      slot shrinks). An accepted resize sets the slot to the raised request
      and the neighbour to its old width minus the difference. */
  lemma ResizeAccepted(prev: seq<real>, columns: seq<Column>, hasCheckbox: bool, index: nat, newWidth: real)
    requires index < |prev|
    ensures var r := Resize(prev, columns, hasCheckbox, index, newWidth);
      var clamped := Max(newWidth, SlotMinWidth(columns, hasCheckbox, index));
      var delta := clamped - prev[index];
      (r.Changed? <==>
        !(index == 0 && hasCheckbox) && delta != 0.0 &&
        (if index + 1 < |prev| then prev[index + 1] - delta >= SlotMinWidth(columns, hasCheckbox, index + 1)
         else delta < 0.0)) &&
      (r.Changed? ==>
        r.widths[index] == clamped &&
        (index + 1 < |prev| ==> r.widths[index + 1] == prev[index + 1] - delta))
  {
  }

  /** The checkbox slot cannot be resized. */
  lemma ResizeCheckboxUnchanged(prev: seq<real>, columns: seq<Column>, newWidth: real)
    requires 0 < |prev|
    ensures Resize(prev, columns, true, 0, newWidth) == Unchanged
  {
  }

  /** A request that, raised to the minimum, equals the current width is a no-op. */
  lemma ResizeSameWidthUnchanged(prev: seq<real>, columns: seq<Column>, hasCheckbox: bool, index: nat, newWidth: real)
    requires index < |prev|
    requires Max(newWidth, SlotMinWidth(columns, hasCheckbox, index)) == prev[index]
    ensures Resize(prev, columns, hasCheckbox, index, newWidth) == Unchanged
  {
  }

  /** An accepted resize leaves both touched slots at or above their
      minimums; so if every slot respected its bound before, every slot
      still does afterwards. */
  lemma ResizePreservesMinimums(prev: seq<real>, columns: seq<Column>, hasCheckbox: bool, index: nat, newWidth: real)
    requires index < |prev|
    ensures var r := Resize(prev, columns, hasCheckbox, index, newWidth);
      r.Changed? ==>
        r.widths[index] >= SlotMinWidth(columns, hasCheckbox, index) &&
        (index + 1 < |prev| ==> r.widths[index + 1] >= SlotMinWidth(columns, hasCheckbox, index + 1))
    ensures WithinMinimums(prev, columns, hasCheckbox) ==>
      WithinMinimums(Resize(prev, columns, hasCheckbox, index, newWidth).Apply(prev), columns, hasCheckbox)
  {
    var r := Resize(prev, columns, hasCheckbox, index, newWidth);
    if r.Changed? && WithinMinimums(prev, columns, hasCheckbox) {
      forall slot: nat | slot < |r.widths|
        ensures if hasCheckbox && slot == 0 then r.widths[slot] == CheckboxWidth
                else r.widths[slot] >= SlotMinWidth(columns, hasCheckbox, slot)
      {
        if slot != index && slot != index + 1 {
          assert r.widths[slot] == prev[slot];
        }
      }
    }
  }

  /** Width moves between the two slots without being created or lost; only
      a shrink of the last slot lowers the total, by exactly the shrink. */
  lemma {:induction false} ResizeTotal(prev: seq<real>, columns: seq<Column>, hasCheckbox: bool, index: nat, newWidth: real)
    requires index < |prev|
    ensures var r := Resize(prev, columns, hasCheckbox, index, newWidth);
      r.Changed? ==>
        (index + 1 < |prev| ==> Sum(r.widths) == Sum(prev)) &&
        (index + 1 == |prev| ==> r.widths[index] < prev[index] &&
                                 Sum(r.widths) == Sum(prev) - (prev[index] - r.widths[index]))
  {
    var r := Resize(prev, columns, hasCheckbox, index, newWidth);
    if r.Changed? {
      var clamped := r.widths[index];
      SumUpdate(prev, index, clamped);
      if index + 1 < |prev| {
        var once := prev[index := clamped];
        SumUpdate(once, index + 1, r.widths[index + 1]);
        assert r.widths == once[index + 1 := r.widths[index + 1]];
      } else {
        assert r.widths == prev[index := clamped];
      }
    }
  }

  /** Repeating an accepted resize with the same request changes nothing. */
  lemma ResizeIdempotent(prev: seq<real>, columns: seq<Column>, hasCheckbox: bool, index: nat, newWidth: real)
    requires index < |prev|
    ensures var once := Resize(prev, columns, hasCheckbox, index, newWidth).Apply(prev);
      Resize(once, columns, hasCheckbox, index, newWidth) == Unchanged
  {
  }

  /** Two default columns in a 200-wide table start at 100 each; widening
      the first to 120 takes 20 from the second; widening it further to 170
      would leave the second at 30, below its minimum, so nothing changes. */
  lemma ResizeExample()
    ensures InitialWidths([Column(None), Column(None)], 200.0, false) == [100.0, 100.0]
    ensures Resize([100.0, 100.0], [Column(None), Column(None)], false, 0, 120.0) == Changed([120.0, 80.0])
    ensures Resize([120.0, 80.0], [Column(None), Column(None)], false, 0, 170.0) == Unchanged
  {
    var r := InitialWidths([Column(None), Column(None)], 200.0, false);
    assert r[0] * 2.0 == 200.0 && r[1] * 2.0 == 200.0;
    assert [100.0, 100.0][0 := 120.0][1 := 80.0] == [120.0, 80.0];
  }

  /** The state updater of the resize handler: it copies the previous widths
      into a fresh array, writes the resized slot and its neighbour in
      place, and discards the copy on every rejection. `notified` says
      whether the change listener is called, with `widths`. */
  method ResizeUpdater(prevWidths: seq<real>, columns: seq<Column>, hasCheckbox: bool, index: nat, newWidth: real)
    returns (widths: seq<real>, notified: bool)
    requires index < |prevWidths|
    ensures notified <==> Resize(prevWidths, columns, hasCheckbox, index, newWidth).Changed?
    ensures widths == Resize(prevWidths, columns, hasCheckbox, index, newWidth).Apply(prevWidths)
    ensures |widths| == |prevWidths|
    ensures notified ==> widths[index] >= SlotMinWidth(columns, hasCheckbox, index) && widths[index] != prevWidths[index]
    ensures !notified ==> widths == prevWidths
  {
    var newWidths := new real[|prevWidths|];
    forall i | 0 <= i < |prevWidths| {
      newWidths[i] := prevWidths[i];
    }
    var oldWidth := newWidths[index];
    if index == 0 && hasCheckbox {
      return prevWidths, false;
    }
    var minWidth := MinWidth(columns, ColumnIndex(index, hasCheckbox));
    var clampedNewWidth := Max(newWidth, minWidth);
    var actualWidthChange := clampedNewWidth - oldWidth;
    if actualWidthChange == 0.0 {
      return prevWidths, false;
    }
    newWidths[index] := clampedNewWidth;
    var nextColumnIndex := index + 1;
    if nextColumnIndex < newWidths.Length {
      var nextMinWidth := MinWidth(columns, ColumnIndex(nextColumnIndex, hasCheckbox));
      var nextNewWidth := newWidths[nextColumnIndex] - actualWidthChange;
      if nextNewWidth >= nextMinWidth {
        newWidths[nextColumnIndex] := nextNewWidth;
      } else {
        return prevWidths, false;
      }
    } else {
      if actualWidthChange > 0.0 {
        return prevWidths, false;
      }
    }
    assert newWidths[..] == Resize(prevWidths, columns, hasCheckbox, index, newWidth).widths;
    return newWidths[..], true;
  }

  // ---------------------------------------------------------------------
  // The hook's state

  /** The state the hook keeps between renders: the current column
      descriptors and checkbox flag, the width assignment, and (as a ghost
      log) every assignment the change listener has been called with. */
  class ColumnResizeHook {
    var columns: seq<Column>
    var hasCheckbox: bool
    var columnWidths: seq<real>
    ghost var notified: seq<seq<real>>

    /** The state before the first allocation: no widths, nothing notified. */
    constructor (columns: seq<Column>, hasCheckbox: bool)
      ensures this.columns == columns && this.hasCheckbox == hasCheckbox
      ensures columnWidths == [] && notified == []
    {
      this.columns := columns;
      this.hasCheckbox := hasCheckbox;
      columnWidths := [];
      notified := [];
    }

    /** (Re)allocation for new columns, table width or checkbox flag: the
        widths become the even initial allocation and the listener is told. */
    method Allocate(columns: seq<Column>, tableWidth: real, hasCheckbox: bool)
      modifies this
      ensures this.columns == columns && this.hasCheckbox == hasCheckbox
      ensures columnWidths == InitialWidths(columns, tableWidth, hasCheckbox)
      ensures |columns| > 0 ==> Sum(columnWidths) == tableWidth
      ensures notified == old(notified) + [columnWidths]
    {
      this.columns := columns;
      this.hasCheckbox := hasCheckbox;
      columnWidths := InitialWidths(columns, tableWidth, hasCheckbox);
      if |columns| > 0 {
        InitialWidthsTotal(columns, tableWidth, hasCheckbox);
      }
      notified := notified + [columnWidths];
    }

    /** A resize request from the table header. The listener is told exactly
        when the widths change, and every bound kept before is kept after. */
    method HandleColumnResize(index: nat, newWidth: real)
      requires index < |columnWidths|
      modifies this`columnWidths, this`notified
      ensures columnWidths == Resize(old(columnWidths), columns, hasCheckbox, index, newWidth).Apply(old(columnWidths))
      ensures notified == if columnWidths == old(columnWidths) then old(notified) else old(notified) + [columnWidths]
      ensures WithinMinimums(old(columnWidths), columns, hasCheckbox) ==> WithinMinimums(columnWidths, columns, hasCheckbox)
    {
      var widths, changed := ResizeUpdater(columnWidths, columns, hasCheckbox, index, newWidth);
      ResizePreservesMinimums(columnWidths, columns, hasCheckbox, index, newWidth);
      columnWidths := widths;
      if changed {
        notified := notified + [widths];
      }
    }
  }
}
