# Column widths of the adaptive table

This project models the column-width logic of the `useColumnResize` hook of the adaptive table, in Dafny, and proves its properties. The hook does two things:

- **Initial allocation.** When the table has a checkbox column, the hook reserves a leading 40-wide slot. The rest of the table width is split evenly over the columns.
- **Two-slot resize.** A header drag asks for a new width for one slot. The request is raised to that column's minimum width, which is 50 when `minWidth` is missing or zero. The difference is taken from the next slot, but only if that slot stays at or above its own minimum. Otherwise the whole request is dropped. At the last slot, only a shrink is accepted. The checkbox slot never changes. A request that leaves the width where it was is a no-op.

Widths are exact `real`s. `Widths` (widths.dfy) holds the sum of an assignment and lemmas about that sum. `ColumnResize` (column_resize.dfy) holds the following:

- `InitialWidths`: the allocation, as a pure function.
- `Resize`: the resize, as a function that returns `Unchanged` or `Changed(widths)`.
- `ResizeUpdater`: the updater as the source writes it. It copies the previous widths into a fresh array, writes the two slots in place and drops the copy on every rejection. Its contract ties it to `Resize`.
- `ColumnResizeHook`: a class for the hook's state. Its ghost `notified` field logs each width list that the `onResize` listener would receive.

## Behaviour worth knowing

- With zero columns and a checkbox, the allocation is `[40]`.
- The initial allocation need not meet the column minimums (`InitialWidthsMayUndercutMinimum`). `InitialWidthsWithinMinimums` states exactly when it does. Resizing keeps the bound once it holds (`ResizePreservesMinimums`).
- A resize index at or past the end of the widths makes the source grow the array, except index 0 with a checkbox, which line 32 rejects first (this includes the empty widths before the first allocation). The model requires `index < |widths|` instead (see "Left out").

## Model

| member | source | states |
|---|---|---|
| `ColumnResize.ColumnIndex` | src/hooks/useColumnResize.ts:29 | Slot `slot` is backed by column `slot` minus the number of checkbox slots. With a checkbox, slot 0 maps to -1, and only then is the index -1. Lines 46-48 apply the same mapping to the next slot. |
| `ColumnResize.SlotMinWidth` | src/hooks/useColumnResize.ts:46-49 | A slot's minimum is never 0. The checkbox slot maps to a missing column and so gets the default of 50. A column's own non-zero `minWidth` is the minimum of its slot, and any minimum other than 50 comes from the column behind the slot. Line 34 does the same lookup for the resized slot. |
| `ColumnResize.InitialWidths` | src/hooks/useColumnResize.ts:14-19 | There is one slot per column, plus a leading slot when there is a checkbox. That leading slot is 40. Each column slot times the column count equals the table width minus the checkbox width, so the even share is stated without dividing. |
| `ColumnResize.InitialWidthsEven` | src/hooks/useColumnResize.ts:16-19 | All column slots of the allocation are equal. |
| `ColumnResize.InitialWidthsTotal` | src/hooks/useColumnResize.ts:14-19 | With at least one column, the column slots sum to the table width minus the checkbox width. The whole allocation sums to the table width. |
| `ColumnResize.InitialWidthsNoColumns` | src/hooks/useColumnResize.ts:16-19 | With no columns the unused even share never appears: the result is `[40]` with a checkbox and `[]` without one. |
| `ColumnResize.InitialWidthsWithinMinimums` | src/hooks/useColumnResize.ts:14-19 | The allocation respects every column minimum if and only if the even share is at least every column's minimum. |
| `ColumnResize.InitialWidthsMayUndercutMinimum` | src/hooks/useColumnResize.ts:14-19 | One default column in a 30-wide table gets a 30-wide slot. That is below its minimum of 50. |
| `ColumnResize.MinWidth` | src/hooks/useColumnResize.ts:34 | The minimum is never 0. It is the column's own `minWidth` when that exists and is non-zero. Any other minimum is 50. |
| `ColumnResize.Resize` | src/hooks/useColumnResize.ts:27-64 | An accepted resize keeps the length. It changes no slot other than `index` and `index + 1`. |
| `ColumnResize.ResizeAccepted` | src/hooks/useColumnResize.ts:32-61 | A resize is accepted if and only if all of these hold: the slot is not the checkbox; the clamped request differs from the current width; the next slot minus the difference stays at or above its minimum, or, at the last slot, the change is a shrink. When accepted, the slot becomes the clamped request and the next slot loses exactly the difference. |
| `ColumnResize.ResizeCheckboxUnchanged` | src/hooks/useColumnResize.ts:32 | Resizing slot 0 of a table with a checkbox changes nothing. |
| `ColumnResize.ResizeSameWidthUnchanged` | src/hooks/useColumnResize.ts:36-39 | A request whose clamped width equals the current width changes nothing. |
| `ColumnResize.ResizePreservesMinimums` | src/hooks/useColumnResize.ts:36-56 | After an accepted resize, both touched slots are at or above their minimums. If every slot respected its bound before, every slot still does. |
| `ColumnResize.ResizeTotal` | src/hooks/useColumnResize.ts:43-61 | When a next slot exists, an accepted resize keeps the total width. At the last slot, an accepted resize is a shrink that lowers the total by exactly that amount. |
| `ColumnResize.ResizeIdempotent` | src/hooks/useColumnResize.ts:36-41 | Repeating a resize with the same request changes nothing. |
| `ColumnResize.ResizeExample` | src/hooks/useColumnResize.ts:14-61 | A worked example. With two default columns and a 200-wide table, the allocation is `[100, 100]`. Widening slot 0 to 120 gives `[120, 80]`. Widening it to 170 from there is rejected. |
| `ColumnResize.ResizeUpdater` | src/hooks/useColumnResize.ts:27-64 | The in-place updater returns exactly what `Resize` specifies. The listener is notified exactly when `Resize` accepts. On every rejection the previous widths come back untouched. An accepted change always moves slot `index` to a new width that is at least its minimum. |
| `ColumnResize.ColumnResizeHook.constructor` | src/hooks/useColumnResize.ts:11 | The hook starts with no widths and has notified nothing. |
| `ColumnResize.ColumnResizeHook.Allocate` | src/hooks/useColumnResize.ts:13-23 | The widths become the initial allocation, which sums to the table width when there are columns. The listener is notified once with that allocation. |
| `ColumnResize.ColumnResizeHook.HandleColumnResize` | src/hooks/useColumnResize.ts:25-68 | The widths become the result of `Resize`. The listener is notified with the new widths exactly when they change. The minimum-width bound is preserved. |

## Left out

- React machinery is not modelled: `useState`, `useCallback` memoisation and the state-updater-function pattern. `Allocate` and `HandleColumnResize` are explicit state transitions instead.
- The effect's dependency list (`columns.length`, `tableWidth`, `hasCheckbox`, `onResize`) is not modelled. The caller decides when to call `Allocate`. As a result, the case where `columns` changes but its length does not is not modelled: the source keeps the old widths while resizing against the new minimums.
- The `onResize` listener is not a real side effect here. It is a boolean result of `ResizeUpdater` plus the ghost log `notified`.
- IEEE floating point is not modelled: rounding in the even split, `NaN` and infinities. A `NaN` request is one example: at the last slot the source would accept it.
- With zero columns the source's division gives `NaN` or ±`Infinity`, but the result is never used. The model uses a placeholder share instead.
- `ResizeUpdater`: requires `index < |prevWidths|`. With an index at or past the end, except index 0 with a checkbox, which line 32 rejects first, the source reads `undefined`, computes a `NaN` difference, writes past the end (growing the array) and, at the `else` branch, accepts because `NaN > 0` is false. That behaviour is not modelled. Negative indices are excluded by `index: nat`; on a non-empty array the source rejects them, because the neighbour's new width is `NaN` and fails the minimum test.
- The `Column` type (declared in `../types`) is not part of this model beyond its optional `minWidth` field.
