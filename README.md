# Grid layout of the log output

A Dafny model of the `LogOutput` flow controller of `concurrently`
(`src/flow-control/log-output.ts`). Given the already-running commands,
`handle` either forwards their output chunk by chunk, each emitted stream
value as it arrives (sequential mode) or, in grid mode, puts one bordered pane per command on a terminal screen, two panes
per row; in both modes it returns the commands it was given.

The model covers the grid geometry and the construction of the panes:

- `GridLayout` (`grid_layout.dfy`) holds the geometry as pure functions of the
  pane index and the number of commands: the row count (`NumberOfRows`), the
  column (`LeftPosition`), the row (`CommandRowNr`), the height and top of each
  pane (`RowHeight`, `TopPosition`), the full-width exception for the last pane
  of an odd count (`IsFullWidth`, `BoxWidth`) and the whole pane (`Layout`).
  Percentages are exact rationals (`real`), so the lemmas state the geometry
  exactly: every pane lies on the screen, no two panes share any area, the
  panes together cover the whole screen, and the full-width pane is exactly the
  one left alone in the last row.
- `FlowControl` (`log_output.dfy`) holds the controller itself: `LogOutput`
  with its logger and grid flag, a `Screen` that boxes are appended to, and
  `Handle`, whose loop mirrors the `forEach` over the commands and appends one
  box per command, labelled with the logger's prefix for that command and
  bordered in the command's colour. `GridBoxes` is the specification of what
  that loop leaves on the screen, and `GridBoxesTile` states its properties.

The source returns `{ commands }`, a record whose one field is the command list,
not the bare list; `Handled` models that record. The source also accepts an
empty command list: `numberOfRows` is then 0 but the loop never runs, so no
pane and no height is computed; the model does the same rather than requiring
at least one command.

## Model

| member | source | states |
|---|---|---|
| GridLayout.NumberOfRows | src/flow-control/log-output.ts:60 | the row count is n/2 rounded up: the integer r with n/2 <= r < n/2 + 1 |
| GridLayout.CommandRowNr | src/flow-control/log-output.ts:66 | the row of a pane is its index halved and rounded down: row <= index/2 < row + 1 |
| GridLayout.RowHeight | src/flow-control/log-output.ts:65 | the height is positive and the rows exactly fill the screen: height * rows = 100 |
| GridLayout.TopPosition | src/flow-control/log-output.ts:65-67 | a pane's top is at least 0 and its top plus the row height is at most 100, for every index below n |
| GridLayout.Layout | src/flow-control/log-output.ts:60-76 | every pane lies on the screen: left, top >= 0, positive width and height, left + width <= 100, top + height <= 100 |
| GridLayout.LeftPosition | src/flow-control/log-output.ts:64 | the left edge is 0% exactly for even indices and 50% exactly for odd ones |
| GridLayout.IsFullWidth | src/flow-control/log-output.ts:70-73 | a full-width pane has an even index and sits in the last row |
| GridLayout.BoxWidth | src/flow-control/log-output.ts:69-76 | the width is 50% or 100%, and left plus width never exceeds 100% |
| GridLayout.RowsUsed | src/flow-control/log-output.ts:60-66 | every pane's row is below the row count, and the last pane is in the last row |
| GridLayout.ColumnByParity | src/flow-control/log-output.ts:64 | left is 0% exactly for even indices and 50% exactly for odd ones |
| GridLayout.FullWidthExactly | src/flow-control/log-output.ts:69-76 | width is 100% exactly when the index is n-1 and n is odd, 50% otherwise; the full-width pane has an even index and left 0% |
| GridLayout.FullWidthIsSoleOccupant | src/flow-control/log-output.ts:70-76 | a pane is full width if and only if no other pane shares its row, and that row is the last one |
| GridLayout.NoOverlap | src/flow-control/log-output.ts:64-76 | two panes with different indices never share any area |
| GridLayout.Covers | src/flow-control/log-output.ts:60-76 | for n >= 1, every point of the screen lies in some pane |
| GridLayout.FiveCommands | src/flow-control/log-output.ts:60-76 | for five commands: three rows, panes 0-3 half width, pane 4 full width at top 200/3% with height 100/3% |
| FlowControl.BoxFor | src/flow-control/log-output.ts:78-93 | the box of a command is labelled with the logger's prefix for that command, bordered in the command's colour and lies on the screen |
| FlowControl.GridBoxes | src/flow-control/log-output.ts:62-100 | one box per command, in command order, each labelled with the logger's prefix for its command and bordered in its colour |
| FlowControl.GridBoxesTile | src/flow-control/log-output.ts:62-100 | the grid boxes all lie on the screen, are pairwise disjoint and, for at least one command, cover the whole screen |
| FlowControl.Screen.constructor | src/flow-control/log-output.ts:36-40 | a new screen holds no boxes |
| FlowControl.Screen.Append | src/flow-control/log-output.ts:100 | appending a box adds it at the end of the screen's boxes and changes nothing else |
| FlowControl.LogOutput.constructor | src/flow-control/log-output.ts:29-32 | the controller keeps the logger and the grid flag it is given |
| FlowControl.LogOutput.Handle | src/flow-control/log-output.ts:34-122 | returns a record holding the same commands; in grid mode creates a fresh screen (a ghost result, standing for the source's local) holding exactly the grid boxes, one per command (none for no commands); in sequential mode creates no screen |

## Left out

- The neo-blessed screen options, box and log widgets, scroll options, border style, `screen.render()` and the key bindings: they are calls into a terminal library that is not part of this model; `Screen` keeps only the list of appended boxes.
- The stdout/stderr subscriptions and the forwarding of chunks to the pane's log or to `logger.logCommandText` (sequential mode): asynchronous stream plumbing whose ordering belongs to the stream library.
- The shutdown path on escape, `q` or Ctrl-C (kill every command with SIGINT, join on all of them, then interrupt the host process): concurrency and operating-system signals.
- Floating-point rounding and the formatting of percentages as strings (`${rowHeight}%`): the model keeps the exact rational values.
- `logger.getPrefix` and `command.prefixColor.toString()` are taken as given: the prefix is an arbitrary function of the command supplied with the `Logger`, the colour a string of the `Command`. A `Command` carries its index among the commands besides its name and colour, so the prefix function can tell apart commands whose name and colour agree; the other attributes of the source's command object are not part of this model.
