/** The log-output flow controller: in grid mode it lays out one bordered
    pane per command on a terminal screen; in either mode it hands the
    command list back for the next stage. */
module FlowControl {
  import opened GridLayout

  /** A running command as seen here: its position among the commands (which tells
      two otherwise alike commands apart), its name and its prefix colour. */
  datatype Command = Command(index: nat, name: string, prefixColor: string)

  /** The part of the logger used for layout: the display prefix of a command. */
  datatype Logger = Logger(getPrefix: Command -> string)

  /** A bordered pane on the screen: the label (title) on its border, its border colour and its geometry. */
  datatype Box = Box(title: string, borderColor: string, pane: Pane)

  /** What `handle` returns: a record holding the commands it was given. */
  datatype Handled = Handled(commands: seq<Command>)

  /** The box of the command at `index` out of n: labelled with the command's prefix,
      bordered in its colour and placed on the screen. */
  function BoxFor(logger: Logger, command: Command, index: nat, n: nat): (box: Box)
    requires index < n
    ensures box.title == logger.getPrefix(command) && box.borderColor == command.prefixColor
    ensures OnScreen(box.pane)
  {
    Box(logger.getPrefix(command), command.prefixColor, Layout(index, n))
  }

  /** The boxes grid mode puts on the screen: one per command, in command order,
      each labelled with that command's prefix and bordered in its colour. */
  function GridBoxes(logger: Logger, commands: seq<Command>): (boxes: seq<Box>)
    ensures |boxes| == |commands|
    ensures forall i :: 0 <= i < |commands| ==>
      boxes[i].title == logger.getPrefix(commands[i]) &&
      boxes[i].borderColor == commands[i].prefixColor
  {
    seq(|commands|, i requires 0 <= i < |commands| => BoxFor(logger, commands[i], i, |commands|))
  }

  /** Some box holds the point (x, y). */
  predicate Covered(boxes: seq<Box>, x: real, y: real)
  {
    exists i :: 0 <= i < |boxes| && Contains(boxes[i].pane, x, y)
  }

  /** The grid boxes tile the screen: every box lies on the screen, no two share any
      area and together they leave no point of the screen uncovered. */
  lemma {:induction false} GridBoxesTile(logger: Logger, commands: seq<Command>)
    ensures forall i :: 0 <= i < |commands| ==> OnScreen(GridBoxes(logger, commands)[i].pane)
    ensures forall i, j :: 0 <= i < j < |commands| ==>
      !Overlap(GridBoxes(logger, commands)[i].pane, GridBoxes(logger, commands)[j].pane)
    ensures 0 < |commands| ==> forall x: real, y: real :: OnScreenPoint(x, y) ==>
      Covered(GridBoxes(logger, commands), x, y)
  {
    var boxes, n := GridBoxes(logger, commands), |commands|;
    forall i, j | 0 <= i < j < n
      ensures !Overlap(boxes[i].pane, boxes[j].pane)
    {
      NoOverlap(i, j, n);
    }
    forall x: real, y: real | 0 < n && OnScreenPoint(x, y)
      ensures Covered(boxes, x, y)
    {
      Covers(x, y, n);
      var i: nat :| i < n && Contains(Layout(i, n), x, y);
      assert boxes[i].pane == Layout(i, n);
    }
  }

  /** The terminal screen: the boxes appended to it so far, in order. */
  class Screen {
    var boxes: seq<Box>

    constructor ()
      ensures boxes == []
    {
      boxes := [];
    }

    method Append(box: Box)
      modifies this
      ensures boxes == old(boxes) + [box]
    {
      boxes := boxes + [box];
    }
  }

  class LogOutput {
    const logger: Logger
    const grid: bool

    constructor (logger: Logger, grid: bool)
      ensures this.logger == logger && this.grid == grid
    {
      this.logger := logger;
      this.grid := grid;
    }

    /** Attaches the output of `commands`. In grid mode a fresh screen is created and
        holds exactly the grid boxes, one per command; the sequential mode creates none.
        Either way the commands are handed back unchanged. The screen is a ghost result
        only so that what was laid out on it can be stated. */
    method Handle(commands: seq<Command>) returns (r: Handled, ghost screen: Screen?)
      ensures r.commands == commands
      ensures screen != null <==> grid
      ensures screen != null ==> fresh(screen) && screen.boxes == GridBoxes(logger, commands)
    {
      screen := null;
      if grid {
        var s := new Screen();
        var numberOfRows := NumberOfRows(|commands|);
        var index := 0;
        while index < |commands|
          invariant index <= |commands|
          invariant s.boxes == GridBoxes(logger, commands)[..index]
        {
          var command := commands[index];
          var leftPosition := if index % 2 == 0 then 0.0 else 50.0;
          var rowHeight := 100.0 / numberOfRows as real;
          var commandRowNr := index / 2;
          var topPosition := commandRowNr as real * rowHeight;
          var boxWidth := 50.0;
          var isFullWidth := |commands| == index + 1 && |commands| % 2 != 0;
          if isFullWidth {
            boxWidth := 100.0;
          }
          var commandPrefix := logger.getPrefix(command);
          var box := Box(commandPrefix, command.prefixColor,
                         Pane(leftPosition, boxWidth, topPosition, rowHeight));
          assert box == BoxFor(logger, command, index, |commands|);
          s.Append(box);
          index := index + 1;
        }
        screen := s;
      }
      r := Handled(commands);
    }
  }
}
