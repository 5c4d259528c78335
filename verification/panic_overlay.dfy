/** The panic overlay: Escape toggles a fake spreadsheet over the page and a
    double-click on it takes it away. The sheet's rows are fixed apart from a
    random amount. */
module PanicOverlay {
  import Text

  /** The inputs the overlay reacts to. */
  datatype Event = KeyDown(key: string) | DoubleClick

  predicate IsEscape(e: Event) {
    e.KeyDown? && e.key == "Escape"
  }

  /** The mode after one event: Escape flips it, a double-click clears it,
      any other key leaves it. */
  function Next(mode: bool, e: Event): (m: bool)
    ensures IsEscape(e) ==> m == !mode
    ensures e.KeyDown? && !IsEscape(e) ==> m == mode
    ensures e == DoubleClick ==> !m
  {
    match e
    case KeyDown(key) => if key == "Escape" then !mode else mode
    case DoubleClick => false
  }

  /** The mode after a sequence of events, the last one last. */
  function Run(mode: bool, events: seq<Event>): bool {
    if events == [] then mode
    else Next(Run(mode, events[..|events| - 1]), events[|events| - 1])
  }

  function EscapeCount(events: seq<Event>): nat {
    if events == [] then 0
    else EscapeCount(events[..|events| - 1]) + (if IsEscape(events[|events| - 1]) then 1 else 0)
  }

  /** Two presses of Escape give back the mode they started from. */
  lemma EscapeTwice(mode: bool)
    ensures Run(mode, [KeyDown("Escape"), KeyDown("Escape")]) == mode
  {
    var once := [KeyDown("Escape")];
    assert once[..0] == [];
    assert Run(mode, once) == !mode;
    assert (once + once)[..1] == once;
    assert once + once == [KeyDown("Escape"), KeyDown("Escape")];
  }

  /** Without double-clicks the mode has flipped exactly when Escape was
      pressed an odd number of times. */
  lemma {:induction false} EscapeParity(mode: bool, events: seq<Event>)
    requires forall i :: 0 <= i < |events| ==> events[i].KeyDown?
    ensures Run(mode, events) == (if EscapeCount(events) % 2 == 0 then mode else !mode)
  {
    if events != [] {
      EscapeParity(mode, events[..|events| - 1]);
    }
  }

  /** After a double-click the overlay is off until Escape is pressed again. */
  lemma {:induction false} OffAfterDoubleClick(mode: bool, before: seq<Event>, after: seq<Event>)
    requires forall i :: 0 <= i < |after| ==> !IsEscape(after[i])
    ensures !Run(mode, before + [DoubleClick] + after)
  {
    if after == [] {
      assert (before + [DoubleClick] + after)[..|before|] == before;
    } else {
      var n := |after| - 1;
      assert (before + [DoubleClick] + after)[..|before| + 1 + n] == before + [DoubleClick] + after[..n];
      OffAfterDoubleClick(mode, before, after[..n]);
    }
  }

  /** The overlay's state: `isPanicMode`, off at first. */
  class Overlay {
    var isPanicMode: bool

    constructor ()
      ensures !isPanicMode
    {
      isPanicMode := false;
    }

    /** The window's keydown listener. */
    method OnKeyDown(key: string)
      modifies this
      ensures isPanicMode == Next(old(isPanicMode), KeyDown(key))
    {
      if key == "Escape" {
        isPanicMode := !isPanicMode;
      }
    }

    /** The overlay's double-click handler. */
    method OnDoubleClick()
      modifies this
      ensures isPanicMode == Next(old(isPanicMode), DoubleClick)
    {
      isPanicMode := false;
    }

    /** Nothing renders while panic mode is off. */
    predicate Renders()
      reads this
    {
      isPanicMode
    }
  }

  /** Feeding a session's events to a fresh overlay: it ends up shown exactly
      as `Run` says. */
  method Replay(events: seq<Event>) returns (shown: bool)
    ensures shown == Run(false, events)
  {
    var overlay := new Overlay();
    var k := 0;
    while k < |events|
      invariant 0 <= k <= |events|
      invariant overlay.isPanicMode == Run(false, events[..k])
    {
      assert events[..k + 1][..k] == events[..k];
      if events[k].KeyDown? {
        overlay.OnKeyDown(events[k].key);
      } else {
        overlay.OnDoubleClick();
      }
      k := k + 1;
    }
    assert events[..|events|] == events;
    shown := overlay.Renders();
  }

  // --------------------------------------------------------- the sheet

  /** One row of the fake sheet; the random amount cell is left out. */
  datatype SheetRow = SheetRow(header: string, period: string, kind: string, status: string, priority: string)

  const ROW_COUNT: nat := 30

  /** Row `i` of the sheet (counting from 0). */
  function RowAt(i: nat): (r: SheetRow)
    ensures forall c :: 0 <= c < |r.header| ==> Text.IsDigit(r.header[c])
    ensures Text.ParseDecimal(r.header) == i + 1
    ensures r.period == "2024-Q" + Text.NatToDecimal(i / 4 + 1) + " Report"
    ensures r.kind == "Expense" <==> i % 2 == 0
    ensures r.kind == "Expense" || r.kind == "Revenue"
    ensures r.priority == "High" <==> i % 3 == 0
    ensures r.priority == "High" || r.priority == "Normal"
    ensures r.status == "Completed"
  {
    Text.DecimalRoundTrip(i + 1);
    SheetRow(
      Text.NatToDecimal(i + 1),
      "2024-Q" + Text.NatToDecimal(i / 4 + 1) + " Report",
      if i % 2 == 0 then "Expense" else "Revenue",
      "Completed",
      if i % 3 == 0 then "High" else "Normal")
  }

  /** The thirty rows, in order. */
  function Rows(): (rows: seq<SheetRow>)
    ensures |rows| == ROW_COUNT
    ensures forall i :: 0 <= i < |rows| ==> rows[i] == RowAt(i)
  {
    seq(ROW_COUNT, i requires 0 <= i < ROW_COUNT => RowAt(i))
  }

  /** The headers number the rows 1 to 30 without repeats, and the quarters
      run from Q1 to Q8, each a single digit, four rows to a quarter. */
  lemma RowLabels(i: nat, j: nat)
    requires i < ROW_COUNT && j < ROW_COUNT
    ensures i != j ==> Rows()[i].header != Rows()[j].header
    ensures 1 <= i / 4 + 1 <= 8 && |Text.NatToDecimal(i / 4 + 1)| == 1
    ensures i / 4 == j / 4 ==> Rows()[i].period == Rows()[j].period
  {
  }
}
