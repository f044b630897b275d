/**
 The reserved-region arithmetic of curses initialisation: the window record, the
 ripped-off-line registrations queued before `initscr`, and the loop that hands each
 registration a one-row window while shrinking `LINES`.
 */
module Layout {

  /** A window as far as the lifecycle sees it: its height and width, its origin
      (row `y`, column `x`) on the screen, and whether the next refresh clears it. */
  datatype Window = Window(rows: int, cols: int, y: int, x: int, clear: bool)

  /** `newwin(rows, cols, y, x)`. The window engine is not modelled; a new window
      starts with its clear flag unset. */
  function NewWin(rows: int, cols: int, y: int, x: int): Window
  {
    Window(rows, cols, y, x, false)
  }

  /** `w` is `rows` x `cols` with its origin at (`y`, 0). */
  predicate Spans(w: Window, rows: int, cols: int, y: int)
  {
    w.rows == rows && w.cols == cols && w.y == y && w.x == 0
  }

  /** One entry of the ripped-off-line table: a negative `line` asks for a row taken
      from the bottom of the screen, any other value for a row taken from the top. */
  datatype Registration = Registration(line: int)
  {
    predicate AtBottom() { line < 0 }
  }

  /** The number of top registrations in `regs`. */
  function CountTop(regs: seq<Registration>): (n: nat)
    ensures n <= |regs|
  {
    if regs == [] then 0
    else (if regs[0].AtBottom() then 0 else 1) + CountTop(regs[1..])
  }

  /** The number of bottom registrations in `regs`. */
  function CountBottom(regs: seq<Registration>): (n: nat)
    ensures n <= |regs|
  {
    if regs == [] then 0
    else (if regs[0].AtBottom() then 1 else 0) + CountBottom(regs[1..])
  }

  /** What the registration loop leaves behind: the windows handed to the
      registrations' initialisers, in order, and the final values of the running
      `LINES`, `SP->linesrippedoffontop` and `SP->linesrippedoffcnt`. */
  datatype Ripped = Ripped(wins: seq<Window>, lines: int, onTop: nat, count: nat)

  /** The registration loop of `Xinitscr`, one registration per step, starting from
      the running values `lines` (LINES), `onTop` and `count`. A bottom registration
      gets row `lines - 1` of the CURRENT running `lines`; a top one gets row `onTop`,
      which then moves down by one; every registration, of either side, lowers
      `lines` by one and raises `count` by one. */
  function RipOff(regs: seq<Registration>, lines: int, onTop: nat, count: nat, cols: int): (r: Ripped)
    ensures |r.wins| == |regs|
    ensures r.lines == lines - |regs|
    ensures r.count == count + |regs|
    ensures r.onTop == onTop + CountTop(regs)
    decreases |regs|
  {
    if regs == [] then Ripped([], lines, onTop, count)
    else
      var w := if regs[0].AtBottom() then NewWin(1, cols, lines - 1, 0) else NewWin(1, cols, onTop, 0);
      var rest := RipOff(regs[1..], lines - 1, if regs[0].AtBottom() then onTop else onTop + 1, count + 1, cols);
      Ripped([w] + rest.wins, rest.lines, rest.onTop, rest.count)
  }

  /** The row the k-th registration is given, in closed form: a top registration gets
      the number of top registrations before it (offset by the starting `onTop`); a
      bottom registration gets `lines - 1 - k`, where k counts ALL registrations before
      it, top and bottom alike. */
  function RipRow(regs: seq<Registration>, k: int, lines: int, onTop: nat): int
    requires 0 <= k < |regs|
  {
    if regs[k].AtBottom() then lines - k - 1 else onTop + CountTop(regs[..k])
  }

  /** Every window the loop hands out is one row high, `cols` wide, at column 0,
      on the row `RipRow` names. (Nothing is claimed about its clear flag, which only
      the window engine decides.) */
  lemma {:induction false} RipOffPlacement(regs: seq<Registration>, lines: int, onTop: nat, count: nat, cols: int, k: int)
    requires 0 <= k < |regs|
    ensures Spans(RipOff(regs, lines, onTop, count, cols).wins[k], 1, cols, RipRow(regs, k, lines, onTop))
    decreases |regs|
  {
    if k > 0 {
      var onTop' := if regs[0].AtBottom() then onTop else onTop + 1;
      RipOffPlacement(regs[1..], lines - 1, onTop', count + 1, cols, k - 1);
      assert regs[..k][1..] == regs[1..][..k - 1];
      assert regs[..k][0] == regs[0];
    }
  }

  /** Top and bottom registrations together make up the whole table. */
  lemma {:induction false} CountSplit(regs: seq<Registration>)
    ensures CountTop(regs) + CountBottom(regs) == |regs|
  {
    if regs != [] {
      CountSplit(regs[1..]);
    }
  }

  /** The placement is order-dependent: a bottom registration lands on the row just
      above the bottom registrations before it (`lines - 1 - CountBottom(regs[..k])`)
      exactly when no top registration precedes it. Each earlier top registration
      pushes it one further row up, into the rows that stay with the main window. */
  lemma BottomRowStacksIff(regs: seq<Registration>, lines: int, onTop: nat, k: int)
    requires 0 <= k < |regs| && regs[k].AtBottom()
    ensures RipRow(regs, k, lines, onTop) == lines - 1 - CountBottom(regs[..k]) <==> CountTop(regs[..k]) == 0
    ensures RipRow(regs, k, lines, onTop) == lines - 1 - CountBottom(regs[..k]) - CountTop(regs[..k])
  {
    CountSplit(regs[..k]);
  }

  /** A top registration always lands above the first row left to the main window,
      which starts at `onTop + CountTop(regs)`. */
  lemma TopRowAboveMain(regs: seq<Registration>, lines: int, onTop: nat, k: int)
    requires 0 <= k < |regs| && !regs[k].AtBottom()
    ensures onTop <= RipRow(regs, k, lines, onTop) < onTop + CountTop(regs)
  {
    CountPrefix(regs, k);
  }

  /** Counting the top registrations of a prefix that stops before a top registration
      misses at least that one. */
  lemma {:induction false} CountPrefix(regs: seq<Registration>, k: int)
    requires 0 <= k < |regs| && !regs[k].AtBottom()
    ensures CountTop(regs[..k]) < CountTop(regs)
  {
    if k == 0 {
      assert CountTop(regs) >= 1;
    } else {
      CountPrefix(regs[1..], k - 1);
      assert regs[..k][1..] == regs[1..][..k - 1];
      assert regs[..k][0] == regs[0];
    }
  }

  /** The top registrations are those before a bottom registration plus those after
      it. */
  lemma {:induction false} CountTopAround(regs: seq<Registration>, k: int)
    requires 0 <= k < |regs| && regs[k].AtBottom()
    ensures CountTop(regs) == CountTop(regs[..k]) + CountTop(regs[k + 1..])
  {
    if k == 0 {
      assert regs[..0] == [];
    } else {
      CountTopAround(regs[1..], k - 1);
      assert regs[..k][1..] == regs[1..][..k - 1];
      assert regs[..k][0] == regs[0];
      assert regs[1..][k..] == regs[k + 1..];
    }
  }

  /** With the loop started at row 0, the main window occupies rows
      `CountTop(regs) .. CountTop(regs) + (lines - |regs|) - 1`. A bottom registration
      ends up below that block exactly when the top registrations before it are no
      more than the bottom registrations after it; otherwise its row is one the main
      window also covers (or one above it). */
  lemma BottomRowBelowMainIff(regs: seq<Registration>, lines: int, k: int)
    requires 0 <= k < |regs| && regs[k].AtBottom()
    ensures RipRow(regs, k, lines, 0) >= CountTop(regs) + (lines - |regs|)
            <==> CountTop(regs[..k]) <= CountBottom(regs[k + 1..])
  {
    CountTopAround(regs, k);
    CountSplit(regs[k + 1..]);
  }

  /** The top registrations fill rows `onTop .. onTop + CountTop(regs) - 1` without a
      gap: each of those rows is some top registration's. */
  lemma {:induction false} TopRowsFill(regs: seq<Registration>, lines: int, onTop: nat, row: int)
    requires onTop <= row < onTop + CountTop(regs)
    ensures exists j :: 0 <= j < |regs| && !regs[j].AtBottom() && RipRow(regs, j, lines, onTop) == row
  {
    var onTop' := if regs[0].AtBottom() then onTop else onTop + 1;
    if !regs[0].AtBottom() && row == onTop {
      assert regs[..0] == [];
      assert RipRow(regs, 0, lines, onTop) == row;
    } else {
      TopRowsFill(regs[1..], lines - 1, onTop', row);
      var j :| 0 <= j < |regs[1..]| && !regs[1..][j].AtBottom() && RipRow(regs[1..], j, lines - 1, onTop') == row;
      assert regs[..j + 1][1..] == regs[1..][..j];
      assert regs[..j + 1][0] == regs[0];
      assert RipRow(regs, j + 1, lines, onTop) == row;
    }
  }

  /** The exact placement can give a bottom registration the same row as a top one:
      with the loop started at row 0, that happens exactly when the bottom row falls
      inside the block of top rows `0 .. CountTop(regs) - 1`. */
  lemma BottomMeetsTopIff(regs: seq<Registration>, lines: int, k: int)
    requires 0 <= k < |regs| && regs[k].AtBottom()
    ensures (exists j :: 0 <= j < |regs| && !regs[j].AtBottom() && RipRow(regs, j, lines, 0) == RipRow(regs, k, lines, 0))
            <==> 0 <= lines - 1 - k < CountTop(regs)
  {
    var row := RipRow(regs, k, lines, 0);
    if 0 <= row < CountTop(regs) {
      TopRowsFill(regs, lines, 0, row);
    }
    forall j | 0 <= j < |regs| && !regs[j].AtBottom()
      ensures 0 <= RipRow(regs, j, lines, 0) < CountTop(regs)
    {
      TopRowAboveMain(regs, lines, 0, j);
    }
  }
}
