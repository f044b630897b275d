/**
 Properties of the session lifecycle that relate several calls: where initialisation
 puts the ripped-off lines, which transitions keep the screen geometry consistent,
 and how initialisation, `endwin`, `delscreen` and `resize_term` follow one another.
 */
module InitScrProps {
  import opened Wrappers
  import opened Layout
  import opened InitScr

  /** The driver results of an initialisation that goes through: the terminal opens
      at least 2 x 2 and every window creation succeeds. */
  predicate Starts(p: InitPlatform)
  {
    p.open.Opened? && p.open.lines >= 2 && p.open.cols >= 2 && p.failing.None?
  }

  /** `Xinitscr` returned `stdscr`. */
  predicate Started(r: Outcome<Option<Window>>)
  {
    r.Returned? && r.value.Some?
  }

  /** After a successful start, the k-th registration was handed a 1 x `COLS` window
      at column 0: a top one on row "number of top registrations before it", above
      `stdscr`; a bottom one on row `SP->lines - slklines - 1 - k`, which lies below
      `stdscr` exactly when the top registrations before it are no more than the
      bottom registrations after it. */
  lemma InitPlacesRippedLines(st: State, p: InitPlatform)
    requires Started(Xinitscr(st, p))
    ensures var r := Xinitscr(st, p);
      && |r.handed| == |st.pending|
      && forall k :: 0 <= k < |st.pending| ==>
           && r.handed[k].rows == 1 && r.handed[k].cols == r.st.cols && r.handed[k].x == 0
           && (!st.pending[k].AtBottom() ==>
                 r.handed[k].y == CountTop(st.pending[..k]) && r.handed[k].y < r.st.stdscr.value.y)
           && (st.pending[k].AtBottom() ==>
                 && r.handed[k].y == p.open.lines - p.slkLines - 1 - k
                 && (r.handed[k].y >= r.st.stdscr.value.y + r.st.stdscr.value.rows
                     <==> CountTop(st.pending[..k]) <= CountBottom(st.pending[k + 1..])))
  {
    var r := Xinitscr(st, p);
    var lines := p.open.lines - p.slkLines;
    assert r.handed == RipOff(st.pending, lines, 0, 0, p.open.cols).wins;
    forall k | 0 <= k < |st.pending|
      ensures && r.handed[k].rows == 1 && r.handed[k].cols == r.st.cols && r.handed[k].x == 0
              && (!st.pending[k].AtBottom() ==>
                    r.handed[k].y == CountTop(st.pending[..k]) && r.handed[k].y < r.st.stdscr.value.y)
              && (st.pending[k].AtBottom() ==>
                    && r.handed[k].y == p.open.lines - p.slkLines - 1 - k
                    && (r.handed[k].y >= r.st.stdscr.value.y + r.st.stdscr.value.rows
                        <==> CountTop(st.pending[..k]) <= CountBottom(st.pending[k + 1..])))
    {
      RipOffPlacement(st.pending, lines, 0, 0, p.open.cols, k);
      if st.pending[k].AtBottom() {
        BottomRowBelowMainIff(st.pending, lines, k);
      } else {
        TopRowAboveMain(st.pending, lines, 0, k);
      }
    }
  }

  /** On a 24 x 80 terminal without soft-label keys, registering top, top, bottom puts
      the bottom line on row 21, inside `stdscr`, which is 21 x 80 from row 2
      (rows 2 .. 22); row 23 is left to nobody. */
  lemma TopTopBottomOn24Rows()
    ensures var regs := [Registration(1), Registration(1), Registration(-1)];
      var r := Xinitscr(Boot(regs), InitPlatform(Opened(1, 24, 80, false), 0, 0, None, None));
      && r.Returned?
      && r.value.Some? && Spans(r.value.value, 21, 80, 2)
      && |r.handed| == 3
      && Spans(r.handed[0], 1, 80, 0) && Spans(r.handed[1], 1, 80, 1) && Spans(r.handed[2], 1, 80, 21)
      && r.st.sp.value.ripCount == 3 && r.st.sp.value.ripOnTop == 2
  {
  }

  /** The transitions that complete keep `SP`, the three screen windows, `LINES` and
      `COLS` consistent: a start (successful or refused), `endwin`, `delscreen`, and a
      `resize_term` that the driver rejects or that resizes every window. */
  lemma OperationsKeepConsistent(st: State, ip: InitPlatform, rp: ResizePlatform, ptr: Ptr)
    requires Consistent(st)
    ensures Xinitscr(st, ip).Returned? ==> Consistent(Xinitscr(st, ip).st)
    ensures st.sp.Some? ==> Consistent(Endwin(st).st)
    ensures !(ptr.Null? && st.sp.None?) ==> Consistent(Delscreen(st, ptr).st)
    ensures !rp.accepted ==> Consistent(ResizeTerm(st, rp).st)
    ensures ResizeTerm(st, rp).value == Ok ==> Consistent(ResizeTerm(st, rp).st)
  {
  }

  /** Every transition keeps `Linked`, the fact `resize_term` relies on, including a
      `resize_term` whose window resizes fail part-way; so `resize_term` may be called
      after any sequence of these operations from program start. */
  lemma OperationsKeepLinked(st: State, ip: InitPlatform, rp: ResizePlatform, ptr: Ptr)
    requires Linked(st)
    ensures Linked(Boot(st.pending))
    ensures Xinitscr(st, ip).Returned? ==> Linked(Xinitscr(st, ip).st)
    ensures Newterm(st, ip).Returned? ==> Linked(Newterm(st, ip).st)
    ensures st.sp.Some? ==> Linked(Endwin(st).st)
    ensures Linked(SetTerm(st, ptr).st)
    ensures !(ptr.Null? && st.sp.None?) ==> Linked(Delscreen(st, ptr).st)
    ensures Linked(ResizeTerm(st, rp).st)
  {
  }

  /** A `wresize` failure inside `resize_term` leaves the new size recorded but the
      windows not matching it: when the driver reports a new height and the `curscr`
      resize fails, the call answers ERR with `SP->lines` and `LINES` already changed
      while `curscr` and `stdscr` keep their old heights, so the state is no longer
      consistent. */
  lemma ResizeFailureBreaksLayout(st: State, rp: ResizePlatform)
    requires Consistent(st) && st.sp.Some?
    requires rp.accepted && rp.failing == Some(ResizeCurscr) && rp.rows != st.sp.value.lines
    ensures var r := ResizeTerm(st, rp);
      && r.value == Err
      && r.st.sp.value.lines == rp.rows
      && r.st.lines == rp.rows - st.sp.value.ripCount - st.sp.value.slkLines
      && r.st.curscr == st.curscr && r.st.stdscr == st.stdscr && r.st.lastscr == st.lastscr
      && !Consistent(r.st)
  {
  }

  /** A second start while the session is alive is refused and changes nothing. */
  lemma SecondInitRefused(st: State, p1: InitPlatform, p2: InitPlatform)
    requires Started(Xinitscr(st, p1))
    ensures Xinitscr(Xinitscr(st, p1).st, p2) == Returned(None, Xinitscr(st, p1).st, [])
    ensures Newterm(Xinitscr(st, p1).st, p2).Returned? && Newterm(Xinitscr(st, p1).st, p2).value == Null
  {
  }

  /** `isendwin` is false once a start succeeded, true after `endwin`, and false again
      after `delscreen` (there is no `SP` left to ask). */
  lemma EndwinAndIsendwin(st: State, p: InitPlatform)
    requires Started(Xinitscr(st, p))
    ensures var s1 := Xinitscr(st, p).st;
      && !Isendwin(s1).value
      && Isendwin(Endwin(s1).st).value
      && !Isendwin(Delscreen(Endwin(s1).st, SpPtr(s1)).st).value
  {
  }

  /** Create, destroy, create: after `delscreen(SP)` every pointer is NULL and a new
      start on a usable terminal succeeds, with no ripped-off lines left to place. */
  lemma InitAgainAfterDelscreen(st: State, p1: InitPlatform, p2: InitPlatform)
    requires Started(Xinitscr(st, p1))
    requires Starts(p2)
    ensures var s1 := Xinitscr(st, p1).st;
      var s2 := Delscreen(s1, SpPtr(s1)).st;
      && s2.sp.None? && s2.stdscr.None? && s2.curscr.None? && s2.lastscr.None?
      && Started(Xinitscr(s2, p2))
      && Xinitscr(s2, p2).handed == []
  {
  }

  /** Starting again after `endwin` (without `delscreen`) builds a fresh session: the
      ripped-off lines were consumed by the first start, so the new `stdscr` starts on
      row 0 and spans every row but the soft-label keys'. */
  lemma InitAfterEndwinForgetsRippedLines(st: State, p1: InitPlatform, p2: InitPlatform)
    requires Started(Xinitscr(st, p1))
    requires Starts(p2)
    ensures var s1 := Endwin(Xinitscr(st, p1).st).st;
      var r := Xinitscr(s1, p2);
      && Started(r)
      && r.handed == []
      && r.st.sp.value.ripCount == 0
      && r.value.value.y == 0 && r.value.value.rows == p2.open.lines - p2.slkLines
  {
  }

  /** A successful resize after a start keeps the rows the ripped-off lines and the
      soft-label keys took at start-up out of `LINES`, keeps `stdscr` below the top
      ripped-off lines, and neither clears the driver's resize flag nor revives or ends
      the session. */
  lemma ResizeAfterInit(st: State, p: InitPlatform, rp: ResizePlatform)
    requires Started(Xinitscr(st, p))
    requires ResizeTerm(Xinitscr(st, p).st, rp).value == Ok
    ensures var s1 := Xinitscr(st, p).st;
      var s2 := ResizeTerm(s1, rp).st;
      && s2.lines + |st.pending| + p.slkLines == rp.rows
      && s2.stdscr.value.y == CountTop(st.pending)
      && IsTermresized(s2).value == IsTermresized(s1).value
      && s2.sp.value.alive
  {
  }

  /** `set_term` recognises exactly the screen `newterm` handed out: it answers that
      SCREEN while the session exists, and NULL once `delscreen` has freed it. */
  lemma NewtermThenSetTerm(st: State, p: InitPlatform)
    requires Newterm(st, p).Returned? && Newterm(st, p).value != Null
    ensures var r := Newterm(st, p);
      && SetTerm(r.st, r.value).value == r.value
      && SetTerm(Delscreen(r.st, r.value).st, r.value).value == Null
  {
  }
}
