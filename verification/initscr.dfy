/**
 The curses screen-session lifecycle of PDCurses `pdc_initscr.c`: the process-wide
 session record `SP`, the three screen windows `curscr`, `pdc_lastscr` and `stdscr`,
 the globals `LINES` and `COLS`, and the transitions `Xinitscr`/`initscr`/`newterm`,
 `endwin`, `isendwin`, `set_term`, `delscreen`, `resize_term`, `is_termresized` and
 `curses_version`. Every C function is a pure function from the state before the
 call (and the results the platform driver and window engine give it) to its return
 value and the state after the call.
 */
module InitScr {
  import opened Wrappers
  import opened Layout

  /** The session record `SP` (the fields the lifecycle reads or writes). `addr` is the
      record's address, which `set_term` and `delscreen` compare against. */
  datatype Screen = Screen(
    addr: nat,
    alive: bool,
    lines: int,              // full terminal height, SP->lines
    cols: int,               // full terminal width, SP->cols
    preserve: bool,          // SP->_preserve: keep what is on the screen at start-up
    slkLines: int,           // rows taken by the soft-label-key strip
    slkWin: Option<Window>,  // the soft-label-key window, if that subsystem made one
    autocr: bool,
    rawOut: bool,
    rawInp: bool,
    cbreak: bool,
    saveKeyModifiers: bool,
    returnKeyModifiers: bool,
    echo: bool,
    visibility: int,
    resized: bool,           // set by the driver when the user resizes the terminal
    trapMbe: int,
    mapMbeToKey: int,
    ripCount: nat,           // SP->linesrippedoffcnt
    ripOnTop: nat,           // SP->linesrippedoffontop
    delayTenths: int,
    lineColor: int,
    origCursor: int)

  /** A `SCREEN *` value as passed to `set_term` and `delscreen`. */
  datatype Ptr = Null | At(addr: nat)

  /** Everything the file's globals hold: `SP`, the three screen windows, `LINES`,
      `COLS`, and the ripped-off-line table `linesripped[0 .. linesrippedoff)` filled
      by `ripoffline` before initialisation. */
  datatype State = State(
    sp: Option<Screen>,
    curscr: Option<Window>,
    lastscr: Option<Window>,
    stdscr: Option<Window>,
    lines: int,
    cols: int,
    pending: seq<Registration>)

  /** The globals at program start, with `pending` already registered. */
  function Boot(pending: seq<Registration>): State
  {
    State(None, None, None, None, 0, 0, pending)
  }

  /** The value of `SP` as a pointer. */
  function SpPtr(st: State): Ptr
  {
    if st.sp.Some? then At(st.sp.value.addr) else Null
  }

  /** `OK` / `ERR`. */
  datatype Status = Ok | Err

  /** What a call that cannot end the process returns: its value and the new state. */
  datatype Reply<R> = Reply(value: R, st: State)

  /** What an initialising call returns: either its value, the new state and the
      windows it handed to the ripped-off-line initialisers (in call order), or
      termination of the process by `exit(code)`. */
  datatype Outcome<R> = Returned(value: R, st: State, handed: seq<Window>) | Exit(code: int)

  /** The result of `PDC_scr_open`: failure, or a fresh `SP` at `addr` on a terminal
      of `lines` x `cols`, with `_preserve` set as the driver decided. */
  datatype ScrOpen = OpenFailed | Opened(addr: nat, lines: int, cols: int, preserve: bool)

  /** The `newwin` call of `Xinitscr` that returns NULL, if any. */
  datatype Creation = MakeCurscr | MakeLastscr | MakeStdscr

  /** Everything `Xinitscr` learns from code outside this file: the driver's open,
      `PDC_get_cursor_mode()`, the soft-label-key rows and window `PDC_slk_initialize`
      sets up, and which window creation (if any) fails. */
  datatype InitPlatform = InitPlatform(
    open: ScrOpen,
    cursorMode: int,
    slkLines: int,
    slkWin: Option<Window>,
    failing: Option<Creation>)

  /** The `wresize` call of `resize_term` that returns ERR, if any. */
  datatype Resizing = ResizeCurscr | ResizeStdscr | ResizeLastscr | ResizeSlk

  /** Everything `resize_term` learns from code outside this file: whether
      `PDC_resize_screen` accepts, what `PDC_get_rows` / `PDC_get_columns` report
      afterwards, and which window resize (if any) fails. The requested size only
      reaches the driver, so it is folded into these results. */
  datatype ResizePlatform = ResizePlatform(accepted: bool, rows: int, cols: int, failing: Option<Resizing>)

  /** The mode defaults every successful initialisation installs. */
  predicate HasDefaultModes(s: Screen)
  {
    && s.autocr && !s.rawOut && !s.rawInp && s.cbreak
    && !s.saveKeyModifiers && !s.returnKeyModifiers && s.echo
    && s.visibility == 1 && !s.resized
    && s.trapMbe == 0 && s.mapMbeToKey == 0
    && s.delayTenths == 0 && s.lineColor == -1
  }

  /** The geometry that initialisation establishes and resizing restores: the rows
      given to the main window, the ripped-off lines and the soft-label keys add up to
      the terminal height; `curscr` and `pdc_lastscr` cover the whole terminal;
      `stdscr` is `LINES` x `COLS`, starting below the top ripped-off lines. */
  predicate LaidOut(s: Screen, lines: int, cols: int, cur: Window, last: Window, std: Window)
  {
    && lines + s.ripCount + s.slkLines == s.lines
    && cols == s.cols
    && s.ripOnTop <= s.ripCount
    && Spans(cur, s.lines, s.cols, 0)
    && Spans(last, s.lines, s.cols, 0)
    && Spans(std, lines, cols, s.ripOnTop)
  }

  /** `SP`, `curscr`, `pdc_lastscr` and `stdscr` exist together, and when they do they
      are laid out. */
  predicate Consistent(st: State)
  {
    && (st.sp.Some? <==> st.stdscr.Some?)
    && (st.stdscr.Some? <==> st.curscr.Some?)
    && (st.curscr.Some? <==> st.lastscr.Some?)
    && (st.sp.Some? ==> LaidOut(st.sp.value, st.lines, st.cols, st.curscr.value, st.lastscr.value, st.stdscr.value))
  }

  /** Whenever `stdscr` exists, so do `SP`, `curscr` and `pdc_lastscr` (what
      `resize_term` dereferences once it has seen `stdscr`). */
  predicate Linked(st: State)
  {
    st.stdscr.Some? ==> st.sp.Some? && st.curscr.Some? && st.lastscr.Some?
  }

  /** The successful tail of `Xinitscr`, from the opened terminal on. */
  function Build(st: State, p: InitPlatform): (r: Outcome<Option<Window>>)
    requires p.open.Opened? && p.open.lines >= 2 && p.open.cols >= 2
    requires p.failing.Some? ==> p.failing.value.MakeStdscr?
  {
    var o := p.open;
    var cur := NewWin(o.lines, o.cols, 0, 0);
    var last := NewWin(o.lines, o.cols, 0, 0);
    var rip := RipOff(st.pending, o.lines - p.slkLines, 0, 0, o.cols);
    if p.failing.Some? then Exit(1)
    else
      var std := NewWin(rip.lines, o.cols, rip.onTop, 0);
      var cur' := cur.(clear := !o.preserve);
      var std' := if o.preserve then std.(clear := false) else std;
      var sp := Screen(
        addr := o.addr, alive := true, lines := o.lines, cols := o.cols, preserve := o.preserve,
        slkLines := p.slkLines, slkWin := p.slkWin,
        autocr := true, rawOut := false, rawInp := false, cbreak := true,
        saveKeyModifiers := false, returnKeyModifiers := false, echo := true,
        visibility := 1, resized := false, trapMbe := 0, mapMbeToKey := 0,
        ripCount := rip.count, ripOnTop := rip.onTop,
        delayTenths := 0, lineColor := -1, origCursor := p.cursorMode);
      Returned(Some(std'), State(Some(sp), Some(cur'), Some(last), Some(std'), rip.lines, o.cols, []), rip.wins)
  }

  /** `Xinitscr(argc, argv)`: start a curses session. The arguments only reach the
      driver's open, whose result is `p.open`. */
  function Xinitscr(st: State, p: InitPlatform): (r: Outcome<Option<Window>>)
    // a live session is left alone
    ensures st.sp.Some? && st.sp.value.alive ==> r == Returned(None, st, [])
    // the driver cannot open the terminal
    ensures !(st.sp.Some? && st.sp.value.alive) && p.open.OpenFailed? ==> r == Returned(None, st, [])
    // a NULL return never changes anything
    ensures r.Returned? && r.value.None? ==> r.st == st && r.handed == []
    // the fatal exits: terminal too small, then curscr / pdc_lastscr, then stdscr
    ensures r.Exit? ==> r.code == 4 || r.code == 2 || r.code == 1
    ensures r == Exit(4) <==>
      !(st.sp.Some? && st.sp.value.alive) && p.open.Opened? && (p.open.lines < 2 || p.open.cols < 2)
    ensures r == Exit(2) <==>
      !(st.sp.Some? && st.sp.value.alive) && p.open.Opened? && p.open.lines >= 2 && p.open.cols >= 2
      && (p.failing == Some(MakeCurscr) || p.failing == Some(MakeLastscr))
    ensures r == Exit(1) <==>
      !(st.sp.Some? && st.sp.value.alive) && p.open.Opened? && p.open.lines >= 2 && p.open.cols >= 2
      && p.failing == Some(MakeStdscr)
    // stdscr comes back exactly when the guard, the open, the size check and every
    // window creation pass
    ensures r.Returned? && r.value.Some? <==>
      !(st.sp.Some? && st.sp.value.alive) && p.open.Opened? && p.open.lines >= 2 && p.open.cols >= 2
      && p.failing.None?
    // what a successful start leaves behind
    ensures r.Returned? && r.value.Some? ==>
      && Consistent(r.st)
      && r.value == r.st.stdscr
      && var s := r.st.sp.value;
      && s.alive && HasDefaultModes(s)
      && s.addr == p.open.addr && s.lines == p.open.lines && s.cols == p.open.cols
      && s.slkLines == p.slkLines && s.slkWin == p.slkWin && s.origCursor == p.cursorMode
      && s.preserve == p.open.preserve
      && s.ripCount == |st.pending| && s.ripOnTop == CountTop(st.pending)
      && r.st.pending == []
      && r.st.lines == p.open.lines - p.slkLines - |st.pending|
      && |r.handed| == |st.pending|
      && (p.open.preserve ==> !r.st.curscr.value.clear && !r.st.stdscr.value.clear)
      && (!p.open.preserve ==> r.st.curscr.value.clear)
  {
    if st.sp.Some? && st.sp.value.alive then Returned(None, st, [])
    else if p.open.OpenFailed? then Returned(None, st, [])
    else if p.open.lines < 2 || p.open.cols < 2 then Exit(4)
    else if p.failing.Some? && !p.failing.value.MakeStdscr? then Exit(2)
    else Build(st, p)
  }

  /** `initscr()`: `Xinitscr(0, NULL)`. */
  function Initscr(st: State, p: InitPlatform): (r: Outcome<Option<Window>>)
    ensures r.Returned? && r.value.Some? ==> Consistent(r.st) && r.st.sp.Some? && r.st.sp.value.alive
    ensures r.Returned? && r.value.None? ==> r.st == st
  {
    Xinitscr(st, p)
  }

  /** `newterm(type, outfd, infd)`: another way into `Xinitscr`; it answers with `SP`
      when a window came back and NULL otherwise. */
  function Newterm(st: State, p: InitPlatform): (r: Outcome<Ptr>)
    ensures r.Exit? <==> Xinitscr(st, p).Exit?
    ensures r.Exit? ==> r.code == Xinitscr(st, p).code
    ensures r.Returned? ==> r.st == Xinitscr(st, p).st && r.handed == Xinitscr(st, p).handed
    ensures r.Returned? ==> (r.value != Null <==> Xinitscr(st, p).value.Some?)
    ensures r.Returned? && r.value != Null ==> r.value == SpPtr(r.st) && r.st.sp.value.alive
  {
    match Xinitscr(st, p)
    case Exit(code) => Exit(code)
    case Returned(w, st', handed) => Returned(if w.Some? then SpPtr(st') else Null, st', handed)
  }

  /** `endwin()`: leave curses mode for now. Saving the program's tty mode and closing
      the driver happen outside this file; `SP` and the windows stay. The C code
      dereferences `SP` unconditionally. */
  function Endwin(st: State): (r: Reply<Status>)
    requires st.sp.Some?
    ensures r.value == Ok
    ensures r.st.sp.Some? && !r.st.sp.value.alive
    ensures r.st.sp.value.(alive := st.sp.value.alive) == st.sp.value
    ensures r.st.(sp := st.sp) == st
  {
    Reply(Ok, st.(sp := Some(st.sp.value.(alive := false))))
  }

  /** `isendwin()`: whether curses mode has been left; false when there is no `SP`. */
  function Isendwin(st: State): (r: Reply<bool>)
    ensures r.st == st
    ensures r.value ==> st.sp.Some?
    ensures st.sp.Some? ==> (r.value <==> !st.sp.value.alive)
  {
    Reply(st.sp.Some? && !st.sp.value.alive, st)
  }

  /** `set_term(new)` (here `screen`): there is only one screen, so it answers `SP` for `SP` and NULL
      for anything else. */
  function SetTerm(st: State, screen: Ptr): (r: Reply<Ptr>)
    ensures r.st == st
    ensures r.value == Null || r.value == SpPtr(st)
    ensures r.value != Null ==> screen == SpPtr(st)
    ensures screen == SpPtr(st) ==> r.value == screen
  {
    Reply(if screen == SpPtr(st) then SpPtr(st) else Null, st)
  }

  /** `delscreen(sp)`: free the session. Anything but `SP` is ignored. When both `sp`
      and `SP` are NULL the C code goes on to write `SP->alive`, so that call is
      excluded. */
  function Delscreen(st: State, sp: Ptr): (r: Reply<()>)
    requires !(sp.Null? && st.sp.None?)
    ensures sp != SpPtr(st) ==> r.st == st
    ensures sp == SpPtr(st) ==>
      && r.st.sp.None? && r.st.stdscr.None? && r.st.curscr.None? && r.st.lastscr.None?
      && r.st.lines == st.lines && r.st.cols == st.cols && r.st.pending == st.pending
  {
    if sp != SpPtr(st) then Reply((), st)
    else Reply((), st.(sp := None, stdscr := None, curscr := None, lastscr := None))
  }

  /** `wresize(w, rows, cols)`: a new size, the same origin and flags. */
  function Resized(w: Window, rows: int, cols: int): Window
  {
    w.(rows := rows, cols := cols)
  }

  /** The windows `resize_term` works on, and how the window half of it ended. */
  datatype WindowSet = WindowSet(status: Status, cur: Window, std: Window, last: Window, slk: Option<Window>)

  /** The window half of `resize_term`, once the terminal is known to be `rows` x `cols`
      and `stdscr` is to be `lines` x `cols`: `curscr`, `stdscr`, `pdc_lastscr` and then
      the soft-label-key window (`slkLines` high) are resized in that order, and the
      first failure answers ERR with the windows before it already resized. */
  function ResizeWindows(w: WindowSet, rows: int, cols: int, lines: int, slkLines: int, failing: Option<Resizing>): (r: WindowSet)
    ensures r.std.y == w.std.y && r.std.x == w.std.x
    ensures r.cur.y == w.cur.y && r.cur.x == w.cur.x
    ensures r.last.y == w.last.y && r.last.x == w.last.x
    ensures r.slk.Some? <==> w.slk.Some?
    ensures r.slk.Some? ==> r.slk.value.y == w.slk.value.y && r.slk.value.x == w.slk.value.x
    ensures r.status == Ok <==> (failing.Some? ==> failing.value.ResizeSlk? && w.slk.None?)
    ensures r.status == Ok ==>
      && r.cur.rows == rows && r.cur.cols == cols && r.cur.clear
      && r.last.rows == rows && r.last.cols == cols
      && r.std.rows == lines && r.std.cols == cols
      && (r.slk.Some? ==> r.slk.value.rows == slkLines && r.slk.value.cols == cols)
  {
    if failing == Some(ResizeCurscr) then w.(status := Err)
    else
      var cur := Resized(w.cur, rows, cols);
      if failing == Some(ResizeStdscr) then w.(status := Err, cur := cur)
      else
        var std := Resized(w.std, lines, cols);
        if failing == Some(ResizeLastscr) then w.(status := Err, cur := cur, std := std)
        else
          var last := Resized(w.last, rows, cols);
          var cur' := cur.(clear := true);
          if w.slk.None? then WindowSet(Ok, cur', std, last, None)
          else if failing.Some? then WindowSet(Err, cur', std, last, w.slk)
          else WindowSet(Ok, cur', std, last, Some(Resized(w.slk.value, slkLines, cols)))
  }

  /** `resize_term(nlines, ncols)`: take the terminal size the driver reports after
      its resize and re-derive the screen windows from it. `SP->lines`, `SP->cols`,
      `LINES` and `COLS` are updated BEFORE any window is resized, so a failing
      `wresize` returns ERR with those already changed and the windows resized up to
      the failing one. */
  function ResizeTerm(st: State, p: ResizePlatform): (r: Reply<Status>)
    requires Linked(st)
    ensures st.stdscr.None? || !p.accepted ==> r == Reply(Err, st)
    ensures r.value == Ok <==>
      st.stdscr.Some? && p.accepted
      && (p.failing.Some? ==> p.failing.value.ResizeSlk? && st.sp.value.slkWin.None?)
    // once the driver has accepted, the new size is recorded whatever follows
    ensures st.stdscr.Some? && p.accepted ==>
      && r.st.sp.Some? && r.st.stdscr.Some? && r.st.curscr.Some? && r.st.lastscr.Some?
      && var s := st.sp.value;
      && var s' := r.st.sp.value;
      && s'.lines == p.rows && s'.cols == p.cols
      && r.st.lines == p.rows - s.ripCount - s.slkLines && r.st.cols == p.cols
      && s'.(lines := s.lines, cols := s.cols, slkWin := s.slkWin) == s
      && r.st.pending == st.pending
      && r.st.stdscr.value.y == st.stdscr.value.y && r.st.stdscr.value.x == st.stdscr.value.x
      && r.st.curscr.value.y == st.curscr.value.y && r.st.curscr.value.x == st.curscr.value.x
      && r.st.lastscr.value.y == st.lastscr.value.y && r.st.lastscr.value.x == st.lastscr.value.x
      && (s'.slkWin.Some? <==> s.slkWin.Some?)
      && (s'.slkWin.Some? ==> s'.slkWin.value.y == s.slkWin.value.y && s'.slkWin.value.x == s.slkWin.value.x)
    ensures r.value == Ok ==>
      && var s := r.st.sp.value;
      && r.st.curscr.value.rows == p.rows && r.st.curscr.value.cols == p.cols
      && r.st.lastscr.value.rows == p.rows && r.st.lastscr.value.cols == p.cols
      && r.st.stdscr.value.rows == r.st.lines && r.st.stdscr.value.cols == r.st.cols
      && r.st.curscr.value.clear
      && (s.slkWin.Some? ==> s.slkWin.value.rows == s.slkLines && s.slkWin.value.cols == r.st.cols)
  {
    if st.stdscr.None? || !p.accepted then Reply(Err, st)
    else
      var s := st.sp.value;
      var lines := p.rows - s.ripCount - s.slkLines;
      var w := ResizeWindows(WindowSet(Ok, st.curscr.value, st.stdscr.value, st.lastscr.value, s.slkWin),
                             p.rows, p.cols, lines, s.slkLines, p.failing);
      var s' := s.(lines := p.rows, cols := p.cols, slkWin := w.slk);
      Reply(w.status, st.(sp := Some(s'), curscr := Some(w.cur), stdscr := Some(w.std), lastscr := Some(w.last),
                          lines := lines, cols := p.cols))
  }

  /** `is_termresized()`: whether the driver has flagged a user resize. The C code
      dereferences `SP` unconditionally. */
  function IsTermresized(st: State): (r: Reply<bool>)
    requires st.sp.Some?
    ensures r.st == st
    ensures r.value <==> st.sp.value.resized
  {
    Reply(st.sp.value.resized, st)
  }

  /** The notice `curses_version()` returns. */
  const Notice: string := "PDCurses 3.4 - Public Domain 2008"

  /** `curses_version()`: the library's name and version; it reads no state. */
  function CursesVersion(): (r: string)
    ensures |r| >= 12 && r[..12] == "PDCurses 3.4"
  {
    Notice
  }
}
