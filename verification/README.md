# PDCurses screen-session lifecycle, modelled in Dafny

This project models the screen-session lifecycle of PDCurses 3.4 as shipped in the
NuttX applications (`graphics/pdcurs34/pdcurses/pdc_initscr.c`). It covers the
session record `SP`, the three screen windows `curscr`, `pdc_lastscr` and `stdscr`,
and the globals `LINES` and `COLS`. It also covers the ripped-off-line table that
`ripoffline` fills before initialisation. The functions modelled are `Xinitscr`,
`initscr`, `newterm`, `endwin`, `isendwin`, `set_term`, `delscreen`, `resize_term`,
`is_termresized` and `curses_version`.

Each C function is a pure Dafny function. It takes the state before the call and the
results of the code it calls outside this file. It gives back the C return value and
the state after the call. A call to `exit(n)` is the outcome `Exit(n)`.

Files:

- `wrappers.dfy`: `Option`, standing for nullable pointers.
- `layout.dfy` (module `Layout`): the window record and the ripped-off-line
  registrations. It holds the registration loop of `Xinitscr` (`RipOff`), its
  closed-form placement (`RipRow`) and the lemmas about where ripped-off lines land.
- `initscr.dfy` (module `InitScr`): the session record, the global state, the
  platform inputs and one function per C function.
- `initscr_props.dfy` (module `InitScrProps`): lemmas that relate several calls.

Platform inputs:

- `InitPlatform` is what `Xinitscr` gets from outside the file:
  - the result of `PDC_scr_open`: failure, or the new `SP`'s address, `lines`,
    `cols` and `_preserve`;
  - `PDC_get_cursor_mode()`;
  - the soft-label-key rows and window left by `PDC_slk_initialize`;
  - which `newwin` call (if any) returns NULL.
- `ResizePlatform` is what `resize_term` gets from outside the file:
  - whether `PDC_resize_screen` accepts;
  - the size `PDC_get_rows` / `PDC_get_columns` report afterwards;
  - which `wresize` call (if any) fails.

The ripped-off-line placement is modelled exactly as the code computes it. A bottom
registration goes to row `LINES - 1` of the running `LINES`, and that count drops
after every registration of either side. So a bottom line registered after top
lines does not land on the terminal's last free row. On 24 rows, registering top,
top, bottom puts the bottom line on row 21, inside `stdscr` (rows 2..22), and row 23
is used by nobody. `Layout.BottomRowStacksIff`, `Layout.BottomRowBelowMainIff` and
`InitScrProps.TopTopBottomOn24Rows` state this.

## Model

| member | source | states |
|---|---|---|
| Layout.RipOff | graphics/pdcurs34/pdcurses/pdc_initscr.c:215-229 | the loop hands out one window per registration; afterwards LINES is lower by the number of registrations, the count has grown by that number, and the top offset has grown by the number of top registrations |
| Layout.RipOffPlacement | graphics/pdcurs34/pdcurses/pdc_initscr.c:215-229 | the k-th window handed out is 1 x COLS at column 0; a top registration gets the starting offset plus the number of top registrations before it, and a bottom one gets `lines - 1 - k`, counting ALL earlier registrations |
| Layout.BottomRowStacksIff | graphics/pdcurs34/pdcurses/pdc_initscr.c:217-228 | a bottom registration sits one row above the earlier bottom ones if and only if no top registration precedes it; each earlier top registration moves it up one more row |
| Layout.TopRowAboveMain | graphics/pdcurs34/pdcurses/pdc_initscr.c:221-233 | every top registration's row lies between the starting offset and the first row of stdscr |
| Layout.TopRowsFill | graphics/pdcurs34/pdcurses/pdc_initscr.c:221-224 | the top registrations occupy every row from the starting offset up to the start of stdscr, with no gap |
| Layout.BottomMeetsTopIff | graphics/pdcurs34/pdcurses/pdc_initscr.c:215-229 | a bottom registration shares its row with some top registration if and only if its row `lines - 1 - k` falls inside the block of top rows |
| Layout.BottomRowBelowMainIff | graphics/pdcurs34/pdcurses/pdc_initscr.c:215-233 | a bottom registration's row lies below stdscr if and only if the top registrations before it are no more than the bottom registrations after it |
| InitScr.Xinitscr | graphics/pdcurs34/pdcurses/pdc_initscr.c:146-271 | a live session is refused with NULL and no change; a failed open gives NULL and no change; a terminal under 2 x 2 exits with 4, a failed curscr/pdc_lastscr exits with 2, a failed stdscr exits with 1; otherwise stdscr comes back with the session alive, the mode defaults installed, every registration consumed and counted, the driver's size, `_preserve`, cursor mode and the soft-label-key rows and window recorded in SP, the geometry consistent, and curscr/stdscr clear flags set by `_preserve` |
| InitScr.Initscr | graphics/pdcurs34/pdcurses/pdc_initscr.c:273-278 | a returned window leaves a live, consistent session; a NULL return changes nothing |
| InitScr.Newterm | graphics/pdcurs34/pdcurses/pdc_initscr.c:307-315 | answers the new SP exactly when the start returned a window, NULL otherwise; it leaves the same state and hands out the same windows as the start, and exits exactly when the start exits, with the same code (4, 2 or 1) |
| InitScr.Endwin | graphics/pdcurs34/pdcurses/pdc_initscr.c:280-295 | answers OK and clears `alive`; nothing else in the session or the windows changes |
| InitScr.Isendwin | graphics/pdcurs34/pdcurses/pdc_initscr.c:297-305 | true only when SP exists, and then exactly when the session is not alive; no state change |
| InitScr.SetTerm | graphics/pdcurs34/pdcurses/pdc_initscr.c:317-327 | answers either NULL or SP, answers SP exactly for SP, and changes nothing |
| InitScr.Delscreen | graphics/pdcurs34/pdcurses/pdc_initscr.c:329-362 | a pointer other than SP changes nothing; SP itself leaves SP, stdscr, curscr and pdc_lastscr NULL, with LINES, COLS and the registration table untouched |
| InitScr.ResizeWindows | graphics/pdcurs34/pdcurses/pdc_initscr.c:380-401 | the windows keep their origins and the soft-label-key window neither appears nor disappears; the result is OK exactly when no resize fails (a soft-label-key failure only counts when that window exists); on OK curscr and pdc_lastscr have the terminal size, stdscr is LINES x COLS, curscr is marked for clearing, and the soft-label-key window is slklines x COLS |
| InitScr.ResizeTerm | graphics/pdcurs34/pdcurses/pdc_initscr.c:364-406 | no stdscr or a rejected driver resize gives ERR and no change; once accepted, SP->lines/cols take the reported size and LINES = rows - ripped lines - slk lines even if a window resize then fails; nothing else in SP changes, a soft-label-key window exists afterwards exactly when it existed before, and every window keeps its origin; OK exactly when every window resize succeeds, and then every window matches the new size |
| InitScr.IsTermresized | graphics/pdcurs34/pdcurses/pdc_initscr.c:408-416 | answers the driver's resize flag and changes nothing |
| InitScr.CursesVersion | graphics/pdcurs34/pdcurses/pdc_initscr.c:418-421 | the notice names PDCurses 3.4 |
| InitScrProps.InitPlacesRippedLines | graphics/pdcurs34/pdcurses/pdc_initscr.c:209-233 | after a successful start every ripped-off line is 1 x COLS at column 0; top ones sit above stdscr on rows 0, 1, ... in registration order; the k-th registration, if bottom, sits on row `SP->lines - slklines - 1 - k`, below stdscr exactly when the earlier top ones are no more than the later bottom ones |
| InitScrProps.TopTopBottomOn24Rows | graphics/pdcurs34/pdcurses/pdc_initscr.c:215-233 | on 24 x 80 without soft-label keys, top, top, bottom give 1 x 80 windows at column 0 on rows 0, 1 and 21, and stdscr is 21 x 80 at row 2, column 0, so the bottom line lies inside stdscr (nothing is claimed about the clear flags) |
| InitScrProps.OperationsKeepConsistent | graphics/pdcurs34/pdcurses/pdc_initscr.c:183-233 | a start, endwin, delscreen, a rejected resize and a fully successful resize all keep SP and the three windows present together and laid out (LINES + ripped + slk = SP->lines, full-size curscr/pdc_lastscr, stdscr LINES x COLS below the top ripped lines) |
| InitScrProps.OperationsKeepLinked | graphics/pdcurs34/pdcurses/pdc_initscr.c:155-405 | every transition, including a resize that fails part-way, keeps "stdscr exists only together with SP, curscr and pdc_lastscr", which resize_term relies on when it dereferences them after seeing stdscr; program start has it too |
| InitScrProps.ResizeFailureBreaksLayout | graphics/pdcurs34/pdcurses/pdc_initscr.c:376-385 | when the driver reports a new height and the curscr resize fails, resize_term answers ERR with SP->lines and LINES already updated but the windows unchanged, which breaks the layout |
| InitScrProps.NewtermThenSetTerm | graphics/pdcurs34/pdcurses/pdc_initscr.c:314-354 | set_term answers the SCREEN that newterm handed out while the session exists, and NULL once delscreen has freed it |
| InitScrProps.SecondInitRefused | graphics/pdcurs34/pdcurses/pdc_initscr.c:155-158 | a second start while alive answers NULL with the state unchanged, and newterm then answers NULL |
| InitScrProps.EndwinAndIsendwin | graphics/pdcurs34/pdcurses/pdc_initscr.c:289-304 | isendwin is false after a successful start, true after endwin, and false again after delscreen |
| InitScrProps.InitAgainAfterDelscreen | graphics/pdcurs34/pdcurses/pdc_initscr.c:336-354 | after delscreen(SP) all four pointers are NULL and a start on a usable terminal succeeds, with no ripped-off lines left to place |
| InitScrProps.InitAfterEndwinForgetsRippedLines | graphics/pdcurs34/pdcurses/pdc_initscr.c:177-233 | starting again after endwin builds a fresh session with no ripped-off lines: stdscr starts on row 0 and spans every row but the soft-label keys' |
| InitScrProps.ResizeAfterInit | graphics/pdcurs34/pdcurses/pdc_initscr.c:376-378 | a successful resize after a start keeps the rows taken by the ripped-off lines and soft-label keys out of LINES, keeps stdscr below the top ripped lines, keeps the session alive, and leaves the resize flag as it was |

## Notes on the code's behaviour

- Bottom ripped-off lines are placed relative to the running `LINES`, so their row
  depends on how many registrations of either side came first (see above). A
  layout where bottom lines always fill the terminal's last rows is not what the
  code does, and the model does not assume it.
- `resize_term` never touches `SP->resized`; a successful resize leaves the flag as
  it was.
- `delscreen(NULL)` when `SP` is already NULL passes the `sp != SP` test and then
  writes `SP->alive`. It is not a no-op, so `Delscreen` requires that this call
  is not made. `endwin` and `is_termresized` likewise dereference `SP` unchecked.
- Only the raw terminal size is checked against 2 x 2. Nothing checks that
  `stdscr` still has two rows after the soft-label keys and ripped-off lines are
  taken out.
- There is no resume operation in this file. Leaving `endwin` happens on the next
  refresh, which is outside this file. A second `initscr` after `endwin` builds a
  fresh session, as `InitScrProps.InitAfterEndwinForgetsRippedLines` states.
- A `wresize` failure in `resize_term` is not rolled back. `SP->lines`, `SP->cols`,
  `LINES` and `COLS` are already updated and the windows are resized up to the
  failing one.
- `resize_term` does not resize the ripped-off-line windows. Their owners keep
  them at their old width.

## Left out

- Platform driver internals (`PDC_scr_open`, `PDC_scr_close`, `PDC_scr_free`,
  `PDC_resize_screen`, `PDC_get_rows`, `PDC_get_columns`, `PDC_get_cursor_mode`,
  `PDC_sysname`, `def_shell_mode`, `def_prog_mode`): foreign calls. Only their
  results appear, as inputs.
- Window-engine internals (`newwin`, `wresize`, `werase`, `wattrset`, `wclrtobot`,
  `wmove`, `touchwin`, `untouchwin`, `wnoutrefresh`, `delwin`): only the resulting
  size, origin and clear flag are modelled. A window's contents and damage
  tracking are not. `wresize` is taken to keep a window's origin and clear flag.
  Every `newwin` call is taken to succeed unless the `failing` input names it, and
  whatever its arguments: the ripped-off-line windows (pdc_initscr.c:219 and
  :223-224) are handed out even when their row lies off the terminal, and
  `stdscr`'s creation depends only on `failing`, even when `LINES` has dropped to 0
  or below. So a 2-row terminal with three top registrations starts successfully,
  hands a window on row 2 and returns a `stdscr` of -1 rows.
- Layout.RipOffPlacement: states the size and origin of each ripped-off-line window
  but nothing about its clear flag. A fresh window's clear flag belongs to the
  window engine, which is not part of this model; `NewWin` leaves it unset only as
  a placeholder.
- Soft-label-key internals (`PDC_slk_initialize`, `PDC_slk_free`,
  `slk_noutrefresh`): their row count and window are inputs. The second
  `PDC_slk_initialize` in `resize_term` is taken to change nothing the lifecycle
  reads.
- The colour table (`PDC_init_atrtab`), mouse state and `TABSIZE`: other
  subsystems' state, not read by the lifecycle.
- The ripped-off-line initialiser callbacks: only the window handed to each is
  recorded (`handed`), not what the callback does with it.
- `ripoffline`, which fills the registration table and limits it to five entries,
  is not part of this model. The table is part of the initial state (`Boot`) and
  is not bounded here.
- Diagnostics on standard error, `PDC_LOG`, the `ttytype` string, and the
  `CONFIG_PDCURSES_MULTITHREAD` context variant: output and a build variant.
- Integer widths: sizes and counters are unbounded integers. The counters stay
  far below any C limit with at most five registrations.
- InitScr.Xinitscr: when `PDC_scr_open` fails, the state is taken to be unchanged.
  Whatever the driver itself left in `SP` is not modelled. A window fresh from
  `newwin` is taken to have its clear flag unset, so nothing is claimed about
  `stdscr`'s clear flag when `_preserve` is off.
- InitScr.ResizeTerm: the requested size `(nlines, ncols)` is not a parameter. It
  only reaches `PDC_resize_screen`, whose outcome and reported size are the inputs.
- InitScr.CursesVersion: states only that the notice starts with "PDCurses 3.4". The
  full constant is "PDCurses 3.4 - Public Domain 2008".
