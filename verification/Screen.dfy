/** The screen buffer: characters are written into a page, and a refresh sends the terminal only the cells that differ
    from what it was last sent. However writing, scrolling, clearing and refreshing alternate, the terminal shows what
    it would show if every refresh sent every cell. */
module Screen {
  import opened Strings

  const SCREEN_WIDTH := 80
  const SCREEN_HEIGHT := 30
  const CELLS := SCREEN_WIDTH * SCREEN_HEIGHT
  const SCROLL_TOP := SCREEN_HEIGHT / 2 + 1

  const BACKSPACE: char := 8 as char
  const ENTER: char := 13 as char

  predicate Printable(ch: char) {
    ' ' <= ch <= '~'
  }

  /** Characters that are a cell or move the cursor. Other control characters would be commands to the terminal. */
  predicate Writable(ch: char) {
    Printable(ch) || ch == '\n' || ch == BACKSPACE || ch == ENTER || ch == NUL
  }

  type Cells = c: string | |c| == CELLS
    ghost witness seq(CELLS, _ => ' ')

  function At(row: int, col: int): int {
    row * SCREEN_WIDTH + col
  }

  // ---------- the terminal ----------

  /** What the terminal shows, and its cursor, counted from zero. */
  datatype Terminal = Terminal(cells: Cells, row: int, col: int)

  predicate TerminalOk(t: Terminal) {
    0 <= t.row < SCREEN_HEIGHT && 0 <= t.col < SCREEN_WIDTH
  }

  /** A coordinate of a cursor command: counted from one, where zero means one, and not beyond the last. */
  function Coordinate(v: nat, last: nat): (r: nat)
    requires 1 <= last
    ensures r < last
  {
    if v == 0 then 0 else if v > last then last - 1 else v - 1
  }

  /** Cursor position (section 8.3.21 of ECMA-48). A negative number is not a parameter: the command is dropped. */
  function MoveTo(t: Terminal, x: int, y: int): (r: Terminal)
    ensures TerminalOk(t) || (x >= 0 && y >= 0) ==> TerminalOk(r)
  {
    if x < 0 || y < 0 then t else t.(row := Coordinate(y, SCREEN_HEIGHT), col := Coordinate(x, SCREEN_WIDTH))
  }

  /** A printable character appears at the cursor, which moves on; NUL does nothing. */
  function Print(t: Terminal, ch: char): (r: Terminal)
    requires TerminalOk(t)
    ensures TerminalOk(r)
  {
    if !Printable(ch) then t
    else Terminal(t.cells[At(t.row, t.col) := ch], t.row, if t.col + 1 < SCREEN_WIDTH then t.col + 1 else t.col)
  }

  function Blank(): Cells {
    seq(CELLS, _ => ' ')
  }

  // ---------- the page ----------

  datatype Page = Page(cells: Cells, x: int, y: int)

  /** The cursor is on the page. */
  predicate OnPage(p: Page) {
    0 <= p.x < SCREEN_WIDTH && 0 <= p.y < SCREEN_HEIGHT
  }

  ghost predicate PageOk(p: Page) {
    forall k | 0 <= k < CELLS :: Printable(p.cells[k]) || p.cells[k] == NUL
  }

  function ScrolledCell(cells: Cells, k: nat): char
    requires k < CELLS
  {
    if k < At(SCROLL_TOP, 0) then cells[k]
    else if k < At(SCREEN_HEIGHT - 1, 0) then cells[k + SCREEN_WIDTH]
    else ' '
  }

  function Scrolled(cells: Cells): Cells {
    seq(CELLS, k requires 0 <= k < CELLS => ScrolledCell(cells, k))
  }

  predicate IsNewLine(ch: char) {
    ch == '\n' || ch == ENTER
  }

  /** The cell a write goes to exists. The cursor may have been moved anywhere before. */
  predicate InReach(p: Page, ch: char) {
    if IsNewLine(ch) then true
    else if ch == BACKSPACE then p.x > 0 ==> 0 <= At(p.y, p.x - 1) < CELLS
    else 0 <= At(p.y, p.x) < CELLS
  }

  /** The cells and the cursor before the cursor is brought back to the page. */
  function Struck(p: Page, ch: char): Page
    requires InReach(p, ch)
  {
    if IsNewLine(ch) then p.(x := 0, y := p.y + 1)
    else if ch == BACKSPACE then
      if p.x > 0 then Page(p.cells[At(p.y, p.x - 1) := ' '], p.x - 1, p.y) else p
    else Page(p.cells[At(p.y, p.x) := ch], p.x + 1, p.y)
  }

  /** Past the end of a line the next one begins. */
  function Row(p: Page): int {
    if p.x >= SCREEN_WIDTH then p.y + 1 else p.y
  }

  function Col(p: Page): int {
    if 0 <= p.x < SCREEN_WIDTH then p.x else 0
  }

  predicate Scrolls(p: Page, ch: char) {
    InReach(p, ch) && Row(Struck(p, ch)) >= SCREEN_HEIGHT
  }

  /** Below the last line the lower half scrolls. */
  function Typed(p: Page, ch: char): Page
    requires InReach(p, ch)
  {
    var q := Struck(p, ch);
    if Row(q) >= SCREEN_HEIGHT then Page(Scrolled(q.cells), 0, SCREEN_HEIGHT - 1)
    else Page(q.cells, Col(q), if Row(q) < 0 then 0 else Row(q))
  }

  /** Wherever the cursor was, after a write it is on the page. */
  lemma TypedIsOnPage(p: Page, ch: char)
    requires InReach(p, ch)
    ensures OnPage(Typed(p, ch))
  {
  }

  /** From the page, only a new line on the last row and a character in the last cell scroll. */
  lemma WhenItScrolls(p: Page, ch: char)
    requires OnPage(p)
    ensures InReach(p, ch)
    ensures Scrolls(p, ch) <==>
      p.y == SCREEN_HEIGHT - 1 && (IsNewLine(ch) || (ch != BACKSPACE && p.x == SCREEN_WIDTH - 1))
  {
  }

  predicate InLines(k: nat, line1: nat, line2: int) {
    At(line1, 0) <= k < At(line2 + 1, 0)
  }

  function Cleared(cells: Cells, line1: nat, line2: int): Cells {
    seq(CELLS, k requires 0 <= k < CELLS => if InLines(k, line1, line2) then ' ' else cells[k])
  }

  // ---------- the two ways to refresh ----------

  /** The terminal after every cell is sent. NUL cells are not displayed: the terminal keeps what it showed there. */
  function Overlay(cells: Cells, shown: Cells): Cells {
    seq(CELLS, k requires 0 <= k < CELLS => if cells[k] == NUL then shown[k] else cells[k])
  }

  /** Sending every cell leaves the terminal's cursor in the last one; then it is put where the page's is. */
  function Redrawn(p: Page, t: Terminal): Terminal {
    MoveTo(Terminal(Overlay(p.cells, t.cells), SCREEN_HEIGHT - 1, SCREEN_WIDTH - 1), p.x, p.y)
  }

  /** The differential screen: a page, what was last sent of it (NUL where that is not known), and the terminal. */
  datatype Display = Display(page: Page, sent: Cells, terminal: Terminal)

  /** What was sent is what is shown. */
  predicate CellShown(sent: char, shown: char) {
    sent == NUL || sent == shown
  }

  ghost predicate DisplayOk(d: Display) {
    && PageOk(d.page) && TerminalOk(d.terminal)
    && forall k | 0 <= k < CELLS :: CellShown(d.sent[k], d.terminal.cells[k])
  }

  function Patched(cells: Cells, sent: Cells, shown: Cells): Cells {
    seq(CELLS, k requires 0 <= k < CELLS => if cells[k] != sent[k] && Printable(cells[k]) then cells[k] else shown[k])
  }

  /** Where the terminal's cursor is after the cell of this number has been sent. */
  function Behind(k: nat, ch: char): (r: (int, int))
    requires k < CELLS
    ensures 0 <= r.0 < SCREEN_HEIGHT && 0 <= r.1 < SCREEN_WIDTH
  {
    var row, col := k / SCREEN_WIDTH, k % SCREEN_WIDTH;
    (row, if Printable(ch) && col + 1 < SCREEN_WIDTH then col + 1 else col)
  }

  /** And after the differences among the first n cells: behind the last one sent, if any. */
  function Resting(cells: Cells, sent: Cells, t: Terminal, n: nat): (r: (int, int))
    requires n <= CELLS
    ensures TerminalOk(t) ==> 0 <= r.0 < SCREEN_HEIGHT && 0 <= r.1 < SCREEN_WIDTH
  {
    if n == 0 then (t.row, t.col)
    else if cells[n - 1] != sent[n - 1] then Behind(n - 1, cells[n - 1])
    else Resting(cells, sent, t, n - 1)
  }

  /** The terminal after only the differences are sent. */
  function Updated(d: Display): Terminal {
    var (row, col) := Resting(d.page.cells, d.sent, d.terminal, CELLS);
    Terminal(Patched(d.page.cells, d.sent, d.terminal.cells), row, col)
  }

  /** The page's cursor may be anywhere. */
  function Refreshed(d: Display): Display {
    d.(sent := d.page.cells, terminal := MoveTo(Updated(d), d.page.x, d.page.y))
  }

  /** Rows that have moved or been cleared must be sent again. */
  function Forgotten(sent: Cells, line1: nat, line2: int): Cells {
    seq(CELLS, k requires 0 <= k < CELLS => if InLines(k, line1, line2) then NUL else sent[k])
  }

  // ---------- operations ----------

  datatype Op = Write(ch: char) | Clear(line1: nat, line2: int) | Move(x: int, y: int) | Refresh

  /** The cell a write goes to exists. */
  predicate Doable(p: Page, op: Op) {
    op.Write? ==> InReach(p, op.ch)
  }

  predicate OpOk(p: Page, op: Op) {
    Doable(p, op) && (op.Write? ==> Writable(op.ch))
  }

  /** What an operation does to the page, whichever way it is refreshed. */
  function PageAfter(p: Page, op: Op): Page
    requires Doable(p, op)
  {
    match op
    case Write(ch) => Typed(p, ch)
    case Clear(line1, line2) => Page(Cleared(p.cells, line1, line2), 0, 0)
    case Move(x, y) => p.(x := x, y := y)
    case Refresh => p
  }

  /** An operation of the screen that keeps the terminal up to date by differences. */
  function Do(d: Display, op: Op): Display
    requires Doable(d.page, op)
  {
    var e := d.(page := PageAfter(d.page, op));
    match op
    case Write(ch) =>
      if Scrolls(d.page, ch) then e.(sent := Forgotten(d.sent, SCROLL_TOP, SCREEN_HEIGHT - 1)) else e
    case Clear(line1, line2) => Refreshed(e.(sent := Forgotten(d.sent, line1, line2)))
    case Move(_, _) => e
    case Refresh => Refreshed(e)
  }

  /** The same operation on a page whose refresh sends everything. */
  function DoFully(p: Page, t: Terminal, op: Op): (r: (Page, Terminal))
    requires Doable(p, op)
  {
    var q := PageAfter(p, op);
    (q, if op.Clear? || op.Refresh? then Redrawn(q, t) else t)
  }

  lemma TypedOk(p: Page, ch: char)
    requires PageOk(p) && Writable(ch) && InReach(p, ch)
    ensures PageOk(Typed(p, ch))
  {
  }

  /** Patching what differs is the same as sending everything, but for where a dropped cursor command leaves the
      terminal's cursor. */
  lemma PatchIsOverlay(d: Display)
    requires DisplayOk(d)
    ensures Patched(d.page.cells, d.sent, d.terminal.cells) == Overlay(d.page.cells, d.terminal.cells)
    ensures DisplayOk(Refreshed(d)) && Refreshed(d).terminal.cells == Redrawn(d.page, d.terminal).cells
    ensures d.page.x >= 0 && d.page.y >= 0 ==> Refreshed(d).terminal == Redrawn(d.page, d.terminal)
  {
    forall k | 0 <= k < CELLS
      ensures Patched(d.page.cells, d.sent, d.terminal.cells)[k] == Overlay(d.page.cells, d.terminal.cells)[k]
    {
      assert CellShown(d.sent[k], d.terminal.cells[k]);
    }
  }

  /** Clearing the whole screen: nothing that was sent before counts any more. */
  predicate StartsOver(op: Op) {
    op.Clear? && op.line1 == 0 && op.line2 >= SCREEN_HEIGHT - 1
  }

  /** The terminal's cursor does not tell the two ways to refresh apart. */
  predicate CursorTold(p: Page, op: Op) {
    op == Refresh ==> p.x >= 0 && p.y >= 0
  }

  lemma OpIsSimulated(d: Display, op: Op)
    requires OpOk(d.page, op) && if StartsOver(op) then TerminalOk(d.terminal) else DisplayOk(d)
    ensures DisplayOk(Do(d, op)) && Do(d, op).page == PageAfter(d.page, op)
    ensures Do(d, op).terminal.cells == DoFully(d.page, d.terminal, op).1.cells
    ensures CursorTold(d.page, op) ==> Do(d, op).terminal == DoFully(d.page, d.terminal, op).1
  {
    match op
    case Write(ch) => TypedOk(d.page, ch);
    case Clear(line1, line2) =>
      PatchIsOverlay(d.(page := PageAfter(d.page, op), sent := Forgotten(d.sent, line1, line2)));
    case Move(x, y) =>
    case Refresh => PatchIsOverlay(d);
  }

  /** Every character is one that may be written, and is written where there is a cell. */
  predicate OpsOk(p: Page, ops: seq<Op>)
    decreases |ops|
  {
    ops == [] || (OpOk(p, ops[0]) && OpsOk(PageAfter(p, ops[0]), ops[1..]))
  }

  ghost function DoAll(d: Display, ops: seq<Op>): Display
    requires DisplayOk(d) && OpsOk(d.page, ops)
    decreases |ops|
  {
    if ops == [] then d
    else
      OpIsSimulated(d, ops[0]);
      DoAll(Do(d, ops[0]), ops[1..])
  }

  ghost function DoAllFully(p: Page, t: Terminal, ops: seq<Op>): (Page, Terminal)
    requires OpsOk(p, ops)
    decreases |ops|
  {
    if ops == [] then (p, t)
    else
      var (q, u) := DoFully(p, t, ops[0]);
      DoAllFully(q, u, ops[1..])
  }

  /** Over every sequence of operations, wherever the cursor is moved, the differential screen and the one that always
      redraws everything have the same page and show the same on terminals that showed the same at first. */
  lemma {:induction false} DifferentialIsFull(d: Display, t: Terminal, ops: seq<Op>)
    requires DisplayOk(d) && OpsOk(d.page, ops) && t.cells == d.terminal.cells
    ensures DisplayOk(DoAll(d, ops))
    ensures var (p, u) := DoAllFully(d.page, t, ops);
      DoAll(d, ops).page == p && DoAll(d, ops).terminal.cells == u.cells
    decreases |ops|
  {
    if ops == [] {
    } else {
      OpIsSimulated(d, ops[0]);
      DifferentialIsFull(Do(d, ops[0]), DoFully(d.page, t, ops[0]).1, ops[1..]);
    }
  }

  /** No refresh finds the cursor left of the page or above it. */
  predicate AllTold(p: Page, ops: seq<Op>)
    requires OpsOk(p, ops)
    decreases |ops|
  {
    ops == [] || (CursorTold(p, ops[0]) && AllTold(PageAfter(p, ops[0]), ops[1..]))
  }

  /** Then the terminals agree in everything, their cursors included. */
  lemma {:induction false} CursorIsTheSame(d: Display, ops: seq<Op>)
    requires DisplayOk(d) && OpsOk(d.page, ops) && AllTold(d.page, ops)
    ensures DoAll(d, ops).terminal == DoAllFully(d.page, d.terminal, ops).1
    decreases |ops|
  {
    if ops == [] {
    } else {
      OpIsSimulated(d, ops[0]);
      CursorIsTheSame(Do(d, ops[0]), ops[1..]);
    }
  }

  /** Right after a refresh the terminal shows the page exactly if no NUL was written into it. */
  lemma ShowsThePage(d: Display)
    requires DisplayOk(d) && forall k | 0 <= k < CELLS :: Printable(d.terminal.cells[k])
    ensures Refreshed(d).terminal.cells == d.page.cells <==> NUL !in d.page.cells
  {
    PatchIsOverlay(d);
    var shown := Refreshed(d).terminal.cells;
    if NUL in d.page.cells {
      var k :| 0 <= k < CELLS && d.page.cells[k] == NUL;
      assert shown[k] == d.terminal.cells[k] && Printable(shown[k]);
      assert shown[k] != d.page.cells[k];
    }
  }

  ghost predicate AllPrintable(cells: Cells) {
    forall k | 0 <= k < CELLS :: Printable(cells[k])
  }

  lemma StaysPrintable(d: Display, op: Op)
    requires OpOk(d.page, op) && AllPrintable(d.page.cells) && op != Write(NUL)
    ensures AllPrintable(Do(d, op).page.cells)
  {
  }

  lemma {:induction false} AllStaysPrintable(d: Display, ops: seq<Op>)
    requires DisplayOk(d) && OpsOk(d.page, ops) && AllPrintable(d.page.cells) && Write(NUL) !in ops
    ensures AllPrintable(DoAll(d, ops).page.cells)
    decreases |ops|
  {
    if ops == [] {
    } else {
      OpIsSimulated(d, ops[0]);
      StaysPrintable(d, ops[0]);
      AllStaysPrintable(Do(d, ops[0]), ops[1..]);
    }
  }

  /** Once the whole screen was cleared, and unless a NUL is written, every refresh leaves exactly the page on the
      terminal, whatever the terminal showed in the beginning and whatever was believed to have been sent. */
  lemma EveryRefreshShowsThePage(d: Display, ops: seq<Op>)
    requires TerminalOk(d.terminal) && Write(NUL) !in ops
    requires OpsOk(PageAfter(d.page, Clear(0, SCREEN_HEIGHT - 1)), ops)
    ensures DisplayOk(Do(d, Clear(0, SCREEN_HEIGHT - 1))) && DisplayOk(DoAll(Do(d, Clear(0, SCREEN_HEIGHT - 1)), ops))
    ensures var e := DoAll(Do(d, Clear(0, SCREEN_HEIGHT - 1)), ops);
      Do(e, Refresh).terminal.cells == e.page.cells == Do(e, Refresh).page.cells
  {
    OpIsSimulated(d, Clear(0, SCREEN_HEIGHT - 1));
    var c := Do(d, Clear(0, SCREEN_HEIGHT - 1));
    AllStaysPrintable(c, ops);
    DifferentialIsFull(c, c.terminal, ops);
    PatchIsOverlay(DoAll(c, ops));
  }

  // ---------- what writing does ----------

  /** A scroll moves rows 17 to 29 up by one, blanks row 29 and leaves rows 0 to 15 alone; a character that causes it is
      in the last cell before. */
  lemma ScrollMovesLowerRows(p: Page, ch: char, row: int, col: int)
    requires OnPage(p) && Scrolls(p, ch)
    requires 0 <= row < SCREEN_HEIGHT && 0 <= col < SCREEN_WIDTH
    ensures var q := Typed(p, ch);
      var cells := if IsNewLine(ch) then p.cells else p.cells[CELLS - 1 := ch];
      && q.x == 0 && q.y == SCREEN_HEIGHT - 1
      && q.cells[At(row, col)] ==
         if row < 16 then cells[At(row, col)] else if row < 29 then cells[At(row + 1, col)] else ' '
  {
    WhenItScrolls(p, ch);
  }

  /** Writes a text; only for its first character may the cursor be off the page. */
  function TypeAll(p: Page, s: string): Page
    requires s != [] ==> InReach(p, s[0])
    decreases |s|
  {
    if s == [] then p
    else
      TypedIsOnPage(p, s[0]);
      TypeAll(Typed(p, s[0]), s[1..])
  }

  lemma Spliced(cells: string, at: nat, s: string)
    requires s != [] && at + |s| <= |cells|
    ensures var c := cells[at := s[0]];
      c[..at + 1] + s[1..] + c[at + |s|..] == cells[..at] + s + cells[at + |s|..]
  {
  }

  /** Text that fits in the rest of the line appears there, one character after the other, and nothing else changes. */
  lemma {:induction false} TextAppears(p: Page, s: string)
    requires OnPage(p) && (forall ch | ch in s :: Printable(ch)) && p.x + |s| < SCREEN_WIDTH
    ensures var at := At(p.y, p.x);
      TypeAll(p, s) == Page(p.cells[..at] + s + p.cells[at + |s|..], p.x + |s|, p.y)
    decreases |s|
  {
    var at := At(p.y, p.x);
    if s == [] {
      assert p.cells[..at] + s + p.cells[at..] == p.cells;
    } else {
      assert s[0] in s;
      var q := Typed(p, s[0]);
      assert q == Page(p.cells[at := s[0]], p.x + 1, p.y);
      TextAppears(q, s[1..]);
      Spliced(p.cells, at, s);
    }
  }

  // ---------- the loops of the program ----------

  /** Of the display as it was the first n cells have been sent, the others are as they were. */
  ghost predicate SentUpTo(d: Display, cells: Cells, sent: Cells, t: Terminal, n: nat)
    requires n <= CELLS
  {
    && cells == d.page.cells && TerminalOk(t)
    && (t.row, t.col) == Resting(cells, d.sent, d.terminal, n)
    && forall k | 0 <= k < CELLS ::
      && sent[k] == (if k < n then cells[k] else d.sent[k])
      && t.cells[k] == (if k < n && cells[k] != d.sent[k] && Printable(cells[k]) then cells[k] else d.terminal.cells[k])
  }

  ghost predicate BlankUpTo(cells0: Cells, sent0: Cells, cells: Cells, sent: Cells, line1: nat, n: int) {
    forall k | 0 <= k < CELLS ::
      && cells[k] == (if At(line1, 0) <= k < n then ' ' else cells0[k])
      && sent[k] == (if At(line1, 0) <= k < n then NUL else sent0[k])
  }

  lemma CellAt(row: nat, col: nat)
    requires col < SCREEN_WIDTH
    ensures At(row, col) / SCREEN_WIDTH == row && At(row, col) % SCREEN_WIDTH == col
  {
  }

  lemma LengthIsText(memory: string, text: string, l: nat)
    requires memory == text + [NUL] && NUL !in text && l < |memory| && memory[l] == NUL
    ensures l == |text|
  {
  }

  lemma NothingSent(d: Display)
    requires TerminalOk(d.terminal)
    ensures SentUpTo(d, d.page.cells, d.sent, d.terminal, 0)
  {
  }

  /** The next cell: sent if it differs, passed over if not. */
  lemma NextCell(d: Display, sent: Cells, t: Terminal, row: nat, col: nat)
    requires row < SCREEN_HEIGHT && col < SCREEN_WIDTH && SentUpTo(d, d.page.cells, sent, t, At(row, col))
    ensures var k, ch := At(row, col), d.page.cells[At(row, col)];
      if ch != sent[k]
      then SentUpTo(d, d.page.cells, sent[k := ch], Print(MoveTo(t, col + 1, row + 1), ch), k + 1)
      else SentUpTo(d, d.page.cells, sent, t, k + 1)
  {
    CellAt(row, col);
  }

  lemma AllSent(d: Display, sent: Cells, t: Terminal)
    requires SentUpTo(d, d.page.cells, sent, t, CELLS)
    ensures sent == d.page.cells && t == Updated(d)
  {
    assert sent == d.page.cells && t.cells == Patched(d.page.cells, d.sent, d.terminal.cells);
    hide Resting;
  }

  /** When the loop over the lines ends they are blank. */
  lemma AllBlank(d: Display, cells: Cells, sent: Cells, line1: nat, line2: int, i: nat)
    requires BlankUpTo(d.page.cells, d.sent, cells, sent, line1, At(i, 0))
    requires line1 <= i && (i <= line2 + 1 || i == line1) && (i <= SCREEN_HEIGHT || i == line1)
    requires i >= SCREEN_HEIGHT || i > line2
    ensures cells == Cleared(d.page.cells, line1, line2) && sent == Forgotten(d.sent, line1, line2)
  {
  }

  // ---------- the program ----------

  class ScreenBuffer {
    const newScreen: array<char>
    const oldScreen: array<char>
    var cursorX: int
    var cursorY: int
    var terminal: Terminal

    ghost predicate Shape()
      reads this, newScreen, oldScreen
    {
      newScreen.Length == CELLS && oldScreen.Length == CELLS && newScreen != oldScreen && TerminalOk(terminal)
    }

    ghost function View(): Display
      requires newScreen.Length == CELLS && oldScreen.Length == CELLS
      reads this, newScreen, oldScreen
    {
      Display(Page(newScreen[..], cursorX, cursorY), oldScreen[..], terminal)
    }

    ghost predicate Valid()
      reads this, newScreen, oldScreen
    {
      Shape() && DisplayOk(View())
    }

    /** Start-up fills both buffers with the digit zero, which the terminal does not show. */
    constructor (terminal: Terminal)
      requires TerminalOk(terminal)
      ensures Shape() && fresh(newScreen) && fresh(oldScreen)
      ensures View() == Display(Page(seq(CELLS, _ => '0'), 0, 0), seq(CELLS, _ => '0'), terminal)
    {
      newScreen := new char[CELLS];
      oldScreen := new char[CELLS];
      cursorX, cursorY := 0, 0;
      this.terminal := terminal;
      new;
      for i := 0 to CELLS
        invariant cursorX == cursorY == 0 && this.terminal == terminal
        invariant forall k | 0 <= k < i :: oldScreen[k] == '0'
      {
        oldScreen[i] := '0';
      }
      for i := 0 to CELLS
        invariant cursorX == cursorY == 0 && this.terminal == terminal
        invariant forall k | 0 <= k < CELLS :: oldScreen[k] == '0'
        invariant forall k | 0 <= k < i :: newScreen[k] == '0'
      {
        newScreen[i] := '0';
      }
      assert newScreen[..] == seq(CELLS, _ => '0') && oldScreen[..] == seq(CELLS, _ => '0');
    }

    /** Sends the cells that differ from what was last sent. */
    method SendDifferences()
      requires Shape()
      modifies this`terminal, oldScreen
      ensures Shape() && oldScreen[..] == newScreen[..] && terminal == Updated(old(View()))
    {
      ghost var d := View();
      hide SentUpTo, Updated, MoveTo, Print;
      NothingSent(d);
      for i := 0 to SCREEN_HEIGHT
        invariant Shape()
        invariant SentUpTo(d, d.page.cells, oldScreen[..], terminal, At(i, 0))
      {
        for j := 0 to SCREEN_WIDTH
          invariant Shape()
          invariant SentUpTo(d, d.page.cells, oldScreen[..], terminal, At(i, j))
        {
          var k := i * SCREEN_WIDTH + j;
          NextCell(d, oldScreen[..], terminal, i, j);
          if newScreen[k] != oldScreen[k] {
            terminal := MoveTo(terminal, j + 1, i + 1);
            terminal := Print(terminal, newScreen[k]);
            oldScreen[k] := newScreen[k];
          }
        }
      }
      AllSent(d, oldScreen[..], terminal);
    }

    /** Sends the differences and puts the terminal's cursor where the page's is. */
    method Reflush()
      requires Shape()
      modifies this`terminal, oldScreen
      ensures Shape() && View() == Refreshed(old(View()))
      ensures old(Valid()) ==> Valid()
    {
      ghost var d := View();
      if DisplayOk(d) {
        PatchIsOverlay(d);
      }
      hide Updated, DisplayOk, MoveTo;
      SendDifferences();
      terminal := MoveTo(terminal, cursorX, cursorY);
    }

    /** Blanks the lines from line1 to line2, and forgets what was sent of them. */
    method BlankLines(line1: nat, line2: int)
      requires Shape()
      modifies newScreen, oldScreen
      ensures newScreen[..] == Cleared(old(newScreen[..]), line1, line2)
      ensures oldScreen[..] == Forgotten(old(oldScreen[..]), line1, line2)
    {
      ghost var d := View();
      var i := line1;
      while i < SCREEN_HEIGHT && i <= line2
        invariant line1 <= i && (i <= line2 + 1 || i == line1) && (i <= SCREEN_HEIGHT || i == line1)
        invariant BlankUpTo(d.page.cells, d.sent, newScreen[..], oldScreen[..], line1, At(i, 0))
        decreases SCREEN_HEIGHT - i
      {
        for j := 0 to SCREEN_WIDTH
          invariant BlankUpTo(d.page.cells, d.sent, newScreen[..], oldScreen[..], line1, At(i, j))
        {
          newScreen[i * SCREEN_WIDTH + j] := ' ';
          oldScreen[i * SCREEN_WIDTH + j] := NUL;
        }
        i := i + 1;
      }
      AllBlank(d, newScreen[..], oldScreen[..], line1, line2, i);
    }

    /** Blanks the lines from line1 to line2, moves the cursor home and refreshes. */
    method ScreenClear(line1: nat, line2: int)
      requires Shape()
      modifies this, newScreen, oldScreen
      ensures Shape() && View() == Do(old(View()), Clear(line1, line2))
      ensures old(Valid()) || StartsOver(Clear(line1, line2)) ==> Valid()
    {
      ghost var d := View();
      if DisplayOk(d) || StartsOver(Clear(line1, line2)) {
        OpIsSimulated(d, Clear(line1, line2));
      }
      hide Refreshed, DisplayOk, Cleared, Forgotten;
      BlankLines(line1, line2);
      cursorX, cursorY := 0, 0;
      Reflush();
    }

    /** Clears the terminal (section 8.3.39 of ECMA-48) and then the page: from here on what was sent is what is
        shown. */
    method InitScreen()
      requires Shape()
      modifies this, newScreen, oldScreen
      ensures Valid() && View().page == Page(Blank(), 0, 0) && terminal == Terminal(Blank(), 0, 0)
    {
      terminal := terminal.(cells := Blank());
      ScreenClear(0, SCREEN_HEIGHT - 1);
      assert newScreen[..] == Blank() && terminal.cells == Blank();
    }

    method Forget(line1: nat, line2: int)
      requires newScreen.Length == CELLS && oldScreen.Length == CELLS && line2 < SCREEN_HEIGHT
      modifies oldScreen
      ensures oldScreen[..] == Forgotten(old(oldScreen[..]), line1, line2)
    {
      var i := line1;
      while i <= line2
        invariant line1 <= i && (i <= line2 + 1 || i == line1)
        invariant forall k | 0 <= k < CELLS ::
          oldScreen[k] == if InLines(k, line1, i - 1) then NUL else old(oldScreen[k])
      {
        for j := 0 to SCREEN_WIDTH
          invariant forall k | 0 <= k < CELLS ::
            oldScreen[k] == if At(line1, 0) <= k < At(i, j) then NUL else old(oldScreen[k])
        {
          oldScreen[i * SCREEN_WIDTH + j] := NUL;
        }
        i := i + 1;
      }
    }

    /** Moves the lines below line1 up by one and blanks line2. */
    method Scroll(line1: nat, line2: nat)
      requires newScreen.Length == CELLS && oldScreen.Length == CELLS && newScreen != oldScreen
      requires line1 == SCROLL_TOP && line2 == SCREEN_HEIGHT - 1
      modifies newScreen, oldScreen
      ensures oldScreen[..] == Forgotten(old(oldScreen[..]), line1, line2)
      ensures newScreen[..] == Scrolled(old(newScreen[..]))
    {
      Forget(line1, line2);
      for i := line1 to line2 + 1
        invariant oldScreen[..] == Forgotten(old(oldScreen[..]), line1, line2)
        invariant forall k | 0 <= k < CELLS ::
          newScreen[k] == if k < At(i, 0) then ScrolledCell(old(newScreen[..]), k) else old(newScreen[k])
      {
        for j := 0 to SCREEN_WIDTH
          invariant oldScreen[..] == Forgotten(old(oldScreen[..]), line1, line2)
          invariant forall k | 0 <= k < CELLS ::
            newScreen[k] == if k < At(i, j) then ScrolledCell(old(newScreen[..]), k) else old(newScreen[k])
        {
          if i == line2 {
            newScreen[i * SCREEN_WIDTH + j] := ' ';
          } else {
            newScreen[i * SCREEN_WIDTH + j] := newScreen[(i + 1) * SCREEN_WIDTH + j];
          }
        }
      }
    }

    method Strike(ch: char)
      requires Shape() && InReach(View().page, ch)
      modifies this`cursorX, this`cursorY, newScreen
      ensures Shape() && View().page == Struck(old(View()).page, ch)
    {
      if ch == '\n' {
        cursorX := 0;
        cursorY := cursorY + 1;
      } else if ch == BACKSPACE {
        if cursorX > 0 {
          cursorX := cursorX - 1;
          newScreen[cursorY * SCREEN_WIDTH + cursorX] := ' ';
        }
      } else if ch == ENTER {
        cursorX := 0;
        cursorY := cursorY + 1;
      } else {
        newScreen[cursorY * SCREEN_WIDTH + cursorX] := ch;
        cursorX := cursorX + 1;
      }
    }

    /** Brings the cursor back to the page, scrolling if it is below. */
    method Settle()
      requires Shape()
      modifies this`cursorX, this`cursorY, newScreen, oldScreen
      ensures Shape() && if Row(old(View()).page) >= SCREEN_HEIGHT
        then View().page == Page(Scrolled(old(newScreen[..])), 0, SCREEN_HEIGHT - 1)
          && oldScreen[..] == Forgotten(old(oldScreen[..]), SCROLL_TOP, SCREEN_HEIGHT - 1)
        else oldScreen[..] == old(oldScreen[..]) && View().page == Page(old(newScreen[..]),
          Col(old(View()).page), if Row(old(View()).page) < 0 then 0 else Row(old(View()).page))
    {
      if cursorX < 0 {
        cursorX := 0;
      }
      if cursorX >= SCREEN_WIDTH {
        cursorY := cursorY + 1;
        cursorX := 0;
      }
      if cursorY < 0 {
        cursorY := 0;
      }
      if cursorY >= SCREEN_HEIGHT {
        Scroll(SCREEN_HEIGHT / 2 + 1, SCREEN_HEIGHT - 1);
        cursorX := 0;
        cursorY := SCREEN_HEIGHT - 1;
      }
    }

    /** Writes any character, from any cursor position that leads to a cell. */
    method WriteCh(ch: char)
      requires Shape() && InReach(View().page, ch)
      modifies this`cursorX, this`cursorY, newScreen, oldScreen
      ensures Shape() && View() == Do(old(View()), Op.Write(ch)) && OnPage(View().page)
      ensures old(Valid()) && Writable(ch) ==> Valid()
    {
      ghost var d := View();
      TypedIsOnPage(d.page, ch);
      if DisplayOk(d) && Writable(ch) {
        OpIsSimulated(d, Op.Write(ch));
      }
      Strike(ch);
      Settle();
      assert View() == Do(d, Op.Write(ch));
    }

    /** Writes a string, character by character. */
    method WriteText(buff: array<char>, ghost text: string)
      requires Shape() && buff != newScreen && buff != oldScreen
      requires buff[..] == text + [NUL] && NUL !in text && (text != [] ==> InReach(View().page, text[0]))
      modifies this`cursorX, this`cursorY, newScreen, oldScreen
      ensures Shape() && View().page == TypeAll(old(View()).page, text)
      ensures old(Valid()) && (forall ch | ch in text :: Writable(ch)) ==> Valid()
    {
      var l := StrLen(buff);
      LengthIsText(buff[..], text, l);
      for i := 0 to l
        invariant Shape() && (i < |text| ==> InReach(View().page, text[i]))
        invariant TypeAll(View().page, text[i..]) == TypeAll(old(View()).page, text)
        invariant old(Valid()) && (forall ch | ch in text :: Writable(ch)) ==> Valid()
      {
        WriteCh(buff[i]);
        assert text[i..][0] == buff[i] && text[i..][1..] == text[i + 1..];
      }
    }

    method MoveCursor(x: int, y: int)
      requires Shape()
      modifies this`cursorX, this`cursorY
      ensures Shape() && View() == Do(old(View()), Move(x, y))
      ensures old(Valid()) ==> Valid()
    {
      cursorX := x;
      cursorY := y;
    }
  }
}
