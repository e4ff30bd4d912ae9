/** What single characters, texts of several lines, clearing and scrolling do to the page, cell by cell. */
module ScreenLaws {
  import opened Strings
  import opened Screen

  // ---------- single characters ----------

  /** A character that is none of the three special ones appears at the cursor, which moves on, at the end of a line to
      the beginning of the next. */
  lemma CharacterAppears(p: Page, ch: char)
    requires OnPage(p) && ch != '\n' && ch != ENTER && ch != BACKSPACE
    requires p.x < SCREEN_WIDTH - 1 || p.y < SCREEN_HEIGHT - 1
    ensures InReach(p, ch)
    ensures var q := Typed(p, ch);
      && (if p.x < SCREEN_WIDTH - 1 then q.x == p.x + 1 && q.y == p.y else q.x == 0 && q.y == p.y + 1)
      && forall k | 0 <= k < CELLS :: q.cells[k] == if k == At(p.y, p.x) then ch else p.cells[k]
  {
  }

  /** New line and enter go to the beginning of the next line and change no cell. */
  lemma NewLineGoesDown(p: Page, ch: char)
    requires OnPage(p) && (ch == '\n' || ch == ENTER) && p.y < SCREEN_HEIGHT - 1
    ensures InReach(p, ch) && Typed(p, ch) == Page(p.cells, 0, p.y + 1)
  {
  }

  /** Backspace goes one to the left and blanks the cell there; at the beginning of a line it does nothing. */
  lemma BackspaceBlanks(p: Page)
    requires OnPage(p)
    ensures InReach(p, BACKSPACE)
    ensures var q := Typed(p, BACKSPACE);
      && q.x == (if p.x > 0 then p.x - 1 else 0) && q.y == p.y
      && forall k | 0 <= k < CELLS :: q.cells[k] == if p.x > 0 && k == At(p.y, p.x - 1) then ' ' else p.cells[k]
  {
  }

  /** A printable character and a backspace behind it leave the cursor where it was, and a blank, unless the character
      was the last of its line. */
  lemma BackspaceUndoes(p: Page, ch: char)
    requires OnPage(p) && Printable(ch) && p.x < SCREEN_WIDTH - 1
    ensures InReach(p, ch) && InReach(Typed(p, ch), BACKSPACE)
    ensures Typed(Typed(p, ch), BACKSPACE) == Page(p.cells[At(p.y, p.x) := ' '], p.x, p.y)
  {
  }

  /** From a cursor off the page: left of it a new line begins as anywhere, above it the first row is meant, and to the
      right of it the next row. */
  lemma CursorComesBack(p: Page, ch: char)
    requires InReach(p, ch) && !Scrolls(p, ch)
    ensures var q := Typed(p, ch);
      && (ch == '\n' || ch == ENTER ==> q.x == 0 && q.y == if p.y + 1 < 0 then 0 else p.y + 1)
      && (ch == BACKSPACE && p.x <= 0 ==> q.cells == p.cells && q.x == 0 && q.y == if p.y < 0 then 0 else p.y)
      && (ch == BACKSPACE && p.x > SCREEN_WIDTH ==> q.x == 0 && q.y == if p.y + 1 < 0 then 0 else p.y + 1)
  {
  }

  /** Wherever the cursor is, an ordinary character changes the one cell its row and column lead to. */
  lemma CharacterLands(p: Page, ch: char)
    requires InReach(p, ch) && !IsNewLine(ch) && ch != BACKSPACE && !Scrolls(p, ch)
    ensures forall k | 0 <= k < CELLS ::
      Typed(p, ch).cells[k] == if k == p.y * SCREEN_WIDTH + p.x then ch else p.cells[k]
  {
  }

  // ---------- texts ----------

  predicate AllPrints(s: string) {
    forall ch | ch in s :: Printable(ch)
  }

  lemma {:induction false} TypeBoth(p: Page, s: string, t: string)
    requires OnPage(p)
    ensures OnPage(TypeAll(p, s)) && TypeAll(p, s + t) == TypeAll(TypeAll(p, s), t)
    decreases |s|
  {
    if s == [] {
      assert s + t == t;
    } else {
      TypedIsOnPage(p, s[0]);
      assert (s + t)[0] == s[0] && (s + t)[1..] == s[1..] + t;
      TypeBoth(Typed(p, s[0]), s[1..], t);
    }
  }

  /** The text is in its place. */
  predicate Shown(cells: Cells, s: string, at: nat) {
    at + |s| <= CELLS && cells[at..at + |s|] == s
  }

  ghost predicate Elsewhere(p: Cells, q: Cells, a: nat, b: nat) {
    forall k | 0 <= k < CELLS && !(a <= k < b) :: q[k] == p[k]
  }

  lemma InTheMiddle(cells: string, s: string, at: nat)
    requires at + |s| <= |cells|
    ensures var c := cells[..at] + s + cells[at + |s|..];
      && |c| == |cells| && c[at..at + |s|] == s
      && forall k | 0 <= k < |c| && !(at <= k < at + |s|) :: c[k] == cells[k]
  {
  }

  /** Text that fits in the line, cell by cell. */
  lemma TextCells(p: Page, s: string)
    requires OnPage(p) && AllPrints(s) && p.x + |s| < SCREEN_WIDTH
    ensures var q, at := TypeAll(p, s), At(p.y, p.x);
      && q.x == p.x + |s| && q.y == p.y && Shown(q.cells, s, at) && Elsewhere(p.cells, q.cells, at, at + |s|)
  {
    TextAppears(p, s);
    var at := At(p.y, p.x);
    InTheMiddle(p.cells, s, at);
  }

  lemma BehindNewLine(q: Page, t: string)
    requires OnPage(q)
    ensures InReach(q, '\n') && TypeAll(q, "\n" + t) == TypeAll(Typed(q, '\n'), t)
  {
    TypedIsOnPage(q, '\n');
    assert ("\n" + t)[0] == '\n' && ("\n" + t)[1..] == t;
  }

  /** Text in one row: the cursor is behind it and nothing else has changed. */
  ghost predicate Wrote(p: Page, q: Page, s: string, row: nat, col: nat) {
    && q.x == col + |s| && q.y == row && q.x < SCREEN_WIDTH
    && Shown(q.cells, s, At(row, col)) && Elsewhere(p.cells, q.cells, At(row, col), At(row, col) + |s|)
  }

  lemma FirstLine(p: Page, s: string)
    requires OnPage(p) && AllPrints(s) && p.x + |s| < SCREEN_WIDTH
    ensures Wrote(p, TypeAll(p, s), s, p.y, p.x)
  {
    TextCells(p, s);
  }

  lemma SecondLine(q: Page, t: string)
    requires OnPage(q) && q.y < SCREEN_HEIGHT - 1 && AllPrints(t) && |t| < SCREEN_WIDTH
    ensures Wrote(q, TypeAll(q, "\n" + t), t, q.y + 1, 0)
  {
    NewLineGoesDown(q, '\n');
    BehindNewLine(q, t);
    hide TypeAll, Shown, AllPrints, Typed, InReach, Elsewhere;
    TextCells(Typed(q, '\n'), t);
  }

  /** A text in its place, another one from the first column of the row below it, nothing else changed, and the cursor
      behind the second text. */
  ghost predicate WroteBoth(p: Page, r: Page, s: string, t: string, row: nat, col: nat) {
    var a, b := At(row, col), At(row + 1, 0);
    && r.x == |t| && r.y == row + 1 && Shown(r.cells, s, a) && Shown(r.cells, t, b)
    && forall k | 0 <= k < CELLS && !(a <= k < a + |s|) && !(b <= k < b + |t|) :: r.cells[k] == p.cells[k]
  }

  lemma OneByOne(p: Page, q: Page, r: Page, s: string, t: string, row: nat, col: nat)
    requires Wrote(p, q, s, row, col) && 0 <= q.y && Wrote(q, r, t, q.y + 1, 0)
    ensures WroteBoth(p, r, s, t, row, col)
  {
  }

  lemma SameRow(p: Page, q: Page, s: string, row: nat, col: nat)
    requires Wrote(p, q, s, row, col)
    ensures q.y == row
  {
  }

  lemma MayType(p: Page, s: string)
    requires OnPage(p)
    ensures 0 <= p.x && 0 <= p.y && (s != [] ==> InReach(p, s[0]))
  {
  }

  /** A line, a new line and another line: the first where the cursor was, the second from the first column of the next
      row, and nothing else has changed. */
  lemma TwoLines(p: Page, s: string, t: string)
    requires OnPage(p) && p.y < SCREEN_HEIGHT - 1 && AllPrints(s) && AllPrints(t)
    requires p.x + |s| < SCREEN_WIDTH && |t| < SCREEN_WIDTH
    ensures WroteBoth(p, TypeAll(p, s + ("\n" + t)), s, t, p.y, p.x)
  {
    hide *;
    MayType(p, s);
    TypeBoth(p, s, "\n" + t);
    var q := TypeAll(p, s);
    MayType(q, "\n" + t);
    FirstLine(p, s);
    SameRow(p, q, s, p.y, p.x);
    SecondLine(q, t);
    OneByOne(p, q, TypeAll(q, "\n" + t), s, t, p.y, p.x);
  }

  lemma OneMore(q: Page, ch: char)
    requires OnPage(q)
    ensures InReach(q, ch) && TypeAll(q, [ch]) == Typed(q, ch)
  {
    TypedIsOnPage(q, ch);
    assert [ch][1..] == [];
  }

  lemma LastColumn(q: Page, ch: char)
    requires OnPage(q) && q.x == SCREEN_WIDTH - 1 && q.y < SCREEN_HEIGHT - 1 && Printable(ch)
    ensures InReach(q, ch)
    ensures var r := Typed(q, ch);
      && TypeAll(q, [ch]) == r && r.x == 0 && r.y == q.y + 1
      && forall k | 0 <= k < CELLS :: r.cells[k] == if k == At(q.y, q.x) then ch else q.cells[k]
  {
    CharacterAppears(q, ch);
    OneMore(q, ch);
  }

  lemma LastShown(cells: Cells, later: Cells, s: string, at: nat)
    requires s != [] && at + |s| <= CELLS && Shown(cells, s[..|s| - 1], at)
    requires forall k | 0 <= k < CELLS :: later[k] == if k == at + |s| - 1 then s[|s| - 1] else cells[k]
    ensures Shown(later, s, at)
  {
    assert later[at..at + |s|] == cells[at..at + |s| - 1] + [s[|s| - 1]];
  }

  /** A text that ends in the last column leaves the cursor at the beginning of the next line. */
  lemma FullLineWraps(p: Page, s: string)
    requires OnPage(p) && p.y < SCREEN_HEIGHT - 1 && AllPrints(s) && s != [] && p.x + |s| == SCREEN_WIDTH
    ensures var q, a := TypeAll(p, s), At(p.y, p.x);
      q.x == 0 && q.y == p.y + 1 && Shown(q.cells, s, a) && Elsewhere(p.cells, q.cells, a, a + |s|)
  {
    var front, last := s[..|s| - 1], s[|s| - 1];
    assert s == front + [last] && last in s && AllPrints(front);
    var q := TypeAll(p, front);
    hide TypeAll, Shown, AllPrints, Typed, InReach;
    TypeBoth(p, front, [last]);
    TextCells(p, front);
    LastColumn(q, last);
    LastShown(q.cells, Typed(q, last).cells, s, At(p.y, p.x));
  }

  // ---------- clearing, scrolling, moving ----------

  /** Clearing lines blanks exactly their cells and puts the cursor into the first cell. */
  lemma ClearBlanksLines(p: Page, line1: nat, line2: int, row: nat, col: nat)
    requires row < SCREEN_HEIGHT && col < SCREEN_WIDTH
    ensures var q := PageAfter(p, Clear(line1, line2));
      && q.x == 0 && q.y == 0
      && q.cells[At(row, col)] == if line1 <= row <= line2 then ' ' else p.cells[At(row, col)]
  {
  }

  /** What is forgotten of what was sent are the same cells, and no others. */
  lemma OnlyTheLinesAreForgotten(sent: Cells, line1: nat, line2: int, row: nat, col: nat)
    requires row < SCREEN_HEIGHT && col < SCREEN_WIDTH
    ensures Forgotten(sent, line1, line2)[At(row, col)] == if line1 <= row <= line2 then NUL else sent[At(row, col)]
  {
  }

  /** Moving the cursor changes nothing else, and the next character appears where it was moved to. */
  lemma MovedCursorWrites(p: Page, x: int, y: int, ch: char)
    requires 0 <= x < SCREEN_WIDTH - 1 && 0 <= y < SCREEN_HEIGHT && Printable(ch)
    ensures var q := PageAfter(p, Move(x, y));
      q.cells == p.cells && InReach(q, ch) && Typed(q, ch) == Page(p.cells[At(y, x) := ch], x + 1, y)
  {
  }

  /** After a refresh the terminal's cursor, counted from zero, is one row above and one column left of the page's, or
      in the same row or column if that is the first: the page counts from zero and the command from one. */
  lemma RefreshPutsCursor(d: Display)
    requires OnPage(d.page)
    ensures var t := Refreshed(d).terminal;
      t.row == (if d.page.y == 0 then 0 else d.page.y - 1) && t.col == (if d.page.x == 0 then 0 else d.page.x - 1)
  {
  }
}
