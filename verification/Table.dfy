/** The table renderer's width solver (internal/cliui/table.go). Cells arrive
    sanitized and columns in priority order; widths of runes add up. */
module Table {
  function Max(a: int, b: int): int {
    if a >= b then a else b
  }

  function Min(a: int, b: int): int {
    if a <= b then a else b
  }

  // ---- Total width ----

  function Sum(widths: seq<int>): int {
    if widths == [] then 0 else Sum(widths[..|widths| - 1]) + widths[|widths| - 1]
  }

  /** Column widths and the two blanks between neighbours. */
  function Total(widths: seq<int>): int {
    Max(0, (|widths| - 1) * 2) + Sum(widths)
  }

  lemma {:induction false} SumUpdated(widths: seq<int>, i: nat, x: int)
    requires i < |widths|
    ensures Sum(widths[i := x]) == Sum(widths) - widths[i] + x
  {
    var last := |widths| - 1;
    if i < last {
      SumUpdated(widths[..last], i, x);
      assert widths[i := x][..last] == widths[..last][i := x];
    } else {
      assert widths[i := x][..last] == widths[..last];
    }
  }

  lemma {:induction false} SumMonotone(a: seq<int>, b: seq<int>)
    requires |a| == |b| && forall i :: 0 <= i < |a| ==> a[i] <= b[i]
    ensures Sum(a) <= Sum(b)
  {
    if a != [] { SumMonotone(a[..|a| - 1], b[..|b| - 1]); }
  }

  method TotalWidth(widths: array<int>) returns (total: int)
    ensures total == Total(widths[..])
  {
    total := Max(0, (widths.Length - 1) * 2);
    for i := 0 to widths.Length
      invariant total == Max(0, (widths.Length - 1) * 2) + Sum(widths[..i])
    {
      total := total + widths[i];
      assert widths[..i + 1][..i] == widths[..i];
    }
    assert widths[..widths.Length] == widths[..];
  }

  // ---- Shrinking ----

  /** A column never shrinks below its minimum, or below what it started with. */
  function Floor(initial: int, minimum: int): int {
    Min(initial, minimum)
  }

  /** The column after `rounds` rounds of taking one from every shrinkable column. */
  function Level(initial: int, minimum: int, rounds: nat): int {
    Max(Floor(initial, minimum), initial - rounds)
  }

  function Floors(initial: seq<int>, minimums: seq<int>): (floors: seq<int>)
    requires |initial| == |minimums|
    ensures |floors| == |initial|
  {
    seq(|initial|, i requires 0 <= i < |initial| => Floor(initial[i], minimums[i]))
  }

  /** Every column went through `rounds` rounds, those from `from` on through one more. */
  ghost predicate Levelled(widths: seq<int>, initial: seq<int>, minimums: seq<int>, rounds: nat, from: int) {
    && |widths| == |initial| == |minimums|
    && forall i :: 0 <= i < |widths| ==>
         widths[i] == Level(initial[i], minimums[i], if i >= from then rounds + 1 else rounds)
  }

  /** What the solver promises of a layout that fits. */
  ghost predicate FairlyShrunk(widths: seq<int>, initial: seq<int>, minimums: seq<int>) {
    && |widths| == |initial| == |minimums|
    && (forall i :: 0 <= i < |widths| ==> Floor(initial[i], minimums[i]) <= widths[i] <= initial[i])
    && (forall i, j :: 0 <= i < j < |widths| && widths[i] > Floor(initial[i], minimums[i])
                       && widths[j] > Floor(initial[j], minimums[j])
          ==> initial[i] - widths[i] <= initial[j] - widths[j] <= initial[i] - widths[i] + 1)
  }

  lemma LevelledIsFair(widths: seq<int>, initial: seq<int>, minimums: seq<int>, rounds: nat, from: int)
    requires Levelled(widths, initial, minimums, rounds, from)
    ensures FairlyShrunk(widths, initial, minimums)
  {
  }

  lemma FloorsAreLeast(widths: seq<int>, initial: seq<int>, minimums: seq<int>, rounds: nat, from: int)
    requires Levelled(widths, initial, minimums, rounds, from)
    ensures Total(Floors(initial, minimums)) <= Total(widths)
  {
    SumMonotone(Floors(initial, minimums), widths);
  }

  lemma LevelledStep(widths: seq<int>, initial: seq<int>, minimums: seq<int>, rounds: nat, index: nat, next: seq<int>)
    requires Levelled(widths, initial, minimums, rounds, index + 1) && index < |widths|
    requires next == if widths[index] > minimums[index] then widths[index := widths[index] - 1] else widths
    ensures Levelled(next, initial, minimums, rounds, index)
    ensures Total(next) == Total(widths) - if widths[index] > minimums[index] then 1 else 0
  {
    SumUpdated(widths, index, widths[index] - 1);
  }

  /** One round, rightmost column first, stopping as soon as the layout fits. */
  method Round(widths: array<int>, minimums: seq<int>, width: int, ghost initial: seq<int>, ghost rounds: nat)
    returns (changed: bool, ghost from: int)
    requires Levelled(widths[..], initial, minimums, rounds, widths.Length) && Total(widths[..]) > width
    modifies widths
    ensures Levelled(widths[..], initial, minimums, rounds, from) && Total(widths[..]) >= width
    ensures Total(widths[..]) > width ==> from == 0
    ensures changed <==> Total(widths[..]) < old(Total(widths[..]))
    ensures !changed ==> widths[..] == Floors(initial, minimums)
  {
    changed := false;
    var index := widths.Length - 1;
    var total := TotalWidth(widths);
    while index >= 0 && total > width
      invariant -1 <= index < widths.Length && total == Total(widths[..]) && total >= width
      invariant Levelled(widths[..], initial, minimums, rounds, index + 1)
      invariant changed ==> total < old(Total(widths[..]))
      invariant !changed ==> widths[..] == old(widths[..])
                             && forall i :: index < i < widths.Length ==> widths[i] <= minimums[i]
    {
      ghost var before := widths[..];
      if widths[index] > minimums[index] {
        widths[index] := widths[index] - 1;
        changed := true;
      }
      assert widths[..] == if before[index] > minimums[index] then before[index := before[index] - 1] else before;
      LevelledStep(before, initial, minimums, rounds, index, widths[..]);
      index := index - 1;
      total := TotalWidth(widths);
    }
    from := index + 1;
  }

  /** The shrink loop: rounds until the layout fits, giving up when a round
      changes nothing. */
  method Shrink(widths: array<int>, minimums: seq<int>, width: int) returns (fits: bool)
    requires |minimums| == widths.Length
    modifies widths
    ensures fits <==> Total(Floors(old(widths[..]), minimums)) <= width
    ensures fits && old(Total(widths[..])) <= width ==> widths[..] == old(widths[..])
    ensures fits && old(Total(widths[..])) > width ==> Total(widths[..]) == width
    ensures FairlyShrunk(widths[..], old(widths[..]), minimums)
  {
    ghost var initial := widths[..];
    ghost var rounds: nat, from: int := 0, widths.Length;
    var total := TotalWidth(widths);
    while total > width
      invariant total == Total(widths[..])
      invariant widths[..] == initial || (total >= width && Total(initial) > width)
      invariant Levelled(widths[..], initial, minimums, rounds, from)
      invariant total > width ==> from == widths.Length || from == 0
      decreases total - width
    {
      if from == 0 { rounds, from := rounds + 1, widths.Length; }
      var changed: bool;
      changed, from := Round(widths, minimums, width, initial, rounds);
      LevelledIsFair(widths[..], initial, minimums, rounds, from);
      if !changed { return false; }
      total := TotalWidth(widths);
    }
    LevelledIsFair(widths[..], initial, minimums, rounds, from);
    FloorsAreLeast(widths[..], initial, minimums, rounds, from);
    return true;
  }

  // ---- Cells and lines ----

  /** Display width of a rune, at least with the widths the renderer relies on. */
  ghost predicate RuneWidths(rune: char -> nat) {
    rune(' ') == 1 && rune('.') == 1 && rune('\U{2026}') == 1
  }

  function Width(rune: char -> nat, s: string): nat {
    if s == "" then 0 else Width(rune, s[..|s| - 1]) + rune(s[|s| - 1])
  }

  lemma {:induction false} WidthAdds(rune: char -> nat, a: string, b: string)
    ensures Width(rune, a + b) == Width(rune, a) + Width(rune, b)
  {
    if b == "" {
      assert a + b == a;
    } else {
      WidthAdds(rune, a, b[..|b| - 1]);
      assert (a + b)[..|a + b| - 1] == a + b[..|b| - 1];
    }
  }

  function Repeat(c: char, n: nat): string {
    seq(n, _ => c)
  }

  lemma {:induction false} RepeatWidth(rune: char -> nat, c: char, n: nat)
    requires rune(c) == 1
    ensures Width(rune, Repeat(c, n)) == n
  {
    if n > 0 {
      RepeatWidth(rune, c, n - 1);
      assert Repeat(c, n)[..n - 1] == Repeat(c, n - 1);
    }
  }

  function Marker(unicode: bool): string {
    if unicode then "\U{2026}" else "..."
  }

  /** The longest part of `value`, from its start, that leaves room for the marker. */
  ghost predicate CutTo(rune: char -> nat, value: string, kept: string, limit: int) {
    && kept <= value && kept != value && Width(rune, kept) <= limit
    && Width(rune, value[..|kept| + 1]) > limit
  }

  /** `text` is what is shown of `value` in a column of `width`. */
  ghost predicate Shows(rune: char -> nat, text: string, value: string, width: int, unicode: bool) {
    if width <= 0 then text == ""
    else if Width(rune, value) <= width then text == value
    else if |Marker(unicode)| > width then text == Repeat('.', width)
    else if |Marker(unicode)| == width then text == Marker(unicode)
    else exists kept :: text == kept + Marker(unicode) && CutTo(rune, value, kept, width - |Marker(unicode)|)
  }

  method Truncate(rune: char -> nat, value: string, width: int, unicode: bool) returns (r: string)
    requires RuneWidths(rune)
    ensures Shows(rune, r, value, width, unicode) && Width(rune, r) <= Max(0, width)
  {
    if width <= 0 { return ""; }
    if Width(rune, value) <= width { return value; }
    var marker := Marker(unicode);
    MarkerWidth(rune, unicode);
    if |marker| > width { RepeatWidth(rune, '.', width); return Repeat('.', width); }
    var limit := width - |marker|;
    if limit <= 0 { return marker; }
    var kept := "";
    while kept != value
      invariant kept <= value && Width(rune, kept) <= limit
      decreases |value| - |kept|
    {
      var next := value[..|kept| + 1];
      assert next[..|kept|] == kept;
      if Width(rune, next) > limit { break; }
      kept := next;
    }
    WidthAdds(rune, kept, marker);
    return kept + marker;
  }

  lemma MarkerWidth(rune: char -> nat, unicode: bool)
    requires RuneWidths(rune)
    ensures Width(rune, Marker(unicode)) == |Marker(unicode)|
  {
    if unicode {
      assert Marker(true)[..0] == "";
    } else {
      RepeatWidth(rune, '.', 3);
      assert Repeat('.', 3) == "...";
    }
  }

  function Pad(rune: char -> nat, value: string, width: int): (r: string) {
    value + Repeat(' ', if width > Width(rune, value) then width - Width(rune, value) else 0)
  }

  lemma PadFills(rune: char -> nat, value: string, width: int)
    requires RuneWidths(rune)
    ensures Width(rune, Pad(rune, value, width)) == Max(width, Width(rune, value))
  {
    var blanks := if width > Width(rune, value) then width - Width(rune, value) else 0;
    RepeatWidth(rune, ' ', blanks);
    WidthAdds(rune, value, Repeat(' ', blanks));
  }

  function TrimRight(s: string): (r: string)
    ensures r <= s
  {
    if s != "" && s[|s| - 1] == ' ' then TrimRight(s[..|s| - 1]) else s
  }

  lemma {:induction false} PrefixNarrower(rune: char -> nat, a: string, b: string)
    requires a <= b
    ensures Width(rune, a) <= Width(rune, b)
  {
    assert b == a + b[|a|..];
    WidthAdds(rune, a, b[|a|..]);
  }

  /** The padded texts with two blanks between neighbours. */
  function Joined(rune: char -> nat, texts: seq<string>, widths: seq<int>): string
    requires |texts| == |widths|
  {
    var last := |texts| - 1;
    if texts == [] then ""
    else Joined(rune, texts[..last], widths[..last]) + Gap(last) + Pad(rune, texts[last], widths[last])
  }

  function Gap(i: nat): string {
    if i > 0 then "  " else ""
  }

  lemma JoinedGrows(rune: char -> nat, texts: seq<string>, widths: seq<int>, text: string, width: int)
    requires |texts| == |widths|
    ensures Joined(rune, texts + [text], widths + [width])
            == Joined(rune, texts, widths) + Gap(|texts|) + Pad(rune, text, width)
    ensures Total(widths + [width]) == Total(widths) + |Gap(|texts|)| + width
  {
    assert (texts + [text])[..|texts|] == texts && (widths + [width])[..|widths|] == widths;
  }

  lemma LineGrows(rune: char -> nat, line: string, i: nat, text: string, width: int)
    requires RuneWidths(rune) && Width(rune, text) <= width
    ensures Width(rune, line + Gap(i) + Pad(rune, text, width)) == Width(rune, line) + |Gap(i)| + width
  {
    TwoBlanks(rune);
    WidthAdds(rune, line, Gap(i));
    PadFills(rune, text, width);
    WidthAdds(rune, line + Gap(i), Pad(rune, text, width));
  }

  /** `line` shows the first cells in the first columns. */
  ghost predicate ShowsCells(
    rune: char -> nat, line: string, texts: seq<string>, cells: seq<string>, widths: seq<int>, unicode: bool) {
    && |texts| == |cells| == |widths|
    && (forall i :: 0 <= i < |cells| ==> Shows(rune, texts[i], cells[i], widths[i], unicode))
    && line == Joined(rune, texts, widths) && Width(rune, line) == Total(widths)
  }

  lemma AppendCell(
    rune: char -> nat, line: string, texts: seq<string>, cells: seq<string>, widths: seq<int>, unicode: bool,
    text: string, cell: string, width: int)
    requires RuneWidths(rune) && ShowsCells(rune, line, texts, cells, widths, unicode)
    requires Shows(rune, text, cell, width, unicode) && Width(rune, text) <= width
    ensures ShowsCells(
              rune, line + Gap(|texts|) + Pad(rune, text, width), texts + [text],
              cells + [cell], widths + [width], unicode)
  {
    JoinedGrows(rune, texts, widths, text, width);
    LineGrows(rune, line, |texts|, text, width);
  }

  lemma NextCell(
    rune: char -> nat, line: string, texts: seq<string>, cells: seq<string>, widths: seq<int>, i: nat, unicode: bool,
    text: string)
    requires RuneWidths(rune) && i < |cells| == |widths|
    requires ShowsCells(rune, line, texts, cells[..i], widths[..i], unicode)
    requires Shows(rune, text, cells[i], widths[i], unicode) && Width(rune, text) <= widths[i]
    ensures ShowsCells(rune, line + Gap(i) + Pad(rune, text, widths[i]), texts + [text],
                       cells[..i + 1], widths[..i + 1],
                       unicode)
  {
    assert widths[..i + 1] == widths[..i] + [widths[i]] && cells[..i + 1] == cells[..i] + [cells[i]];
    AppendCell(rune, line, texts, cells[..i], widths[..i], unicode, text, cells[i], widths[i]);
  }

  /** One grid line: every cell truncated and padded to its column. */
  method Line(rune: char -> nat, cells: seq<string>, widths: seq<int>, unicode: bool)
    returns (line: string, ghost texts: seq<string>)
    requires RuneWidths(rune) && |cells| == |widths| && forall i :: 0 <= i < |widths| ==> widths[i] >= 0
    ensures ShowsCells(rune, line, texts, cells, widths, unicode)
  {
    line, texts := "", [];
    for i := 0 to |widths|
      invariant ShowsCells(rune, line, texts, cells[..i], widths[..i], unicode)
    {
      var text := Truncate(rune, cells[i], widths[i], unicode);
      NextCell(rune, line, texts, cells, widths, i, unicode, text);
      line := line + Gap(i) + Pad(rune, text, widths[i]);
      texts := texts + [text];
    }
    assert widths[..|widths|] == widths && cells[..|cells|] == cells;
  }

  lemma TwoBlanks(rune: char -> nat)
    requires RuneWidths(rune)
    ensures Width(rune, "  ") == 2
  {
    RepeatWidth(rune, ' ', 2);
    assert Repeat(' ', 2) == "  ";
  }

  // ---- The table ----

  const STACKING_WIDTH: int := 48

  datatype Column = Column(title: string, minWidth: int)

  /** A column's natural width: its minimum, its title and its widest cell. */
  function Natural(rune: char -> nat, column: Column, rows: seq<seq<string>>, index: nat): (w: int)
    requires forall row :: row in rows ==> index < |row|
    ensures w >= 0 && w >= column.minWidth
  {
    if rows == [] then Max(column.minWidth, Width(rune, column.title))
    else Max(Natural(rune, column, rows[..|rows| - 1], index), Width(rune, rows[|rows| - 1][index]))
  }

  function Minimums(columns: seq<Column>): (m: seq<int>)
    ensures |m| == |columns|
  {
    seq(|columns|, i requires 0 <= i < |columns| => Max(columns[i].minWidth, 4))
  }

  function Naturals(rune: char -> nat, columns: seq<Column>, rows: seq<seq<string>>): (n: seq<int>)
    requires forall row :: row in rows ==> |row| == |columns|
    ensures |n| == |columns|
  {
    seq(|columns|, i requires 0 <= i < |columns| => Natural(rune, columns[i], rows, i))
  }

  method Measure(rune: char -> nat, columns: seq<Column>, rows: seq<seq<string>>) returns (widths: array<int>)
    requires forall row :: row in rows ==> |row| == |columns|
    ensures fresh(widths) && widths[..] == Naturals(rune, columns, rows)
  {
    widths := new int[|columns|];
    for i := 0 to |columns|
      invariant forall j :: 0 <= j < i ==> widths[j] == Natural(rune, columns[j], rows, j)
    {
      widths[i] := Max(columns[i].minWidth, Width(rune, columns[i].title));
      for r := 0 to |rows|
        invariant widths[i] == Natural(rune, columns[i], rows[..r], i)
        invariant forall j :: 0 <= j < i ==> widths[j] == Natural(rune, columns[j], rows, j)
      {
        assert rows[r] in rows && rows[..r + 1][..r] == rows[..r];
        widths[i] := Max(widths[i], Width(rune, rows[r][i]));
      }
      assert rows[..|rows|] == rows;
    }
  }

  /** A grid line shows one row in the solved columns, without trailing blanks. */
  ghost predicate ShowsRow(
    rune: char -> nat, line: string, texts: seq<string>, cells: seq<string>, widths: seq<int>, unicode: bool) {
    && |texts| == |cells| == |widths|
    && (forall i :: 0 <= i < |cells| ==> Shows(rune, texts[i], cells[i], widths[i], unicode))
    && line == TrimRight(Joined(rune, texts, widths))
  }

  function Titles(columns: seq<Column>): (t: seq<string>)
    ensures |t| == |columns|
  {
    seq(|columns|, i requires 0 <= i < |columns| => columns[i].title)
  }

  datatype Rendering = Message(text: string) | Stacked | Grid(lines: seq<string>)

  /** `renderTable`: without rows the table's own message, otherwise the grid, or
      the stacked form when the grid cannot fit. */
  method RenderTable(
    rune: char -> nat, columns: seq<Column>, rows: seq<seq<string>>, empty: string, width: int, unicode: bool)
    returns (r: Rendering, widths: seq<int>, ghost texts: seq<seq<string>>)
    requires RuneWidths(rune) && forall row :: row in rows ==> |row| == |columns|
    ensures rows == [] ==> r == Message(if empty == "" then "" else empty + "\n")
    ensures rows != [] ==> if GridFits(rune, columns, rows, width) then r.Grid? else r == Stacked
    ensures r.Grid? ==>
              && FairlyShrunk(widths, Naturals(rune, columns, rows), Minimums(columns))
              && ExactlyWide(widths, Naturals(rune, columns, rows), width)
              && ShowsAll(rune, r.lines, texts, [Titles(columns)] + rows, widths, unicode)
  {
    widths, texts := [], [];
    if rows == [] { return Message(if empty == "" then "" else empty + "\n"), widths, texts; }
    var stacked, lines;
    stacked, lines, widths, texts := RenderGrid(rune, columns, rows, width, unicode);
    return if stacked then Stacked else Grid(lines), widths, texts;
  }

  /** Columns that fit keep their natural widths, others fill the width exactly. */
  predicate ExactlyWide(widths: seq<int>, naturals: seq<int>, width: int) {
    && Total(widths) <= width
    && if Total(naturals) <= width then widths == naturals else Total(widths) == width
  }

  /** Wide enough for a grid, with columns, and for these at their narrowest. */
  predicate GridFits(rune: char -> nat, columns: seq<Column>, rows: seq<seq<string>>, width: int)
    requires forall row :: row in rows ==> |row| == |columns|
  {
    && width >= STACKING_WIDTH && columns != []
    && Total(Floors(Naturals(rune, columns, rows), Minimums(columns))) <= width
  }

  /** The grid, or `stacked` when it cannot fit: below the stacking width, without
      columns, or when even the narrowest columns are too wide. `texts` are the
      visible parts of the titles and of each row. */
  method RenderGrid(rune: char -> nat, columns: seq<Column>, rows: seq<seq<string>>, width: int, unicode: bool)
    returns (stacked: bool, lines: seq<string>, widths: seq<int>, ghost texts: seq<seq<string>>)
    requires RuneWidths(rune) && forall row :: row in rows ==> |row| == |columns|
    ensures stacked <==> !GridFits(rune, columns, rows, width)
    ensures !stacked ==> FairlyShrunk(widths, Naturals(rune, columns, rows), Minimums(columns))
    ensures !stacked ==> ExactlyWide(widths, Naturals(rune, columns, rows), width)
    ensures !stacked ==> ShowsAll(rune, lines, texts, [Titles(columns)] + rows, widths, unicode)
  {
    lines, widths, texts := [], [], [];
    if width < STACKING_WIDTH || columns == [] { return true, lines, widths, texts; }
    var solved := Measure(rune, columns, rows);
    var fits := Shrink(solved, Minimums(columns), width);
    if !fits { return true, lines, widths, texts; }
    widths := solved[..];
    lines, texts := Lines(rune, [Titles(columns)] + rows, widths, unicode);
    return false, lines, widths, texts;
  }

  /** One line for each row, in order, and none wider than the layout. */
  ghost predicate ShowsAll(
    rune: char -> nat, lines: seq<string>, texts: seq<seq<string>>, rows: seq<seq<string>>, widths: seq<int>,
    unicode: bool)
  {
    && |lines| == |texts| == |rows|
    && (forall r :: 0 <= r < |rows| ==> ShowsRow(rune, lines[r], texts[r], rows[r], widths, unicode))
    && (forall r :: 0 <= r < |rows| ==> Width(rune, lines[r]) <= Total(widths))
  }

  method Lines(rune: char -> nat, rows: seq<seq<string>>, widths: seq<int>, unicode: bool)
    returns (lines: seq<string>, ghost texts: seq<seq<string>>)
    requires RuneWidths(rune) && (forall row :: row in rows ==> |row| == |widths|)
             && forall i :: 0 <= i < |widths| ==> widths[i] >= 0
    ensures ShowsAll(rune, lines, texts, rows, widths, unicode)
  {
    lines, texts := [], [];
    for r := 0 to |rows|
      invariant ShowsAll(rune, lines, texts, rows[..r], widths, unicode)
    {
      assert rows[r] in rows;
      var line, shown := TrimmedLine(rune, rows[r], widths, unicode);
      AppendShown(rune, lines, texts, rows[..r], widths, unicode, line, shown, rows[r]);
      assert rows[..r + 1] == rows[..r] + [rows[r]];
      lines, texts := lines + [line], texts + [shown];
    }
    assert rows[..|rows|] == rows;
  }

  lemma AppendShown(
    rune: char -> nat, lines: seq<string>, texts: seq<seq<string>>, rows: seq<seq<string>>, widths: seq<int>,
    unicode: bool,
    line: string, shown: seq<string>, row: seq<string>)
    requires ShowsAll(rune, lines, texts, rows, widths, unicode)
    requires ShowsRow(rune, line, shown, row, widths, unicode) && Width(rune, line) <= Total(widths)
    ensures ShowsAll(rune, lines + [line], texts + [shown], rows + [row], widths, unicode)
  {
  }

  method TrimmedLine(rune: char -> nat, cells: seq<string>, widths: seq<int>, unicode: bool)
    returns (line: string, ghost texts: seq<string>)
    requires RuneWidths(rune) && |cells| == |widths| && forall i :: 0 <= i < |widths| ==> widths[i] >= 0
    ensures ShowsRow(rune, line, texts, cells, widths, unicode) && Width(rune, line) <= Total(widths)
  {
    var whole;
    whole, texts := Line(rune, cells, widths, unicode);
    PrefixNarrower(rune, TrimRight(whole), whole);
    line := TrimRight(whole);
  }
}
