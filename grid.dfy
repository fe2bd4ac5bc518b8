/** The statistics picture's layout: the three panels of the overlay and the text of each cell of
    the per-mode statistics grid. */
module Grid {
  import opened Wrappers
  import opened Json
  import Text
  import StatsData
  import Backgrounds

  // ---------------------------------------------------------------------------
  // Overlay panels

  /** A pasted panel: its top-left corner and its size. */
  datatype Rect = Rect(x: int, y: int, w: int, h: int)

  predicate Disjoint(a: Rect, b: Rect)
  {
    a.x + a.w <= b.x || b.x + b.w <= a.x || a.y + a.h <= b.y || b.y + b.h <= a.y
  }

  predicate Within(a: Rect, left: int, top: int, right: int, bottom: int)
  {
    left <= a.x && a.x + a.w <= right && top <= a.y && a.y + a.h <= bottom
  }

  datatype Panels = Panels(overview: Rect, performance: Rect, main: Rect)

  /** `Overlay.generate` on a canvas of `size`: with paddings px = round(width/20) and
      py = round(height/20), the overview (12px x 5py) sits at (px, py), the performance chart
      (5px x 5py) at (2px + 12px, py) and the grid (18px x 12py) at (px, 7py). */
  function Layout(size: Backgrounds.Size): (p: Panels)
    ensures var px := Text.Round(size.width as real / 20.0);
      var py := Text.Round(size.height as real / 20.0);
      px > 0 && py > 0 ==>
        Disjoint(p.overview, p.performance) && Disjoint(p.overview, p.main)
        && Disjoint(p.performance, p.main)
        && Within(p.overview, px, py, 19 * px, 19 * py)
        && Within(p.performance, px, py, 19 * px, 19 * py)
        && Within(p.main, px, py, 19 * px, 19 * py)
  {
    var px := Text.Round(size.width as real / 20.0);
    var py := Text.Round(size.height as real / 20.0);
    var smallX, largeX := px * 5, px * 12;
    var smallY, largeY := py * 5, py * 12;
    Panels(Rect(px, py, largeX, smallY),
           Rect(px * 2 + largeX, py, smallX, smallY),
           Rect(px, py * 2 + smallY, smallX + largeX + px, largeY))
  }

  /** Once the canvas is at least 190 pixels each way, the panels with their outer padding fit
      on it. */
  lemma {:induction false} LayoutFits(size: Backgrounds.Size)
    requires size.width >= 190 && size.height >= 190
    ensures var p := Layout(size);
      Within(p.overview, 0, 0, size.width, size.height)
      && Within(p.performance, 0, 0, size.width, size.height)
      && Within(p.main, 0, 0, size.width, size.height)
  {
    RoundedTwentiethFits(size.width);
    RoundedTwentiethFits(size.height);
  }

  lemma {:induction false} RoundedTwentiethFits(n: int)
    requires n >= 190
    ensures var p := Text.Round(n as real / 20.0); p > 0 && 19 * p <= n
  {
    var x := n as real / 20.0 + 0.5;
    var p := Text.Round(n as real / 20.0);
    assert p as real <= x;
    assert 19.0 * (p as real) <= 19.0 * x;
    assert 19.0 * x <= n as real;
  }

  /** The default canvas gives 50 x 30 pixel paddings. */
  lemma DefaultLayout()
    ensures Layout(Backgrounds.DefaultSize)
         == Panels(Rect(50, 30, 600, 150), Rect(700, 30, 250, 150), Rect(50, 210, 900, 360))
  {
    assert Text.Round(1000.0 / 20.0) == 50 by { assert 1000.0 / 20.0 == 50.0; }
    assert Text.Round(600.0 / 20.0) == 30 by { assert 600.0 / 20.0 == 30.0; }
  }

  // ---------------------------------------------------------------------------
  // The statistics grid of `Main.generate`

  datatype Column = KdColumn | WinsColumn | KillsColumn | WinPercentColumn | MatchesColumn | RatingColumn

  const Columns: seq<Column> :=
    [KdColumn, WinsColumn, KillsColumn, WinPercentColumn, MatchesColumn, RatingColumn]

  function Header(c: Column): string
  {
    match c
    case KdColumn => "KD"
    case WinsColumn => "WINS"
    case KillsColumn => "KILLS"
    case WinPercentColumn => "WIN%"
    case MatchesColumn => "MATCHES"
    case RatingColumn => "RATING"
  }

  /** The attribute a column reads: its lower-cased header, with 'win%' renamed. */
  function AttrName(c: Column): (a: string)
    ensures c != WinPercentColumn ==> a == Text.Lower(Header(c))
    ensures c == WinPercentColumn ==> a == "win_percent"
  {
    var lower := Text.Lower(Header(c));
    assert c == WinsColumn ==> lower[3] == 's';
    if lower == "win%" then "win_percent" else lower
  }

  /** `getattr(stat, name, '0')`. */
  function Attr(s: StatsData.Stat, name: string): Value
  {
    match name
    case "score" => s.score
    case "kd" => s.kd
    case "win_percent" => s.winPercent
    case "matches" => s.matches
    case "kills" => s.kills
    case "kills_per_game" => s.killsPerGame
    case "score_per_match" => s.scorePerMatch
    case "wins" => s.wins
    case "rating" => s.rating
    case _ => Str("0")
  }

  /** The rows of the grid: the current season's modes when `cs` is set, else the overall ones. */
  function Rows(stats: StatsData.Stats, cs: bool): seq<StatsData.Stat>
  {
    if cs then [stats.currSolo, stats.currDuo, stats.currSquad]
    else [stats.solo, stats.duo, stats.squad]
  }

  /** The row keys: the `curr_` modes for the current season, else the overall ones, in the
      order `Rows` reads them. */
  function RowKeys(cs: bool): seq<string>
  {
    if cs then ["curr_SOLO", "curr_DUO", "curr_SQUAD"] else ["SOLO", "DUO", "SQUAD"]
  }

  /** The row headings: the mode name found in the row key. */
  function RowLabel(row: string): string
  {
    if Text.HasSubstring(row, "SOLO") then "solos"
    else if Text.HasSubstring(row, "DUO") then "duos"
    else if Text.HasSubstring(row, "SQUAD") then "squads"
    else ""
  }

  /** The corner heading. */
  function Corner(cs: bool): seq<string>
  {
    if cs then ["Current", "season"] else ["Overall"]
  }

  /** The headings name the rows that are drawn: row i is headed by the mode whose statistics
      `Rows` puts there. */
  lemma Headings(cs: bool)
    ensures |RowKeys(cs)| == 3
    ensures RowLabel(RowKeys(cs)[0]) == "solos"
    ensures RowLabel(RowKeys(cs)[1]) == "duos"
    ensures RowLabel(RowKeys(cs)[2]) == "squads"
  {
    if cs {
      ModeLabels("curr_SOLO", "curr_DUO", "curr_SQUAD", 5);
    } else {
      ModeLabels("SOLO", "DUO", "SQUAD", 0);
    }
  }

  /** The corner says "Current season" exactly when the rows are the current season's, and
      "Overall" otherwise. */
  lemma CornerHeading(cs: bool)
    ensures Corner(cs) == ["Current", "season"]
        <==> "curr_" <= RowKeys(cs)[0] && "curr_" <= RowKeys(cs)[1] && "curr_" <= RowKeys(cs)[2]
    ensures Corner(cs) == ["Current", "season"] || Corner(cs) == ["Overall"]
  {
    if !cs {
      assert RowKeys(cs)[0][0] != 'c';
    }
  }

  /** The three keys that are a common prefix followed by the mode names get the three labels. */
  lemma ModeLabels(solo: string, duo: string, squad: string, k: nat)
    requires k <= |solo| && k <= |duo| && k <= |squad|
    requires solo[k..] == "SOLO" && duo[k..] == "DUO" && squad[k..] == "SQUAD"
    requires 'S' !in duo && 'L' !in squad && 'O' !in squad
    ensures RowLabel(solo) == "solos" && RowLabel(duo) == "duos" && RowLabel(squad) == "squads"
  {
    SubstringOfTail(solo, "SOLO", k);
    SubstringOfTail(duo, "DUO", k);
    SubstringOfTail(squad, "SQUAD", k);
    MissingCharacter(duo, "SOLO", 'S');
    MissingCharacter(squad, "SOLO", 'L');
    MissingCharacter(squad, "DUO", 'O');
  }

  /** A text contains whatever one of its suffixes contains. */
  lemma {:induction false} SubstringOfTail(s: string, sub: string, k: nat)
    requires k <= |s| && Text.HasSubstring(s[k..], sub)
    ensures Text.HasSubstring(s, sub)
    decreases k
  {
    if k > 0 {
      assert s[1..][k - 1..] == s[k..];
      SubstringOfTail(s[1..], sub, k - 1);
    }
  }

  /** A text cannot contain a piece holding a character the text lacks. */
  lemma {:induction false} MissingCharacter(s: string, sub: string, c: char)
    requires c in sub && c !in s
    ensures !Text.HasSubstring(s, sub)
    decreases |s|
  {
    if s != [] {
      MissingCharacter(s[1..], sub, c);
    }
  }

  /** The text shown for one statistic: a blank string shows as '0'. A value that is not a string
      has no `strip` and raises AttributeError. */
  function CellText(v: Value): (r: Result<string>)
    ensures r.Ok? <==> v.Str?
    ensures r.Ok? ==> (r.value == "0" <==> Text.IsBlank(v.s) || v.s == "0")
    ensures r.Ok? && !Text.IsBlank(v.s) ==> r.value == v.s
  {
    Text.StripEmptyIffBlank(if v.Str? then v.s else "");
    if !v.Str? then Err(AttributeError)
    else if Text.Strip(v.s) == "" then Ok("0")
    else Ok(v.s)
  }

  /** A text drawn at a position. */
  datatype Cell = Cell(left: int, top: int, text: string)

  /** The cell of column `c` (0-based) and row `r` (0-based), when its value is text. */
  function CellAt(rows: seq<StatsData.Stat>, c: nat, r: nat, colSize: int, rowSize: int): Result<Cell>
    requires c < |Columns| && r < |rows|
  {
    var t :- CellText(Attr(rows[r], AttrName(Columns[c])));
    Ok(Cell(colSize * (c + 1), rowSize * (r + 1), t))
  }

  /** The three cells of column `c`, row by row from the top; the first value that is not text
      stops the column with its error. */
  method ColumnCells(rows: seq<StatsData.Stat>, c: nat, left: int, colSize: int, rowSize: int)
    returns (res: Result<seq<Cell>>)
    requires c < |Columns| && |rows| == 3 && left == colSize * (c + 1)
    ensures res.Ok? <==> forall r :: 0 <= r < 3 ==> CellAt(rows, c, r, colSize, rowSize).Ok?
    ensures res.Ok? ==> |res.value| == 3
    ensures res.Ok? ==> forall r :: 0 <= r < 3 ==> Ok(res.value[r]) == CellAt(rows, c, r, colSize, rowSize)
  {
    var name := AttrName(Columns[c]);
    var cells: seq<Cell> := [];
    var top := rowSize;
    var r := 0;
    while r < 3
      invariant 0 <= r <= 3 && |cells| == r && top == rowSize * (r + 1)
      invariant forall r' :: 0 <= r' < r ==> Ok(cells[r']) == CellAt(rows, c, r', colSize, rowSize)
    {
      var text := CellText(Attr(rows[r], name));
      if text.Err? {
        assert CellAt(rows, c, r, colSize, rowSize).Err?;
        return Err(text.error);
      }
      assert CellAt(rows, c, r, colSize, rowSize) == Ok(Cell(left, top, text.value));
      cells := cells + [Cell(left, top, text.value)];
      top := top + rowSize;
      assert top == rowSize * (r + 2);
      r := r + 1;
    }
    res := Ok(cells);
  }

  /** The value cells of `Main.generate` on a `size` canvas, column by column and, within a
      column, row by row; the first value that is not text stops the drawing with AttributeError. */
  method Cells(stats: StatsData.Stats, cs: bool, size: Backgrounds.Size) returns (res: Result<seq<Cell>>)
    ensures var rows := Rows(stats, cs);
      var colSize := Text.Round(size.width as real / 7.0);
      var rowSize := Text.Round(size.height as real / 4.0);
      (res.Ok? <==> forall c, r :: 0 <= c < 6 && 0 <= r < 3 ==> CellAt(rows, c, r, colSize, rowSize).Ok?)
      && (res.Ok? ==> |res.value| == 18)
      && (res.Ok? ==> forall c, r :: 0 <= c < 6 && 0 <= r < 3 ==>
            Ok(res.value[c * 3 + r]) == CellAt(rows, c, r, colSize, rowSize))
  {
    var rows := Rows(stats, cs);
    var colSize := Text.Round(size.width as real / 7.0);
    var rowSize := Text.Round(size.height as real / 4.0);
    var cells: seq<Cell> := [];
    var left := colSize;
    var c := 0;
    while c < 6
      invariant 0 <= c <= 6 && |cells| == c * 3 && left == colSize * (c + 1)
      invariant forall c', r :: 0 <= c' < c && 0 <= r < 3 ==>
        Ok(cells[c' * 3 + r]) == CellAt(rows, c', r, colSize, rowSize)
    {
      var column := ColumnCells(rows, c, left, colSize, rowSize);
      if column.Err? {
        return Err(column.error);
      }
      ghost var before := cells;
      cells := cells + column.value;
      forall c', r' | 0 <= c' < c + 1 && 0 <= r' < 3
        ensures Ok(cells[c' * 3 + r']) == CellAt(rows, c', r', colSize, rowSize)
      {
        if c' == c {
          assert cells[c * 3 + r'] == column.value[r'];
        } else {
          assert c' * 3 + r' < c * 3;
          assert cells[c' * 3 + r'] == before[c' * 3 + r'];
        }
      }
      left := left + colSize;
      assert left == colSize * (c + 2);
      c := c + 1;
    }
    res := Ok(cells);
  }

  /** A mode with no data at all shows '0' in every column. */
  lemma MissingModeShowsZeros(c: Column)
    ensures StatsData.StatOf(Object(map[])).Ok?
    ensures CellText(Attr(StatsData.StatOf(Object(map[])).value, AttrName(c))) == Ok("0")
  {
  }
}
