/** The table model of the tuning tool (src/SMVTuner/TablePrototype.py): a
    grid of calibration values under two axes, shown as a Qt table whose
    cells can be edited when the entry reads as an integer, and in which the
    four cells around an operating point are highlighted. */
module Tuner {
  import opened CalibrationTable

  /** A cell or an edited entry: a Python int, float or str. */
  datatype Value = IntVal(i: int) | FloatVal(r: real) | Text(s: string)

  /** The item-data roles the model answers, and what it answers with. */
  datatype Role = DisplayRole | BackgroundColorRole | TextAlignmentRole | OtherRole
  datatype Orientation = Horizontal | Vertical
  datatype Variant = Empty | Shown(value: Value) | AxisValue(r: real) | RedBrush | AlignCenter

  /** The ASCII code points Python counts as whitespace: space, tab, line
      feed, vertical tab, form feed, carriage return, and the four
      separators 0x1C to 0x1F. */
  predicate IsSpace(c: char)
  {
    c == ' ' || c == '\t' || c == '\n' || c == '\r' || c as int == 11 || c as int == 12
    || 28 <= c as int <= 31
  }

  predicate IsDigit(c: char)
  {
    '0' <= c <= '9'
  }

  function StripLeft(s: string): (t: string)
    ensures |t| <= |s| && (|t| > 0 ==> !IsSpace(t[0]))
  {
    if |s| > 0 && IsSpace(s[0]) then StripLeft(s[1..]) else s
  }

  function StripRight(s: string): (t: string)
    ensures |t| <= |s| && (|t| > 0 ==> !IsSpace(t[|t| - 1]))
  {
    if |s| > 0 && IsSpace(s[|s| - 1]) then StripRight(s[..|s| - 1]) else s
  }

  /** Decimal digits, with single underscores allowed between digits. */
  predicate IsDigitGroup(s: string)
  {
    && |s| >= 1 && IsDigit(s[0]) && IsDigit(s[|s| - 1])
    && (forall i :: 0 <= i < |s| ==> IsDigit(s[i]) || s[i] == '_')
    && (forall i :: 0 <= i < |s| - 1 ==> !(s[i] == '_' && s[i + 1] == '_'))
  }

  /** What int(s) accepts for a string: surrounding whitespace, an optional
      sign, then a digit group. */
  predicate IsIntLiteral(s: string)
  {
    var t := StripRight(StripLeft(s));
    |t| >= 1 && if t[0] == '+' || t[0] == '-' then IsDigitGroup(t[1..]) else IsDigitGroup(t)
  }

  /** int(value) succeeds: always for an int or a (finite) float, and for a
      string that is an integer literal. */
  predicate IntParses(v: Value)
  {
    match v
    case IntVal(_) => true
    case FloatVal(_) => true
    case Text(s) => IsIntLiteral(s)
  }

  /** A string with no whitespace at either end is left as it is. */
  lemma NothingToStrip(s: string)
    requires |s| > 0 && !IsSpace(s[0]) && !IsSpace(s[|s| - 1])
    ensures StripRight(StripLeft(s)) == s
  {
  }

  /** Entries the cell editor accepts: numbers, digits, digit groups. */
  lemma IntParsesAccepted()
    ensures IntParses(IntVal(42)) && IntParses(FloatVal(37.5))
    ensures IntParses(Text("42")) && IntParses(Text("1_000"))
  {
    NothingToStrip("42");
    NothingToStrip("1_000");
  }

  /** ... and a signed number with whitespace around it. */
  lemma IntParsesPadded()
    ensures IntParses(Text(" -7\n"))
    ensures IntParses(Text("\U{1C}5\U{1F}"))
  {
    assert StripLeft(" -7\n") == "-7\n" && StripRight("-7\n") == "-7";
    assert "-7"[1..] == "7";
    assert StripLeft("\U{1C}5\U{1F}") == "5\U{1F}" && StripRight("5\U{1F}") == "5";
  }

  /** Entries it rejects: empty or blank, a decimal point, doubled or
      leading underscores, a lone sign. */
  lemma IntParsesRejected()
    ensures !IntParses(Text("")) && !IntParses(Text("   ")) && !IntParses(Text("4.2"))
    ensures !IntParses(Text("1__0")) && !IntParses(Text("_1")) && !IntParses(Text("+"))
  {
    assert StripLeft("   ") == "";
    NothingToStrip("4.2");
    assert !IsDigit("4.2"[1]);
    NothingToStrip("1__0");
    assert "1__0"[1] == '_' && "1__0"[2] == '_';
    NothingToStrip("_1");
    NothingToStrip("+");
  }

  /** The number of axis entries at or below `x`: what the counting loops of
      setHighlight compute. */
  function CountAtMost(s: seq<real>, x: real): (n: nat)
    ensures n <= |s|
  {
    if |s| == 0 then 0
    else CountAtMost(s[..|s| - 1], x) + (if x >= s[|s| - 1] then 1 else 0)
  }

  /** If the entries below index k are at most x and the rest are above it,
      k entries are counted. */
  lemma {:induction false} CountSplit(s: seq<real>, x: real, k: nat)
    requires k <= |s|
    requires forall j :: 0 <= j < k ==> s[j] <= x
    requires forall j :: k <= j < |s| ==> x < s[j]
    ensures CountAtMost(s, x) == k
    decreases |s|
  {
    if |s| > 0 {
      var t := s[..|s| - 1];
      if k == |s| {
        CountSplit(t, x, k - 1);
      } else {
        CountSplit(t, x, k);
      }
    }
  }

  /** On a strictly increasing axis and a value inside it, the highlighted
      index is the bracket index of findIndex in src/ecu/table.cpp. */
  lemma HighlightIsBracket(s: seq<real>, x: real)
    requires StrictlyIncreasing(s) && |s| >= 1 && x < s[|s| - 1]
    ensures CountAtMost(s, x) - 1 == BracketIndex(s, x)
  {
    var r := BracketIndex(s, x);
    forall j | r + 1 <= j < |s|
      ensures x < s[j]
    {
      if r + 1 < j {
        assert s[r + 1] < s[j];
      }
    }
    CountSplit(s, x, r + 1);
  }

  /** Outside the axis the highlighted index leaves the table: -1 below the
      first entry, and the last index at or above the last entry, so that
      its neighbour + 1 is one past the end. */
  lemma HighlightOutOfRange(s: seq<real>, x: real)
    requires StrictlyIncreasing(s) && |s| >= 1
    ensures x < s[0] ==> CountAtMost(s, x) - 1 == -1
    ensures x >= s[|s| - 1] ==> CountAtMost(s, x) - 1 + 1 == |s|
  {
    if x < s[0] {
      CountSplit(s, x, 0);
    }
    if x >= s[|s| - 1] {
      CountSplit(s, x, |s|);
    }
  }

  /** The four (row, column) cells setHighlight lists, in its order. */
  function HighlightCells(yh: int, xh: int): seq<(int, int)>
  {
    [(yh, xh), (yh + 1, xh), (yh, xh + 1), (yh + 1, xh + 1)]
  }

  /** The cell an operating point lies in is highlighted with its three
      neighbours up and to the right, and nothing else is. */
  lemma HighlightCellsSquare(yh: int, xh: int, row: int, col: int)
    ensures (row, col) in HighlightCells(yh, xh)
            <==> (row == yh || row == yh + 1) && (col == xh || col == xh + 1)
  {
    var cells := HighlightCells(yh, xh);
    if (row == yh || row == yh + 1) && (col == xh || col == xh + 1) {
      if row == yh && col == xh {
        assert cells[0] == (row, col);
      } else if row == yh + 1 && col == xh {
        assert cells[1] == (row, col);
      } else if row == yh && col == xh + 1 {
        assert cells[2] == (row, col);
      } else {
        assert cells[3] == (row, col);
      }
    }
  }

  /** The grid with one cell replaced. */
  function SetCell(data: seq<seq<Value>>, row: int, col: int, v: Value): seq<seq<Value>>
    requires 0 <= row < |data| && 0 <= col < |data[row]|
  {
    data[row := data[row][col := v]]
  }

  /** Replacing a cell keeps the shape, and the cell reads back as the new
      value while every other cell reads as before. */
  lemma SetCellReads(data: seq<seq<Value>>, row: int, col: int, v: Value, i: int, j: int)
    requires 0 <= row < |data| && 0 <= col < |data[row]|
    requires 0 <= i < |data| && 0 <= j < |data[i]|
    ensures var d := SetCell(data, row, col, v);
            |d| == |data| && |d[i]| == |data[i]|
            && d[i][j] == if i == row && j == col then v else data[i][j]
  {
  }

  /** The rows of integers of a VE table as cells. */
  function IntCells(rows: seq<seq<int>>): (d: seq<seq<Value>>)
    ensures |d| == |rows| && forall r :: 0 <= r < |rows| ==> |d[r]| == |rows[r]|
  {
    seq(|rows|, r requires 0 <= r < |rows| => seq(|rows[r]|, c requires 0 <= c < |rows[r]| => IntVal(rows[r][c])))
  }

  function FloatCells(rows: seq<seq<real>>): (d: seq<seq<Value>>)
    ensures |d| == |rows| && forall r :: 0 <= r < |rows| ==> |d[r]| == |rows[r]|
  {
    seq(|rows|, r requires 0 <= r < |rows| => seq(|rows[r]|, c requires 0 <= c < |rows[r]| => FloatVal(rows[r][c])))
  }

  /** ModelVE: volumetric efficiency in percent over speed (columns) and
      throttle (rows). */
  const VeXAxis: seq<real> := [1000.0, 1050.0, 1101.0, 1401.0, 2001.0, 2601.0, 3101.0, 3700.0,
                                4300.0, 4900.0, 5400.0, 6000.0, 6500.0, 7000.0, 7200.0, 7500.0]
  const VeYAxis: seq<real> := [30.1, 35.0, 40.0, 45.0, 50.0, 55.0, 60.0, 65.0,
                                70.0, 75.0, 80.0, 85.0, 90.0, 95.0, 98.0, 100.0]
  const VeData: seq<seq<int>> := [
    [28, 30, 30, 37, 36, 36, 36, 36, 35, 35, 35, 35, 34, 34, 34, 34],
    [31, 31, 31, 38, 38, 38, 38, 38, 38, 38, 38, 38, 38, 38, 38, 38],
    [31, 31, 31, 39, 39, 39, 40, 40, 40, 41, 41, 41, 41, 42, 42, 42],
    [32, 32, 32, 40, 40, 41, 41, 42, 43, 43, 44, 44, 45, 45, 46, 46],
    [32, 33, 33, 41, 42, 42, 43, 44, 45, 46, 47, 48, 48, 49, 49, 50],
    [33, 33, 34, 39, 40, 41, 45, 46, 48, 49, 50, 51, 52, 53, 53, 54],
    [33, 34, 35, 31, 32, 34, 47, 48, 50, 51, 53, 54, 55, 57, 57, 58],
    [34, 35, 36, 32, 33, 35, 49, 51, 52, 54, 56, 57, 59, 60, 61, 62],
    [35, 36, 37, 33, 35, 37, 51, 53, 55, 57, 59, 61, 62, 64, 65, 66],
    [35, 36, 38, 34, 36, 38, 52, 55, 57, 60, 62, 64, 66, 68, 69, 70],
    [36, 37, 38, 35, 37, 40, 54, 57, 60, 62, 65, 67, 70, 72, 73, 74],
    [36, 38, 37, 38, 43, 46, 48, 51, 54, 57, 68, 71, 73, 76, 76, 78],
    [68, 69, 68, 74, 82, 85, 86, 86, 89, 92, 91, 92, 89, 87, 91, 93],
    [68, 70, 69, 75, 81, 83, 84, 84, 87, 91, 90, 91, 88, 87, 91, 93],
    [69, 72, 75, 79, 82, 84, 86, 86, 88, 92, 91, 93, 90, 89, 94, 95],
    [69, 72, 76, 80, 83, 85, 86, 87, 90, 93, 92, 94, 92, 91, 95, 97]]

  /** ModelSA: spark advance in degrees over speed and throttle. */
  const SaXAxis: seq<real> := [1000.0, 1001.0, 1200.0, 1500.0, 2000.0, 2600.0, 3100.0, 3700.0,
                                4300.0, 4900.0, 5400.0, 6000.0]
  const SaYAxis: seq<real> := [20.1, 25.0, 30.0, 35.0, 40.0, 45.0, 50.0, 60.0, 70.0, 80.0, 90.0, 100.0]
  const SaData: seq<seq<real>> := [
    [18.6, 19.2, 20.0, 20.8, 22.4, 24.3, 25.3, 27.0, 28.7, 29.5, 30.2, 31.0],
    [18.5, 19.0, 19.9, 20.7, 22.3, 24.2, 25.2, 26.9, 28.6, 29.3, 30.0, 37.0],
    [18.3, 18.9, 19.7, 20.6, 22.2, 24.1, 25.1, 26.8, 28.5, 29.2, 29.8, 30.5],
    [18.2, 18.7, 19.6, 20.4, 22.0, 23.9, 24.9, 26.6, 28.3, 29.0, 29.5, 30.2],
    [18.0, 18.6, 19.4, 20.3, 21.9, 23.8, 24.8, 26.5, 28.2, 28.8, 29.3, 29.9],
    [17.9, 18.4, 19.3, 20.1, 21.7, 23.6, 24.7, 26.4, 28.1, 28.6, 29.1, 29.7],
    [17.7, 18.3, 19.1, 20.0, 21.6, 23.5, 24.5, 26.2, 28.0, 28.5, 28.9, 29.4],
    [17.4, 18.0, 18.8, 19.7, 21.3, 23.2, 24.3, 26.0, 27.7, 28.1, 28.4, 28.9],
    [17.8, 18.4, 19.2, 20.1, 21.7, 23.7, 24.7, 26.4, 28.8, 28.5, 28.7, 29.0],
    [17.8, 18.4, 19.2, 20.1, 21.8, 23.7, 24.7, 26.5, 28.8, 29.0, 29.2, 29.4],
    [17.5, 18.1, 18.9, 19.8, 21.5, 23.4, 24.5, 26.2, 28.6, 28.7, 28.7, 28.8],
    [17.2, 17.8, 18.7, 19.5, 21.2, 23.1, 24.2, 25.9, 28.3, 28.3, 28.3, 28.3]]

  /** Consecutive entries increase. */
  predicate StepsUp(s: seq<real>)
  {
    forall i :: 0 <= i < |s| - 1 ==> s[i] < s[i + 1]
  }

  lemma {:induction false} StepsUpIncreasing(s: seq<real>)
    requires StepsUp(s)
    ensures StrictlyIncreasing(s)
    decreases |s|
  {
    if |s| > 1 {
      var t := s[1..];
      assert StepsUp(t) by {
        forall i | 0 <= i < |t| - 1
          ensures t[i] < t[i + 1]
        {
          assert t[i] == s[i + 1] && t[i + 1] == s[i + 2];
        }
      }
      StepsUpIncreasing(t);
      forall i, j | 0 <= i < j < |s|
        ensures s[i] < s[j]
      {
        if i > 0 {
          assert s[i] == t[i - 1] && s[j] == t[j - 1];
        } else if j > 1 {
          assert s[1] == t[0] && s[j] == t[j - 1];
        }
      }
    }
  }

  /** The shipped tables: VE has 16 entries on each axis and a 16 x 16 grid,
      SA 12 entries and a 12 x 12 grid, with every axis strictly increasing,
      so the rows are the y-axis entries and the columns the x-axis ones. */
  lemma ShippedShapes()
    ensures |VeXAxis| == 16 && |VeYAxis| == 16 && StrictlyIncreasing(VeXAxis) && StrictlyIncreasing(VeYAxis)
    ensures |VeData| == |VeYAxis| && forall r :: 0 <= r < |VeData| ==> |VeData[r]| == |VeXAxis|
    ensures |SaXAxis| == 12 && |SaYAxis| == 12 && StrictlyIncreasing(SaXAxis) && StrictlyIncreasing(SaYAxis)
    ensures |SaData| == |SaYAxis| && forall r :: 0 <= r < |SaData| ==> |SaData[r]| == |SaXAxis|
  {
    StepsUpIncreasing(VeXAxis);
    StepsUpIncreasing(VeYAxis);
    StepsUpIncreasing(SaXAxis);
    StepsUpIncreasing(SaYAxis);
  }

  /** A table object (ModelVE, ModelSA): two axes and a grid of rows, which
      the model edits in place. */
  class TuningTable {
    var xaxis: seq<real>
    var yaxis: seq<real>
    var data: seq<seq<Value>>

    /** One row per y-axis entry, one column per x-axis entry. */
    ghost predicate Valid()
      reads this
    {
      |data| == |yaxis| && forall r :: 0 <= r < |data| ==> |data[r]| == |xaxis|
    }

    constructor VE()
      ensures Valid() && xaxis == VeXAxis && yaxis == VeYAxis && data == IntCells(VeData)
    {
      xaxis := VeXAxis;
      yaxis := VeYAxis;
      data := IntCells(VeData);
      new;
      ShippedShapes();
    }

    constructor SA()
      ensures Valid() && xaxis == SaXAxis && yaxis == SaYAxis && data == FloatCells(SaData)
    {
      xaxis := SaXAxis;
      yaxis := SaYAxis;
      data := FloatCells(SaData);
      new;
      ShippedShapes();
    }
  }

  /** TableModel: the Qt model over one table, with the highlighted cells. */
  class TableModel {
    const table: TuningTable
    var highlighted: seq<(int, int)>

    constructor (table: TuningTable)
      ensures this.table == table && highlighted == []
    {
      this.table := table;
      highlighted := [];
    }

    function RowCount(): int
      reads table
    {
      |table.yaxis|
    }

    function ColumnCount(): int
      reads table
    {
      |table.xaxis|
    }

    /** The indices the model hands out are those inside the grid. */
    predicate IndexValid(row: int, col: int)
      reads table
    {
      0 <= row < RowCount() && 0 <= col < ColumnCount()
    }

    /** data: the cell's value for display, a red brush for a highlighted
        cell's background, centred text; nothing otherwise. */
    function Data(row: int, col: int, role: Role): (v: Variant)
      reads this, table
      requires table.Valid()
      ensures v.Shown? <==> IndexValid(row, col) && role == DisplayRole
      ensures v.Shown? ==> v.value == table.data[row][col]
      ensures v == AlignCenter <==> IndexValid(row, col) && role == TextAlignmentRole
      ensures v == RedBrush <==> IndexValid(row, col) && role == BackgroundColorRole && (row, col) in highlighted
    {
      if !IndexValid(row, col) then Empty
      else match role
        case DisplayRole => Shown(table.data[row][col])
        case BackgroundColorRole => if (row, col) in highlighted then RedBrush else Empty
        case TextAlignmentRole => AlignCenter
        case OtherRole => Empty
    }

    /** headerData: the axis entry of a column (horizontal) or row
        (vertical). */
    function HeaderData(section: int, orientation: Orientation, role: Role): (v: Variant)
      reads table
      requires role == DisplayRole ==>
                 0 <= section < (if orientation == Horizontal then ColumnCount() else RowCount())
      ensures v.AxisValue? <==> role == DisplayRole
      ensures v.AxisValue? ==> v.r == (if orientation == Horizontal then table.xaxis else table.yaxis)[section]
    {
      match role
      case DisplayRole =>
        if orientation == Horizontal then AxisValue(table.xaxis[section])
        else AxisValue(table.yaxis[section])
      case TextAlignmentRole => AlignCenter
      case _ => Empty
    }

    /** setData: at a valid index, store the entry itself (not its integer
        value) and report success when int(value) succeeds; otherwise report
        failure and change nothing. */
    method SetData(row: int, col: int, value: Value) returns (ok: bool)
      requires table.Valid()
      modifies table
      ensures table.Valid()
      ensures table.xaxis == old(table.xaxis) && table.yaxis == old(table.yaxis)
      ensures ok <==> IndexValid(row, col) && IntParses(value)
      ensures table.data == if ok then SetCell(old(table.data), row, col, value) else old(table.data)
      ensures ok ==> Data(row, col, DisplayRole) == Shown(value)
    {
      if IndexValid(row, col) {
        if IntParses(value) {
          table.data := table.data[row := table.data[row][col := value]];
          return true;
        } else {
          return false;
        }
      } else {
        return false;
      }
    }

    /** setHighlight: count the axis entries at or below the point on each
        axis, and highlight the cell of the last one counted and its three
        neighbours. */
    method SetHighlight(x: real, y: real)
      modifies this
      ensures highlighted == HighlightCells(CountAtMost(table.yaxis, y) - 1, CountAtMost(table.xaxis, x) - 1)
    {
      highlighted := [];
      var xhighlight := -1;
      var yhighlight := -1;
      for k := 0 to |table.xaxis|
        invariant xhighlight == CountAtMost(table.xaxis[..k], x) - 1
      {
        assert table.xaxis[..k + 1][..k] == table.xaxis[..k];
        if x >= table.xaxis[k] {
          xhighlight := xhighlight + 1;
        }
      }
      assert table.xaxis[..|table.xaxis|] == table.xaxis;
      for k := 0 to |table.yaxis|
        invariant yhighlight == CountAtMost(table.yaxis[..k], y) - 1
      {
        assert table.yaxis[..k + 1][..k] == table.yaxis[..k];
        if y >= table.yaxis[k] {
          yhighlight := yhighlight + 1;
        }
      }
      assert table.yaxis[..|table.yaxis|] == table.yaxis;
      highlighted := highlighted + [(yhighlight, xhighlight)];
      highlighted := highlighted + [(yhighlight + 1, xhighlight)];
      highlighted := highlighted + [(yhighlight, xhighlight + 1)];
      highlighted := highlighted + [(yhighlight + 1, xhighlight + 1)];
    }
  }
}
