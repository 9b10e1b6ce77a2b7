/** The rows of the "Mission Creation" table: a label `WP` followed by the
    row index left-padded with '0' to two characters, the waypoint's
    coordinates, and a distance cell that shows "--" on the first row. */
module WaypointTable {
  import opened Waypoints

  predicate IsDigit(c: char)
  {
    '0' <= c <= '9'
  }

  predicate AllDigits(s: string)
  {
    forall k :: 0 <= k < |s| ==> IsDigit(s[k])
  }

  function Digit(d: nat): (c: char)
    requires d < 10
    ensures IsDigit(c)
  {
    (('0' as int) + d) as char
  }

  function DigitValue(c: char): (d: nat)
    requires IsDigit(c)
    ensures d < 10 && Digit(d) == c
  {
    (c as int) - ('0' as int)
  }

  /** `String(n)` for a non-negative integer: its decimal digits, with no
      leading zero except for 0 itself. */
  function Decimal(n: nat): (s: string)
    ensures AllDigits(s)
    ensures |s| >= 1
    ensures |s| == 1 <==> n < 10
    ensures s[0] == '0' <==> n == 0
  {
    if n < 10 then [Digit(n)] else Decimal(n / 10) + [Digit(n % 10)]
  }

  /** The number a string of decimal digits denotes; leading zeros add
      nothing. */
  function DecimalValue(s: string): nat
    requires AllDigits(s)
  {
    if s == [] then 0 else 10 * DecimalValue(s[..|s| - 1]) + DigitValue(s[|s| - 1])
  }

  /** Reading back the digits of `String(n)` gives n. */
  lemma {:induction false} DecimalRoundTrip(n: nat)
    ensures DecimalValue(Decimal(n)) == n
  {
    var s := Decimal(n);
    if n < 10 {
      assert s[..0] == [];
    } else {
      DecimalRoundTrip(n / 10);
      assert s[..|s| - 1] == Decimal(n / 10);
    }
  }

  /** `s.padStart(width, fill)` with a one-character fill: s unchanged when
      it is already `width` long or longer, otherwise s behind enough copies
      of `fill` to reach `width`. */
  function PadStart(s: string, width: nat, fill: char): (r: string)
    ensures |r| == if |s| < width then width else |s|
    ensures r[|r| - |s|..] == s
    ensures forall k :: 0 <= k < |r| - |s| ==> r[k] == fill
  {
    if |s| < width then seq(width - |s|, _ => fill) + s else s
  }

  /** The row label: `"WP" + String(index).padStart(2, "0")`. */
  function RowLabel(index: nat): (text: string)
    ensures |text| >= 4 && text[..2] == "WP"
    ensures index < 10 ==> text == "WP0" + [Digit(index)]
    ensures index >= 10 ==> text == "WP" + Decimal(index)
  {
    "WP" + PadStart(Decimal(index), 2, '0')
  }

  /** The index a well-formed label stands for. */
  function LabelIndex(text: string): nat
    requires |text| >= 2 && AllDigits(text[2..])
  {
    DecimalValue(text[2..])
  }

  /** Labels read back to their index. */
  lemma RowLabelRoundTrip(index: nat)
    ensures |RowLabel(index)| >= 2 && AllDigits(RowLabel(index)[2..])
    ensures LabelIndex(RowLabel(index)) == index
  {
    var text := RowLabel(index);
    if index < 10 {
      var digits := text[2..];
      assert digits == ['0', Digit(index)];
      assert digits[..1] == ['0'];
      assert ['0'][..0] == [];
      assert DecimalValue(digits[..1]) == 0;
      assert DigitValue(Digit(index)) == index;
    } else {
      assert text[2..] == Decimal(index);
      DecimalRoundTrip(index);
    }
  }

  /** No two rows share a label. */
  lemma RowLabelInjective(i: nat, j: nat)
    requires RowLabel(i) == RowLabel(j)
    ensures i == j
  {
    RowLabelRoundTrip(i);
    RowLabelRoundTrip(j);
  }

  /** The distance cell: "--" on the first row, otherwise the waypoint's
      distance in metres (its `toFixed(2)` rendering is not modelled). */
  datatype Cell = Dashes | Meters(value: real)

  function DistanceCell<T>(index: nat, wp: Waypoint<T>): Cell
  {
    if index == 0 then Dashes else Meters(wp.distance)
  }

  /** The text of a cell; `fixed2` stands for `toFixed(2)`. */
  function CellText(c: Cell, fixed2: real -> string): string
  {
    match c
    case Dashes => "--"
    case Meters(v) => fixed2(v)
  }

  datatype Row<T> = Row(labelText: string, coordinates: T, distance: Cell)

  /** `waypoints.map((wp, index) => <TableRow>...)`. */
  function Table<T>(ws: seq<Waypoint<T>>): (rows: seq<Row<T>>)
    ensures |rows| == |ws|
    ensures forall i :: 0 <= i < |rows| ==> rows[i].coordinates == ws[i].coordinates
  {
    seq(|ws|, i requires 0 <= i < |ws| => Row(RowLabel(i), ws[i].coordinates, DistanceCell(i, ws[i])))
  }

  /** Row i of the table of a built waypoint list: label WP<i>, the i-th
      coordinate, and "--" exactly on the first row, the length of the leg
      ending at coordinate i on every other. */
  lemma TableOfBuild<T>(coords: seq<T>, dist: (T, T) -> real, i: nat)
    requires i < |coords|
    ensures |Table(Build(coords, dist))| == |coords|
    ensures Table(Build(coords, dist))[i].labelText == RowLabel(i)
    ensures Table(Build(coords, dist))[i].coordinates == coords[i]
    ensures Table(Build(coords, dist))[i].distance == Dashes <==> i == 0
    ensures i > 0 ==> Table(Build(coords, dist))[i].distance == Meters(dist(coords[i - 1], coords[i]))
  {
  }

  /** The labels in a table are pairwise distinct. */
  lemma TableLabelsDistinct<T>(ws: seq<Waypoint<T>>)
    ensures forall i, j :: 0 <= i < j < |Table(ws)| ==> Table(ws)[i].labelText != Table(ws)[j].labelText
  {
    var rows := Table(ws);
    forall i, j | 0 <= i < j < |rows|
      ensures rows[i].labelText != rows[j].labelText
    {
      if rows[i].labelText == rows[j].labelText {
        RowLabelInjective(i, j);
      }
    }
  }
}
