/** The viewport table of get_viewports: normalised rectangles, origin bottom-left. */
module Layout {

  /** A normalised viewport (x0, y0, x1, y1). */
  datatype Rect = Rect(x0: real, y0: real, x1: real, y1: real)

  /** Inside the unit square with positive width and height. */
  predicate WellFormed(v: Rect) {
    0.0 <= v.x0 < v.x1 <= 1.0 && 0.0 <= v.y0 < v.y1 <= 1.0
  }

  function Width(v: Rect): real { v.x1 - v.x0 }

  function Area(v: Rect): real { (v.x1 - v.x0) * (v.y1 - v.y0) }

  function TotalArea(vs: seq<Rect>): real {
    if vs == [] then 0.0 else Area(vs[0]) + TotalArea(vs[1..])
  }

  /** The interiors of u and v do not meet. */
  predicate Disjoint(u: Rect, v: Rect) {
    u.x1 <= v.x0 || v.x1 <= u.x0 || u.y1 <= v.y0 || v.y1 <= u.y0
  }

  /** Half-open membership, so that every point of [0,1)x[0,1) lies in exactly one tile. */
  predicate Contains(v: Rect, x: real, y: real) {
    v.x0 <= x < v.x1 && v.y0 <= y < v.y1
  }

  /** u comes before v when reading the screen: u is in a higher row, or in the same row to the left. */
  predicate Precedes(u: Rect, v: Rect) {
    v.y1 <= u.y0 || (u.y0 == v.y0 && u.x1 <= v.x0)
  }

  /** The number of tiles on the bottom edge of the screen, that is, the columns of a layout. */
  function Columns(vs: seq<Rect>): nat {
    if vs == [] then 0 else (if vs[0].y0 == 0.0 then 1 else 0) + Columns(vs[1..])
  }

  /** The number of tiles on the left edge of the screen, that is, the rows of a layout. */
  function Rows(vs: seq<Rect>): nat {
    if vs == [] then 0 else (if vs[0].x0 == 0.0 then 1 else 0) + Rows(vs[1..])
  }

  const Full := Rect(0.0, 0.0, 1.0, 1.0)

  /** The viewports for n tiles; any count other than 1 to 4 gives the empty list. */
  function GetViewports(n: int): (vs: seq<Rect>)
    ensures |vs| == if 1 <= n <= 4 then n else 0
    ensures forall i :: 0 <= i < |vs| ==> WellFormed(vs[i])
  {
    if n == 1 then
      [Full]
    else if n == 2 then
      [Rect(0.0, 0.0, 0.5, 1.0), Rect(0.5, 0.0, 1.0, 1.0)]
    else if n == 3 then
      [Rect(0.0, 0.0, 0.333333, 1.0), Rect(0.333333, 0.0, 0.666666, 1.0), Rect(0.666666, 0.0, 1.0, 1.0)]
    else if n == 4 then
      [Rect(0.0, 0.5, 0.5, 1.0), Rect(0.5, 0.5, 1.0, 1.0), Rect(0.0, 0.0, 0.5, 0.5), Rect(0.5, 0.0, 1.0, 0.5)]
    else
      []
  }

  /** The tiles of every layout have disjoint interiors and together cover area exactly 1. */
  lemma Partition(n: int)
    requires 1 <= n <= 4
    ensures var vs := GetViewports(n);
      (forall i, j :: 0 <= i < j < |vs| ==> Disjoint(vs[i], vs[j])) && TotalArea(vs) == 1.0
  {
    var vs := GetViewports(n);
    if n == 3 {
      assert vs[2..][1..] == [];
      assert TotalArea(vs[2..]) == 0.333334;
      assert TotalArea(vs[1..]) == 0.333333 + 0.333334;
    } else if n == 4 {
      assert vs[3..][1..] == [];
      assert TotalArea(vs[3..]) == 0.25;
      assert TotalArea(vs[2..]) == 0.5;
      assert TotalArea(vs[1..]) == 0.75;
    } else if n == 2 {
      assert vs[1..][1..] == [];
      assert TotalArea(vs[1..]) == 0.5;
    } else {
      assert vs[1..] == [];
    }
  }

  /** The tile of an n-tile layout that shows the point (x, y); it is the only one. */
  function TileAt(n: int, x: real, y: real): (i: nat)
    requires 1 <= n <= 4 && 0.0 <= x < 1.0 && 0.0 <= y < 1.0
    ensures i < n && Contains(GetViewports(n)[i], x, y)
    ensures forall j :: 0 <= j < n && Contains(GetViewports(n)[j], x, y) ==> j == i
  {
    if n == 1 then 0
    else if n == 2 then (if x < 0.5 then 0 else 1)
    else if n == 3 then (if x < 0.333333 then 0 else if x < 0.666666 then 1 else 2)
    else (if y < 0.5 then 2 else 0) + (if x < 0.5 then 0 else 1)
  }

  /** Every layout lists its tiles in reading order: the 2x2 grid top-left, top-right,
      bottom-left, bottom-right, and the strips left to right, each starting where the last ends. */
  lemma ReadingOrder(n: int)
    ensures var vs := GetViewports(n);
      (forall i, j :: 0 <= i < j < |vs| ==> Precedes(vs[i], vs[j]))
    ensures n == 2 || n == 3 ==> var vs := GetViewports(n);
      (forall i :: 0 <= i < |vs| ==> vs[i].y0 == 0.0 && vs[i].y1 == 1.0) &&
      vs[0].x0 == 0.0 && vs[|vs| - 1].x1 == 1.0 &&
      (forall i :: 0 < i < |vs| ==> vs[i - 1].x1 == vs[i].x0)
  {
  }

  /** One, two and three tiles form a single row of columns; four form a 2x2 grid. */
  lemma GridShape(n: int)
    requires 1 <= n <= 4
    ensures Columns(GetViewports(n)) == if n == 4 then 2 else n
    ensures Rows(GetViewports(n)) == if n == 4 then 2 else 1
  {
    var vs := GetViewports(n);
    var last := vs[n - 1..];
    assert last[1..] == [] && last[0] == vs[n - 1];
    assert Columns(last) == 1 && Rows(last) == (if n == 1 then 1 else 0);
    if n == 2 {
      assert vs[1..] == last;
    } else if n == 3 {
      var mid := vs[1..];
      assert mid[1..] == last && mid[0] == vs[1];
      assert Columns(mid) == 2 && Rows(mid) == 0;
    } else if n == 4 {
      var low := vs[2..];
      assert low[1..] == last && low[0] == vs[2];
      assert Columns(low) == 2 && Rows(low) == 1;
      var mid := vs[1..];
      assert mid[1..] == low && mid[0] == vs[1];
    }
  }

  /** The widths of the three strips are the literal decimals of the table, not exact thirds. */
  lemma ThirdsWidths()
    ensures var vs := GetViewports(3);
      Width(vs[0]) == 0.333333 && Width(vs[1]) == 0.333333 && Width(vs[2]) == 0.333334
  {
  }
}
