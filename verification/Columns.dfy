/** The layout of a result: how wide each column is drawn in the pane it was given. */
module Columns {
  import opened Options

  /** The least a column is drawn in. */
  const MINIMUM := 6

  datatype Column = Column(title: string, width: int)

  function Total(widths: seq<int>): int {
    if widths == [] then 0 else Total(widths[..|widths| - 1]) + widths[|widths| - 1]
  }

  lemma TotalNothing(widths: seq<int>)
    ensures Total([]) == 0 && Total(widths[..0]) == 0
  {}

  lemma TotalNext(widths: seq<int>, i: nat)
    requires i < |widths|
    ensures Total(widths[..i + 1]) == Total(widths[..i]) + widths[i]
  {
    assert widths[..i + 1][..i] == widths[..i];
  }

  method TotalOf(widths: array<int>) returns (sum: int)
    ensures sum == Total(widths[..])
  {
    sum := 0;
    for i := 0 to widths.Length
      invariant sum == Total(widths[..i])
    {
      sum := sum + widths[i];
      TotalNext(widths[..], i);
      assert widths[..][..i] == widths[..i] && widths[..][..i + 1] == widths[..i + 1];
    }
    assert widths[..widths.Length] == widths[..];
  }

  // ---------------------------------------------------------------------------------------
  // The width the data asks for
  // ---------------------------------------------------------------------------------------

  /** Something that stands in a column: its name, or a cell of it. */
  predicate Stands(measure: string -> nat, names: seq<string>, rows: seq<seq<string>>, column: nat, width: int)
    requires column < |names|
  {
    || width == measure(names[column])
    || exists r :: 0 <= r < |rows| && column < |rows[r]| && width == measure(rows[r][column])
  }

  /** A column is as wide as the widest thing that stands in it, or the least there is. */
  predicate Widest(measure: string -> nat, names: seq<string>, rows: seq<seq<string>>, column: nat, width: int)
    requires column < |names|
  {
    && width >= MINIMUM && width >= measure(names[column])
    && (forall r :: 0 <= r < |rows| && column < |rows[r]| ==> width >= measure(rows[r][column]))
    && (width == MINIMUM || Stands(measure, names, rows, column, width))
  }

  /** A row that is longer than the list of names has cells in no column. */
  method NaturalWidths(measure: string -> nat, names: seq<string>, rows: seq<seq<string>>) returns (widths: seq<int>)
    ensures |widths| == |names|
    ensures forall i :: 0 <= i < |names| ==> Widest(measure, names, rows, i, widths[i])
  {
    var all := new int[|names|];
    for i := 0 to |names|
      invariant forall j :: 0 <= j < i ==> all[j] == measure(names[j])
    {
      all[i] := measure(names[i]);
    }
    for r := 0 to |rows|
      invariant forall j :: 0 <= j < |names| ==> AtLeast(measure, names, rows, r, j, all[j])
    {
      var row := rows[r];
      for i := 0 to |row|
        invariant forall j :: 0 <= j < |names| ==>
                    AtLeast(measure, names, rows, r, j, all[j]) && (j < i ==> all[j] >= measure(row[j]))
      {
        if i < |names| && measure(row[i]) > all[i] {
          all[i] := measure(row[i]);
          assert Stands(measure, names, rows, i, all[i]);
        }
      }
    }
    for i := 0 to |names|
      invariant forall j :: 0 <= j < |names| ==>
                  if j < i then Widest(measure, names, rows, j, all[j])
                  else AtLeast(measure, names, rows, |rows|, j, all[j])
    {
      if all[i] < MINIMUM {
        all[i] := MINIMUM;
      }
    }
    widths := all[..];
  }

  /** As wide as the name of a column and the cells of its first rows, and no wider than
      something that stands in it. */
  predicate AtLeast(measure: string -> nat, names: seq<string>, rows: seq<seq<string>>, upto: nat,
                    column: nat, width: int)
    requires column < |names| && upto <= |rows|
  {
    && width >= measure(names[column]) && Stands(measure, names, rows, column, width)
    && forall r :: 0 <= r < upto && column < |rows[r]| ==> width >= measure(rows[r][column])
  }

  // ---------------------------------------------------------------------------------------
  // Sharing out what is spare
  // ---------------------------------------------------------------------------------------

  function Shared(widths: seq<int>, spare: nat): (r: seq<int>)
    requires widths != []
    ensures |r| == |widths|
    ensures forall i :: 0 <= i < |r| ==> r[i] == widths[i] + spare / |widths| + (if i < spare % |widths| then 1 else 0)
  {
    seq(|widths|, i requires 0 <= i < |widths| =>
      widths[i] + spare / |widths| + (if i < spare % |widths| then 1 else 0))
  }

  method Share(widths: array<int>, spare: nat)
    requires widths.Length > 0
    modifies widths
    ensures widths[..] == Shared(old(widths[..]), spare)
  {
    var n := widths.Length;
    var each := spare / n;
    for i := 0 to n
      invariant forall j :: 0 <= j < n ==> widths[j] == old(widths[j]) + if j < i then each else 0
    {
      widths[i] := widths[i] + each;
    }
    for i := 0 to spare % n
      invariant forall j :: 0 <= j < n ==> widths[j] == old(widths[j]) + each + if j < i then 1 else 0
    {
      widths[i] := widths[i] + 1;
    }
  }

  /** What each gets is added up: the same for all, and one more for the first few. */
  lemma {:induction false} TotalRaised(before: seq<int>, after: seq<int>, each: int, more: nat)
    requires |after| == |before|
    requires forall i :: 0 <= i < |before| ==> after[i] == before[i] + each + (if i < more then 1 else 0)
    ensures Total(after) == Total(before) + |before| * each + (if more < |before| then more else |before|)
  {
    if before != [] {
      var n := |before| - 1;
      TotalRaised(before[..n], after[..n], each, more);
      Distribute(each, n, 1);
    }
  }

  lemma {:induction false} SharedFills(widths: seq<int>, spare: nat)
    requires widths != []
    ensures Total(Shared(widths, spare)) == Total(widths) + spare
  {
    TotalRaised(widths, Shared(widths, spare), spare / |widths|, spare % |widths|);
  }

  // ---------------------------------------------------------------------------------------
  // Giving each its part when there is not enough
  // ---------------------------------------------------------------------------------------

  /** A column's part of the room, rounded down. */
  function Part(width: int, room: nat, sum: int): (r: int)
    requires width >= 0 && sum > 0
    ensures r >= 0
  {
    Product(width, room);
    width * room / sum
  }

  lemma Product(a: nat, b: nat)
    ensures a * b >= 0
  {}

  predicate Counts(widths: seq<int>) {
    forall i :: 0 <= i < |widths| ==> widths[i] >= 0
  }

  function Parts(widths: seq<int>, room: nat, sum: int): (r: seq<int>)
    requires Counts(widths) && sum > 0
    ensures |r| == |widths| && forall i :: 0 <= i < |r| ==> r[i] == Part(widths[i], room, sum)
  {
    seq(|widths|, i requires 0 <= i < |widths| => Part(widths[i], room, sum))
  }

  function Raised(parts: seq<int>): (r: seq<int>)
    ensures |r| == |parts| && forall i :: 0 <= i < |r| ==> r[i] == Max(parts[i], MINIMUM)
  {
    seq(|parts|, i requires 0 <= i < |parts| => Max(parts[i], MINIMUM))
  }

  /** One more for each of the first few, which is how what rounding left over is given back. */
  function Topped(widths: seq<int>, left: int): (r: seq<int>)
    ensures |r| == |widths| && forall i :: 0 <= i < |r| ==> r[i] == widths[i] + (if i < left then 1 else 0)
  {
    seq(|widths|, i requires 0 <= i < |widths| => widths[i] + (if i < left then 1 else 0))
  }

  function Squeezed(widths: seq<int>, room: int): (r: seq<int>)
    requires Counts(widths) && (room >= MINIMUM * |widths| ==> Total(widths) > 0)
    ensures |r| == |widths|
  {
    if room < MINIMUM * |widths| then seq(|widths|, _ => MINIMUM)
    else
      var raised := Raised(Parts(widths, room, Total(widths)));
      Topped(raised, room - Total(raised))
  }

  method Squeeze(widths: array<int>, room: int)
    requires Counts(widths[..]) && (room >= MINIMUM * widths.Length ==> Total(widths[..]) > 0)
    modifies widths
    ensures widths[..] == Squeezed(old(widths[..]), room)
  {
    hide Total, Part, Parts, Raised, Topped;
    var n := widths.Length;
    ghost var was := widths[..];
    if room < MINIMUM * n {
      for i := 0 to n
        invariant forall j :: 0 <= j < i ==> widths[j] == MINIMUM
      {
        widths[i] := MINIMUM;
      }
      return;
    }
    var sum := TotalOf(widths);
    var left := room;
    TotalNothing(was);
    ghost var raised := Raised(Parts(was, room, sum));
    for i := 0 to n
      invariant forall j :: 0 <= j < n ==> widths[j] == if j < i then raised[j] else was[j]
      invariant left == room - Total(raised[..i])
    {
      widths[i] := Max(Part(widths[i], room, sum), MINIMUM);
      left := left - widths[i];
      TotalNext(raised, i);
    }
    assert raised[..n] == raised;
    var over := left;
    var i := 0;
    while left > 0 && i < n
      invariant 0 <= i <= n && left == over - i
      invariant forall j :: 0 <= j < n ==> widths[j] == raised[j] + if j < i then 1 else 0
      invariant i > 0 ==> over >= i
    {
      widths[i] := widths[i] + 1;
      left := left - 1;
      i := i + 1;
    }
  }

  /** Each part is less than one short of what it would be without rounding. */
  lemma PartBounds(width: nat, room: nat, sum: int)
    requires sum > 0
    ensures sum * Part(width, room, sum) <= width * room < sum * Part(width, room, sum) + sum
  {}

  /** The parts together are no more than the room and short of it by less than one a column. */
  lemma {:induction false} PartsBounds(widths: seq<int>, room: nat, sum: int)
    requires Counts(widths) && sum > 0
    ensures sum * Total(Parts(widths, room, sum)) <= Total(widths) * room
    ensures Total(widths) * room <= sum * Total(Parts(widths, room, sum)) + |widths| * (sum - 1)
  {
    var parts := Parts(widths, room, sum);
    if widths == [] {
      assert parts == [];
    } else {
      var n := |widths| - 1;
      PartsBounds(widths[..n], room, sum);
      assert parts[..n] == Parts(widths[..n], room, sum);
      PartBounds(widths[n], room, sum);
      Distribute(sum, Total(parts[..n]), parts[n]);
      Distribute(room, Total(widths[..n]), widths[n]);
      Distribute(sum - 1, n, 1);
    }
  }

  lemma Distribute(a: int, b: int, c: int)
    ensures a * (b + c) == a * b + a * c && (b + c) * a == b * a + c * a
  {}

  /** When the parts are of the whole, their sum is the room but for what rounding took. */
  lemma {:induction false} PartsTotal(widths: seq<int>, room: nat)
    requires Counts(widths) && widths != [] && Total(widths) > 0
    ensures room - |widths| < Total(Parts(widths, room, Total(widths))) <= room
  {
    var sum, n := Total(widths), |widths|;
    var t := Total(Parts(widths, room, sum));
    PartsBounds(widths, room, sum);
    if t > room {
      Grows(sum, room + 1, t);
      Distribute(sum, room, 1);
    }
    if t <= room - n {
      Grows(sum, t, room - n);
      Distribute(sum, room - n, n);
      Distribute(n, sum - 1, 1);
    }
  }

  lemma Grows(a: int, b: int, c: int)
    requires a > 0 && b <= c
    ensures a * b <= a * c
  {}

  /** How many columns were raised to the least there is. */
  function Clamped(parts: seq<int>): nat {
    if parts == [] then 0
    else Clamped(parts[..|parts| - 1]) + if parts[|parts| - 1] < MINIMUM then 1 else 0
  }

  lemma {:induction false} RaisedTotal(parts: seq<int>)
    requires Counts(parts)
    ensures Total(parts) <= Total(Raised(parts)) <= Total(parts) + MINIMUM * Clamped(parts)
  {
    if parts != [] {
      var n := |parts| - 1;
      RaisedTotal(parts[..n]);
      assert Raised(parts)[..n] == Raised(parts[..n]);
    }
  }

  /** With room for the least of each, no column gets less than that; together they take the
      room, or what raising them came to when that is more, and that is more by at most the
      least for each column raised. */
  lemma {:induction false} SqueezedFills(widths: seq<int>, room: nat)
    requires Counts(widths) && widths != [] && Total(widths) > 0 && room >= MINIMUM * |widths|
    ensures
      var squeezed := Squeezed(widths, room);
      var parts := Parts(widths, room, Total(widths));
      && (forall i :: 0 <= i < |squeezed| ==> squeezed[i] >= MINIMUM)
      && Total(squeezed) == Max(room, Total(Raised(parts)))
      && room <= Total(squeezed) <= room + MINIMUM * Clamped(parts)
  {
    var parts := Parts(widths, room, Total(widths));
    var raised := Raised(parts);
    var left := room - Total(raised);
    PartsTotal(widths, room);
    RaisedTotal(parts);
    TotalRaised(raised, Topped(raised, left), 0, if left > 0 then left else 0);
  }

  /** Each column gets its part of the room rounded down, or the least there is when that is more, and
      what rounding left goes to the first columns, one each: no column gets one more that is after one
      that does not. */
  lemma {:induction false} SqueezedFirst(widths: seq<int>, room: nat, i: nat, j: nat)
    requires Counts(widths) && Total(widths) > 0 && room >= 6 * |widths| && i < j < |widths|
    ensures
      var squeezed, sum := Squeezed(widths, room), Total(widths);
      var a := if widths[i] * room / sum > 6 then widths[i] * room / sum else 6;
      var b := if widths[j] * room / sum > 6 then widths[j] * room / sum else 6;
      && (squeezed[i] == a || squeezed[i] == a + 1) && (squeezed[j] == b || squeezed[j] == b + 1)
      && (squeezed[j] == b + 1 ==> squeezed[i] == a + 1)
  {
    hide Total;
  }

  /** What is spare is given out evenly, and what does not divide goes to the first columns, one each. */
  lemma SharedFirst(widths: seq<int>, spare: nat, i: nat, j: nat)
    requires i < j < |widths|
    ensures
      var a, b := Shared(widths, spare)[i] - widths[i], Shared(widths, spare)[j] - widths[j];
      0 <= b <= a <= b + 1
  {
    Quotient(spare, |widths|);
  }

  lemma Quotient(a: nat, n: nat)
    requires n > 0
    ensures a / n >= 0
  {}

  /** The whole is what its parts come to. */
  lemma {:induction false} TotalAppend(a: seq<int>, b: seq<int>, width: int)
    ensures Total(a + b) == Total(a) + Total(b) && Total([width]) == width
  {
    assert [width][..0] == [];
    if b == [] {
      assert a + b == a;
    } else {
      var n := |b| - 1;
      TotalAppend(a, b[..n], width);
      assert (a + b)[..|a| + n] == a + b[..n];
    }
  }

  // ---------------------------------------------------------------------------------------
  // The columns of a result
  // ---------------------------------------------------------------------------------------

  function Laid(measured: seq<int>, width: int): (r: seq<int>)
    requires Counts(measured) && measured != []
    ensures |r| == |measured|
  {
    var spare := width - Total(measured) - 2 * |measured|;
    if spare > 0 then Shared(measured, spare)
    else if spare < 0 then Squeezed(measured, width - 2 * |measured|)
    else measured
  }

  method ColumnsFor(names: seq<string>, measured: seq<int>, width: int) returns (columns: seq<Column>)
    requires Counts(measured) && (measured != [] ==> |names| <= |measured|)
    ensures measured == [] ==> columns == []
    ensures measured != [] ==> |columns| == |names|
    ensures forall i :: 0 <= i < |columns| ==> columns[i] == Column(names[i], Laid(measured, width)[i])
  {
    hide Total, Shared, Squeezed;
    var n := |measured|;
    var widths := new int[n](i requires 0 <= i < n => measured[i]);
    assert widths[..] == measured;
    if n == 0 {
      return [];
    }
    var sum := TotalOf(widths);
    var spare := width - sum - 2 * n;
    if spare > 0 {
      Share(widths, spare);
    } else if spare < 0 {
      Squeeze(widths, width - 2 * n);
    }
    assert widths[..] == Laid(measured, width);
    hide *;
    columns := [];
    for i := 0 to |names|
      invariant |columns| == i
      invariant forall j :: 0 <= j < i ==> columns[j] == Column(names[j], widths[j])
    {
      columns := columns + [Column(names[i], widths[i])];
    }
  }

  /** With spare room the table is exactly as wide as its pane, two of padding for each column,
      and no column is narrower than its data asked for. */
  lemma {:induction false} LaidWithRoom(measured: seq<int>, width: int)
    requires Counts(measured) && measured != [] && Total(measured) + 2 * |measured| <= width
    ensures
      var laid := Laid(measured, width);
      Total(laid) + 2 * |measured| == width && forall i :: 0 <= i < |measured| ==> laid[i] >= measured[i]
  {
    hide Total;
    var spare := width - Total(measured) - 2 * |measured|;
    if spare > 0 {
      SharedFills(measured, spare);
    }
  }

  /** Without, it still fills its pane as long as that has room for the least of each column, and
      goes over it by no more than the least for each column that had to be raised. */
  lemma {:induction false} LaidWithoutRoom(measured: seq<int>, width: int)
    requires Counts(measured) && measured != []
    requires (MINIMUM + 2) * |measured| <= width < Total(measured) + 2 * |measured|
    ensures
      var room := width - 2 * |measured|;
      width <= Total(Laid(measured, width)) + 2 * |measured| <=
        width + MINIMUM * Clamped(Parts(measured, room, Total(measured)))
  {
    hide Total, Clamped, Squeezed, Shared, Parts, Raised;
    var room, total := width - 2 * |measured|, Total(measured);
    assert Laid(measured, width) == Squeezed(measured, room);
    assert MINIMUM * |measured| <= room < total;
    hide Laid;
    SqueezedFills(measured, room);
  }

  /** In any pane, no column that asked for the least there is gets less than that; and in one
      without room for that each gets no more. */
  lemma LaidLeast(measured: seq<int>, width: int)
    requires Counts(measured) && measured != [] && forall i :: 0 <= i < |measured| ==> measured[i] >= MINIMUM
    ensures forall i :: 0 <= i < |measured| ==> Laid(measured, width)[i] >= MINIMUM
    ensures width < (MINIMUM + 2) * |measured| ==>
              forall i :: 0 <= i < |measured| ==> Laid(measured, width)[i] == MINIMUM
  {
    TotalLeast(measured);
    var room := width - 2 * |measured|;
    if room >= Total(measured) {
      LaidWithRoom(measured, width);
    } else {
      assert Laid(measured, width) == Squeezed(measured, room);
      SqueezedLeast(measured, room);
    }
    hide *;
  }

  lemma {:induction false} SqueezedLeast(widths: seq<int>, room: int)
    requires Counts(widths) && (room >= MINIMUM * |widths| ==> Total(widths) > 0)
    ensures forall i :: 0 <= i < |widths| ==> Squeezed(widths, room)[i] >= MINIMUM
    ensures room < MINIMUM * |widths| ==> forall i :: 0 <= i < |widths| ==> Squeezed(widths, room)[i] == MINIMUM
  {
    hide Total, Part, Parts, Raised, Topped;
  }

  lemma {:induction false} TotalLeast(measured: seq<int>)
    requires forall i :: 0 <= i < |measured| ==> measured[i] >= MINIMUM
    ensures Total(measured) >= MINIMUM * |measured|
  {
    if measured != [] {
      TotalLeast(measured[..|measured| - 1]);
    }
  }
}
