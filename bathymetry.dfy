/** The grid assembly of `map_2D`: from (latitude, longitude, depth) rows it
    builds the sorted distinct latitude and longitude axes and a depth table
    indexed by them, filled in place one row at a time. */
module Bathymetry {

  /** One row of the bathymetry table. */
  datatype Row = Row(lat: real, lon: real, depth: real)

  function Lats(data: seq<Row>): (r: seq<real>)
    ensures |r| == |data| && forall k :: 0 <= k < |data| ==> r[k] == data[k].lat
  {
    seq(|data|, k requires 0 <= k < |data| => data[k].lat)
  }

  function Lons(data: seq<Row>): (r: seq<real>)
    ensures |r| == |data| && forall k :: 0 <= k < |data| ==> r[k] == data[k].lon
  {
    seq(|data|, k requires 0 <= k < |data| => data[k].lon)
  }

  predicate StrictlySorted(u: seq<real>) {
    forall i, j :: 0 <= i < j < |u| ==> u[i] < u[j]
  }

  // ---------------------------------------------------------------------
  // np.unique and np.where

  /** `x` added to a sorted, duplicate-free sequence. */
  function Insert(x: real, u: seq<real>): (r: seq<real>)
    requires StrictlySorted(u)
    ensures StrictlySorted(r)
    ensures forall y :: y in r <==> y in u || y == x
  {
    if u == [] then [x]
    else if x < u[0] then [x] + u
    else if x == u[0] then u
    else
      var t := Insert(x, u[1..]);
      forall k | 0 <= k < |t|
        ensures u[0] < t[k]
      {
        assert t[k] in t;
      }
      [u[0]] + t
  }

  /** `np.unique(xs)`: the values of `xs`, sorted, each once. */
  function Unique(xs: seq<real>): (u: seq<real>)
    ensures StrictlySorted(u)
    ensures forall y :: y in u <==> y in xs
  {
    if xs == [] then []
    else
      var u := Insert(xs[|xs| - 1], Unique(xs[..|xs| - 1]));
      assert forall y :: y in xs <==> y in xs[..|xs| - 1] || y == xs[|xs| - 1];
      u
  }

  /** `np.where(u == x)[0]`: the positions holding `x`, in increasing order. */
  function Where(u: seq<real>, x: real): (r: seq<nat>)
    ensures forall k: int :: k in r <==> 0 <= k < |u| && u[k] == x
    ensures forall a, b :: 0 <= a < b < |r| ==> r[a] < r[b]
  {
    if u == [] then []
    else
      var w := Where(u[..|u| - 1], x);
      forall a | 0 <= a < |w|
        ensures w[a] < |u| - 1
      {
        assert w[a] in w;
      }
      if u[|u| - 1] == x then w + [|u| - 1] else w
  }

  /** A value missing from the axis has no position. */
  lemma {:induction false} WhereAbsent(u: seq<real>, x: real)
    requires x !in u
    ensures Where(u, x) == []
    decreases |u|
  {
    if u != [] {
      assert u[|u| - 1] in u;
      WhereAbsent(u[..|u| - 1], x);
    }
  }

  /** A value of a duplicate-free axis occurs at exactly one position, so
      each row's `np.where` picks out one index. */
  lemma {:induction false} WhereSingle(u: seq<real>, x: real, i: nat)
    requires StrictlySorted(u) && i < |u| && u[i] == x
    ensures Where(u, x) == [i]
    decreases |u|
  {
    var front := u[..|u| - 1];
    if i == |u| - 1 {
      assert forall k :: 0 <= k < |front| ==> front[k] < x;
      WhereAbsent(front, x);
    } else {
      assert u[i] < u[|u| - 1];
      WhereSingle(front, x, i);
    }
  }

  /** So the first position `np.where` reports is the only one holding `x`. */
  lemma AxisIndex(u: seq<real>, x: real)
    requires StrictlySorted(u) && x in u
    ensures |Where(u, x)| == 1
    ensures forall k :: 0 <= k < |u| ==> (u[k] == x <==> k == Where(u, x)[0])
  {
    var i :| 0 <= i < |u| && u[i] == x;
    WhereSingle(u, x, i);
  }

  /** Every row's latitude and longitude lie on the axes. */
  lemma RowOnAxes(data: seq<Row>, l: nat)
    requires l < |data|
    ensures data[l].lat in Unique(Lats(data)) && data[l].lon in Unique(Lons(data))
  {
    assert Lats(data)[l] in Lats(data) && Lons(data)[l] in Lons(data);
  }

  // ---------------------------------------------------------------------
  // The table

  predicate Matches(row: Row, lat: real, lon: real) {
    row.lat == lat && row.lon == lon
  }

  /** The depth the table holds at (`lat`, `lon`) after the rows `data`:
      the last matching row's depth, and 0 where no row matches. */
  function Cell(data: seq<Row>, lat: real, lon: real): real {
    if data == [] then 0.0
    else if Matches(data[|data| - 1], lat, lon) then data[|data| - 1].depth
    else Cell(data[..|data| - 1], lat, lon)
  }

  /** When several rows share a position, the last one in input order wins. */
  lemma {:induction false} LastWriteWins(data: seq<Row>, k: nat)
    requires k < |data|
    requires forall m :: k < m < |data| ==> !Matches(data[m], data[k].lat, data[k].lon)
    ensures Cell(data, data[k].lat, data[k].lon) == data[k].depth
    decreases |data|
  {
    if k < |data| - 1 {
      var front := data[..|data| - 1];
      assert forall m :: k < m < |front| ==> front[m] == data[m];
      LastWriteWins(front, k);
    }
  }

  /** A position no row maps to keeps the 0 it started with. */
  lemma {:induction false} UntouchedIsZero(data: seq<Row>, lat: real, lon: real)
    requires forall m :: 0 <= m < |data| ==> !Matches(data[m], lat, lon)
    ensures Cell(data, lat, lon) == 0.0
    decreases |data|
  {
    if data != [] {
      var front := data[..|data| - 1];
      assert forall m :: 0 <= m < |front| ==> front[m] == data[m];
      UntouchedIsZero(front, lat, lon);
    }
  }

  /** Writing one more row changes only the cells that row maps to. */
  lemma CellStep(data: seq<Row>, l: nat, lat: real, lon: real)
    requires l < |data|
    ensures Cell(data[..l + 1], lat, lon) ==
            if Matches(data[l], lat, lon) then data[l].depth else Cell(data[..l], lat, lon)
  {
    assert data[..l + 1][..l] == data[..l];
  }

  /** The table holds the cells the first `l` rows produce. */
  ghost predicate Filled(bathMap: array2<real>, data: seq<Row>, l: nat, latRange: seq<real>, lonRange: seq<real>)
    requires l <= |data|
    reads bathMap
  {
    && bathMap.Length0 == |latRange| && bathMap.Length1 == |lonRange|
    && forall i, j :: 0 <= i < |latRange| && 0 <= j < |lonRange| ==>
         bathMap[i, j] == Cell(data[..l], latRange[i], lonRange[j])
  }

  /** One pass of the loop: row `l` writes its depth into the cell its
      latitude and longitude index. */
  method WriteRow(bathMap: array2<real>, data: seq<Row>, l: nat, latRange: seq<real>, lonRange: seq<real>)
    requires l < |data|
    requires latRange == Unique(Lats(data)) && lonRange == Unique(Lons(data))
    requires Filled(bathMap, data, l, latRange, lonRange)
    modifies bathMap
    ensures Filled(bathMap, data, l + 1, latRange, lonRange)
  {
    var row := data[l];
    RowOnAxes(data, l);
    var latIndex := Where(latRange, row.lat);
    var lonIndex := Where(lonRange, row.lon);
    AxisIndex(latRange, row.lat);
    AxisIndex(lonRange, row.lon);
    bathMap[latIndex[0], lonIndex[0]] := row.depth;
    forall i, j | 0 <= i < |latRange| && 0 <= j < |lonRange|
      ensures bathMap[i, j] == Cell(data[..l + 1], latRange[i], lonRange[j])
    {
      CellStep(data, l, latRange[i], lonRange[j]);
    }
  }

  /** `map_2D` after the spreadsheet is read: the axes are `np.unique` of the
      latitude and longitude columns, the table starts all zero, and each row
      writes its depth into the one cell its latitude and longitude index. */
  method Map2D(data: seq<Row>) returns (bathMap: array2<real>, lonRange: seq<real>, latRange: seq<real>)
    ensures latRange == Unique(Lats(data)) && lonRange == Unique(Lons(data))
    ensures fresh(bathMap)
    ensures bathMap.Length0 == |latRange| && bathMap.Length1 == |lonRange|
    ensures forall i, j :: 0 <= i < |latRange| && 0 <= j < |lonRange| ==>
              bathMap[i, j] == Cell(data, latRange[i], lonRange[j])
  {
    latRange := Unique(Lats(data));
    lonRange := Unique(Lons(data));
    bathMap := new real[|latRange|, |lonRange|]((i, j) => 0.0);
    for l := 0 to |data|
      invariant Filled(bathMap, data, l, latRange, lonRange)
    {
      WriteRow(bathMap, data, l, latRange, lonRange);
    }
    assert data[..|data|] == data;
  }
}
