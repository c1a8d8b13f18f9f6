/** What each way of aggregating readings yields, in terms of the readings. */
module AggregateMeaning {
  import opened Option
  import opened Devices
  import opened HelperStore

  /** Min is a reading that no reading is below, Max one that none is above, Range the largest difference of two. */
  lemma ExtremesMean(values: seq<real>, sqrt: real -> real)
    requires values != []
    ensures exists r <- values :: Aggregate(values, Min, sqrt) == Some(r) && forall v <- values :: r <= v
    ensures exists r <- values :: Aggregate(values, Max, sqrt) == Some(r) && forall v <- values :: v <= r
    ensures exists a <- values, b <- values ::
              Aggregate(values, Range, sqrt) == Some(a - b) && forall v <- values :: b <= v <= a
  {
    var lo, hi := Least(values), Greatest(values);
    assert lo in values && hi in values;
    assert Aggregate(values, Range, sqrt) == Some(hi - lo);
  }

  /** The sum and the product of one reading are that reading, those of more readings go together part by part. */
  lemma {:induction false} TotalJoin(a: seq<real>, b: seq<real>)
    ensures Total(a + b) == Total(a) + Total(b)
  {
    if b == [] {
      assert a + b == a;
    } else {
      TotalJoin(a, b[..|b| - 1]);
      assert (a + b)[..|a + b| - 1] == a + b[..|b| - 1];
    }
  }

  lemma {:induction false} TimesJoin(a: seq<real>, b: seq<real>)
    ensures Times(a + b) == Times(a) * Times(b)
  {
    if b == [] {
      assert a + b == a;
    } else {
      var init, last := b[..|b| - 1], b[|b| - 1];
      TimesJoin(a, init);
      assert (a + b)[..|a + b| - 1] == a + init;
      Associates(Times(a), Times(init), last);
    }
  }

  lemma Associates(x: real, y: real, z: real)
    ensures x * y * z == x * (y * z)
  {
  }

  lemma OneReading(v: real)
    ensures Total([v]) == v && Times([v]) == v
  {
    assert [v][..0] == [];
  }

  lemma SumsMean(a: seq<real>, b: seq<real>, v: real, sqrt: real -> real)
    requires a != [] && b != []
    ensures Aggregate([v], Sum, sqrt) == Some(v) && Aggregate([v], Product, sqrt) == Some(v)
    ensures Aggregate(a, Sum, sqrt).Some? && Aggregate(b, Sum, sqrt).Some?
    ensures Aggregate(a + b, Sum, sqrt) == Some(Aggregate(a, Sum, sqrt).value + Aggregate(b, Sum, sqrt).value)
    ensures Aggregate(a, Product, sqrt).Some? && Aggregate(b, Product, sqrt).Some?
    ensures Aggregate(a + b, Product, sqrt).Some?
    ensures Aggregate(a + b, Product, sqrt).value == Aggregate(a, Product, sqrt).value * Aggregate(b, Product, sqrt).value
  {
    hide Total, Times;
    OneReading(v);
    TotalJoin(a, b);
    TimesJoin(a, b);
    assert a + b != [];
    assert Aggregate(a, Product, sqrt) == Some(Times(a)) && Aggregate(b, Product, sqrt) == Some(Times(b));
    var both := Times(a) * Times(b);
    assert Times(a + b) == both;
    assert Aggregate(a + b, Product, sqrt) == Some(both);
  }

  /** The mean, taken as often as there are readings, is their sum; First and Last are the end readings. */
  lemma MeanMeans(values: seq<real>, sqrt: real -> real)
    requires values != []
    ensures Aggregate(values, Mean, sqrt).Some? && Aggregate(values, Sum, sqrt).Some?
    ensures Aggregate(values, Mean, sqrt).value * |values| as real == Aggregate(values, Sum, sqrt).value
    ensures Aggregate(values, First, sqrt) == Some(values[0])
    ensures Aggregate(values, Last, sqrt) == Some(values[|values| - 1])
  {
    hide Total;
    Quotient(Total(values), |values|);
  }

  lemma Quotient(total: real, n: nat)
    requires n > 0
    ensures total / n as real * n as real == total
  {
  }

  /** Without readings, or with an unknown method, there is nothing to show. */
  lemma NothingToShow(values: seq<real>, how: Method, sqrt: real -> real)
    ensures Aggregate(values, how, sqrt).None? <==> values == [] || how == Unknown
  {
    hide Least, Greatest, Total, Times, Sort;
  }

  // ---------------------------------------------------------------------------
  // The median
  // ---------------------------------------------------------------------------

  function CountBelow(values: seq<real>, x: real): nat {
    if values == [] then 0 else (if values[0] < x then 1 else 0) + CountBelow(values[1..], x)
  }

  function CountUpTo(values: seq<real>, x: real): nat {
    if values == [] then 0 else (if values[0] <= x then 1 else 0) + CountUpTo(values[1..], x)
  }

  /** `x` is the reading at place `k` when they are put in order. */
  ghost predicate IsAtPlace(values: seq<real>, k: nat, x: real) {
    x in values && CountBelow(values, x) <= k < CountUpTo(values, x)
  }

  lemma {:induction false} InsertCounts(v: real, sorted: seq<real>, x: real)
    ensures CountBelow(Insert(v, sorted), x) == CountBelow(sorted, x) + if v < x then 1 else 0
    ensures CountUpTo(Insert(v, sorted), x) == CountUpTo(sorted, x) + if v <= x then 1 else 0
  {
    if sorted == [] {
      assert Insert(v, sorted) == [v] && [v][1..] == [];
    } else if v <= sorted[0] {
      assert ([v] + sorted)[1..] == sorted;
    } else {
      InsertCounts(v, sorted[1..], x);
      assert Insert(v, sorted)[1..] == Insert(v, sorted[1..]);
    }
  }

  lemma {:induction false} SortCounts(values: seq<real>, x: real)
    ensures CountBelow(Sort(values), x) == CountBelow(values, x)
    ensures CountUpTo(Sort(values), x) == CountUpTo(values, x)
  {
    if values != [] {
      SortCounts(values[1..], x);
      InsertCounts(values[0], Sort(values[1..]), x);
    }
  }

  lemma {:induction false} NoneBelow(sorted: seq<real>, x: real)
    requires forall v <- sorted :: x <= v
    ensures CountBelow(sorted, x) == 0
  {
    if sorted != [] {
      assert sorted[0] in sorted;
      assert forall v <- sorted[1..] :: v in sorted;
      NoneBelow(sorted[1..], x);
    }
  }

  /** In an ordered list no more than `k` readings are below the one at `k`, and more than `k` are not above it. */
  lemma {:induction false} SortedPlaces(sorted: seq<real>, k: nat)
    requires IsSorted(sorted) && k < |sorted|
    ensures CountBelow(sorted, sorted[k]) <= k < CountUpTo(sorted, sorted[k])
  {
    var rest := sorted[1..];
    assert sorted[0] <= sorted[k];
    assert IsSorted(rest) by {
      assert forall i :: 0 <= i < |rest| ==> rest[i] == sorted[i + 1];
    }
    if k == 0 {
      forall v | v in sorted ensures sorted[0] <= v {
        var i :| 0 <= i < |sorted| && sorted[i] == v;
        assert i == 0 || sorted[0] <= sorted[i];
      }
      NoneBelow(sorted, sorted[0]);
    } else {
      assert rest[k - 1] == sorted[k];
      SortedPlaces(rest, k - 1);
    }
  }

  lemma SortPlaces(values: seq<real>, k: nat)
    requires k < |values|
    ensures |Sort(values)| == |values| && IsAtPlace(values, k, Sort(values)[k])
  {
    hide Sort, CountBelow, CountUpTo;
    SortSorts(values);
    var sorted := Sort(values);
    SortedPlaces(sorted, k);
    SortCounts(values, sorted[k]);
    assert multiset(sorted)[sorted[k]] > 0;
    assert sorted[k] in values;
  }

  /** The median is the reading in the middle, or the midpoint of the two readings there. */
  lemma MedianMeans(values: seq<real>, sqrt: real -> real)
    requires values != []
    ensures |values| % 2 == 1 ==>
      exists m <- values :: Aggregate(values, Median, sqrt) == Some(m) && IsAtPlace(values, |values| / 2, m)
    ensures |values| % 2 == 0 ==>
      exists a <- values, b <- values ::
        && Aggregate(values, Median, sqrt) == Some((a + b) / 2.0)
        && IsAtPlace(values, |values| / 2 - 1, a) && IsAtPlace(values, |values| / 2, b)
  {
    hide Sort, CountBelow, CountUpTo;
    var mid := |values| / 2;
    SortPlaces(values, mid);
    if |values| % 2 == 0 {
      SortPlaces(values, mid - 1);
      assert Aggregate(values, Median, sqrt) == Some((Sort(values)[mid - 1] + Sort(values)[mid]) / 2.0);
    } else {
      assert Aggregate(values, Median, sqrt) == Some(Sort(values)[mid]);
    }
  }

  /** A place in the order has one reading only. */
  lemma {:induction false} CountsNest(values: seq<real>, x: real, y: real)
    requires x < y
    ensures CountUpTo(values, x) <= CountBelow(values, y)
  {
    if values != [] {
      CountsNest(values[1..], x, y);
    }
  }

  lemma OneAtPlace(values: seq<real>, k: nat, x: real, y: real)
    requires IsAtPlace(values, k, x) && IsAtPlace(values, k, y)
    ensures x == y
  {
    if x < y {
      CountsNest(values, x, y);
    } else if y < x {
      CountsNest(values, y, x);
    }
  }

  // ---------------------------------------------------------------------------
  // The standard deviation
  // ---------------------------------------------------------------------------

  function SquareTotal(values: seq<real>): real {
    if values == [] then 0.0
    else SquareTotal(values[..|values| - 1]) + values[|values| - 1] * values[|values| - 1]
  }

  /** The squared distances from `m` of `n` numbers, multiplied out. */
  ghost predicate MultipliedOut(distances: real, squares: real, total: real, n: real, m: real) {
    distances == squares - 2.0 * m * total + n * (m * m)
  }

  lemma OneMore(distances: real, squares: real, total: real, n: real, v: real, m: real)
    requires MultipliedOut(distances, squares, total, n, m)
    ensures MultipliedOut(distances + (v - m) * (v - m), squares + v * v, total + v, n + 1.0, m)
  {
    assert (v - m) * (v - m) == v * v - 2.0 * m * v + m * m;
  }

  lemma NoSquares(m: real)
    ensures MultipliedOut(Total(Squares([], m)), 0.0, 0.0, 0.0, m)
  {
    assert Squares([], m) == [];
  }

  lemma OneSquareMore(values: seq<real>, m: real)
    requires values != []
    ensures var n := |values| - 1;
            Total(Squares(values, m)) == Total(Squares(values[..n], m)) + (values[n] - m) * (values[n] - m)
  {
    var n, squares := |values| - 1, Squares(values, m);
    assert squares[..n] == Squares(values[..n], m) by {
      assert forall i :: 0 <= i < n ==> squares[..n][i] == Squares(values[..n], m)[i];
    }
    assert Total(squares) == Total(squares[..n]) + squares[n];
  }

  lemma {:induction false} SquaresAre(values: seq<real>, m: real)
    ensures MultipliedOut(Total(Squares(values, m)), SquareTotal(values), Total(values), |values| as real, m)
  {
    hide Squares;
    if values == [] {
      NoSquares(m);
    } else {
      var n := |values| - 1;
      SquaresAre(values[..n], m);
      OneSquareMore(values, m);
      OneMore(Total(Squares(values[..n], m)), SquareTotal(values[..n]), Total(values[..n]), n as real, values[n], m);
      hide MultipliedOut;
      assert |values| as real == n as real + 1.0;
    }
  }

  lemma Variance(distances: real, squares: real, total: real, n: real, m: real)
    requires n > 0.0 && m * n == total
    requires MultipliedOut(distances, squares, total, n, m)
    ensures distances * n == n * squares - total * total
  {
    assert m * total * n == total * total;
    assert n * (m * m) * n == (m * n) * (m * n);
  }

  /**
   The deviation is the root of `q`, where `q` times the square of the count is the count
   times the sum of the squares, less the square of the sum.
   */
  lemma StdevMeans(values: seq<real>, sqrt: real -> real)
    requires values != []
    ensures var n := |values| as real;
            exists q: real :: Aggregate(values, Stdev, sqrt) == Some(sqrt(q))
                              && q * n * n == n * SquareTotal(values) - Total(values) * Total(values)
  {
    hide Total, Squares, SquareTotal, MultipliedOut;
    var n := |values| as real;
    var m := Total(values) / n;
    var s := Total(Squares(values, m));
    Quotient(Total(values), |values|);
    SquaresAre(values, m);
    Variance(s, SquareTotal(values), Total(values), n, m);
    Quotient(s, |values|);
    assert Aggregate(values, Stdev, sqrt) == Some(sqrt(s / n));
    assert s / n * n * n == s * n;
  }

  // ---------------------------------------------------------------------------
  // The helpers
  // ---------------------------------------------------------------------------

  /** Readings come in the order of the members, one of each member that has one. */
  lemma {:induction false} NumbersJoin(a: seq<string>, b: seq<string>, devices: map<string, Device>, parse: ParseFloat)
    ensures Numbers(a + b, devices, parse) == Numbers(a, devices, parse) + Numbers(b, devices, parse)
  {
    if b == [] {
      assert a + b == a;
    } else {
      var init, last := b[..|b| - 1], b[|b| - 1];
      NumbersJoin(a, init, devices, parse);
      assert (a + b)[..|a + b| - 1] == a + init && (a + b)[|a + b| - 1] == last;
    }
  }

  lemma OneNumber(m: string, devices: map<string, Device>, parse: ParseFloat)
    ensures m !in devices || ExtractNumeric(devices[m], parse).None? ==> Numbers([m], devices, parse) == []
    ensures m in devices && ExtractNumeric(devices[m], parse).Some? ==>
              Numbers([m], devices, parse) == [ExtractNumeric(devices[m], parse).value]
  {
    assert [m][..0] == [];
  }

  /** A device's number is its value, or what its text parses to; else the first measurement it has, in this order. */
  lemma ReadingOrder(d: Device, other: Option<Value>, v: real, parse: ParseFloat)
    requires other.Some? ==> other.value == Null || other.value.Flag?
    ensures ExtractNumeric(d.(value := Some(Num(v))), parse) == Some(v)
    ensures forall text :: ExtractNumeric(d.(value := Some(Text(text))), parse) == parse(text)
    ensures var none := d.(value := other, temperature := None, brightness := None, powerW := None, batteryLevel := None);
            && ExtractNumeric(none, parse) == None
            && ExtractNumeric(none.(batteryLevel := Some(v)), parse) == Some(v)
            && ExtractNumeric(none.(batteryLevel := d.batteryLevel, powerW := Some(v)), parse) == Some(v)
            && ExtractNumeric(d.(value := other, temperature := None, brightness := Some(v)), parse) == Some(v)
            && ExtractNumeric(d.(value := other, temperature := Some(v)), parse) == Some(v)
  {
  }

  /** A group that names no aggregation shows the mean, one that does shows what a combine helper would. */
  lemma GroupsShow(name: string, members: seq<string>, how: Method, devices: map<string, Device>, parse: ParseFloat,
                   sqrt: real -> real)
    ensures Result(Group(name, members, false, Some(how)), devices, parse, sqrt) ==
            Result(Combine(name, members, how), devices, parse, sqrt)
    ensures Result(Group(name, members, false, None), devices, parse, sqrt) ==
            Result(Combine(name, members, Mean), devices, parse, sqrt)
  {
  }
}
