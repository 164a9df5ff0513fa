/** Water analyses and statistics snapshots as values, and the arithmetic of a
    snapshot: the running sum, the running maximum seeded with Double.MIN_VALUE
    and the running minimum seeded with Double.MAX_VALUE, over real numbers. */
module Radon {
  import opened Common

  /** A calendar date (LocalDate), as year, month and day. */
  datatype Date = Date(year: int, month: int, day: int)

  /** One water analysis as the upstream source returns it; its date may be null. */
  datatype Analysis = Analysis(id: int, radonConcentration: real, fountainId: int, date: Option<Date>, deviceId: int)

  /** One stored statistics snapshot; its date is null when it covers all analyses. */
  datatype Statistics = Statistics(
    id: int,
    averageRadonLevel: real,
    maxRadonLevel: real,
    minRadonLevel: real,
    totalAnalysis: int,
    date: Option<Date>)

  /** Java's Double.MIN_VALUE: the smallest POSITIVE double, 2^-1074. */
  const DoubleMinValue: real := 1.0 / 202402253307310618352495346718917307049556649764142118356901358027430339567995346891960383701437124495187077864316811911389808737385793476867013399940738509921517424276566361364466907742093216341239767678472745068562007483424692698618103355649159556340810056512358769552333414615230502532186327508646006263307707741093494784.0

  /** Java's Double.MAX_VALUE: (2^53 - 1) * 2^971. */
  const DoubleMaxValue: real := 179769313486231570814527423731704356798070567525844996598917476803157260780028538760589558632766878171540458953514382464234321326889464182768467546703537516986049910576551282076245490090389328944075868508455133942304583236903222948165808559332123348274797826204144723168738177180919299881250404026184124858368.0

  /** The analyses the statistics cover: all of them without a date; with a date,
      those whose date equals it, in source order. Comparing a null analysis date
      throws NullPointerException. */
  function FilterByDate(all: seq<Analysis>, date: Option<Date>): (r: Result<seq<Analysis>>)
    ensures date.None? ==> r == Ok(all)
    ensures date.Some? ==> (r.Ok? <==> forall k :: 0 <= k < |all| ==> all[k].date.Some?)
    ensures date.Some? && r.Ok? ==> forall a :: a in r.value <==> a in all && a.date == date
    ensures r.Ok? ==> |r.value| <= |all|
    ensures r.Err? ==> r.error == NullReference
  {
    if date.None? then Ok(all)
    else if all == [] then Ok([])
    else
      var n := |all| - 1;
      assert all == all[..n] + [all[n]];
      match FilterByDate(all[..n], date)
      case Err(e) => Err(e)
      case Ok(kept) =>
        if all[n].date.None? then Err(NullReference)
        else if all[n].date == date then Ok(kept + [all[n]])
        else Ok(kept)
  }

  /** One more analysis at the end: the filter of the front, then that analysis
      throws, is kept or is dropped. */
  lemma FilterByDateSnoc(all: seq<Analysis>, a: Analysis, date: Option<Date>)
    requires date.Some?
    ensures FilterByDate(all + [a], date) ==
      match FilterByDate(all, date)
      case Err(e) => Err(e)
      case Ok(kept) =>
        if a.date.None? then Err(NullReference)
        else if a.date == date then Ok(kept + [a])
        else Ok(kept)
  {
    assert (all + [a])[..|all|] == all;
  }

  /** Filtering a concatenation by date filters each part and keeps the parts in
      order, so the filter keeps source order and every copy of a kept analysis. */
  lemma {:induction false} FilterByDateAppend(a: seq<Analysis>, b: seq<Analysis>, date: Option<Date>)
    requires FilterByDate(a, date).Ok? && FilterByDate(b, date).Ok?
    ensures FilterByDate(a + b, date) == Ok(FilterByDate(a, date).value + FilterByDate(b, date).value)
  {
    if b == [] {
      assert a + b == a;
      assert FilterByDate(b, date) == Ok([]);
      assert FilterByDate(a, date).value + [] == FilterByDate(a, date).value;
    } else if date.Some? {
      var n := |b| - 1;
      var front, last := b[..n], b[n];
      assert b == front + [last];
      assert a + b == (a + front) + [last];
      FilterByDateSnoc(front, last, date);
      assert FilterByDate(front, date).Ok? && last.date.Some?;
      var kept, keptFront := FilterByDate(a, date).value, FilterByDate(front, date).value;
      FilterByDateAppend(a, front, date);
      FilterByDateSnoc(a + front, last, date);
      if last.date == date {
        assert FilterByDate(b, date) == Ok(keptFront + [last]);
        assert FilterByDate(a + b, date) == Ok(kept + keptFront + [last]);
        assert kept + keptFront + [last] == kept + (keptFront + [last]);
      } else {
        assert FilterByDate(b, date) == Ok(keptFront);
        assert FilterByDate(a + b, date) == Ok(kept + keptFront);
      }
    }
  }

  /** The radon concentrations of the analyses, in order. */
  function Readings(analyses: seq<Analysis>): (r: seq<real>)
    ensures |r| == |analyses|
    ensures forall k :: 0 <= k < |analyses| ==> r[k] == analyses[k].radonConcentration
  {
    seq(|analyses|, k requires 0 <= k < |analyses| => analyses[k].radonConcentration)
  }

  /** The sum of the readings, accumulated left to right from 0. */
  function Sum(xs: seq<real>): (r: real)
  {
    if xs == [] then 0.0 else Sum(xs[..|xs| - 1]) + xs[|xs| - 1]
  }

  function Max(a: real, b: real): (r: real) { if a >= b then a else b }

  function Min(a: real, b: real): (r: real) { if a <= b then a else b }

  /** The running maximum of the readings, started at `seed`. It bounds the seed
      and every reading from above and is the seed or one of the readings. */
  function MaxFrom(seed: real, xs: seq<real>): (r: real)
    ensures r >= seed
    ensures forall k :: 0 <= k < |xs| ==> r >= xs[k]
    ensures r == seed || exists k :: 0 <= k < |xs| && r == xs[k]
  {
    if xs == [] then seed
    else
      var n := |xs| - 1;
      var m := MaxFrom(seed, xs[..n]);
      assert forall k :: 0 <= k < n ==> xs[..n][k] == xs[k];
      Max(m, xs[n])
  }

  /** The running minimum of the readings, started at `seed`. It bounds the seed
      and every reading from below and is the seed or one of the readings. */
  function MinFrom(seed: real, xs: seq<real>): (r: real)
    ensures r <= seed
    ensures forall k :: 0 <= k < |xs| ==> r <= xs[k]
    ensures r == seed || exists k :: 0 <= k < |xs| && r == xs[k]
  {
    if xs == [] then seed
    else
      var n := |xs| - 1;
      var m := MinFrom(seed, xs[..n]);
      assert forall k :: 0 <= k < n ==> xs[..n][k] == xs[k];
      Min(m, xs[n])
  }

  /** The sum of the readings divided by their number. */
  function Mean(xs: seq<real>): (r: real)
    requires xs != []
  {
    Sum(xs) / (|xs| as real)
  }

  /** Readings that all lie between `lo` and `hi` sum to between `lo` and `hi`
      times their number. */
  lemma {:induction false} SumBounds(xs: seq<real>, lo: real, hi: real)
    requires forall k :: 0 <= k < |xs| ==> lo <= xs[k] <= hi
    ensures (|xs| as real) * lo <= Sum(xs) <= (|xs| as real) * hi
  {
    if xs != [] {
      var n := |xs| - 1;
      assert forall k :: 0 <= k < n ==> xs[..n][k] == xs[k];
      SumBounds(xs[..n], lo, hi);
      assert (|xs| as real) * lo == (n as real) * lo + lo;
      assert (|xs| as real) * hi == (n as real) * hi + hi;
    }
  }

  /** A quotient of a total lying between `count * lo` and `count * hi` lies
      between `lo` and `hi`. */
  lemma DivideBetween(total: real, count: real, lo: real, hi: real)
    requires count > 0.0 && count * lo <= total <= count * hi
    ensures lo <= total / count <= hi
  {
  }

  /** Readings that all lie between `lo` and `hi` have their mean between them. */
  lemma MeanWithin(xs: seq<real>, lo: real, hi: real)
    requires xs != []
    requires forall k :: 0 <= k < |xs| ==> lo <= xs[k] <= hi
    ensures lo <= Mean(xs) <= hi
  {
    SumBounds(xs, lo, hi);
    DivideBetween(Sum(xs), |xs| as real, lo, hi);
  }

  /** The snapshot the statistics engine computes over a non-empty set of
      analyses: it covers all of them, and its average is their mean reading. */
  function Summary(id: int, analyses: seq<Analysis>, date: Option<Date>): (s: Statistics)
    requires analyses != []
    ensures s.id == id && s.date == date && s.totalAnalysis == |analyses|
    ensures s.averageRadonLevel == Mean(Readings(analyses))
  {
    var xs := Readings(analyses);
    Statistics(id, Mean(xs), MaxFrom(DoubleMinValue, xs), MinFrom(DoubleMaxValue, xs), |xs|, date)
  }

  /** A stored snapshot is ordered: minimum, then average, then maximum. */
  lemma SummaryOrdered(id: int, analyses: seq<Analysis>, date: Option<Date>)
    requires analyses != []
    ensures var s := Summary(id, analyses, date);
      s.minRadonLevel <= s.averageRadonLevel <= s.maxRadonLevel
  {
    var xs := Readings(analyses);
    var s := Summary(id, analyses, date);
    assert s.minRadonLevel == MinFrom(DoubleMaxValue, xs);
    assert s.maxRadonLevel == MaxFrom(DoubleMinValue, xs);
    assert s.averageRadonLevel == Mean(xs);
    MeanWithin(xs, s.minRadonLevel, s.maxRadonLevel);
  }

  /** The stored minimum is at most every reading and is one of them: every
      finite double is at most Double.MAX_VALUE, the seed. */
  lemma SummaryMinimum(id: int, analyses: seq<Analysis>, date: Option<Date>)
    requires analyses != []
    requires forall k :: 0 <= k < |analyses| ==> analyses[k].radonConcentration <= DoubleMaxValue
    ensures forall k :: 0 <= k < |analyses| ==> Summary(id, analyses, date).minRadonLevel <= analyses[k].radonConcentration
    ensures exists k :: 0 <= k < |analyses| && Summary(id, analyses, date).minRadonLevel == analyses[k].radonConcentration
  {
    var xs := Readings(analyses);
    var mn := MinFrom(DoubleMaxValue, xs);
    assert Summary(id, analyses, date).minRadonLevel == mn;
    if mn == DoubleMaxValue {
      assert mn <= xs[0] <= DoubleMaxValue;
      assert mn == analyses[0].radonConcentration;
    } else {
      var k :| 0 <= k < |xs| && mn == xs[k];
      assert mn == analyses[k].radonConcentration;
    }
  }

  /** The stored maximum is at least every reading. It is one of the readings
      exactly when some reading reaches Double.MIN_VALUE (is positive, for
      doubles); otherwise it is Double.MIN_VALUE itself. */
  lemma SummaryMaximum(id: int, analyses: seq<Analysis>, date: Option<Date>)
    requires analyses != []
    ensures forall k :: 0 <= k < |analyses| ==> Summary(id, analyses, date).maxRadonLevel >= analyses[k].radonConcentration
    ensures (exists k :: 0 <= k < |analyses| && analyses[k].radonConcentration >= DoubleMinValue) <==>
            (exists k :: 0 <= k < |analyses| && Summary(id, analyses, date).maxRadonLevel == analyses[k].radonConcentration)
    ensures (forall k :: 0 <= k < |analyses| ==> analyses[k].radonConcentration < DoubleMinValue) ==>
            Summary(id, analyses, date).maxRadonLevel == DoubleMinValue
  {

  }

  /** With only zero readings the stored maximum is Double.MIN_VALUE, which is
      none of the readings. */
  lemma ZeroReadingsMaximum(id: int, analyses: seq<Analysis>, date: Option<Date>)
    requires analyses != []
    requires forall k :: 0 <= k < |analyses| ==> analyses[k].radonConcentration == 0.0
    ensures Summary(id, analyses, date).maxRadonLevel == DoubleMinValue
    ensures forall k :: 0 <= k < |analyses| ==> Summary(id, analyses, date).maxRadonLevel != analyses[k].radonConcentration
  {

  }

  /** Two readings of 15 on the same date: average, maximum and minimum 15, two analyses. */
  lemma TwoEqualReadings(id: int, d: Date)
    ensures var a := Analysis(1, 15.0, 1, Some(d), 1);
      var s := Summary(id, [a, a], Some(d));
      && FilterByDate([a, a], Some(d)) == Ok([a, a])
      && s.averageRadonLevel == 15.0 && s.maxRadonLevel == 15.0 && s.minRadonLevel == 15.0 && s.totalAnalysis == 2
  {
    var a := Analysis(1, 15.0, 1, Some(d), 1);
    assert [a][..0] == [] && [] + [a] == [a];
    assert FilterByDate([], Some(d)) == Ok([]);
    assert FilterByDate([a], Some(d)) == Ok([a]);
    FilterByDateAppend([a], [a], Some(d));
    assert [a] + [a] == [a, a];
    var xs := Readings([a, a]);
    assert xs == [15.0, 15.0];
    assert [15.0, 15.0][..1] == [15.0] && [15.0][..0] == [];
    assert Sum([15.0]) == 15.0;
    assert Sum(xs) == 30.0;
    assert MaxFrom(DoubleMinValue, [15.0]) == 15.0;
    assert MinFrom(DoubleMaxValue, [15.0]) == 15.0;
  }

  /** Readings 10, 20 and 5: average 35/3, maximum 20, minimum 5, three analyses. */
  lemma ThreeReadings(id: int, d: Date)
    ensures var s := Summary(id, [Analysis(1, 10.0, 1, Some(d), 1), Analysis(2, 20.0, 1, Some(d), 1), Analysis(3, 5.0, 1, Some(d), 1)], Some(d));
      s.averageRadonLevel == 35.0 / 3.0 && s.maxRadonLevel == 20.0 && s.minRadonLevel == 5.0 && s.totalAnalysis == 3
  {
    var analyses := [Analysis(1, 10.0, 1, Some(d), 1), Analysis(2, 20.0, 1, Some(d), 1), Analysis(3, 5.0, 1, Some(d), 1)];
    var xs := Readings(analyses);
    assert xs == [10.0, 20.0, 5.0];
    assert [10.0, 20.0, 5.0][..2] == [10.0, 20.0] && [10.0, 20.0][..1] == [10.0] && [10.0][..0] == [];
    assert Sum([10.0]) == 10.0;
    assert Sum([10.0, 20.0]) == 30.0;
    assert Sum(xs) == 35.0;
    assert MaxFrom(DoubleMinValue, [10.0]) == 10.0;
    assert MaxFrom(DoubleMinValue, [10.0, 20.0]) == 20.0;
    assert MinFrom(DoubleMaxValue, [10.0]) == 10.0;
    assert MinFrom(DoubleMaxValue, [10.0, 20.0]) == 10.0;
  }

  /** Which stored snapshots a historical query asks for. */
  datatype DateQuery =
    | InMonth(month: int, year: int)  // that month of that year
    | InYear(year: int)               // any day of that year

  predicate Keeps(q: DateQuery, d: Date)
  {
    match q
    case InMonth(month, year) => d.month == month && d.year == year
    case InYear(year) => d.year == year
  }

  /** The snapshots, in store order, whose date the query keeps. Reading the date
      of a snapshot stored with a null date throws NullPointerException. */
  function SelectByDate(snapshots: seq<Statistics>, q: DateQuery): (r: Result<seq<Statistics>>)
    ensures r.Ok? <==> forall k :: 0 <= k < |snapshots| ==> snapshots[k].date.Some?
    ensures r.Ok? ==> forall s :: s in r.value <==> s in snapshots && s.date.Some? && Keeps(q, s.date.value)
    ensures r.Ok? ==> |r.value| <= |snapshots|
    ensures r.Err? ==> r.error == NullReference
  {
    if snapshots == [] then Ok([])
    else
      var n := |snapshots| - 1;
      assert snapshots == snapshots[..n] + [snapshots[n]];
      match SelectByDate(snapshots[..n], q)
      case Err(e) => Err(e)
      case Ok(kept) =>
        if snapshots[n].date.None? then Err(NullReference)
        else if Keeps(q, snapshots[n].date.value) then Ok(kept + [snapshots[n]])
        else Ok(kept)
  }

  /** One more snapshot at the end: the selection of the front, then that
      snapshot throws, is kept or is dropped. */
  lemma SelectByDateSnoc(snapshots: seq<Statistics>, s: Statistics, q: DateQuery)
    ensures SelectByDate(snapshots + [s], q) ==
      match SelectByDate(snapshots, q)
      case Err(e) => Err(e)
      case Ok(kept) =>
        if s.date.None? then Err(NullReference)
        else if Keeps(q, s.date.value) then Ok(kept + [s])
        else Ok(kept)
  {
    assert (snapshots + [s])[..|snapshots|] == snapshots;
  }

  /** The step of `SelectByDateAppend`: one more snapshot at the end of the
      second part. */
  lemma SelectByDateAppendLast(a: seq<Statistics>, front: seq<Statistics>, last: Statistics, q: DateQuery)
    requires SelectByDate(a, q).Ok? && SelectByDate(front, q).Ok? && SelectByDate(front + [last], q).Ok?
    requires SelectByDate(a + front, q) == Ok(SelectByDate(a, q).value + SelectByDate(front, q).value)
    ensures SelectByDate(a + front + [last], q) == Ok(SelectByDate(a, q).value + SelectByDate(front + [last], q).value)
  {
    var kept, keptFront := SelectByDate(a, q).value, SelectByDate(front, q).value;
    SelectByDateSnoc(front, last, q);
    SelectByDateSnoc(a + front, last, q);
    if Keeps(q, last.date.value) {
      assert kept + keptFront + [last] == kept + (keptFront + [last]);
    }
  }

  /** Selecting from a concatenation selects from each part and keeps the parts in
      order, so a query answers in store order with every kept snapshot once per
      occurrence. */
  lemma {:induction false} SelectByDateAppend(a: seq<Statistics>, b: seq<Statistics>, q: DateQuery)
    requires SelectByDate(a, q).Ok? && SelectByDate(b, q).Ok?
    ensures SelectByDate(a + b, q) == Ok(SelectByDate(a, q).value + SelectByDate(b, q).value)
  {
    if b == [] {
      assert a + b == a;
      assert SelectByDate(b, q) == Ok([]);
      assert SelectByDate(a, q).value + [] == SelectByDate(a, q).value;
    } else {
      var n := |b| - 1;
      var front, last := b[..n], b[n];
      assert b == front + [last];
      assert a + b == a + front + [last];
      SelectByDateSnoc(front, last, q);
      SelectByDateAppend(a, front, q);
      SelectByDateAppendLast(a, front, last, q);
    }
  }

  /** A snapshot stored without a date (statistics over all analyses) makes
      every later month or year query throw. */
  lemma UndatedSnapshotBreaksQueries(snapshots: seq<Statistics>, s: Statistics, q: DateQuery)
    requires s.date.None?
    ensures SelectByDate(snapshots + [s], q) == Err(NullReference)
  {

  }

  /** The snapshot stored under `id`, if any. */
  function FindById(snapshots: seq<Statistics>, id: int): (r: Option<Statistics>)
    ensures r.Some? <==> exists k :: 0 <= k < |snapshots| && snapshots[k].id == id
    ensures r.Some? ==> r.value in snapshots && r.value.id == id
  {
    if snapshots == [] then None
    else if snapshots[0].id == id then Some(snapshots[0])
    else
      var rest := FindById(snapshots[1..], id);
      assert forall k :: 1 <= k < |snapshots| ==> snapshots[k] == snapshots[1..][k - 1];
      rest
  }
}
