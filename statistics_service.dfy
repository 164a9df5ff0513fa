/** The statistics engine: it summarises the radon readings of the analyses the
    upstream source returns, optionally only those of one date, stores the
    snapshot, and answers queries over the stored snapshots by id, month and
    year. The current year is a parameter where the source asks the clock. */
module StatisticsServices {
  import opened Common
  import opened Radon

  /** The single pass over the readings: running sum, maximum seeded with
      Double.MIN_VALUE and minimum seeded with Double.MAX_VALUE. */
  method Accumulate(xs: seq<real>) returns (sum: real, max: real, min: real)
    ensures sum == Sum(xs)
    ensures max == MaxFrom(DoubleMinValue, xs)
    ensures min == MinFrom(DoubleMaxValue, xs)
  {
    sum, max, min := 0.0, DoubleMinValue, DoubleMaxValue;
    var n := 0;
    while n < |xs|
      invariant 0 <= n <= |xs|
      invariant sum == Sum(xs[..n])
      invariant max == MaxFrom(DoubleMinValue, xs[..n])
      invariant min == MinFrom(DoubleMaxValue, xs[..n])
    {
      assert xs[..n + 1][..n] == xs[..n];
      var radon := xs[n];
      sum := sum + radon;
      max := Max(max, radon);
      min := Min(min, radon);
      n := n + 1;
    }
    assert xs[..n] == xs;
  }

  class StatisticsService {
    /** The statistics repository, in the order it lists the snapshots. */
    var snapshots: seq<Statistics>
    /** The next id the repository hands out. */
    var nextId: int

    /** Snapshot ids are distinct and below `nextId`. */
    ghost predicate Valid()
      reads this
    {
      && (forall k :: 0 <= k < |snapshots| ==> snapshots[k].id < nextId)
      && (forall i, j :: 0 <= i < j < |snapshots| ==> snapshots[i].id != snapshots[j].id)
    }

    constructor ()
      ensures Valid() && snapshots == []
    {
      snapshots := [];
      nextId := 1;
    }

    /** createStatistics: `fetched` is what the upstream source answered for all
        analyses. A failed or null answer, a null analysis date met by the date
        filter, and an empty filtered set all end as IllegalArgumentException
        with nothing stored; otherwise exactly one snapshot is appended and
        returned. */
    method CreateStatistics(date: Option<Date>, fetched: Fetch<seq<Analysis>>) returns (r: Result<Statistics>)
      requires Valid()
      modifies this
      ensures Valid()
      ensures fetched.Failed? || fetched.body.None? ==>
                r == Err(IllegalArgument) && snapshots == old(snapshots) && nextId == old(nextId)
      ensures fetched.Answered? && fetched.body.Some? ==>
                var filtered := FilterByDate(fetched.body.value, date);
                && (filtered.Err? || filtered.value == [] ==>
                      r == Err(IllegalArgument) && snapshots == old(snapshots) && nextId == old(nextId))
                && (filtered.Ok? && filtered.value != [] ==>
                      && r == Ok(Summary(old(nextId), filtered.value, date))
                      && snapshots == old(snapshots) + [r.value]
                      && nextId == old(nextId) + 1)
    {
      if fetched.Failed? || fetched.body.None? {
        return Err(IllegalArgument);
      }
      var all := fetched.body.value;
      var filtered := FilterByDate(all, date);
      if filtered.Err? || filtered.value == [] {
        return Err(IllegalArgument);
      }
      var analyses := filtered.value;
      var sum, max, min := Accumulate(Readings(analyses));
      var count := |analyses|;
      var average := sum / (count as real);
      var statistics := Statistics(nextId, average, max, min, count, date);
      snapshots := snapshots + [statistics];
      nextId := nextId + 1;
      r := Ok(statistics);
    }

    /** getMonthStatistics: a month outside 1..12 is IllegalArgumentException;
        otherwise the snapshots of that month of the current year, in store order. */
    method GetMonthStatistics(month: int, currentYear: int) returns (r: Result<seq<Statistics>>)
      ensures month < 1 || month > 12 ==> r == Err(IllegalArgument)
      ensures 1 <= month <= 12 ==> r == SelectByDate(snapshots, InMonth(month, currentYear))
    {
      if month < 1 || month > 12 {
        return Err(IllegalArgument);
      }
      r := Select(InMonth(month, currentYear));
    }

    /** getYearStatistics: a year below 1900 or after the current year is
        IllegalArgumentException; otherwise the snapshots of that year, in store order. */
    method GetYearStatistics(year: int, currentYear: int) returns (r: Result<seq<Statistics>>)
      ensures year < 1900 || year > currentYear ==> r == Err(IllegalArgument)
      ensures 1900 <= year <= currentYear ==> r == SelectByDate(snapshots, InYear(year))
    {
      if year < 1900 || year > currentYear {
        return Err(IllegalArgument);
      }
      r := Select(InYear(year));
    }

    /** The loop shared by the two queries: walk the store, keep the matching
        snapshots, and throw on the first snapshot without a date. */
    method Select(q: DateQuery) returns (r: Result<seq<Statistics>>)
      ensures r == SelectByDate(snapshots, q)
    {
      var found: seq<Statistics> := [];
      var n := 0;
      while n < |snapshots|
        invariant 0 <= n <= |snapshots|
        invariant SelectByDate(snapshots[..n], q) == Ok(found)
      {
        assert snapshots[..n + 1][..n] == snapshots[..n];
        var statistics := snapshots[n];
        if statistics.date.None? {
          return Err(NullReference);
        }
        if Keeps(q, statistics.date.value) {
          found := found + [statistics];
        }
        n := n + 1;
      }
      assert snapshots[..n] == snapshots;
      r := Ok(found);
    }

    /** getStatisticsById: the stored snapshot with that id; an absent id throws
        UserNotFoundException. */
    function GetStatisticsById(id: int): (r: Result<Statistics>)
      reads this
      ensures r.Ok? <==> exists k :: 0 <= k < |snapshots| && snapshots[k].id == id
      ensures r.Ok? ==> r.value in snapshots && r.value.id == id
      ensures r.Err? ==> r.error == UserNotFound
    {
      match FindById(snapshots, id)
      case Some(s) => Ok(s)
      case None => Err(UserNotFound)
    }
  }
}
