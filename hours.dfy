/**
 * The by-hour counts of the analytics edge functions. The hour of an order
 * (`new Date(created_at).getHours()`) is taken as given.
 */
module Hours {
  import opened Seqs

  /** An hour of the day, as `getHours()` returns it. */
  type Hour = h: int | 0 <= h < 24

  /** The selector of the orders placed in hour `h`. */
  function AtHour(h: int): Hour -> bool
  {
    (x: Hour) => x == h
  }

  /** The number of orders placed in hour `h`. */
  function InHour(hours: seq<Hour>, h: int): nat
  {
    Count(hours, AtHour(h))
  }

  /** The sum of a sequence of counts. */
  function SumInts(s: seq<int>): int
  {
    if s == [] then 0 else s[0] + SumInts(s[1..])
  }

  /** Raising one count by one raises the sum by one. */
  lemma {:induction false} SumIntsBump(s: seq<int>, i: int)
    requires 0 <= i < |s|
    ensures SumInts(s[i := s[i] + 1]) == SumInts(s) + 1
    decreases |s|
  {
    if i > 0 {
      assert s[i := s[i] + 1][1..] == s[1..][i - 1 := s[1..][i - 1] + 1];
      SumIntsBump(s[1..], i - 1);
    } else {
      assert s[i := s[i] + 1][1..] == s[1..];
    }
  }

  /** The 24 counts, hour 0 first. */
  function Histogram(hours: seq<Hour>): (r: seq<int>)
    ensures |r| == 24
    ensures forall h :: 0 <= h < 24 ==> r[h] == InHour(hours, h)
  {
    seq(24, h requires 0 <= h < 24 => InHour(hours, h))
  }

  /** One more order in hour `x` raises exactly bucket `x`. */
  lemma HistogramSnoc(hours: seq<Hour>, x: Hour)
    ensures Histogram(hours + [x]) == Histogram(hours)[x := Histogram(hours)[x] + 1]
  {
    forall h | 0 <= h < 24 ensures InHour(hours + [x], h) == InHour(hours, h) + (if h == x then 1 else 0) {
      FilterSnoc(hours, x, AtHour(h));
    }
  }

  /** The 24 buckets count every order exactly once. */
  lemma {:induction false} HistogramTotal(hours: seq<Hour>)
    ensures SumInts(Histogram(hours)) == |hours|
    decreases |hours|
  {
    if hours == [] {
      var zero := Histogram([]);
      assert SumInts(zero) == 0 by {
        assert forall h :: 0 <= h < 24 ==> zero[h] == 0;
        SumZeros(zero);
      }
    } else {
      var init, x := hours[..|hours| - 1], hours[|hours| - 1];
      assert hours == init + [x];
      HistogramTotal(init);
      HistogramSnoc(init, x);
      SumIntsBump(Histogram(init), x);
    }
  }

  /** A sequence of zeros sums to zero. */
  lemma {:induction false} SumZeros(s: seq<int>)
    requires forall i :: 0 <= i < |s| ==> s[i] == 0
    ensures SumInts(s) == 0
    decreases |s|
  {
    if s != [] {
      SumZeros(s[1..]);
    }
  }

  /**
   * `hourMap` after setting the 24 hours to 0 and counting every order under
   * its hour, read back with `Array.from(hourMap.values())`.
   */
  method HourBuckets(hours: seq<Hour>) returns (counts: seq<int>)
    ensures |counts| == 24
    ensures forall h :: 0 <= h < 24 ==> counts[h] == InHour(hours, h)
  {
    var hourMap := new int[24];
    for i := 0 to 24
      invariant forall h :: 0 <= h < i ==> hourMap[h] == 0
    {
      hourMap[i] := 0;
    }
    for j := 0 to |hours|
      invariant forall h :: 0 <= h < 24 ==> hourMap[h] == InHour(hours[..j], h)
    {
      var hour := hours[j];
      assert hours[..j + 1] == hours[..j] + [hour];
      HistogramSnoc(hours[..j], hour);
      hourMap[hour] := hourMap[hour] + 1;
    }
    assert hours[..|hours|] == hours;
    counts := hourMap[..];
  }

  /** An entry of `Object.entries(ordersByHour)`: the hour and its count. */
  datatype HourCount = HourCount(hour: int, count: int)

  /** What `ordersByHour` holds after `ordersByHour[hour] = (ordersByHour[hour] || 0) + 1` for every order. */
  ghost predicate CountsByHour(byHour: map<int, int>, hours: seq<Hour>)
  {
    && (forall h :: h in byHour <==> 0 <= h < 24 && InHour(hours, h) > 0)
    && (forall h :: h in byHour ==> byHour[h] == InHour(hours, h))
  }

  /** The object the analytics loop builds: the hours with orders, each with its count. */
  function HourMap(hours: seq<Hour>): (r: map<int, int>)
    ensures CountsByHour(r, hours)
  {
    map h | 0 <= h < 24 && InHour(hours, h) > 0 :: InHour(hours, h)
  }

  /** The analytics loop over the orders, filling an object keyed by hour. */
  method CountByHour(hours: seq<Hour>) returns (byHour: map<int, int>)
    ensures byHour == HourMap(hours)
  {
    byHour := map[];
    for j := 0 to |hours|
      invariant CountsByHour(byHour, hours[..j])
    {
      var hour := hours[j];
      assert hours[..j + 1] == hours[..j] + [hour];
      HistogramSnoc(hours[..j], hour);
      byHour := byHour[hour := (if hour in byHour then byHour[hour] else 0) + 1];
    }
    assert hours[..|hours|] == hours;
    assert byHour.Keys == HourMap(hours).Keys;
  }

  /** The selector of the hours holding a count. */
  function Present(byHour: map<int, int>): HourCount -> bool
  {
    (e: HourCount) => e.hour in byHour
  }

  /** `Object.entries(ordersByHour)`: integer keys come out in ascending order. */
  function HourEntries(byHour: map<int, int>): seq<HourCount>
  {
    Filter(seq(24, h requires 0 <= h < 24 => HourCount(h, if h in byHour then byHour[h] else 0)), Present(byHour))
  }

  /** The summed counts of some entries. */
  function SumEntryCounts(es: seq<HourCount>): int
  {
    if es == [] then 0 else es[0].count + SumEntryCounts(es[1..])
  }

  /** Dropping entries whose count is zero leaves the sum unchanged. */
  lemma {:induction false} FilterZerosSum(es: seq<HourCount>, p: HourCount -> bool)
    requires forall e :: e in es && !p(e) ==> e.count == 0
    ensures SumEntryCounts(Filter(es, p)) == SumEntryCounts(es)
    decreases |es|
  {
    if es != [] {
      FilterZerosSum(es[1..], p);
      assert es[0] in es;
      var rest := Filter(es[1..], p);
      if p(es[0]) {
        assert ([es[0]] + rest)[1..] == rest;
      } else {
        assert Filter(es, p) == rest;
      }
    }
  }

  /** Entry sums and count sums agree on matching sequences. */
  lemma {:induction false} EntrySumMatches(es: seq<HourCount>, counts: seq<int>)
    requires |es| == |counts| && forall i :: 0 <= i < |es| ==> es[i].count == counts[i]
    ensures SumEntryCounts(es) == SumInts(counts)
    decreases |es|
  {
    if es != [] {
      EntrySumMatches(es[1..], counts[1..]);
    }
  }

  /**
   * The analytics hour groups ascend by hour, are exactly the hours with
   * orders, and their counts sum to the number of orders.
   */
  lemma HourEntriesTotal(byHour: map<int, int>, hours: seq<Hour>)
    requires CountsByHour(byHour, hours)
    ensures var es := HourEntries(byHour);
      && SumEntryCounts(es) == |hours|
      && (forall e :: e in es <==> 0 <= e.hour < 24 && e.count == InHour(hours, e.hour) && e.count > 0)
  {
    var all := seq(24, h requires 0 <= h < 24 => HourCount(h, if h in byHour then byHour[h] else 0));
    forall e: HourCount | e in all && !Present(byHour)(e) ensures e.count == 0 {
    }
    FilterZerosSum(all, Present(byHour));
    EntrySumMatches(all, Histogram(hours));
    HistogramTotal(hours);
    forall e: HourCount | 0 <= e.hour < 24 && e.count == InHour(hours, e.hour) && e.count > 0 ensures e in HourEntries(byHour) {
      assert all[e.hour] == e;
    }
  }
}
