/** The observation handling that the RRP, TGA and Fed balance-sheet monitors share
    word for word, plus the pieces the net-liquidity and yield-curve modules reuse:
    dropping placeholder values, sorting by date, the year-ago scan, the
    year-over-year percentage, date -> value maps and the maximum of a date set. */
module Series {
  import opened Common
  import Sorting

  /** The errors a monitor raises: nothing usable came back, or no observation
      is a year older than the latest one. */
  datatype SeriesError = NoData | NoYearAgo

  /** The observations whose value is not a placeholder (null, "." or ""), in their original order. */
  function Clean(raw: seq<RawObs>): (r: seq<Obs>)
    ensures |r| <= |raw|
  {
    if raw == [] then []
    else
      var last := raw[|raw| - 1];
      Clean(raw[..|raw| - 1]) + (if last.value.Num? then [Obs(last.date, last.value.x)] else [])
  }

  /** Filtering distributes over concatenation, so `Clean` keeps the relative order of what it keeps. */
  lemma {:induction false} CleanAppend(a: seq<RawObs>, b: seq<RawObs>)
    ensures Clean(a + b) == Clean(a) + Clean(b)
    decreases |b|
  {
    if b == [] {
      assert a + b == a;
    } else {
      assert (a + b)[..|a + b| - 1] == a + b[..|b| - 1];
      CleanAppend(a, b[..|b| - 1]);
    }
  }

  /** An observation survives cleaning exactly when the raw list holds it with a numeric value. */
  lemma {:induction false} CleanMembers(raw: seq<RawObs>)
    ensures forall o :: o in Clean(raw) <==> RawObs(o.date, Num(o.value)) in raw
  {
    if raw != [] {
      var init := raw[..|raw| - 1];
      CleanMembers(init);
      assert raw == init + [raw[|raw| - 1]];
    }
  }

  /** Nothing is left after cleaning exactly when every raw value is a placeholder. */
  lemma CleanEmpty(raw: seq<RawObs>)
    ensures Clean(raw) == [] <==> forall i :: 0 <= i < |raw| ==> !raw[i].value.Num?
  {
    CleanMembers(raw);
    if Clean(raw) != [] {
      var o := Clean(raw)[0];
      assert o in Clean(raw);
    } else {
      forall i | 0 <= i < |raw| ensures !raw[i].value.Num? {
        if raw[i].value.Num? {
          assert RawObs(raw[i].date, Num(raw[i].value.x)) == raw[i];
          assert Obs(raw[i].date, raw[i].value.x) in Clean(raw);
        }
      }
    }
  }

  /** `cleaned.sort(key=lambda x: x["date"])`. */
  function SortByDate(obs: seq<Obs>): (r: seq<Obs>)
    ensures multiset(r) == multiset(obs) && |r| == |obs|
    ensures Sorting.SortedBy(r, DateOf)
  {
    Sorting.SortByIsSorted(obs, DateOf);
    Sorting.SortBy(obs, DateOf)
  }

  /** `_fetch_observations` after the HTTP call: drop placeholders, raise when
      nothing is left, sort by date. */
  function FetchObservations(raw: seq<RawObs>): (r: Result<seq<Obs>, SeriesError>)
    ensures r.Err? <==> Clean(raw) == []
    ensures r.Err? ==> r.error == NoData
    ensures r.Ok? ==> |r.value| > 0 && Sorting.SortedBy(r.value, DateOf)
    ensures r.Ok? ==> multiset(r.value) == multiset(Clean(raw))
  {
    var cleaned := Clean(raw);
    if cleaned == [] then Err(NoData) else Ok(SortByDate(cleaned))
  }

  /** What the `_find_year_ago` loop picks: walking from the first observation,
      the last one dated on or before `target`, stopping at the first one after it. */
  function ScanYearAgo(obs: seq<Obs>, target: int): (r: Option<nat>)
    ensures r.None? <==> |obs| == 0 || obs[0].date > target
    ensures r.Some? ==> r.value < |obs| && forall j :: 0 <= j <= r.value ==> obs[j].date <= target
    ensures r.Some? ==> r.value + 1 == |obs| || obs[r.value + 1].date > target
  {
    if |obs| == 0 || obs[0].date > target then None
    else
      match ScanYearAgo(obs[1..], target)
      case None => Some(0)
      case Some(i) => Some(i + 1)
  }

  /** On a date-sorted list the scan finds the greatest date on or before the
      target, and finds nothing only when every date is after it. */
  lemma ScanYearAgoOnSorted(obs: seq<Obs>, target: int)
    requires Sorting.SortedBy(obs, DateOf)
    ensures ScanYearAgo(obs, target).None? <==> forall j :: 0 <= j < |obs| ==> obs[j].date > target
    ensures ScanYearAgo(obs, target).Some? ==>
      forall j :: 0 <= j < |obs| && obs[j].date <= target ==> obs[j].date <= obs[ScanYearAgo(obs, target).value].date
  {
    var r := ScanYearAgo(obs, target);
    if r.None? && |obs| > 0 {
      forall j | 0 <= j < |obs| ensures obs[j].date > target {
        assert DateOf(obs[0]) <= DateOf(obs[j]);
      }
    }
    if r.Some? {
      var i := r.value;
      forall j | i < j < |obs| ensures obs[j].date > target {
        assert DateOf(obs[i + 1]) <= DateOf(obs[j]);
      }
      forall j | 0 <= j <= i ensures obs[j].date <= obs[i].date {
        assert DateOf(obs[j]) <= DateOf(obs[i]);
      }
    }
  }

  /** The scan's result is pinned down by where the run of early-enough dates ends. */
  lemma {:induction false} ScanYearAgoStopsAt(obs: seq<Obs>, target: int, k: nat)
    requires k <= |obs|
    requires forall j :: 0 <= j < k ==> obs[j].date <= target
    requires k == |obs| || obs[k].date > target
    ensures ScanYearAgo(obs, target) == if k == 0 then None else Some(k - 1)
  {
    if k > 0 {
      ScanYearAgoStopsAt(obs[1..], target, k - 1);
    }
  }

  /** `_find_year_ago`: the loop with its early `break`, raising when no candidate was found. */
  method FindYearAgo(obs: seq<Obs>, latestDate: int) returns (r: Result<Obs, SeriesError>)
    ensures match ScanYearAgo(obs, latestDate - 365)
            case Some(i) => r == Ok(obs[i])
            case None => r == Err(NoYearAgo)
  {
    var target := latestDate - 365;
    var candidate: Option<Obs> := None;
    var i := 0;
    while i < |obs|
      invariant 0 <= i <= |obs|
      invariant forall j :: 0 <= j < i ==> obs[j].date <= target
      invariant candidate == if i == 0 then None else Some(obs[i - 1])
    {
      if obs[i].date <= target {
        candidate := Some(obs[i]);
      } else {
        break;
      }
      i := i + 1;
    }
    ScanYearAgoStopsAt(obs, target, i);
    if candidate.None? {
      r := Err(NoYearAgo);
    } else {
      r := Ok(candidate.value);
    }
  }

  /** Year-over-year change in percent, `None` when the year-ago value is zero. */
  function YoY(latest: real, yearAgo: real): (r: Option<real>)
    ensures r.None? <==> yearAgo == 0.0
    ensures r.Some? ==> r.value * yearAgo == (latest - yearAgo) * 100.0
  {
    if yearAgo != 0.0 then Some((latest - yearAgo) / yearAgo * 100.0) else None
  }

  /** For a positive base, the change is positive exactly when the value grew. */
  lemma YoYSign(latest: real, yearAgo: real)
    requires yearAgo > 0.0
    ensures YoY(latest, yearAgo).Some?
    ensures YoY(latest, yearAgo).value > 0.0 <==> latest > yearAgo
    ensures YoY(latest, yearAgo).value == 0.0 <==> latest == yearAgo
  {
    var y := YoY(latest, yearAgo).value;
    assert y * yearAgo == (latest - yearAgo) * 100.0;
    if y > 0.0 { assert y * yearAgo > 0.0; }
    if y < 0.0 { assert y * yearAgo < 0.0; }
  }

  /** The `yoy_str` of the text builders: "N/A" or a signed percentage. */
  datatype YoyText = NotAvailable | Percent(x: real)

  function YoyString(yoy: Option<real>): (t: YoyText)
    ensures t.NotAvailable? <==> yoy.None?
    ensures yoy.Some? ==> t == Percent(yoy.value)
  {
    match yoy
    case None => NotAvailable
    case Some(y) => Percent(y)
  }

  /** What `get_rrp_status` / `get_tga_status` / `get_fed_bs_status` return. */
  datatype Status = Status(latestDate: int, latestValue: real, yearAgoDate: int, yearAgoValue: real, yoy: Option<real>)

  /** No usable observation is dated a full year before another. */
  ghost predicate NoYearApart(obs: seq<Obs>)
  {
    forall o, p :: o in obs && p in obs ==> o.date > p.date - 365
  }

  /** Two sequences with the same multiset have the same members. */
  lemma SameMembers(a: seq<Obs>, b: seq<Obs>)
    requires multiset(a) == multiset(b)
    ensures forall o :: o in a <==> o in b
  {
    assert forall o :: o in a <==> o in multiset(a);
    assert forall o :: o in b <==> o in multiset(b);
  }

  /** The last element of a date-sorted sequence has the greatest date. */
  lemma LastIsLatest(obs: seq<Obs>)
    requires |obs| > 0 && Sorting.SortedBy(obs, DateOf)
    ensures forall o :: o in obs ==> o.date <= obs[|obs| - 1].date
  {
    forall o | o in obs ensures o.date <= obs[|obs| - 1].date {
      var j :| 0 <= j < |obs| && obs[j] == o;
      assert j == |obs| - 1 || DateOf(obs[j]) <= DateOf(obs[|obs| - 1]);
    }
  }

  /** The status a monitor computes from the provider's raw observations. */
  method GetStatus(raw: seq<RawObs>) returns (r: Result<Status, SeriesError>)
    ensures r == Err(NoData) <==> Clean(raw) == []
    ensures r == Err(NoYearAgo) <==> Clean(raw) != [] && NoYearApart(Clean(raw))
    ensures r.Ok? ==>
      var s := r.value;
      && Obs(s.latestDate, s.latestValue) in Clean(raw)
      && (forall o :: o in Clean(raw) ==> o.date <= s.latestDate)
      && Obs(s.yearAgoDate, s.yearAgoValue) in Clean(raw)
      && s.yearAgoDate <= s.latestDate - 365
      && (forall o :: o in Clean(raw) && o.date <= s.latestDate - 365 ==> o.date <= s.yearAgoDate)
      && s.yoy == YoY(s.latestValue, s.yearAgoValue)
    ensures r.Ok? ==>
      var s, obs := r.value, FetchObservations(raw).value;
      && FetchObservations(raw).Ok?
      && Obs(s.latestDate, s.latestValue) == obs[|obs| - 1]
      && ScanYearAgo(obs, s.latestDate - 365).Some?
      && Obs(s.yearAgoDate, s.yearAgoValue) == obs[ScanYearAgo(obs, s.latestDate - 365).value]
  {
    var fetched := FetchObservations(raw);
    if fetched.Err? {
      return Err(fetched.error);
    }
    var obs := fetched.value;
    ghost var cleaned := Clean(raw);
    SameMembers(obs, cleaned);
    var latest := obs[|obs| - 1];
    LastIsLatest(obs);
    var target := latest.date - 365;
    ScanYearAgoOnSorted(obs, target);
    var yearAgo := FindYearAgo(obs, latest.date);
    if yearAgo.Err? {
      assert forall o :: o in obs ==> o.date > target;
      return Err(yearAgo.error);
    }
    var y := yearAgo.value;
    var i := ScanYearAgo(obs, target).value;
    assert y == obs[i];
    assert obs[i] in obs;
    assert forall o :: o in obs && o.date <= target ==> o.date <= y.date;
    r := Ok(Status(latest.date, latest.value, y.date, y.value, YoY(latest.value, y.value)));
    assert !NoYearApart(cleaned) by {
      assert y in cleaned && latest in cleaned && !(y.date > latest.date - 365);
    }
  }

  /** Among cleaned observations sharing the latest date, the stable sort puts the
      one that came last in the provider's order at the end, so that one is `obs[-1]`. */
  lemma LatestIsLastOfItsDate(raw: seq<RawObs>)
    requires Clean(raw) != []
    ensures var obs := FetchObservations(raw).value;
      var c := Sorting.KeyClass(Clean(raw), DateOf, obs[|obs| - 1].date);
      |c| > 0 && c[|c| - 1] == obs[|obs| - 1]
  {
    var obs := FetchObservations(raw).value;
    Sorting.SortByIsStable(Clean(raw), DateOf, obs[|obs| - 1].date);
    Sorting.KeyClassLastAt(obs, DateOf, |obs| - 1);
  }

  /** On a sorted list every observation after the scan's pick is dated after the target. */
  lemma LaterDatesAfter(obs: seq<Obs>, target: int, i: nat)
    requires Sorting.SortedBy(obs, DateOf)
    requires i < |obs| && obs[i].date <= target
    requires i + 1 == |obs| || obs[i + 1].date > target
    ensures forall j :: i < j < |obs| ==> DateOf(obs[j]) != DateOf(obs[i])
  {
    forall j | i < j < |obs| ensures DateOf(obs[j]) != DateOf(obs[i]) {
      assert DateOf(obs[i + 1]) <= DateOf(obs[j]);
    }
  }

  /** Likewise the year-ago observation the scan picks is the last one, in the
      provider's order, of the cleaned observations with its date. */
  lemma YearAgoIsLastOfItsDate(raw: seq<RawObs>, target: int)
    requires Clean(raw) != []
    requires ScanYearAgo(FetchObservations(raw).value, target).Some?
    ensures var obs := FetchObservations(raw).value;
      var i := ScanYearAgo(obs, target).value;
      var c := Sorting.KeyClass(Clean(raw), DateOf, obs[i].date);
      |c| > 0 && c[|c| - 1] == obs[i]
  {
    var obs := FetchObservations(raw).value;
    var i := ScanYearAgo(obs, target).value;
    LaterDatesAfter(obs, target, i);
    Sorting.SortByIsStable(Clean(raw), DateOf, obs[i].date);
    Sorting.KeyClassLastAt(obs, DateOf, i);
  }

  /** The `{date: value}` dict built from observations in order: a later value for a repeated date wins. */
  function ToMap(obs: seq<Obs>): (m: map<int, real>)
    ensures m.Keys == set o | o in obs :: o.date
  {
    if obs == [] then map[]
    else
      var last := obs[|obs| - 1];
      var m := ToMap(obs[..|obs| - 1])[last.date := last.value];
      assert obs == obs[..|obs| - 1] + [last];
      m
  }

  /** Each key of `ToMap` holds the value of the last observation with that date. */
  lemma {:induction false} ToMapLastWins(obs: seq<Obs>, d: int)
    requires d in ToMap(obs)
    ensures exists i :: 0 <= i < |obs| && obs[i] == Obs(d, ToMap(obs)[d])
                   && forall j :: i < j < |obs| ==> obs[j].date != d
  {
    var init := obs[..|obs| - 1];
    var last := obs[|obs| - 1];
    if last.date != d {
      assert ToMap(obs) == ToMap(init)[last.date := last.value];
      assert d in ToMap(init) && ToMap(obs)[d] == ToMap(init)[d];
      ToMapLastWins(init, d);
      var i :| 0 <= i < |init| && init[i] == Obs(d, ToMap(init)[d])
                && forall j :: i < j < |init| ==> init[j].date != d;
      assert obs[i] == init[i];
      assert forall j :: i < j < |obs| ==> obs[j].date != d by {
        forall j | i < j < |obs| ensures obs[j].date != d {
          if j < |init| {
            assert obs[j] == init[j];
          }
        }
      }
    } else {
      assert obs[|obs| - 1] == Obs(d, ToMap(obs)[d]);
    }
  }

  /** `max` of a non-empty set of dates. */
  method SetMax(s: set<int>) returns (m: int)
    requires s != {}
    ensures m in s
    ensures forall x :: x in s ==> x <= m
  {
    if forall x :: x !in s {
      assert false;
    }
    m :| m in s;
    var rest := s - {m};
    while rest != {}
      invariant rest <= s && m in s
      invariant forall x :: x in s && x !in rest ==> x <= m
      decreases rest
    {
      if forall y :: y !in rest {
        assert false;
      }
      var x :| x in rest;
      if x > m {
        m := x;
      }
      rest := rest - {x};
    }
  }
}
