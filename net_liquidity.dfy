/** Net liquidity: the Fed balance sheet minus the Treasury General Account minus
    the reverse-repo balance, each a FRED series read into a date -> value map,
    compared at the latest date all three report and at the latest common date a
    year or more before it. */
module NetLiquidity {
  import opened Common
  import Series

  /** The distinct `NetLiqDataError` conditions. */
  datatype NetLiqError = EmptySeries | NoValidValue | NoLatestCommonDate | NoYearAgoCommonDate

  /** What `_fetch_series` turns a provider response into: an error when the
      response held no observations or only placeholders, otherwise the
      date -> value map of the usable observations. */
  function ParseSeries(raw: seq<RawObs>): (r: Result<map<int, real>, NetLiqError>)
    ensures r == Err(EmptySeries) <==> raw == []
    ensures r == Err(NoValidValue) <==> raw != [] && Series.Clean(raw) == []
    ensures r.Ok? ==> r.value.Keys == (set o | o in Series.Clean(raw) :: o.date) && r.value.Keys != {}
    ensures r.Ok? ==> r.value == Series.ToMap(Series.Clean(raw))
  {
    if raw == [] then Err(EmptySeries)
    else
      var cleaned := Series.Clean(raw);
      if cleaned == [] then Err(NoValidValue)
      else
        var m := Series.ToMap(cleaned);
        assert cleaned[0].date in m;
        Ok(m)
  }

  /** `_fetch_series` after the HTTP call: the loop that fills the dict, skipping placeholders. */
  method FetchSeries(raw: seq<RawObs>) returns (r: Result<map<int, real>, NetLiqError>)
    ensures r == ParseSeries(raw)
  {
    if raw == [] {
      return Err(EmptySeries);
    }
    var series: map<int, real> := map[];
    var i := 0;
    while i < |raw|
      invariant 0 <= i <= |raw|
      invariant series == Series.ToMap(Series.Clean(raw[..i]))
    {
      var o := raw[i];
      assert raw[..i + 1][..i] == raw[..i];
      ghost var before := Series.Clean(raw[..i]);
      if o.value.Num? {
        var ob := Obs(o.date, o.value.x);
        assert Series.Clean(raw[..i + 1]) == before + [ob];
        assert (before + [ob])[..|before|] == before;
        series := series[o.date := o.value.x];
      } else {
        assert Series.Clean(raw[..i + 1]) == before;
      }
      i := i + 1;
    }
    assert raw[..i] == raw;
    if series == map[] {
      return Err(NoValidValue);
    }
    r := Ok(series);
  }

  /** The dates every series reports. */
  ghost function CommonSet(series: seq<map<int, real>>): set<int>
    requires |series| > 0
  {
    set d | d in series[0] && forall k :: 0 <= k < |series| ==> d in series[k]
  }

  /** The `common_dates &= set(s.keys())` loop shared by both date finders. */
  method CommonDates(series: seq<map<int, real>>) returns (common: set<int>)
    requires |series| > 0
    ensures common == CommonSet(series)
    ensures forall d :: d in common <==> forall k :: 0 <= k < |series| ==> d in series[k]
  {
    common := series[0].Keys;
    var i := 1;
    while i < |series|
      invariant 1 <= i <= |series|
      invariant forall d :: d in common <==> forall k :: 0 <= k < i ==> d in series[k]
    {
      common := common * series[i].Keys;
      i := i + 1;
    }
    forall d ensures d in common <==> d in CommonSet(series) {
    }
  }

  /** `_find_latest_common_date`: the greatest common date, an error when there is none. */
  method LatestCommonDate(series: seq<map<int, real>>) returns (r: Result<int, NetLiqError>)
    requires |series| > 0
    ensures r.Err? <==> CommonSet(series) == {}
    ensures r.Err? ==> r.error == NoLatestCommonDate
    ensures r.Ok? ==> r.value in CommonSet(series) && forall d :: d in CommonSet(series) ==> d <= r.value
  {
    var common := CommonDates(series);
    if common == {} {
      return Err(NoLatestCommonDate);
    }
    var latest := Series.SetMax(common);
    r := Ok(latest);
  }

  /** `_find_year_ago_common_date`: the greatest common date at least 365 days before
      `latestDate`, an error when there is none. */
  method YearAgoCommonDate(series: seq<map<int, real>>, latestDate: int) returns (r: Result<int, NetLiqError>)
    requires |series| > 0
    ensures r.Err? <==> forall d :: d in CommonSet(series) ==> d > latestDate - 365
    ensures r.Err? ==> r.error == NoYearAgoCommonDate
    ensures r.Ok? ==> r.value in CommonSet(series) && r.value <= latestDate - 365
    ensures r.Ok? ==> forall d :: d in CommonSet(series) && d <= latestDate - 365 ==> d <= r.value
  {
    var target := latestDate - 365;
    var common := CommonDates(series);
    var candidates := set d | d in common && d <= target;
    assert forall d :: d in candidates <==> d in CommonSet(series) && d <= target;
    if candidates == {} {
      return Err(NoYearAgoCommonDate);
    }
    var yearAgo := Series.SetMax(candidates);
    r := Ok(yearAgo);
  }

  /** What `get_net_liquidity_status` returns. */
  datatype NetStatus = NetStatus(latestDate: int, latestValue: real, yearAgoDate: int, yearAgoValue: real, yoy: Option<real>)

  /** WALCL − TGA − RRP on one date. */
  function NetValue(walcl: map<int, real>, tga: map<int, real>, rrp: map<int, real>, d: int): (v: real)
    requires d in walcl && d in tga && d in rrp
    ensures v + tga[d] + rrp[d] == walcl[d]
    ensures tga[d] >= 0.0 && rrp[d] >= 0.0 ==> v <= walcl[d]
  {
    walcl[d] - tga[d] - rrp[d]
  }

  /** Some pair of common dates lies a full year apart. */
  ghost predicate HasYearApart(dates: set<int>)
  {
    exists d, e :: d in dates && e in dates && d <= e - 365
  }

  /** What the status computed from three parsed series is: an alignment error
      exactly when no date, or no pair of dates a year apart, is common to all
      three; otherwise the net values at the greatest common date and at the
      greatest common date a full year before it, and their year-over-year change. */
  ghost predicate IsStatusOf(walcl: map<int, real>, tga: map<int, real>, rrp: map<int, real>,
                             r: Result<NetStatus, NetLiqError>)
  {
    var common := CommonSet([walcl, tga, rrp]);
    && (r == Err(NoLatestCommonDate) <==> common == {})
    && (r == Err(NoYearAgoCommonDate) <==> common != {} && !HasYearApart(common))
    && (r.Ok? ==>
      var s := r.value;
      && s.latestDate in common && (forall d :: d in common ==> d <= s.latestDate)
      && s.yearAgoDate in common && s.yearAgoDate <= s.latestDate - 365
      && (forall d :: d in common && d <= s.latestDate - 365 ==> d <= s.yearAgoDate)
      && s.yearAgoDate < s.latestDate
      && s.latestDate in walcl && s.latestDate in tga && s.latestDate in rrp
      && s.yearAgoDate in walcl && s.yearAgoDate in tga && s.yearAgoDate in rrp
      && s.latestValue == NetValue(walcl, tga, rrp, s.latestDate)
      && s.yearAgoValue == NetValue(walcl, tga, rrp, s.yearAgoDate)
      && s.yoy == Series.YoY(s.latestValue, s.yearAgoValue))
  }

  /** The part of `get_net_liquidity_status` after the three fetches. */
  method StatusFromSeries(walcl: map<int, real>, tga: map<int, real>, rrp: map<int, real>)
    returns (r: Result<NetStatus, NetLiqError>)
    ensures IsStatusOf(walcl, tga, rrp, r)
  {
    var series := [walcl, tga, rrp];
    var latest := LatestCommonDate(series);
    if latest.Err? {
      return Err(latest.error);
    }
    var ld := latest.value;
    var yearAgo := YearAgoCommonDate(series, ld);
    if yearAgo.Err? {
      return Err(yearAgo.error);
    }
    var yd := yearAgo.value;
    assert ld in series[0] && ld in series[1] && ld in series[2];
    assert yd in series[0] && yd in series[1] && yd in series[2];
    var latestVal := walcl[ld] - tga[ld] - rrp[ld];
    var prevVal := walcl[yd] - tga[yd] - rrp[yd];
    r := Ok(NetStatus(ld, latestVal, yd, prevVal, Series.YoY(latestVal, prevVal)));
    assert HasYearApart(CommonSet(series)) by {
      assert yd in CommonSet(series) && ld in CommonSet(series) && yd <= ld - 365;
    }
  }

  /** `get_net_liquidity_status` from the three raw provider responses. */
  method GetNetLiquidityStatus(rawWalcl: seq<RawObs>, rawTga: seq<RawObs>, rawRrp: seq<RawObs>)
    returns (r: Result<NetStatus, NetLiqError>)
    ensures ParseSeries(rawWalcl).Err? ==> r == Err(ParseSeries(rawWalcl).error)
    ensures ParseSeries(rawWalcl).Ok? && ParseSeries(rawTga).Err? ==> r == Err(ParseSeries(rawTga).error)
    ensures ParseSeries(rawWalcl).Ok? && ParseSeries(rawTga).Ok? && ParseSeries(rawRrp).Err? ==>
      r == Err(ParseSeries(rawRrp).error)
    ensures ParseSeries(rawWalcl).Ok? && ParseSeries(rawTga).Ok? && ParseSeries(rawRrp).Ok? ==>
      IsStatusOf(ParseSeries(rawWalcl).value, ParseSeries(rawTga).value, ParseSeries(rawRrp).value, r)
  {
    var walcl := FetchSeries(rawWalcl);
    if walcl.Err? {
      return Err(walcl.error);
    }
    var tga := FetchSeries(rawTga);
    if tga.Err? {
      return Err(tga.error);
    }
    var rrp := FetchSeries(rawRrp);
    if rrp.Err? {
      return Err(rrp.error);
    }
    r := StatusFromSeries(walcl.value, tga.value, rrp.value);
  }

  /** The reading of the net-liquidity change. */
  datatype Comment = Unavailable | Positive | Neutral | Negative

  /** `build_net_liquidity_text`'s comment. */
  function CommentFor(yoy: Option<real>): (c: Comment)
    ensures c == Unavailable <==> yoy.None?
    ensures c == Positive <==> yoy.Some? && yoy.value > 5.0
    ensures c == Neutral <==> yoy.Some? && -5.0 < yoy.value <= 5.0
    ensures c == Negative <==> yoy.Some? && yoy.value <= -5.0
  {
    match yoy
    case None => Unavailable
    case Some(y) =>
      if y > 5.0 then Positive
      else if y > -5.0 then Neutral
      else Negative
  }
}
