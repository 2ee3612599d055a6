/** The 2-year minus 10-year Treasury spread on the latest date both FRED series report. */
module YieldCurve {
  import opened Common
  import Series

  /** `fetch_fred` after the HTTP call: the loop that keeps the non-placeholder
      observations in their original order. It never fails on an empty result. */
  method FetchFred(raw: seq<RawObs>) returns (out: seq<Obs>)
    ensures out == Series.Clean(raw)
  {
    out := [];
    var i := 0;
    while i < |raw|
      invariant 0 <= i <= |raw|
      invariant out == Series.Clean(raw[..i])
    {
      assert raw[..i + 1][..i] == raw[..i];
      if raw[i].value.Num? {
        out := out + [Obs(raw[i].date, raw[i].value.x)];
      }
      i := i + 1;
    }
    assert raw[..i] == raw;
  }

  /** The single `YieldCurveError` condition after the fetches. */
  datatype YieldError = NoCommonDate

  /** The reading of the spread, from most inverted to most normal. */
  datatype Comment = DeepInversion | Inversion | Normalising | StronglyNormal

  /** `get_yield_curve`'s comment. */
  function CommentFor(spread: real): (c: Comment)
    ensures c == DeepInversion <==> spread < -0.75
    ensures c == Inversion <==> -0.75 <= spread < 0.0
    ensures c == Normalising <==> 0.0 <= spread < 0.4
    ensures c == StronglyNormal <==> spread >= 0.4
  {
    if spread < -0.75 then DeepInversion
    else if spread < 0.0 then Inversion
    else if spread < 0.4 then Normalising
    else StronglyNormal
  }

  /** Position of a reading from most inverted to most normal. */
  function Steepness(c: Comment): nat
  {
    match c
    case DeepInversion => 0
    case Inversion => 1
    case Normalising => 2
    case StronglyNormal => 3
  }

  /** A wider spread never reads as more inverted. */
  lemma CommentMonotone(s1: real, s2: real)
    requires s1 <= s2
    ensures Steepness(CommentFor(s1)) <= Steepness(CommentFor(s2))
  {
  }

  /** What `get_yield_curve` returns. */
  datatype Curve = Curve(date: int, value2y: real, value10y: real, spread: real, comment: Comment)

  /** `get_yield_curve` from the two raw provider responses: both series become
      date -> value dicts, the latest common date is chosen and the spread taken there. */
  method GetYieldCurve(raw2y: seq<RawObs>, raw10y: seq<RawObs>) returns (r: Result<Curve, YieldError>)
    ensures var m2, m10 := Series.ToMap(Series.Clean(raw2y)), Series.ToMap(Series.Clean(raw10y));
      && (r.Err? <==> m2.Keys * m10.Keys == {})
      && (r.Ok? ==>
        && r.value.date in m2 && r.value.date in m10
        && (forall d :: d in m2 && d in m10 ==> d <= r.value.date)
        && r.value.value2y == m2[r.value.date] && r.value.value10y == m10[r.value.date]
        && r.value.spread == r.value.value2y - r.value.value10y
        && r.value.comment == CommentFor(r.value.spread))
  {
    var series2y := FetchFred(raw2y);
    var series10y := FetchFred(raw10y);
    var dates2y := Series.ToMap(series2y);
    var dates10y := Series.ToMap(series10y);
    var common := dates2y.Keys * dates10y.Keys;
    if common == {} {
      return Err(NoCommonDate);
    }
    var latest := Series.SetMax(common);
    assert forall d :: d in dates2y && d in dates10y ==> d in common;
    var v2 := dates2y[latest];
    var v10 := dates10y[latest];
    var spread := v2 - v10;
    r := Ok(Curve(latest, v2, v10, spread, CommentFor(spread)));
  }

  /** A common date exists exactly when some date has a usable value in both series. */
  lemma CommonDateExists(raw2y: seq<RawObs>, raw10y: seq<RawObs>)
    ensures Series.ToMap(Series.Clean(raw2y)).Keys * Series.ToMap(Series.Clean(raw10y)).Keys != {}
      <==> exists d, x, y :: RawObs(d, Num(x)) in raw2y && RawObs(d, Num(y)) in raw10y
  {
    Series.CleanMembers(raw2y);
    Series.CleanMembers(raw10y);
    var k2 := Series.ToMap(Series.Clean(raw2y)).Keys;
    var k10 := Series.ToMap(Series.Clean(raw10y)).Keys;
    if k2 * k10 != {} {
      var d :| d in k2 * k10;
      var o2 :| o2 in Series.Clean(raw2y) && o2.date == d;
      var o10 :| o10 in Series.Clean(raw10y) && o10.date == d;
      assert RawObs(d, Num(o2.value)) in raw2y && RawObs(d, Num(o10.value)) in raw10y;
    }
    if exists d, x, y :: RawObs(d, Num(x)) in raw2y && RawObs(d, Num(y)) in raw10y {
      var d, x, y :| RawObs(d, Num(x)) in raw2y && RawObs(d, Num(y)) in raw10y;
      assert Obs(d, x) in Series.Clean(raw2y) && Obs(d, y) in Series.Clean(raw10y);
      assert d in k2 * k10;
    }
  }
}
