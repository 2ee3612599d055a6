/** The overnight repo stress radar: the latest submitted amount, its recent
    average and peak, and a stress level read from fixed bands. */
module RepoLiquidity {
  import opened Common
  import Sorting
  import Series

  /** `RepoDataError` after the HTTP call: nothing usable came back. */
  datatype RepoError = EmptyData

  /** `assess_repo_stress`'s level. The bands skip level 2 on purpose. */
  function AssessRepoStress(value: real): (level: nat)
    ensures level == 0 <==> value < 5.0
    ensures level == 1 <==> 5.0 <= value < 15.0
    ensures level == 3 <==> 15.0 <= value < 30.0
    ensures level == 4 <==> 30.0 <= value < 50.0
    ensures level == 5 <==> value >= 50.0
    ensures level in {0, 1, 3, 4, 5}
  {
    if value < 5.0 then 0
    else if value < 15.0 then 1
    else if value < 30.0 then 3
    else if value < 50.0 then 4
    else 5
  }

  /** More repo usage never means less stress. */
  lemma AssessRepoStressMonotone(v1: real, v2: real)
    requires v1 <= v2
    ensures AssessRepoStress(v1) <= AssessRepoStress(v2)
  {
  }

  /** `fetch_repo_observations` after the HTTP call: the comprehension that drops
      placeholder values, raising when nothing is left. */
  function FetchRepoObservations(raw: seq<RawObs>): (r: Result<seq<Obs>, RepoError>)
    ensures r.Err? <==> forall i :: 0 <= i < |raw| ==> !raw[i].value.Num?
    ensures r.Ok? ==> r.value == Series.Clean(raw) && |r.value| > 0
  {
    Series.CleanEmpty(raw);
    var cleaned := Series.Clean(raw);
    if cleaned == [] then Err(EmptyData) else Ok(cleaned)
  }

  /** The sum of the values, as Python's `sum` adds them from the front. */
  function Sum(obs: seq<Obs>): real
  {
    if obs == [] then 0.0 else obs[0].value + Sum(obs[1..])
  }

  /** A sum of values none above `m` is at most `|obs| * m`. */
  lemma {:induction false} SumAtMost(obs: seq<Obs>, m: real)
    requires forall i :: 0 <= i < |obs| ==> obs[i].value <= m
    ensures Sum(obs) <= |obs| as real * m
  {
    if obs != [] {
      SumAtMost(obs[1..], m);
    }
  }

  /** The arithmetic mean of the values. */
  function Mean(obs: seq<Obs>): real
    requires |obs| > 0
  {
    Sum(obs) / (|obs| as real)
  }

  /** The mean of values none above `m` is at most `m`. */
  lemma MeanAtMost(obs: seq<Obs>, m: real)
    requires |obs| > 0
    requires forall i :: 0 <= i < |obs| ==> obs[i].value <= m
    ensures Mean(obs) <= m
  {
    SumAtMost(obs, m);
  }

  /** The observations averaged for `avg_7`: the last seven, or all when there are fewer. */
  function LastSeven(obs: seq<Obs>): (w: seq<Obs>)
    ensures |w| == if |obs| >= 7 then 7 else |obs|
    ensures w == obs[|obs| - |w|..]
  {
    if |obs| >= 7 then obs[|obs| - 7..] else obs
  }

  /** The index `max(observations, key=value)` picks: the first observation of greatest value. */
  function MaxIndex(obs: seq<Obs>): (k: nat)
    requires |obs| > 0
    ensures k < |obs|
    ensures forall i :: 0 <= i < |obs| ==> obs[i].value <= obs[k].value
    ensures forall i :: 0 <= i < k ==> obs[i].value < obs[k].value
  {
    if |obs| == 1 then 0
    else
      var k := MaxIndex(obs[..|obs| - 1]);
      if obs[|obs| - 1].value > obs[k].value then |obs| - 1 else k
  }

  /** What `get_latest_repo_info` returns. */
  datatype RepoInfo = RepoInfo(latestDate: int, latestValue: real, avg7: real, maxValue: real, maxDate: int)

  /** The pure part of `get_latest_repo_info`, on the date-sorted observations. */
  method Summarize(obs: seq<Obs>) returns (info: RepoInfo)
    requires |obs| > 0 && Sorting.SortedBy(obs, DateOf)
    ensures Obs(info.latestDate, info.latestValue) == obs[|obs| - 1]
    ensures forall o :: o in obs ==> o.date <= info.latestDate
    ensures Obs(info.maxDate, info.maxValue) == obs[MaxIndex(obs)]
    ensures forall o :: o in obs ==> o.value <= info.maxValue
    ensures info.avg7 == Mean(LastSeven(obs)) && info.avg7 <= info.maxValue
  {
    var latest := obs[|obs| - 1];
    forall o | o in obs ensures o.date <= latest.date {
      var j :| 0 <= j < |obs| && obs[j] == o;
      assert j == |obs| - 1 || DateOf(obs[j]) <= DateOf(obs[|obs| - 1]);
    }
    var last7 := LastSeven(obs);
    var avg7 := Mean(last7);
    var k := MaxIndex(obs);
    var maxObs := obs[k];
    MeanAtMost(last7, maxObs.value);
    info := RepoInfo(latest.date, latest.value, avg7, maxObs.value, maxObs.date);
  }

  /** `get_latest_repo_info` from the raw provider response. */
  method GetLatestRepoInfo(raw: seq<RawObs>) returns (r: Result<RepoInfo, RepoError>)
    ensures r.Err? <==> Series.Clean(raw) == []
    ensures r.Ok? ==>
      var info, cleaned := r.value, Series.Clean(raw);
      && Obs(info.latestDate, info.latestValue) in cleaned
      && (forall o :: o in cleaned ==> o.date <= info.latestDate)
      && Obs(info.maxDate, info.maxValue) in cleaned
      && (forall o :: o in cleaned ==> o.value <= info.maxValue)
      && info.avg7 == Mean(LastSeven(Series.SortByDate(cleaned)))
      && info.avg7 <= info.maxValue
    ensures r.Ok? ==>
      var info, sorted := r.value, Series.SortByDate(Series.Clean(raw));
      && |sorted| > 0
      && Obs(info.latestDate, info.latestValue) == sorted[|sorted| - 1]
      && Obs(info.maxDate, info.maxValue) == sorted[MaxIndex(sorted)]
  {
    var fetched := FetchRepoObservations(raw);
    if fetched.Err? {
      return Err(fetched.error);
    }
    ghost var cleaned := fetched.value;
    var obs := Series.SortByDate(fetched.value);
    assert forall o :: o in obs <==> o in cleaned by {
      assert forall o :: o in obs <==> o in multiset(obs);
      assert forall o :: o in cleaned <==> o in multiset(cleaned);
    }
    var info := Summarize(obs);
    r := Ok(info);
  }

  /** The strategy hint of `build_report_text`. */
  datatype Hint = Healthy | Tightening | HighPressure | DangerZone

  function HintFor(level: int): (h: Hint)
    ensures h == Healthy <==> level <= 1
    ensures h == Tightening <==> 1 < level <= 3
    ensures h == HighPressure <==> level == 4
    ensures h == DangerZone <==> level > 4
  {
    if level <= 1 then Healthy
    else if level <= 3 then Tightening
    else if level <= 4 then HighPressure
    else DangerZone
  }

  /** On an assessed level the hint bands become value bands: since level 2 is
      never produced, "tightening" means exactly level 3. */
  lemma HintForValue(value: real)
    ensures HintFor(AssessRepoStress(value)) == Healthy <==> value < 15.0
    ensures HintFor(AssessRepoStress(value)) == Tightening <==> 15.0 <= value < 30.0
    ensures HintFor(AssessRepoStress(value)) == Tightening <==> AssessRepoStress(value) == 3
    ensures HintFor(AssessRepoStress(value)) == HighPressure <==> 30.0 <= value < 50.0
    ensures HintFor(AssessRepoStress(value)) == DangerZone <==> value >= 50.0
  {
  }
}
