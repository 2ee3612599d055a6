/** The 7-day and 30-day trend sections and the cycle-shift line of the report,
    comparing today's snapshot with the history records closest to 7 and 30 days ago. */
module Trends {
  import opened Common
  import opened History
  import Dashboard

  /** The direction a 7-day line reports: for liquidity rising means improving,
      for repo stress rising means more pressure, for the curve rising means the
      inversion narrows. */
  datatype Direction = Rising | Falling | Steady

  /** The uncaught `TypeError` of subtracting a missing value: today's value is
      `None`, or the reference record holds null. */
  datatype TrendError = TypeErrorRaised

  /** `today - ref.get(key, today)`: an absent key compares today with itself. */
  function DeltaReal(today: Option<real>, ref: Field<real>): (r: Result<real, TrendError>)
    ensures r.Err? <==> today.None? || ref.JsonNull?
    ensures r.Ok? && ref.Absent? ==> r.value == 0.0
    ensures r.Ok? && ref.Present? ==> r.value + ref.v == today.value
  {
    if today.None? then Err(TypeErrorRaised)
    else match ref
      case Absent => Ok(today.value - today.value)
      case JsonNull => Err(TypeErrorRaised)
      case Present(v) => Ok(today.value - v)
  }

  /** The same subtraction on repo levels. */
  function DeltaInt(today: Option<int>, ref: Field<int>): (r: Result<int, TrendError>)
    ensures r.Err? <==> today.None? || ref.JsonNull?
    ensures r.Ok? && ref.Absent? ==> r.value == 0
    ensures r.Ok? && ref.Present? ==> r.value + ref.v == today.value
  {
    if today.None? then Err(TypeErrorRaised)
    else match ref
      case Absent => Ok(today.value - today.value)
      case JsonNull => Err(TypeErrorRaised)
      case Present(v) => Ok(today.value - v)
  }

  /** A change read against a symmetric dead band. */
  function Classify(delta: real, band: real): (d: Direction)
    requires band >= 0.0
    ensures d == Rising <==> delta > band
    ensures d == Falling <==> delta < -band
    ensures d == Steady <==> -band <= delta <= band
  {
    if delta > band then Rising else if delta < -band then Falling else Steady
  }

  /** The 7-day liquidity direction: a move of more than 0.1 points either way. */
  function LiquidityTrend(today: Option<real>, ref: Field<real>): (r: Result<Direction, TrendError>)
    ensures r.Err? <==> today.None? || ref.JsonNull?
    ensures r.Ok? ==> (r.value == Steady || ref.Present?)
    ensures r.Ok? && ref.Present? ==>
      (r.value == Rising <==> today.value - ref.v > 0.1) && (r.value == Falling <==> today.value - ref.v < -0.1)
  {
    match DeltaReal(today, ref)
    case Err(e) => Err(e)
    case Ok(d) => Ok(Classify(d, 0.1))
  }

  /** The 7-day repo direction: any change of level counts. */
  function RepoTrend(today: Option<int>, ref: Field<int>): (r: Result<Direction, TrendError>)
    ensures r.Err? <==> today.None? || ref.JsonNull?
    ensures r.Ok? ==> (r.value == Steady || ref.Present?)
    ensures r.Ok? && ref.Present? ==>
      (r.value == Rising <==> today.value > ref.v) && (r.value == Falling <==> today.value < ref.v)
  {
    match DeltaInt(today, ref)
    case Err(e) => Err(e)
    case Ok(d) => Ok(if d < 0 then Falling else if d > 0 then Rising else Steady)
  }

  /** The 7-day curve direction: a move of more than 0.02 points either way. */
  function CurveTrend(today: Option<real>, ref: Field<real>): (r: Result<Direction, TrendError>)
    ensures r.Err? <==> today.None? || ref.JsonNull?
    ensures r.Ok? ==> (r.value == Steady || ref.Present?)
    ensures r.Ok? && ref.Present? ==>
      (r.value == Rising <==> today.value - ref.v > 0.02) && (r.value == Falling <==> today.value - ref.v < -0.02)
  {
    match DeltaReal(today, ref)
    case Err(e) => Err(e)
    case Ok(d) => Ok(Classify(d, 0.02))
  }

  /** The 7-day section: no reference record, or the three directions. */
  datatype SevenDay = NoHistory7 | SevenDay(liquidity: Direction, repo: Direction, curve: Direction)

  /** One line of the 30-day section: an indicator's value then and now. */
  datatype Move = LiquidityMove(fromNl: real, toNl: real) | RepoMove(fromLevel: int, toLevel: int)
                | CurveMove(fromYc: real, toYc: real)

  /** The 30-day section: no reference record, or the lines for the indicators
      present both then and now. */
  datatype ThirtyDay = NoHistory30 | ThirtyDay(moves: seq<Move>)

  /** The arrow of the cycle-shift line. */
  datatype ShiftArrow = Unranked | Up | Down | Level

  /** The cycle-shift line: no comparison possible, or from the reference label to today's. */
  datatype CycleShift = NoComparison | Shift(prevLabel: Field<string>, arrow: ShiftArrow, currLabel: string)

  datatype Sections = Sections(seven: SevenDay, thirty: ThirtyDay, shift: CycleShift)

  /** `ref.get(key)`: absent and null both read as `None`. */
  function Get<T>(f: Field<T>): (r: Option<T>)
    ensures r.Some? <==> f.Present?
  {
    if f.Present? then Some(f.v) else None
  }

  /** The 7-day section for a reference record. */
  function SevenDayFor(today: Snapshot, ref: Record): (r: Result<SevenDay, TrendError>)
    ensures r.Err? <==> today.nlYoy.None? || ref.nlYoy.JsonNull? || today.repoLevel.None? || ref.repoLevel.JsonNull?
                        || today.ycSpread.None? || ref.ycSpread.JsonNull?
    ensures r.Ok? ==> r.value == SevenDay(LiquidityTrend(today.nlYoy, ref.nlYoy).value,
                                          RepoTrend(today.repoLevel, ref.repoLevel).value,
                                          CurveTrend(today.ycSpread, ref.ycSpread).value)
  {
    match LiquidityTrend(today.nlYoy, ref.nlYoy)
    case Err(e) => Err(e)
    case Ok(nl) =>
      match RepoTrend(today.repoLevel, ref.repoLevel)
      case Err(e) => Err(e)
      case Ok(repo) =>
        match CurveTrend(today.ycSpread, ref.ycSpread)
        case Err(e) => Err(e)
        case Ok(yc) => Ok(SevenDay(nl, repo, yc))
  }

  /** The place of a line in the 30-day section: liquidity, then repo, then the curve. */
  function MoveRank(m: Move): nat
  {
    match m
    case LiquidityMove(_, _) => 0
    case RepoMove(_, _) => 1
    case CurveMove(_, _) => 2
  }

  /** The 30-day lines for a reference record, in the report's order. */
  function ThirtyDayMoves(today: Snapshot, ref: Record): (moves: seq<Move>)
    ensures |moves| <= 3
    ensures (exists i :: 0 <= i < |moves| && moves[i].LiquidityMove?) <==> ref.nlYoy.Present? && today.nlYoy.Some?
    ensures (exists i :: 0 <= i < |moves| && moves[i].RepoMove?) <==> ref.repoLevel.Present? && today.repoLevel.Some?
    ensures (exists i :: 0 <= i < |moves| && moves[i].CurveMove?) <==> ref.ycSpread.Present? && today.ycSpread.Some?
    ensures forall i, j :: 0 <= i < j < |moves| ==> MoveRank(moves[i]) < MoveRank(moves[j])
    ensures forall i :: 0 <= i < |moves| && moves[i].LiquidityMove? ==>
      ref.nlYoy.Present? && today.nlYoy.Some? && moves[i] == LiquidityMove(ref.nlYoy.v, today.nlYoy.value)
    ensures forall i :: 0 <= i < |moves| && moves[i].RepoMove? ==>
      ref.repoLevel.Present? && today.repoLevel.Some? && moves[i] == RepoMove(ref.repoLevel.v, today.repoLevel.value)
    ensures forall i :: 0 <= i < |moves| && moves[i].CurveMove? ==>
      ref.ycSpread.Present? && today.ycSpread.Some? && moves[i] == CurveMove(ref.ycSpread.v, today.ycSpread.value)
  {
    var nl := if Get(ref.nlYoy).Some? && today.nlYoy.Some? then [LiquidityMove(ref.nlYoy.v, today.nlYoy.value)] else [];
    var repo := if Get(ref.repoLevel).Some? && today.repoLevel.Some? then [RepoMove(ref.repoLevel.v, today.repoLevel.value)] else [];
    var yc := if Get(ref.ycSpread).Some? && today.ycSpread.Some? then [CurveMove(ref.ycSpread.v, today.ycSpread.value)] else [];
    var moves := nl + repo + yc;
    assert |nl| == 1 ==> moves[0].LiquidityMove?;
    assert |repo| == 1 ==> moves[|nl|].RepoMove?;
    assert |yc| == 1 ==> moves[|nl| + |repo|].CurveMove?;
    moves
  }

  /** The arrow between two stages: unranked unless both are in `_STAGE_ORDER`. */
  function ShiftArrowFor(prevStage: Option<string>, currStage: Option<string>): (a: ShiftArrow)
    ensures var rPrev, rCurr := Dashboard.StageRank(prevStage), Dashboard.StageRank(currStage);
      && (a == Unranked <==> rPrev.None? || rCurr.None?)
      && (a == Up <==> rPrev.Some? && rCurr.Some? && rCurr.value > rPrev.value)
      && (a == Down <==> rPrev.Some? && rCurr.Some? && rCurr.value < rPrev.value)
      && (a == Level ==> prevStage == currStage)
  {
    var rPrev := Dashboard.StageRank(prevStage);
    var rCurr := Dashboard.StageRank(currStage);
    if rPrev.None? || rCurr.None? then Unranked
    else if rCurr.value > rPrev.value then Up
    else if rCurr.value < rPrev.value then Down
    else Level
  }

  /** The cycle-shift line, comparing with the 30-day reference when there is one
      and with the 7-day one otherwise. */
  function CycleShiftFor(today: Snapshot, ref7: Option<Record>, ref30: Option<Record>): (c: CycleShift)
    ensures c.Shift? <==> (ref30.Some? || ref7.Some?) && today.cycleLabel != ""
    ensures c.Shift? ==>
      var prev := if ref30.Some? then ref30.value else ref7.value;
      && c.prevLabel == prev.cycleLabel && c.currLabel == today.cycleLabel
      && c.arrow == ShiftArrowFor(Get(prev.stage), Some(today.stage))
  {
    var prev := if ref30.Some? then ref30 else ref7;
    if prev.Some? && today.cycleLabel != "" then
      Shift(prev.value.cycleLabel, ShiftArrowFor(Get(prev.value.stage), Some(today.stage)), today.cycleLabel)
    else NoComparison
  }

  /** What `build_trend_sections` computes from today's snapshot and the records
      closest to 7 and 30 days ago. */
  function TrendSections(today: Snapshot, ref7: Option<Record>, ref30: Option<Record>): (r: Result<Sections, TrendError>)
    ensures r.Err? <==> ref7.Some? && SevenDayFor(today, ref7.value).Err?
    ensures r.Ok? ==>
      && (r.value.seven == NoHistory7 <==> ref7.None?)
      && (r.value.thirty == NoHistory30 <==> ref30.None?)
      && r.value.shift == CycleShiftFor(today, ref7, ref30)
    ensures r.Ok? && ref7.Some? ==> r.value.seven == SevenDayFor(today, ref7.value).value
    ensures r.Ok? && ref30.Some? ==> r.value.thirty == ThirtyDay(ThirtyDayMoves(today, ref30.value))
  {
    var seven := if ref7.None? then Ok(NoHistory7) else SevenDayFor(today, ref7.value);
    if seven.Err? then Err(seven.error)
    else
      var thirty := if ref30.None? then NoHistory30 else ThirtyDay(ThirtyDayMoves(today, ref30.value));
      Ok(Sections(seven.value, thirty, CycleShiftFor(today, ref7, ref30)))
  }

  /** `build_trend_sections`: both reference lookups, then the three sections. */
  method BuildTrendSections(today: Snapshot, history: seq<Record>) returns (r: Result<Sections, TrendError>)
    ensures r == TrendSections(today, ReferenceEntry(history, today.date - 7), ReferenceEntry(history, today.date - 30))
  {
    var ref7 := FindReferenceEntry(history, today.date, 7);
    var ref30 := FindReferenceEntry(history, today.date, 30);
    var seven := if ref7.None? then Ok(NoHistory7) else SevenDayFor(today, ref7.value);
    if seven.Err? {
      return Err(seven.error);
    }
    var thirty := if ref30.None? then NoHistory30 else ThirtyDay(ThirtyDayMoves(today, ref30.value));
    r := Ok(Sections(seven.value, thirty, CycleShiftFor(today, ref7, ref30)));
  }

  /** On the run's own snapshots the 7-day section fails whenever a reference
      record exists and any of today's indicators is missing, because the stored
      null or today's `None` reaches the subtraction. */
  lemma MissingIndicatorBreaksSevenDay(today: Snapshot, ref7: Option<Record>, ref30: Option<Record>)
    requires ref7.Some?
    requires today.nlYoy.None? || today.repoLevel.None? || today.ycSpread.None?
    ensures TrendSections(today, ref7, ref30) == Err(TypeErrorRaised)
  {
  }

  /** A stored snapshot compared with itself reports no movement at all. */
  lemma SelfComparisonIsSteady(s: Snapshot)
    requires s.nlYoy.Some? && s.repoLevel.Some? && s.ycSpread.Some?
    ensures SevenDayFor(s, ToRecord(s)) == Ok(SevenDay(Steady, Steady, Steady))
  {
  }
}
