/** The rule layer of the dashboard job: from the net-liquidity year-over-year
    change, the repo stress level and the 2Y-10Y spread (each possibly missing)
    it derives the crypto cycle stage, the exit ("escape top") signal, a 0-100
    market risk score, the one-line summary and the rule-based alerts. */
module Dashboard {
  import opened Common
  import RepoLiquidity

  /** The crypto cycle stages `classify_crypto_cycle` can return. */
  datatype Stage =
    | CapitulationBear | EarlyMidBear | StressTransition | Transition | LateTransition
    | EarlyBull | MidBull | VolatileBull | LateBull | Unknown
  {
    /** The `"stage"` string the report and the history file carry. */
    function Name(): string
    {
      match this
      case CapitulationBear => "Capitulation Bear"
      case EarlyMidBear => "Early/Mid Bear"
      case StressTransition => "Stress Transition"
      case Transition => "Transition"
      case LateTransition => "Late Transition"
      case EarlyBull => "Early Bull"
      case MidBull => "Mid Bull"
      case VolatileBull => "Volatile Bull"
      case LateBull => "Late Bull"
      case Unknown => "Unknown"
    }

    /** The `"label"` string shown to the reader. */
    function Label(): string
    {
      match this
      case CapitulationBear => "崩盤式熊市"
      case EarlyMidBear => "熊市階段"
      case StressTransition => "壓力型轉折期"
      case Transition => "轉折期（築底）"
      case LateTransition => "轉牛前夕"
      case EarlyBull => "早期牛市"
      case MidBull => "主升段牛市"
      case VolatileBull => "震盪型牛市"
      case LateBull => "末升段牛市"
      case Unknown => "週期不明"
    }
  }

  /** `_STAGE_ORDER`: the nine stages from deepest bear to latest bull. */
  const StageOrder: seq<string> := [
    "Capitulation Bear", "Early/Mid Bear", "Stress Transition", "Transition", "Late Transition",
    "Early Bull", "Mid Bull", "Volatile Bull", "Late Bull"]

  /** `list.index`: the first position holding `x`, `None` where Python raises `ValueError`. */
  function IndexOf<T(==)>(s: seq<T>, x: T): (r: Option<nat>)
    ensures r.None? <==> x !in s
    ensures r.Some? ==> r.value < |s| && s[r.value] == x && forall j :: 0 <= j < r.value ==> s[j] != x
  {
    if s == [] then None
    else if s[0] == x then Some(0)
    else
      match IndexOf(s[1..], x)
      case None => None
      case Some(i) => Some(i + 1)
  }

  /** `get_stage_rank`: the position of a stage name in `_STAGE_ORDER`, `None` for
      anything else (including a missing stage). */
  function StageRank(stage: Option<string>): (r: Option<nat>)
    ensures r.None? <==> stage.None? || stage.value !in StageOrder
    ensures r.Some? ==> r.value < 9 && StageOrder[r.value] == stage.value
  {
    if stage.None? then None else IndexOf(StageOrder, stage.value)
  }

  /** Position of a stage in the bear-to-bull order. */
  function Ordinal(s: Stage): nat
  {
    match s
    case CapitulationBear => 0
    case EarlyMidBear => 1
    case StressTransition => 2
    case Transition => 3
    case LateTransition => 4
    case EarlyBull => 5
    case MidBull => 6
    case VolatileBull => 7
    case LateBull => 8
    case Unknown => 9
  }

  /** Every classified stage's name is ranked at its place in the order; "Unknown" is not ranked. */
  lemma StageRankOfName(s: Stage)
    ensures s != Unknown ==> StageRank(Some(s.Name())) == Some(Ordinal(s))
    ensures s == Unknown ==> StageRank(Some(s.Name())).None?
  {
  }

  /** `classify_crypto_cycle`'s stage. */
  function ClassifyCryptoCycle(nlYoy: Option<real>, repoLevel: Option<int>, ycSpread: Option<real>): (s: Stage)
    ensures s == Unknown <==> nlYoy.None? || repoLevel.None? || ycSpread.None?
    ensures s != Unknown ==> s.Name() in StageOrder
    ensures s == LateBull <==> nlYoy.Some? && repoLevel.Some? && ycSpread.Some? && nlYoy.value > 15.0
  {
    if nlYoy.None? || repoLevel.None? || ycSpread.None? then Unknown
    else
      var nl, repo, yc := nlYoy.value, repoLevel.value, ycSpread.value;
      if nl <= -5.0 then
        (if repo >= 3 then CapitulationBear else EarlyMidBear)
      else if -5.0 < nl <= 0.0 then
        (if repo <= 2 then Transition else StressTransition)
      else if 0.0 < nl <= 5.0 then
        (if yc < 0.0 then EarlyBull else LateTransition)
      else if 5.0 < nl <= 15.0 then
        (if repo <= 2 then MidBull else VolatileBull)
      else if nl > 15.0 then LateBull
      else Unknown
  }

  /** The bands of `classify_crypto_cycle` spelled out per stage, once all three inputs are present. */
  lemma ClassifyBands(nl: real, repo: int, yc: real)
    ensures var s := ClassifyCryptoCycle(Some(nl), Some(repo), Some(yc));
      && (s == CapitulationBear <==> nl <= -5.0 && repo >= 3)
      && (s == EarlyMidBear <==> nl <= -5.0 && repo < 3)
      && (s == Transition <==> -5.0 < nl <= 0.0 && repo <= 2)
      && (s == StressTransition <==> -5.0 < nl <= 0.0 && repo > 2)
      && (s == EarlyBull <==> 0.0 < nl <= 5.0 && yc < 0.0)
      && (s == LateTransition <==> 0.0 < nl <= 5.0 && yc >= 0.0)
      && (s == MidBull <==> 5.0 < nl <= 15.0 && repo <= 2)
      && (s == VolatileBull <==> 5.0 < nl <= 15.0 && repo > 2)
  {
  }

  /** For a fixed repo level and spread, more liquidity never moves the stage toward the bear end. */
  lemma ClassifyMonotoneInLiquidity(nl1: real, nl2: real, repo: int, yc: real)
    requires nl1 <= nl2
    ensures Ordinal(ClassifyCryptoCycle(Some(nl1), Some(repo), Some(yc)))
         <= Ordinal(ClassifyCryptoCycle(Some(nl2), Some(repo), Some(yc)))
  {
    ClassifyBands(nl1, repo, yc);
    ClassifyBands(nl2, repo, yc);
  }

  /** The outcome of `escape_top_signal`. */
  datatype Escape = InsufficientSignal | Exit | Watch | NoExit

  /** A stand-in for the report line of each outcome; what matters downstream is
      only that every outcome has a non-empty line. */
  function EscapeText(e: Escape): (t: string)
    ensures t != ""
  {
    match e
    case InsufficientSignal => "escape top: insufficient signal"
    case Exit => "escape top: exit"
    case Watch => "escape top: watch"
    case NoExit => "escape top: no exit"
  }

  /** How many of the four top-risk conditions of `escape_top_signal` hold.
      Overheated liquidity (YoY > 10) and a closed tap (YoY < 2) never fire
      together, so at most three are ever raised. */
  function EscapeFlags(nl: real, repo: int, yc: real): (n: nat)
    ensures n <= 3
    ensures n == 0 <==> 2.0 <= nl <= 10.0 && repo < 3 && yc <= -0.1
  {
    (if nl > 10.0 then 1 else 0)
    + (if repo >= 3 then 1 else 0)
    + (if yc > -0.1 then 1 else 0)
    + (if nl < 2.0 then 1 else 0)
  }

  /** `escape_top_signal`. */
  function EscapeTopSignal(nlYoy: Option<real>, repoLevel: Option<int>, ycSpread: Option<real>): (e: Escape)
    ensures e == InsufficientSignal <==> nlYoy.None? || repoLevel.None? || ycSpread.None?
    ensures e != InsufficientSignal ==>
      var flags := EscapeFlags(nlYoy.value, repoLevel.value, ycSpread.value);
      && (e == Exit <==> flags >= 2)
      && (e == Watch <==> flags == 1)
      && (e == NoExit <==> flags == 0)
  {
    if nlYoy.None? || repoLevel.None? || ycSpread.None? then InsufficientSignal
    else
      var flags := EscapeFlags(nlYoy.value, repoLevel.value, ycSpread.value);
      if flags >= 2 then Exit
      else if flags == 1 then Watch
      else NoExit
  }

  /** With all inputs present, no exit is signalled exactly when liquidity grows
      moderately (2 to 10 percent), repo stress is below level 3 and the curve
      is still inverted by at least 0.1. */
  lemma NoExitExactly(nl: real, repo: int, yc: real)
    ensures EscapeTopSignal(Some(nl), Some(repo), Some(yc)) == NoExit
        <==> 2.0 <= nl <= 10.0 && repo < 3 && yc <= -0.1
  {
  }

  /** The liquidity component of `compute_market_risk_score`. */
  function LiquidityRisk(nl: real): (risk: int)
    ensures 30 <= risk <= 80
    ensures risk == 80 <==> nl <= -10.0
    ensures risk == 65 <==> -10.0 < nl <= -5.0
    ensures risk == 55 <==> -5.0 < nl <= 0.0
    ensures risk == 40 <==> 0.0 < nl <= 5.0
    ensures risk == 30 <==> 5.0 < nl <= 15.0
    ensures risk == 60 <==> nl > 15.0
  {
    if nl <= -10.0 then 80
    else if nl <= -5.0 then 65
    else if nl <= 0.0 then 55
    else if nl <= 5.0 then 40
    else if nl <= 15.0 then 30
    else 60
  }

  /** The repo component of `compute_market_risk_score`; it still has a value for level 2. */
  function RepoRisk(level: int): (risk: int)
    ensures 20 <= risk <= 80
    ensures risk == 20 <==> level <= 0
    ensures risk == 30 <==> level == 1
    ensures risk == 45 <==> level == 2
    ensures risk == 65 <==> level == 3
    ensures risk == 80 <==> level >= 4
  {
    if level <= 0 then 20
    else if level == 1 then 30
    else if level == 2 then 45
    else if level == 3 then 65
    else 80
  }

  /** The yield-curve component of `compute_market_risk_score`. */
  function CurveRisk(yc: real): (risk: int)
    ensures 50 <= risk <= 75
    ensures risk == 50 <==> yc < -0.5
    ensures risk == 55 <==> -0.5 <= yc < 0.0
    ensures risk == 65 <==> 0.0 <= yc < 0.5
    ensures risk == 75 <==> yc >= 0.5
  {
    if yc < -0.5 then 50
    else if yc < 0.0 then 55
    else if yc < 0.5 then 65
    else 75
  }

  /** The shape of the three components: liquidity risk falls as liquidity grows
      up to 15 percent and jumps back up when it overheats; repo risk rises with
      the stress level; curve risk rises as the spread widens. */
  lemma RiskComponentsShape(nl1: real, nl2: real, l1: int, l2: int, yc1: real, yc2: real)
    ensures nl1 <= nl2 <= 15.0 ==> LiquidityRisk(nl2) <= LiquidityRisk(nl1)
    ensures nl2 > 15.0 && nl1 > 0.0 ==> LiquidityRisk(nl1) <= LiquidityRisk(nl2)
    ensures l1 <= l2 ==> RepoRisk(l1) <= RepoRisk(l2)
    ensures yc1 <= yc2 ==> CurveRisk(yc1) <= CurveRisk(yc2)
  {
  }

  /** `int(round(total / 3))` for a non-negative integer total: a third never ends
      in exactly .5, so Python's round-half-to-even is plain rounding to nearest. */
  function RoundThird(total: nat): (r: int)
    ensures 3 * r - 1 <= total <= 3 * r + 1
  {
    (total + 1) / 3
  }

  /** `compute_market_risk_score`. */
  function ComputeMarketRiskScore(nlYoy: Option<real>, repoLevel: Option<int>, ycSpread: Option<real>): (score: Option<int>)
    ensures score.None? <==> nlYoy.None? || repoLevel.None? || ycSpread.None?
    ensures score.Some? ==>
      var total := LiquidityRisk(nlYoy.value) + RepoRisk(repoLevel.value) + CurveRisk(ycSpread.value);
      && 3 * score.value - 1 <= total <= 3 * score.value + 1
      && 33 <= score.value <= 78
  {
    if nlYoy.None? || repoLevel.None? || ycSpread.None? then None
    else
      var total := LiquidityRisk(nlYoy.value) + RepoRisk(repoLevel.value) + CurveRisk(ycSpread.value);
      var score := RoundThird(total);
      Some(if score < 0 then 0 else if score > 100 then 100 else score)
  }

  /** The risk band of `build_risk_score_line`. */
  datatype RiskBand = NotAvailable | LowRisk | NeutralRisk | HighRisk | ExtremeRisk

  function RiskBandOf(score: Option<int>): (b: RiskBand)
    ensures b == NotAvailable <==> score.None?
    ensures b == LowRisk <==> score.Some? && score.value < 35
    ensures b == NeutralRisk <==> score.Some? && 35 <= score.value < 60
    ensures b == HighRisk <==> score.Some? && 60 <= score.value < 80
    ensures b == ExtremeRisk <==> score.Some? && score.value >= 80
  {
    match score
    case None => NotAvailable
    case Some(s) =>
      if s < 35 then LowRisk
      else if s < 60 then NeutralRisk
      else if s < 80 then HighRisk
      else ExtremeRisk
  }

  /** A computed score never reaches the extreme band. */
  lemma NoExtremeRisk(nlYoy: Option<real>, repoLevel: Option<int>, ycSpread: Option<real>)
    ensures RiskBandOf(ComputeMarketRiskScore(nlYoy, repoLevel, ycSpread)) != ExtremeRisk
  {
  }

  /** The three phrases of `build_dynamic_summary`. */
  datatype LiquidityPhrase = LiquidityUnclear | LiquidityLoose | LiquidityNeutral | LiquidityTight
  datatype StressPhrase = StressUnclear | StressLow | StressSlightlyUp | StressRising | StressHigh
  datatype CyclePhrase = CycleUnclear | CycleDeepInversion | CycleWeak | CycleRecovering | CycleStrong
  datatype Summary = Summary(liquidity: LiquidityPhrase, stress: StressPhrase, cycle: CyclePhrase)

  /** `build_dynamic_summary`. */
  function DynamicSummary(nlYoy: Option<real>, repoLevel: Option<int>, ycSpread: Option<real>): (s: Summary)
    ensures s.liquidity == LiquidityUnclear <==> nlYoy.None?
    ensures s.liquidity == LiquidityLoose <==> nlYoy.Some? && nlYoy.value > 5.0
    ensures s.liquidity == LiquidityNeutral <==> nlYoy.Some? && -5.0 < nlYoy.value <= 5.0
    ensures s.liquidity == LiquidityTight <==> nlYoy.Some? && nlYoy.value <= -5.0
    ensures s.stress == StressUnclear <==> repoLevel.None?
    ensures s.stress == StressLow <==> repoLevel.Some? && repoLevel.value <= 1
    ensures s.stress == StressSlightlyUp <==> repoLevel == Some(2)
    ensures s.stress == StressRising <==> repoLevel == Some(3)
    ensures s.stress == StressHigh <==> repoLevel.Some? && repoLevel.value >= 4
    ensures s.cycle == CycleUnclear <==> ycSpread.None?
    ensures s.cycle == CycleDeepInversion <==> ycSpread.Some? && ycSpread.value < -0.5
    ensures s.cycle == CycleWeak <==> ycSpread.Some? && -0.5 <= ycSpread.value < 0.0
    ensures s.cycle == CycleRecovering <==> ycSpread.Some? && 0.0 <= ycSpread.value < 0.5
    ensures s.cycle == CycleStrong <==> ycSpread.Some? && ycSpread.value >= 0.5
  {
    var liquidity :=
      match nlYoy
      case None => LiquidityUnclear
      case Some(nl) => if nl > 5.0 then LiquidityLoose else if nl > -5.0 then LiquidityNeutral else LiquidityTight;
    var stress :=
      match repoLevel
      case None => StressUnclear
      case Some(level) =>
        if level <= 1 then StressLow
        else if level == 2 then StressSlightlyUp
        else if level == 3 then StressRising
        else StressHigh;
    var cycle :=
      match ycSpread
      case None => CycleUnclear
      case Some(yc) =>
        if yc < -0.5 then CycleDeepInversion
        else if yc < 0.0 then CycleWeak
        else if yc < 0.5 then CycleRecovering
        else CycleStrong;
    Summary(liquidity, stress, cycle)
  }

  /** With the level coming from `assess_repo_stress`, the "slightly up" phrase
      for level 2 never appears. */
  lemma NoLevelTwoPhrase(nlYoy: Option<real>, repoValue: real, ycSpread: Option<real>)
    ensures DynamicSummary(nlYoy, Some(RepoLiquidity.AssessRepoStress(repoValue) as int), ycSpread).stress != StressSlightlyUp
  {
  }

  /** The rule-based alerts of the run: a pivot alert and a QT-end alert. */
  datatype Alert = PivotAlert | QtEndAlert

  /** The `warnings` list built at the end of the run, in the order it is built. */
  function RuleAlerts(nlYoy: Option<real>, repoLevel: Option<int>): (alerts: seq<Alert>)
    ensures PivotAlert in alerts <==> repoLevel.Some? && repoLevel.value >= 3 && nlYoy.Some? && nlYoy.value > 0.0
    ensures QtEndAlert in alerts <==> repoLevel.Some? && repoLevel.value >= 4
    ensures |alerts| <= 2 && (|alerts| == 2 ==> alerts == [PivotAlert, QtEndAlert])
  {
    var pivot := if repoLevel.Some? && repoLevel.value >= 3 && nlYoy.Some? && nlYoy.value > 0.0 then [PivotAlert] else [];
    var qtEnd := if repoLevel.Some? && repoLevel.value >= 4 then [QtEndAlert] else [];
    pivot + qtEnd
  }
}
