/** The BTC/ETH strategy block of the report: the macro cycle stage and the risk
    score are turned into an arrow, a risk label, a BTC/ETH tilt and an overall
    crypto exposure range, and assembled into a list of report lines. */
module CryptoIntegration {
  import opened Common
  import Dashboard

  const BearStages: set<string> := {"Capitulation Bear", "Early/Mid Bear"}
  const TransitionStages: set<string> := {"Stress Transition", "Transition", "Late Transition"}
  const BullStages: set<string> := {"Early Bull", "Mid Bull", "Volatile Bull", "Late Bull"}

  /** The three stage groups are disjoint and together are exactly the ranked stages. */
  lemma StageGroupsPartition()
    ensures BearStages !! TransitionStages && BearStages !! BullStages && TransitionStages !! BullStages
    ensures forall x :: x in Dashboard.StageOrder <==> x in BearStages + TransitionStages + BullStages
  {
  }

  /** The arrow `_cycle_arrow` shows next to the stage. */
  datatype Arrow = Down | Up | Sideways

  function CycleArrow(stage: Option<string>): (a: Arrow)
    ensures a == Down <==> stage.Some? && stage.value in BearStages
    ensures a == Up <==> stage.Some? && (stage.value in TransitionStages || stage.value in BullStages)
    ensures a == Sideways <==> stage.None? || stage.value !in Dashboard.StageOrder
  {
    StageGroupsPartition();
    if stage.None? then Sideways
    else if stage.value in BearStages then Down
    else if stage.value in TransitionStages then Up
    else if stage.value in BullStages then Up
    else Sideways
  }

  /** The label `_macro_risk_label` gives a risk score. */
  datatype RiskLabel = UnknownRisk | LowRisk | NeutralRisk | HighRisk | ExtremeRisk

  function MacroRiskLabel(score: Option<int>): (l: RiskLabel)
    ensures l == UnknownRisk <==> score.None?
    ensures l == LowRisk <==> score.Some? && score.value < 35
    ensures l == NeutralRisk <==> score.Some? && 35 <= score.value < 60
    ensures l == HighRisk <==> score.Some? && 60 <= score.value < 80
    ensures l == ExtremeRisk <==> score.Some? && score.value >= 80
  {
    match score
    case None => UnknownRisk
    case Some(s) =>
      if s < 35 then LowRisk
      else if s < 60 then NeutralRisk
      else if s < 80 then HighRisk
      else ExtremeRisk
  }

  /** The strategy block's risk label and the risk-score line of the main report
      always agree on the band. */
  lemma MacroRiskLabelMatchesRiskLine(score: Option<int>)
    ensures MacroRiskLabel(score) == UnknownRisk <==> Dashboard.RiskBandOf(score) == Dashboard.NotAvailable
    ensures MacroRiskLabel(score) == LowRisk <==> Dashboard.RiskBandOf(score) == Dashboard.LowRisk
    ensures MacroRiskLabel(score) == NeutralRisk <==> Dashboard.RiskBandOf(score) == Dashboard.NeutralRisk
    ensures MacroRiskLabel(score) == HighRisk <==> Dashboard.RiskBandOf(score) == Dashboard.HighRisk
    ensures MacroRiskLabel(score) == ExtremeRisk <==> Dashboard.RiskBandOf(score) == Dashboard.ExtremeRisk
  {
  }

  /** The (BTC, ETH) advice pair of `_btc_eth_weight_from_macro`; each constructor
      stands for one fixed pair of texts. */
  datatype Tilt = Balanced | DefensiveBtc | EthLeaning | BtcBase | BearLow

  function BtcEthWeight(stage: Option<string>, score: Option<int>): (t: Tilt)
    ensures stage.None? || score.None? ==> t == Balanced
    ensures t == DefensiveBtc <==> stage.Some? && score.Some? && (stage.value == "Late Bull" || score.value >= 80)
    ensures t == EthLeaning <==>
      stage.Some? && score.Some? && stage.value in {"Mid Bull", "Volatile Bull"} && score.value < 70
    ensures t == BtcBase <==>
      (stage.Some? && score.Some? && score.value < 80
       && stage.value in {"Early Bull", "Transition", "Late Transition", "Stress Transition"})
    ensures t == BearLow <==> stage.Some? && score.Some? && stage.value in BearStages && score.value < 80
  {
    if stage.None? || score.None? then Balanced
    else if stage.value == "Late Bull" || score.value >= 80 then DefensiveBtc
    else if stage.value in {"Mid Bull", "Volatile Bull"} && score.value < 70 then EthLeaning
    else if stage.value in {"Early Bull", "Transition", "Late Transition", "Stress Transition"} then BtcBase
    else if stage.value in BearStages then BearLow
    else Balanced
  }

  /** A Mid or Volatile Bull with a score from 70 up to 80 gets no branch of its own
      and falls through to the balanced default. */
  lemma MidBullHighScoreIsBalanced(stage: string, score: int)
    requires stage in {"Mid Bull", "Volatile Bull"} && 70 <= score < 80
    ensures BtcEthWeight(Some(stage), Some(score)) == Balanced
  {
  }

  /** The overall crypto exposure range of `_overall_exposure_advice`. */
  datatype Exposure =
    | UndeterminedThirtyToFifty | TenToThirty | TwentyToForty | ThirtyToFifty
    | FiftyToSeventy | SeventyToNinety | ReduceToFortySixty | HoldFortyToSixty

  function OverallExposure(stage: Option<string>, score: Option<int>): (e: Exposure)
    ensures e == UndeterminedThirtyToFifty <==> stage.None? || score.None?
    ensures e == TenToThirty <==> stage.Some? && score.Some? && stage.value in BearStages
    ensures e == TwentyToForty <==> stage.Some? && score.Some? && stage.value == "Stress Transition"
    ensures e == ThirtyToFifty <==> stage.Some? && score.Some? && stage.value in {"Transition", "Late Transition"}
    ensures e == FiftyToSeventy <==> stage.Some? && score.Some? && stage.value == "Early Bull"
    ensures e == SeventyToNinety <==>
      stage.Some? && score.Some? && stage.value in {"Mid Bull", "Volatile Bull"} && score.value < 70
    ensures e == ReduceToFortySixty <==>
      (stage.Some? && score.Some? &&
       (stage.value == "Late Bull" || (stage.value !in BearStages + TransitionStages + {"Early Bull"} && score.value >= 70)))
    ensures e == HoldFortyToSixty <==> stage.Some? && score.Some? && stage.value !in Dashboard.StageOrder && score.value < 70
  {
    StageGroupsPartition();
    if stage.None? || score.None? then UndeterminedThirtyToFifty
    else if stage.value in BearStages then TenToThirty
    else if stage.value == "Stress Transition" then TwentyToForty
    else if stage.value in {"Transition", "Late Transition"} then ThirtyToFifty
    else if stage.value == "Early Bull" then FiftyToSeventy
    else if stage.value in {"Mid Bull", "Volatile Bull"} && score.value < 70 then SeventyToNinety
    else if stage.value == "Late Bull" || score.value >= 70 then ReduceToFortySixty
    else HoldFortyToSixty
  }

  /** The `macro_context` dict the run hands to the strategy block. */
  datatype MacroContext = MacroContext(
    nlYoy: Option<real>, repoLevel: Option<int>, ycSpread: Option<real>,
    stage: Option<string>, cycleLabel: Option<string>, riskScore: Option<int>, escapeComment: Option<string>)

  /** One line of the strategy block; the constructors without text stand for fixed lines. */
  datatype Line =
    | Header | CycleLine(cycleLabel: string, arrow: Arrow) | CycleUnavailable
    | RiskLine(score: int, riskLabel: RiskLabel) | RiskUnavailable
    | EscapeLine(comment: string) | Spacer
    | ExposureLine(exposure: Exposure) | BtcLine(btc: Tilt) | EthLine(eth: Tilt)
    | NoteIntro | NoteFollowUp

  /** Python truthiness of an optional string: present and non-empty. */
  predicate Truthy(s: Option<string>)
  {
    s.Some? && s.value != ""
  }

  /** The opening of the strategy block: the header, the cycle line and the risk line. */
  function Opening(ctx: MacroContext): seq<Line>
  {
    [Header,
     if Truthy(ctx.cycleLabel) then CycleLine(ctx.cycleLabel.value, CycleArrow(ctx.stage)) else CycleUnavailable,
     if ctx.riskScore.Some? then RiskLine(ctx.riskScore.value, MacroRiskLabel(ctx.riskScore)) else RiskUnavailable]
  }

  /** The escape comment, shown only when it is non-empty. */
  function EscapePart(ctx: MacroContext): seq<Line>
  {
    if Truthy(ctx.escapeComment) then [EscapeLine(ctx.escapeComment.value)] else []
  }

  /** The close of the block: exposure, BTC and ETH advice, and the fixed notes. */
  function Closing(ctx: MacroContext): seq<Line>
  {
    [Spacer, ExposureLine(OverallExposure(ctx.stage, ctx.riskScore)), Spacer,
     BtcLine(BtcEthWeight(ctx.stage, ctx.riskScore)), EthLine(BtcEthWeight(ctx.stage, ctx.riskScore)),
     Spacer, NoteIntro, NoteFollowUp]
  }

  /** The lines of the strategy block, in order. */
  function SectionLines(ctx: MacroContext): (lines: seq<Line>)
    ensures |lines| == if Truthy(ctx.escapeComment) then 12 else 11
    ensures lines[..3] == Opening(ctx) && lines[|lines| - 8..] == Closing(ctx)
  {
    Opening(ctx) + EscapePart(ctx) + Closing(ctx)
  }

  /** `build_btc_eth_section`: the block assembled line by line. */
  method BuildBtcEthSection(ctx: MacroContext) returns (lines: seq<Line>)
    ensures lines == SectionLines(ctx)
  {
    var arrow := CycleArrow(ctx.stage);
    var riskLabel := MacroRiskLabel(ctx.riskScore);
    var tilt := BtcEthWeight(ctx.stage, ctx.riskScore);
    var exposure := OverallExposure(ctx.stage, ctx.riskScore);
    lines := [Header];
    if Truthy(ctx.cycleLabel) {
      lines := lines + [CycleLine(ctx.cycleLabel.value, arrow)];
    } else {
      lines := lines + [CycleUnavailable];
    }
    if ctx.riskScore.Some? {
      lines := lines + [RiskLine(ctx.riskScore.value, riskLabel)];
    } else {
      lines := lines + [RiskUnavailable];
    }
    assert lines == Opening(ctx);
    if Truthy(ctx.escapeComment) {
      lines := lines + [EscapeLine(ctx.escapeComment.value)];
    }
    assert lines == Opening(ctx) + EscapePart(ctx);
    // The closing lines are gathered first and then appended in one step.
    var tail := [Spacer];
    tail := tail + [ExposureLine(exposure)];
    tail := tail + [Spacer];
    tail := tail + [BtcLine(tilt)];
    tail := tail + [EthLine(tilt)];
    tail := tail + [Spacer];
    tail := tail + [NoteIntro];
    tail := tail + [NoteFollowUp];
    assert tail == Closing(ctx);
    lines := lines + tail;
  }

  /** The block opens with the header, shows the escape comment only when there is
      one, says "N/A" exactly when there is no score, and closes with the two fixed
      explanation lines, after the exposure range and the BTC and ETH advice. */
  lemma SectionLinesShape(ctx: MacroContext)
    ensures var lines := SectionLines(ctx);
      && |lines| == (if Truthy(ctx.escapeComment) then 12 else 11)
      && lines[0] == Header
      && (RiskUnavailable in lines <==> ctx.riskScore.None?)
      && (ctx.riskScore.Some? ==> lines[2] == RiskLine(ctx.riskScore.value, MacroRiskLabel(ctx.riskScore)))
      && ((exists i :: 0 <= i < |lines| && lines[i].EscapeLine?) <==> Truthy(ctx.escapeComment))
      && (Truthy(ctx.escapeComment) ==> lines[3] == EscapeLine(ctx.escapeComment.value))
      && lines[|lines| - 2..] == [NoteIntro, NoteFollowUp]
      && ExposureLine(OverallExposure(ctx.stage, ctx.riskScore)) in lines
      && BtcLine(BtcEthWeight(ctx.stage, ctx.riskScore)) in lines
  {
    var lines := SectionLines(ctx);
    if Truthy(ctx.escapeComment) {
      assert lines[3].EscapeLine?;
    }
    assert lines[|lines| - 7] == ExposureLine(OverallExposure(ctx.stage, ctx.riskScore));
    assert lines[|lines| - 5] == BtcLine(BtcEthWeight(ctx.stage, ctx.riskScore));
  }

  /** The `macro_context` the run builds from the three indicators (main.py). */
  function MacroContextOf(nlYoy: Option<real>, repoLevel: Option<int>, ycSpread: Option<real>): (ctx: MacroContext)
    ensures ctx.stage.Some? && ctx.cycleLabel.Some? && Truthy(ctx.escapeComment)
  {
    var stage := Dashboard.ClassifyCryptoCycle(nlYoy, repoLevel, ycSpread);
    MacroContext(nlYoy, repoLevel, ycSpread, Some(stage.Name()), Some(stage.Label()),
      Dashboard.ComputeMarketRiskScore(nlYoy, repoLevel, ycSpread),
      Some(Dashboard.EscapeText(Dashboard.EscapeTopSignal(nlYoy, repoLevel, ycSpread))))
  }

  /** Along the run's own pipeline the stage is "Unknown" exactly when there is no
      score, a Mid or Volatile Bull always scores below 70, and so: the balanced
      tilt is given only for "Unknown", the defensive one only for Late Bull, the
      ETH-leaning tilt and the 70-90% range go to every Mid or Volatile Bull, and
      the final 40-60% fallback of `_overall_exposure_advice` is never reached. */
  lemma PipelineAdvice(nlYoy: Option<real>, repoLevel: Option<int>, ycSpread: Option<real>)
    ensures var ctx := MacroContextOf(nlYoy, repoLevel, ycSpread);
      var stage := Dashboard.ClassifyCryptoCycle(nlYoy, repoLevel, ycSpread);
      && (stage == Dashboard.Unknown <==> ctx.riskScore.None?)
      && (BtcEthWeight(ctx.stage, ctx.riskScore) == Balanced <==> stage == Dashboard.Unknown)
      && (BtcEthWeight(ctx.stage, ctx.riskScore) == DefensiveBtc <==> stage == Dashboard.LateBull)
      && (stage in {Dashboard.MidBull, Dashboard.VolatileBull} ==>
            BtcEthWeight(ctx.stage, ctx.riskScore) == EthLeaning
            && OverallExposure(ctx.stage, ctx.riskScore) == SeventyToNinety)
      && OverallExposure(ctx.stage, ctx.riskScore) != HoldFortyToSixty
  {
    var stage := Dashboard.ClassifyCryptoCycle(nlYoy, repoLevel, ycSpread);
    if stage != Dashboard.Unknown {
      Dashboard.ClassifyBands(nlYoy.value, repoLevel.value, ycSpread.value);
      assert stage.Name() in Dashboard.StageOrder;
    }
  }
}
