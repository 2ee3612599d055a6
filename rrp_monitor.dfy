/** The reverse-repo monitor: its status comes from `Series.GetStatus`; what is
    its own is how the year-over-year change is read. */
module RrpMonitor {
  import opened Common

  /** The reading of the RRP balance change, from most to least liquidity-friendly. */
  datatype Comment = Unavailable | StrongRelease | MildRelease | Neutral | Tight

  /** `build_rrp_text`'s comment: a falling RRP balance releases cash into the market. */
  function CommentFor(yoy: Option<real>): (c: Comment)
    ensures c == Unavailable <==> yoy.None?
    ensures c == StrongRelease <==> yoy.Some? && yoy.value < -70.0
    ensures c == MildRelease <==> yoy.Some? && -70.0 <= yoy.value < 0.0
    ensures c == Neutral <==> yoy.Some? && 0.0 <= yoy.value <= 50.0
    ensures c == Tight <==> yoy.Some? && yoy.value > 50.0
  {
    match yoy
    case None => Unavailable
    case Some(y) =>
      if y < -70.0 then StrongRelease
      else if y < 0.0 then MildRelease
      else if y > 50.0 then Tight
      else Neutral
  }

  /** Position of a reading on the scale from releasing to absorbing liquidity. */
  function Tightness(c: Comment): nat
  {
    match c
    case Unavailable => 0
    case StrongRelease => 0
    case MildRelease => 1
    case Neutral => 2
    case Tight => 3
  }

  /** A larger RRP increase never reads as more liquidity-friendly. */
  lemma CommentMonotone(y1: real, y2: real)
    requires y1 <= y2
    ensures Tightness(CommentFor(Some(y1))) <= Tightness(CommentFor(Some(y2)))
  {
  }
}
