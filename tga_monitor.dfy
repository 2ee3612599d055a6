/** The Treasury General Account monitor: its status comes from `Series.GetStatus`;
    what is its own is how the year-over-year change is read. */
module TgaMonitor {
  import opened Common

  /** The reading of the TGA balance change. */
  datatype Comment = Unavailable | StrongDrain | MildDrain | Injection | Neutral

  /** `build_tga_text`'s comment, checked as ">20, >0, <-20, otherwise": a rising TGA
      drains cash from the banking system. */
  function CommentFor(yoy: Option<real>): (c: Comment)
    ensures c == Unavailable <==> yoy.None?
    ensures c == StrongDrain <==> yoy.Some? && yoy.value > 20.0
    ensures c == MildDrain <==> yoy.Some? && 0.0 < yoy.value <= 20.0
    ensures c == Injection <==> yoy.Some? && yoy.value < -20.0
    ensures c == Neutral <==> yoy.Some? && -20.0 <= yoy.value <= 0.0
  {
    match yoy
    case None => Unavailable
    case Some(y) =>
      if y > 20.0 then StrongDrain
      else if y > 0.0 then MildDrain
      else if y < -20.0 then Injection
      else Neutral
  }

  /** Position of a reading on the scale from injecting to draining liquidity. */
  function Drain(c: Comment): nat
  {
    match c
    case Unavailable => 0
    case Injection => 0
    case Neutral => 1
    case MildDrain => 2
    case StrongDrain => 3
  }

  /** A larger TGA increase never reads as less of a drain. */
  lemma CommentMonotone(y1: real, y2: real)
    requires y1 <= y2
    ensures Drain(CommentFor(Some(y1))) <= Drain(CommentFor(Some(y2)))
  {
  }
}
