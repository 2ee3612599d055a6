/** The Fed balance-sheet monitor: its status comes from `Series.GetStatus`;
    what is its own is how the year-over-year change is read. */
module FedBsMonitor {
  import opened Common

  /** The reading of the balance-sheet change. */
  datatype Comment = Unavailable | Expansion | Flat | Contraction

  /** `build_fed_bs_text`'s comment. */
  function CommentFor(yoy: Option<real>): (c: Comment)
    ensures c == Unavailable <==> yoy.None?
    ensures c == Expansion <==> yoy.Some? && yoy.value > 5.0
    ensures c == Flat <==> yoy.Some? && -2.0 < yoy.value <= 5.0
    ensures c == Contraction <==> yoy.Some? && yoy.value <= -2.0
  {
    match yoy
    case None => Unavailable
    case Some(y) =>
      if y > 5.0 then Expansion
      else if y > -2.0 then Flat
      else Contraction
  }

  /** Position of a reading on the scale from quantitative tightening to easing. */
  function Easing(c: Comment): nat
  {
    match c
    case Unavailable => 0
    case Contraction => 0
    case Flat => 1
    case Expansion => 2
  }

  /** Faster balance-sheet growth never reads as tighter. */
  lemma CommentMonotone(y1: real, y2: real)
    requires y1 <= y2
    ensures Easing(CommentFor(Some(y1))) <= Easing(CommentFor(Some(y2)))
  {
  }
}
