/** The overview cards: the ROAS figure is coloured by band. */
module KPICards {
  import opened Wrappers

  /** The field of the account overview the ROAS card colours. */
  datatype Overview = Overview(roas: real)

  datatype RoasColor = RoasGreen | RoasYellow | RoasRed

  /** `roas >= 2 ? green : (roas < 1 ? red : yellow)`. */
  function ColorOf(roas: real): (c: RoasColor)
    ensures c == RoasGreen <==> roas >= 2.0
    ensures c == RoasRed <==> roas < 1.0
    ensures c == RoasYellow <==> 1.0 <= roas < 2.0
  {
    if roas >= 2.0 then RoasGreen else if roas < 1.0 then RoasRed else RoasYellow
  }

  /** The ROAS card's colour, or `None` when there is no overview and nothing renders. */
  function RoasCard(overview: Option<Overview>): (c: Option<RoasColor>)
    ensures c.None? <==> overview.None?
    ensures c.Some? ==> c.value == ColorOf(overview.value.roas)
  {
    match overview
    case None => None
    case Some(o) => Some(ColorOf(o.roas))
  }

  function Goodness(c: RoasColor): nat {
    match c
    case RoasRed => 0
    case RoasYellow => 1
    case RoasGreen => 2
  }

  /** A higher ROAS never gets a worse colour. */
  lemma ColorMonotone(x: real, y: real)
    requires x <= y
    ensures Goodness(ColorOf(x)) <= Goodness(ColorOf(y))
  {
  }
}
