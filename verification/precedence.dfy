/**
 The eight IP precedence levels and the fixed weight each one is given.
 */
module Precedence {
  import WfqTypes

  datatype IpPrecedence = P0 | P1 | P2 | P3 | P4 | P5 | P6 | P7 {

    /** Position in the derived ordering, P0 first. */
    function Level(): (n: nat)
      ensures n < 8
    {
      match this
      case P0 => 0
      case P1 => 1
      case P2 => 2
      case P3 => 3
      case P4 => 4
      case P5 => 5
      case P6 => 6
      case P7 => 7
    }

    /** The weight table. Each entry is 32768 divided by the level's rank
        (level + 1), rounded down to a multiple of 8, so every weight is
        non-zero and the conversion to a non-zero weight cannot fail. */
    function Weight(): (w: WfqTypes.Weight)
      ensures 4096 <= w <= 32768
      ensures w == 8 * (4096 / (Level() + 1))
    {
      match this
      case P0 => 32768
      case P1 => 16384
      case P2 => 10920
      case P3 => 8192
      case P4 => 6552
      case P5 => 5456
      case P6 => 4680
      case P7 => 4096
    }
  }

  /** A lower level always gets a strictly larger weight. */
  lemma WeightFallsWithLevel(p: IpPrecedence, q: IpPrecedence)
    requires p.Level() < q.Level()
    ensures p.Weight() > q.Weight()
  {
  }
}
