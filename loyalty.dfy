/**
 * The loyalty card arithmetic: every seventh visit earns a free coffee.
 * The main menu, the reply to "mark visit" and the "my bonuses" screen each
 * compute the distance to the next free coffee on their own, and not all in
 * the same way.
 */
module Loyalty {

  /** Number of visits in one reward cycle. */
  const CycleLength: nat := 7

  /** A visit count that ends a reward cycle. */
  predicate EndsCycle(count: nat)
  {
    count % CycleLength == 0
  }

  /**
   * Visits still needed for the next free coffee, as the main menu shows it:
   * 7 - v % 7, or 0 when v is a multiple of 7.
   * It is the least k with v + k a multiple of 7.
   */
  function MenuRemaining(visits: nat): (r: nat)
    ensures r < CycleLength
    ensures EndsCycle(visits + r)
    ensures forall n :: visits <= n < visits + r ==> !EndsCycle(n)
    ensures r == 0 <==> EndsCycle(visits)
  {
    if visits % CycleLength != 0 then CycleLength - visits % CycleLength else 0
  }

  /**
   * Whether the main menu adds the "free coffee today" line: exactly on the
   * positive multiples of 7.
   */
  function FreeCoffeeToday(visits: nat): (b: bool)
    ensures b <==> visits > 0 && visits % CycleLength == 0
  {
    MenuRemaining(visits) == 0 && visits > 0
  }

  /**
   * One more visit moves the menu counter one step towards the reward, and a
   * visit that completes a cycle starts the next one at 6.
   */
  lemma MenuRemainingAfterVisit(visits: nat)
    ensures MenuRemaining(visits + 1) ==
      if MenuRemaining(visits) == 0 then CycleLength - 1 else MenuRemaining(visits) - 1
  {
  }

  /** What the reply to "mark visit" says about the new visit count. */
  datatype VisitNote =
    | FreeCoffee                          // "congratulations, free coffee"
    | Counted(total: nat, toFree: nat)    // "visit counted, total, to free coffee"

  /**
   * The note after a visit has been recorded: a free coffee on a multiple of
   * 7, otherwise the total and the distance to the reward, which then agrees
   * with the main menu.
   */
  function MarkVisitNote(count: nat): (n: VisitNote)
    ensures n.FreeCoffee? <==> count % CycleLength == 0
    ensures n.Counted? ==> n.total == count && n.toFree == MenuRemaining(count) && n.toFree > 0
    ensures count > 0 ==> (n.FreeCoffee? <==> FreeCoffeeToday(count))
  {
    if count % CycleLength == 0 then FreeCoffee
    else Counted(count, CycleLength - count % CycleLength)
  }

  /**
   * The distance shown on the "my bonuses" screen: 7 - v % 7 with no zero
   * guard. It agrees with the main menu except on multiples of 7, where it
   * shows a full cycle (7) while the menu shows 0.
   */
  function BonusRemaining(visits: nat): (r: nat)
    ensures 1 <= r <= CycleLength
    ensures EndsCycle(visits + r)
    ensures r == MenuRemaining(visits) <==> visits % CycleLength != 0
    ensures visits % CycleLength == 0 ==> r == CycleLength && MenuRemaining(visits) == 0
  {
    CycleLength - visits % CycleLength
  }
}
