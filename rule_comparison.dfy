/**
 * The test-mode rule against the well-to-tank rule: with no restart delay
 * they send the same pump command for every switch pair, including the
 * contradictory one (low open, high closed), which the well controller
 * calls a switch fault and the test loop treats as a full tank.
 */
module RuleComparison {
  import opened Options
  import WellTank
  import PumpTest

  function RelayValue(on: bool): string {
    if on then "1" else "0"
  }

  lemma TestRuleMatchesWellRule(bajo: bool, alto: bool)
    ensures PumpTest.CycleCommand(bajo, alto) ==
              match WellTank.Decide(bajo, alto, true)
              case None => None
              case Some(on) => Some(RelayValue(on))
  {
  }

  /**
   * The rules part exactly on an empty tank during a restart delay: there
   * the test loop sends "1" and the well controller decides OFF.
   */
  lemma RulesDifferDuringDelay(bajo: bool, alto: bool, puede: bool)
    ensures var relay := match WellTank.Decide(bajo, alto, puede)
                         case None => None
                         case Some(on) => Some(RelayValue(on));
            (PumpTest.CycleCommand(bajo, alto) != relay <==> !bajo && !alto && !puede)
            && (!bajo && !alto && !puede ==> PumpTest.CycleCommand(bajo, alto) == Some("1") && relay == Some("0"))
  {
  }
}
