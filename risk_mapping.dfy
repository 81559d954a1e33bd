/**
 * The PPC-to-risk classifier: an ordered chain of tests on the code in which the
 * first rule that fires decides the tier.
 */
module RiskMapping {
  import opened Text

  const Unknown := "Unknown"
  const LowRisk := "Low Risk"
  const ModerateRisk := "Moderate Risk"
  const HighRisk := "High Risk"

  /** The four labels the classifier can produce. */
  predicate IsRiskLabel(tier: string) {
    tier == Unknown || tier == LowRisk || tier == ModerateRisk || tier == HighRisk
  }

  /** The high-risk rule: `10`, `N/A`, or any code containing `5X/10W/10`. */
  predicate HighRule(ppc: string) {
    ppc == "10" || Contains(ppc, "5X/10W/10") || ppc == "N/A"
  }

  /** The moderate-risk rule: `5X`, `10W`, or any code containing `5X/10W` or `10W/10`. */
  predicate ModerateRule(ppc: string) {
    ppc == "5X" || ppc == "10W" || Contains(ppc, "5X/10W") || Contains(ppc, "10W/10")
  }

  /** The low-risk rule: a single digit 1 to 5 (`/^[1-5]$/`), or any code containing `5/5X`. */
  predicate LowRule(ppc: string) {
    (|ppc| == 1 && '1' <= ppc[0] <= '5') || Contains(ppc, "5/5X")
  }

  /**
   * `mapRiskCategory`. The contract gives, for every tier, exactly the codes
   * that receive it, with each rule applying only where the earlier ones did not.
   */
  function MapRiskCategory(ppc: string): (tier: string)
    ensures IsRiskLabel(tier)
    ensures tier == Unknown <==> ppc == ""
    ensures tier == HighRisk <==> ppc != "" && HighRule(ppc)
    ensures tier == ModerateRisk <==> ppc != "" && !HighRule(ppc) && (ModerateRule(ppc) || !LowRule(ppc))
    ensures tier == LowRisk <==> ppc != "" && !HighRule(ppc) && !ModerateRule(ppc) && LowRule(ppc)
  {
    if ppc == "" then Unknown
    else if HighRule(ppc) then HighRisk
    else if ModerateRule(ppc) then ModerateRisk
    else if LowRule(ppc) then LowRisk
    else ModerateRisk
  }

  lemma ContainsItself(s: string)
    ensures Contains(s, s)
  {
    assert OccursAt(s, s, 0);
  }

  lemma NotContainsLonger(s: string, sub: string)
    requires |s| < |sub|
    ensures !Contains(s, sub)
  {
  }

  /**
   * The tier table the user interface documents: 1-5 and 5/5X are low risk;
   * 5X, 10W, 5X/10W and 10W/10 moderate; 10, 5X/10W/10 and N/A high.
   * `5X/10W/10` is high although it also contains the moderate `5X/10W`:
   * the high rule is checked first.
   */
  lemma {:induction false} DocumentedTiers()
    ensures forall d :: '1' <= d <= '5' ==> MapRiskCategory([d]) == LowRisk
    ensures MapRiskCategory("5/5X") == LowRisk
    ensures MapRiskCategory("5X") == ModerateRisk && MapRiskCategory("10W") == ModerateRisk
    ensures MapRiskCategory("5X/10W") == ModerateRisk && MapRiskCategory("10W/10") == ModerateRisk
    ensures MapRiskCategory("10") == HighRisk && MapRiskCategory("N/A") == HighRisk
    ensures MapRiskCategory("5X/10W/10") == HighRisk
    ensures Contains("5X/10W/10", "5X/10W")
  {
    forall d | '1' <= d <= '5'
      ensures MapRiskCategory([d]) == LowRisk
    {
      NotContainsLonger([d], "5X/10W/10");
      NotContainsLonger([d], "5X/10W");
      NotContainsLonger([d], "10W/10");
    }
    ContainsItself("5/5X");
    NotContainsLonger("5/5X", "5X/10W/10");
    NotContainsLonger("5/5X", "5X/10W");
    NotContainsLonger("5/5X", "10W/10");
    NotContainsLonger("5X", "5X/10W/10");
    NotContainsLonger("10W", "5X/10W/10");
    ContainsItself("5X/10W");
    NotContainsLonger("5X/10W", "5X/10W/10");
    ContainsItself("10W/10");
    NotContainsLonger("10W/10", "5X/10W/10");
    ContainsItself("5X/10W/10");
    assert OccursAt("5X/10W/10", "5X/10W", 0);
  }

  /** Every other non-empty code falls back to moderate risk: for instance the digits 6 to 9. */
  lemma {:induction false} OtherDigitsAreModerate(d: char)
    requires '6' <= d <= '9' || d == '0'
    ensures MapRiskCategory([d]) == ModerateRisk
  {
    NotContainsLonger([d], "5X/10W/10");
    NotContainsLonger([d], "5X/10W");
    NotContainsLonger([d], "10W/10");
    NotContainsLonger([d], "5/5X");
  }
}
