/**
 * The two values src/components/ResultsDisplay.js derives from a result
 * (the bankrupt flag and the risk level) and the style classes that follow
 * from them. Markup and text are not modelled.
 */
module ResultsDisplay {
  import App

  datatype RiskLevel = Low | Medium | High

  /** The level's position in the order Low < Medium < High. */
  function Rank(level: RiskLevel): nat {
    match level
    case Low => 0
    case Medium => 1
    case High => 2
  }

  /** riskLevel: above 70 is High, above 40 is Medium, the rest is Low. */
  function RiskLevelOf(bankruptcyRisk: real): (level: RiskLevel)
    ensures level == High <==> bankruptcyRisk > 70.0
    ensures level == Medium <==> 40.0 < bankruptcyRisk <= 70.0
    ensures level == Low <==> bankruptcyRisk <= 40.0
  {
    if bankruptcyRisk > 70.0 then High
    else if bankruptcyRisk > 40.0 then Medium
    else Low
  }

  /** A higher risk never gives a lower level. */
  lemma RiskLevelMonotone(a: real, b: real)
    requires a <= b
    ensures Rank(RiskLevelOf(a)) <= Rank(RiskLevelOf(b))
  {
  }

  /**
   * isBankrupt: a strict comparison with "Bankrupt", so the back end's other
   * verdict "Healthy", and any other spelling, gives false.
   */
  predicate IsBankrupt(prediction: string): (b: bool)
    ensures b ==> prediction == "Bankrupt"
    ensures prediction == "Bankrupt" ==> b
    ensures prediction == "Healthy" ==> !b
  {
    prediction == "Bankrupt"
  }

  /** riskLevel.toLowerCase(), used in the risk-level style class. */
  function LowerName(level: RiskLevel): string {
    match level
    case Low => "low"
    case Medium => "medium"
    case High => "high"
  }

  /** The style classes and the status symbol of the rendered card. */
  datatype View = View(
    cardClass: string,
    indicatorClass: string,
    indicatorSymbol: string,
    riskLevelClass: string,
    interpretationClass: string)

  /**
   * The card, the status indicator and the interpretation box all follow the
   * one bankrupt flag; the risk-level class follows the risk level.
   */
  function Render(prediction: string, bankruptcyRisk: real): (v: View)
    ensures v.cardClass == "results-card bankrupt" <==> IsBankrupt(prediction)
    ensures v.cardClass == "results-card healthy" <==> !IsBankrupt(prediction)
    ensures v.indicatorClass == "status-indicator bankrupt" <==> IsBankrupt(prediction)
    ensures v.indicatorClass == "status-indicator healthy" <==> !IsBankrupt(prediction)
    ensures v.indicatorSymbol == "⚠" <==> IsBankrupt(prediction)
    ensures v.indicatorSymbol == "✓" <==> !IsBankrupt(prediction)
    ensures v.interpretationClass == "interpretation alert" <==> IsBankrupt(prediction)
    ensures v.interpretationClass == "interpretation success" <==> !IsBankrupt(prediction)
    ensures v.riskLevelClass == "risk-level " + LowerName(RiskLevelOf(bankruptcyRisk))
  {
    var isBankrupt := IsBankrupt(prediction);
    var flag := if isBankrupt then "bankrupt" else "healthy";
    View(
      "results-card " + flag,
      "status-indicator " + flag,
      if isBankrupt then "⚠" else "✓",
      "risk-level " + LowerName(RiskLevelOf(bankruptcyRisk)),
      "interpretation " + (if isBankrupt then "alert" else "success"))
  }

  /**
   * Shown for a result the backend formatted: the display says bankrupt
   * exactly when the raw label equals 1, and the level is High exactly when
   * the probability at the bankruptcy index is above 0.7.
   */
  lemma DisplayOfBackendResult(classes: seq<App.Label>, probability: seq<real>, raw: App.Label)
    requires App.FormatResult(classes, probability, raw).Some?
    ensures var r := App.FormatResult(classes, probability, raw).value;
      && (IsBankrupt(r.prediction) <==> App.EqualsOne(raw))
      && (RiskLevelOf(r.bankruptcyRisk) == High <==> probability[App.BankruptcyIndex(classes)] > 0.7)
      && (RiskLevelOf(r.bankruptcyRisk) == Low <==> probability[App.BankruptcyIndex(classes)] <= 0.4)
  {
  }
}
