/** The behavioural profile record shared by the chat assistant and the
    analysis form, the catalog lookup with its `DEFAULT` fallback, the
    risk-level colour rule, and the summary the application hands to the
    admin panel. */
module Profiles {
  import opened Wrappers
  import opened Text

  datatype Explanations = Explanations(
    communication: string,
    behavior: string,
    policyAwareness: string,
    premium: string)

  /** One catalog record. The risk level and premium adjustment are stored,
      never derived from the sub-scores. */
  datatype Profile = Profile(
    customerId: string,
    customerName: string,
    communicationScore: nat,
    behaviorScore: nat,
    policyAwarenessScore: nat,
    overallRiskLevel: string,
    premiumAdjustment: string,
    recommendation: string,
    explanations: Explanations)

  const DefaultKey: string := "DEFAULT"

  /** `catalog[key] || catalog.DEFAULT` over the catalog's own keys: an exact,
      case-sensitive match returns the stored record, anything else the
      `DEFAULT` record. */
  function LookupIn(catalog: map<string, Profile>, key: string): (p: Profile)
    requires DefaultKey in catalog
    ensures p in catalog.Values
    ensures key in catalog ==> p == catalog[key]
    ensures key !in catalog ==> p == catalog[DefaultKey]
  {
    if key in catalog then catalog[key] else catalog[DefaultKey]
  }

  /** Colour classes, reduced to their hue. */
  datatype Tone = Green | Yellow | Red | Gray

  /** `getRiskColor`: `low`, `medium` and `high` in any letter case, grey for
      anything else. */
  function RiskColor(level: string): (t: Tone)
    ensures t == Green <==> ToLower(level) == "low"
    ensures t == Yellow <==> ToLower(level) == "medium"
    ensures t == Red <==> ToLower(level) == "high"
  {
    match ToLower(level)
    case "low" => Green
    case "medium" => Yellow
    case "high" => Red
    case _ => Gray
  }

  lemma {:induction false} ToLowerIdempotent(s: string)
    ensures ToLower(ToLower(s)) == ToLower(s)
  {
    assert forall i :: 0 <= i < |s| ==> LowerChar(LowerChar(s[i])) == LowerChar(s[i]);
  }

  /** The colour depends only on the lower-cased level: `HIGH`, `High` and
      `high` colour alike. */
  lemma RiskColorIgnoresCase(level: string)
    ensures RiskColor(level) == RiskColor(ToLower(level))
    ensures RiskColor("Low") == Green && RiskColor("MEDIUM") == Yellow && RiskColor("High") == Red
    ensures RiskColor("Standard") == Gray
  {
    ToLowerIdempotent(level);
  }

  /** What the application keeps as `lastAnalysis` and the admin panel reads:
      a name, and an optional recommendation and location. */
  datatype Analysis = Analysis(
    customerName: string,
    recommendation: Option<string>,
    location: Option<string>)
}
