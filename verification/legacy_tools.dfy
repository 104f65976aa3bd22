/** The first tool set: the validator that treats every falsy value as
    missing, the 50k/500k risk thresholds, the template approver summary and
    the flat action dictionaries. */
module LegacyTools {
  import opened Wrappers
  import opened Json
  import opened Py
  import opened Triage
  import Strings
  import Seqs

  const HighAmount: real := 500000.0
  const HighFraud: real := 0.7
  const MediumAmount: real := 50000.0
  const MediumFraud: real := 0.4

  /** `not claim_data.get(field)`: absent, `None`, zero, `False` and empty values count as missing. */
  predicate Missing(d: map<string, Json>, f: string) {
    !Truthy(Get(d, f))
  }

  /** The missing required fields, in field order. */
  function ValidateClaim(d: map<string, Json>): (missing: seq<string>)
    ensures forall f :: f in missing <==> f in RequiredFields && Missing(d, f)
    ensures missing == [] <==> forall f :: f in RequiredFields ==> Truthy(Get(d, f))
  {
    MissingFields(f => Missing(d, f))
  }

  /** The report lists the missing required fields in the required order, none twice. */
  lemma ValidateClaimInOrder(d: map<string, Json>)
    ensures ValidateClaim(d) == Seqs.Filter(RequiredFields, f => Missing(d, f))
    ensures Seqs.Distinct(ValidateClaim(d))
  {
    MissingFieldsInOrder(f => Missing(d, f));
  }


  /** A zero amount is reported missing under this validator. */
  lemma ZeroAmountIsMissing(d: map<string, Json>)
    requires Get(d, "claim_amount") in {JInt(0), JReal(0.0)}
    ensures "claim_amount" in ValidateClaim(d)
  {
    assert RequiredFields[2] == "claim_amount";
    assert Missing(d, "claim_amount");
  }

  /** A non-empty string, even one of only white space, is present under this validator. */
  lemma BlankStringIsPresent(d: map<string, Json>, f: string, s: string)
    requires f in RequiredFields && Get(d, f) == JStr(s) && s != ""
    ensures f !in ValidateClaim(d)
  {
  }

  /** The risk tier for an amount and a fraud score; every comparison is strict. */
  function AssessRisk(amount: real, fraud: real): (t: Tier)
    ensures t == High <==> amount > HighAmount || fraud > HighFraud
    ensures t == Low <==> amount <= MediumAmount && fraud <= MediumFraud
  {
    if amount > HighAmount || fraud > HighFraud then High
    else if amount > MediumAmount || fraud > MediumFraud then Medium
    else Low
  }

  /** Raising the amount or the fraud score never lowers the tier. */
  lemma AssessRiskMonotone(a1: real, f1: real, a2: real, f2: real)
    requires a1 <= a2 && f1 <= f2
    ensures Rank(AssessRisk(a1, f1)) <= Rank(AssessRisk(a2, f2))
  {
  }

  /** The thresholds themselves fall in the lower tier. */
  lemma AssessRiskBoundaries()
    ensures AssessRisk(HighAmount, 0.0) == Medium && AssessRisk(0.0, HighFraud) == Medium
    ensures AssessRisk(MediumAmount, 0.0) == Low && AssessRisk(0.0, MediumFraud) == Low
    ensures AssessRisk(MediumAmount, MediumFraud) == Low
  {
  }

  /** `assess_risk(claim_data)`: amount and score are read with `float()`,
      an absent key reading as 0; a value `float()` rejects raises. */
  function AssessRiskData(d: map<string, Json>): (r: Result<Tier, PyError>)
    ensures "claim_amount" !in d && "fraud_risk_score" !in d ==> r == Ok(Low)
    ensures r.Ok? <==> Float(GetOr(d, "claim_amount", JInt(0))).Ok? && Float(GetOr(d, "fraud_risk_score", JInt(0))).Ok?
    ensures r.Ok? ==>
      r.value == AssessRisk(Float(GetOr(d, "claim_amount", JInt(0))).value, Float(GetOr(d, "fraud_risk_score", JInt(0))).value)
    ensures Get(d, "claim_amount").JReal? && Get(d, "fraud_risk_score").JReal? ==>
      r == Ok(AssessRisk(Get(d, "claim_amount").r, Get(d, "fraud_risk_score").r))
    ensures Get(d, "claim_amount").JNull? && "claim_amount" in d ==> r.Err?
    ensures Get(d, "fraud_risk_score").JNull? && "fraud_risk_score" in d ==> r.Err?
    ensures (Get(d, "fraud_risk_score").JReal? && Get(d, "fraud_risk_score").r > HighFraud
             && Float(GetOr(d, "claim_amount", JInt(0))).Ok?) ==> r == Ok(High)
  {
    var amount := Float(GetOr(d, "claim_amount", JInt(0)));
    var fraud := Float(GetOr(d, "fraud_risk_score", JInt(0)));
    if amount.Err? then Err(amount.error)
    else if fraud.Err? then Err(fraud.error)
    else Ok(AssessRisk(amount.value, fraud.value))
  }

  /** The template's middle: type, policy, amount and incident date. */
  function SummaryFacts(d: map<string, Json>, showOther: Json -> string): string {
    Str(Get(d, "claim_type"), showOther)
      + " policy " + Str(Get(d, "policy_number"), showOther)
      + " amounting to $" + Str(Get(d, "claim_amount"), showOther)
      + ". Incident reported on " + Str(Get(d, "incident_date"), showOther) + ". "
  }

  /** The template's last sentence, naming the tier. */
  function RiskSentence(t: Tier): string {
    "Risk Level: " + TierName(t) + "."
  }

  /** The filled-in template: the facts between the opening and the tier. */
  function SummaryText(facts: string, t: Tier): (s: string)
    ensures Strings.StartsWith(s, "Claim for ") && Strings.EndsWith(s, RiskSentence(t))
  {
    var tail := RiskSentence(t);
    Strings.StartsWithConcat("Claim for ", facts + tail);
    Strings.EndsWithConcat("Claim for " + facts, tail);
    assert "Claim for " + facts + tail == "Claim for " + (facts + tail);
    "Claim for " + facts + tail
  }

  /** The fixed-template approver summary; it ends with the tier
      `assess_risk` gives for the same dictionary, and raises when that does. */
  function SummarizeForApprover(d: map<string, Json>, showOther: Json -> string): (r: Result<string, PyError>)
    ensures r.Ok? <==> AssessRiskData(d).Ok?
    ensures r.Ok? ==> Strings.StartsWith(r.value, "Claim for ")
    ensures r.Ok? ==> Strings.EndsWith(r.value, RiskSentence(AssessRiskData(d).value))
  {
    var risk := AssessRiskData(d);
    if risk.Err? then Err(risk.error) else Ok(SummaryText(SummaryFacts(d, showOther), risk.value))
  }

  /** `create_claim_draft`: a flat action dictionary; the date defaults to `None`. */
  function CreateClaimDraft(policyNumber: string, claimType: string, description: string,
                            incidentDate: Option<string>): (r: Json)
    ensures r.JObj? && r.fields.Keys == {"action", "policy_number", "claim_type", "description", "incident_date"}
    ensures r.fields["action"] == JStr("create_claim")
  {
    JObj(map["action" := JStr("create_claim"),
             "policy_number" := JStr(policyNumber),
             "claim_type" := JStr(claimType),
             "description" := JStr(description),
             "incident_date" := (if incidentDate.Some? then JStr(incidentDate.value) else JNull)])
  }

  /** `list_user_claims`: an action dictionary naming the user. */
  function ListUserClaims(userId: int): Json {
    JObj(map["action" := JStr("list_claims"), "user_id" := JInt(userId)])
  }

  /** `get_claim_details`: an action dictionary naming the claim. */
  function GetClaimDetails(claimId: int): Json {
    JObj(map["action" := JStr("get_claim"), "claim_id" := JInt(claimId)])
  }
}
