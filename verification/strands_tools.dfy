/** The second tool set, registered with the Strands agent: the validator
    that only treats `None` and blank strings as missing, the
    10k/100k/250k thresholds, the approval interrupt and the nested action
    JSON. */
module StrandsTools {
  import opened Wrappers
  import opened Json
  import opened Py
  import opened Triage
  import Strings
  import Seqs

  /** Never reached on its own: any amount above it is already above `HighAmount`. */
  const CapAmount: real := 250000.0
  const HighAmount: real := 100000.0
  const HighFraud: real := 0.7
  const MediumAmount: real := 10000.0
  const MediumFraud: real := 0.4

  /** The interrupt names the claim service acts on; this tool raises the first. */
  const ApprovalInterruptName: string := "claim-approval"

  /** `val is None or (isinstance(val, str) and not val.strip())`. */
  predicate Missing(d: map<string, Json>, f: string) {
    var v := Get(d, f);
    v.JNull? || (v.JStr? && Strings.Strip(v.s) == "")
  }

  /** The missing required fields, in field order. */
  function ValidateClaim(d: map<string, Json>): (missing: seq<string>)
    ensures forall f :: f in missing <==> f in RequiredFields && Missing(d, f)
  {
    MissingFields(f => Missing(d, f))
  }

  /** The report lists the missing required fields in the required order, none twice. */
  lemma ValidateClaimInOrder(d: map<string, Json>)
    ensures ValidateClaim(d) == Seqs.Filter(RequiredFields, f => Missing(d, f))
    ensures Seqs.Distinct(ValidateClaim(d))
  {
    MissingFieldsInOrder(f => Missing(d, f));
  }


  /** A field is missing exactly when it is absent, `None`, or a string of
      white space only; zero and `False` are present. */
  lemma MissingIffNoneOrBlank(d: map<string, Json>, f: string)
    requires f in RequiredFields
    ensures f in ValidateClaim(d) <==>
      Get(d, f).JNull? || (Get(d, f).JStr? && Strings.IsBlank(Get(d, f).s))
  {
    if Get(d, f).JStr? {
      Strings.StripEmptyIffBlank(Get(d, f).s);
    }
  }

  /** A zero amount is present under this validator. */
  lemma ZeroAmountIsPresent(d: map<string, Json>)
    requires Get(d, "claim_amount") in {JInt(0), JReal(0.0)}
    ensures "claim_amount" !in ValidateClaim(d)
  {
  }

  /** The risk tier with this module's thresholds.  The documented
      "> 250,000" rule is subsumed by the "> 100,000" rule the comment omits. */
  function AssessRisk(amount: real, fraud: real): (t: Tier)
    ensures t == High <==> amount > HighAmount || fraud > HighFraud
    ensures t == Low <==> amount <= MediumAmount && fraud <= MediumFraud
  {
    if amount > CapAmount then High
    else if amount > HighAmount || fraud > HighFraud then High
    else if amount > MediumAmount || fraud > MediumFraud then Medium
    else Low
  }

  /** Raising the amount or the fraud score never lowers the tier. */
  lemma AssessRiskMonotone(a1: real, f1: real, a2: real, f2: real)
    requires a1 <= a2 && f1 <= f2
    ensures Rank(AssessRisk(a1, f1)) <= Rank(AssessRisk(a2, f2))
  {
  }

  /** `assess_risk(claim_data)` with the same `float()` reading as the first tool set. */
  function AssessRiskData(d: map<string, Json>): (r: Result<Tier, PyError>)
    ensures "claim_amount" !in d && "fraud_risk_score" !in d ==> r == Ok(Low)
    ensures r.Ok? <==> Float(GetOr(d, "claim_amount", JInt(0))).Ok? && Float(GetOr(d, "fraud_risk_score", JInt(0))).Ok?
    ensures r.Ok? ==>
      r.value == AssessRisk(Float(GetOr(d, "claim_amount", JInt(0))).value, Float(GetOr(d, "fraud_risk_score", JInt(0))).value)
    ensures Get(d, "claim_amount").JReal? && Get(d, "fraud_risk_score").JReal? ==>
      r == Ok(AssessRisk(Get(d, "claim_amount").r, Get(d, "fraud_risk_score").r))
    ensures Get(d, "claim_amount").JNull? && "claim_amount" in d ==> r.Err?
    ensures Get(d, "fraud_risk_score").JNull? && "fraud_risk_score" in d ==> r.Err?
    ensures (Get(d, "claim_amount").JReal? && Get(d, "claim_amount").r > CapAmount
             && Float(GetOr(d, "fraud_risk_score", JInt(0))).Ok?) ==> r == Ok(High)
  {
    var amount := Float(GetOr(d, "claim_amount", JInt(0)));
    var fraud := Float(GetOr(d, "fraud_risk_score", JInt(0)));
    if amount.Err? then Err(amount.error)
    else if fraud.Err? then Err(fraud.error)
    else Ok(AssessRisk(amount.value, fraud.value))
  }

  /** `request_approval`: the interrupt it raises.  Its id comes from the
      agent runtime; its reason holds exactly the four facts the approver judges. */
  function RequestApproval(interruptId: string, claimId: int, riskLevel: string,
                           summary: string, claimAmount: real): (i: Interrupt)
    ensures i.id == interruptId && i.name == ApprovalInterruptName
    ensures i.reason.JObj? && i.reason.fields.Keys == {"claim_id", "risk_level", "summary", "claim_amount"}
    ensures i.reason.fields["claim_id"] == JInt(claimId) && i.reason.fields["risk_level"] == JStr(riskLevel)
    ensures i.reason.fields["summary"] == JStr(summary) && i.reason.fields["claim_amount"] == JReal(claimAmount)
  {
    Interrupt(interruptId, ApprovalInterruptName,
      JObj(map["claim_id" := JInt(claimId), "risk_level" := JStr(riskLevel),
               "summary" := JStr(summary), "claim_amount" := JReal(claimAmount)]))
  }

  /** `create_claim_draft`: the action with its four facts nested under "data". */
  function CreateClaimDraft(policyNumber: string, claimType: string, description: string,
                            incidentDate: Option<string>): (r: Json)
    ensures r.JObj? && r.fields.Keys == {"action", "data"}
    ensures r.fields["data"].JObj?
    ensures r.fields["data"].fields.Keys == {"policy_number", "claim_type", "description", "incident_date"}
  {
    JObj(map["action" := JStr("create_claim"),
             "data" := JObj(map["policy_number" := JStr(policyNumber),
                                "claim_type" := JStr(claimType),
                                "description" := JStr(description),
                                "incident_date" := (if incidentDate.Some? then JStr(incidentDate.value) else JNull)])])
  }

  /** `list_user_claims`: the bare listing action. */
  function ListUserClaims(): Json {
    JObj(map["action" := JStr("list_claims")])
  }

  /** `get_claim_details`: the lookup action naming the claim. */
  function GetClaimDetails(claimId: int): Json {
    JObj(map["action" := JStr("get_claim"), "claim_id" := JInt(claimId)])
  }
}
