/** The first orchestrator: validate, then either ask for the missing
    fields or assess the risk, have the language model write a summary, and
    send the claim on to an approver.  The model's reply is an input. */
module LegacyAgent {
  import opened Wrappers
  import opened Json
  import opened Py
  import opened Triage
  import opened Claims
  import LegacyTools
  import LlmLite

  const SummaryFailed: string := "Summary generation failed."

  /** What awaiting `generate_response` gave: a reply dictionary, or an exception. */
  datatype LlmReply = LlmRaised(error: PyError) | LlmReturned(reply: map<string, Json>)

  /** The orchestrator's answer: a clarification request, or a claim ready
      for an approver.  The summary is whatever the reply's content held. */
  datatype AgentResponse =
    | RequestInfo(message: string, missingFields: seq<string>)
    | ReadyForApproval(riskLevel: Tier, summary: Json, message: string)

  /** The fields the falsy-check validator reports for a stored claim, read
      off the claim itself: the claim type and a stored date are always present. */
  predicate LegacyMissing(c: Claim, f: string) {
    || (f == "policy_number" && c.policyNumber == "")
    || (f == "claim_amount" && c.claimAmount == 0.0)
    || (f == "incident_date" && c.incidentDate.None?)
    || (f == "description" && (c.description.None? || c.description.value == ""))
  }

  lemma MissingOfClaim(c: Claim)
    ensures forall f :: f in LegacyTools.ValidateClaim(ClaimData(c)) <==> LegacyMissing(c, f)
  {
    forall f
      ensures f in LegacyTools.ValidateClaim(ClaimData(c)) <==> LegacyMissing(c, f)
    {
      if f in RequiredFields {
        MissingFieldOfClaim(c, f);
      }
    }
  }

  /** One required field at a time: the falsy check on the stored claim's data. */
  lemma MissingFieldOfClaim(c: Claim, f: string)
    requires f in RequiredFields
    ensures LegacyTools.Missing(ClaimData(c), f) <==> LegacyMissing(c, f)
  {
    var d := ClaimData(c);
    if f == "claim_type" {
      assert Get(d, f) == JStr(Claims.TypeName(c.claimType));
      assert Claims.TypeName(c.claimType) != "";
    } else if f == "policy_number" {
      assert Get(d, f) == JStr(c.policyNumber);
    }
  }

  /** `InsuranceAgent.process_claim`.  Missing fields give REQUEST_INFO with
      the clarification text and no risk assessment; otherwise every tier
      goes to an approver (this orchestrator never suspends).  A claim
      without a fraud score makes `float(None)` raise. */
  function ProcessClaim(c: Claim, llm: LlmReply, showOther: Json -> string): (r: Result<AgentResponse, PyError>)
    ensures var missing := LegacyTools.ValidateClaim(ClaimData(c));
      missing != [] ==> r == Ok(RequestInfo(Clarification(missing), missing))
    ensures LegacyTools.ValidateClaim(ClaimData(c)) == [] ==>
      (r.Ok? <==> c.fraudRiskScore.Some?) && (r.Ok? ==> r.value.ReadyForApproval?)
    ensures r.Ok? && r.value.ReadyForApproval? ==>
      && c.fraudRiskScore.Some?
      && r.value.riskLevel == LegacyTools.AssessRisk(c.claimAmount, c.fraudRiskScore.value)
      && r.value.message == "Claim validated. Risk Level: " + TierName(r.value.riskLevel) + ". Sent to approver."
      && (llm.LlmReturned? ==> r.value.summary == GetOr(llm.reply, "content", JStr(SummaryFailed)))
      && (llm.LlmRaised? ==>
            r.value.summary.JStr? && Ok(r.value.summary.s) == LegacyTools.SummarizeForApprover(ClaimData(c), showOther))
  {
    var d := ClaimData(c);
    var missing := LegacyTools.ValidateClaim(d);
    if missing != [] then Ok(RequestInfo(Clarification(missing), missing))
    else
      var risk := LegacyTools.AssessRiskData(d);
      if risk.Err? then Err(risk.error)
      else
        var summary := match llm
          case LlmReturned(reply) => GetOr(reply, "content", JStr(SummaryFailed))
          case LlmRaised(_) => JStr(LegacyTools.SummarizeForApprover(d, showOther).value);
        Ok(ReadyForApproval(risk.value, summary,
                            "Claim validated. Risk Level: " + TierName(risk.value) + ". Sent to approver."))
  }

  /** A zero amount always sends the claim back for more information. */
  lemma ZeroAmountRequestsInfo(c: Claim, llm: LlmReply, showOther: Json -> string)
    requires c.claimAmount == 0.0
    ensures ProcessClaim(c, llm, showOther).Ok?
    ensures ProcessClaim(c, llm, showOther).value.RequestInfo?
    ensures "claim_amount" in ProcessClaim(c, llm, showOther).value.missingFields
  {
    MissingOfClaim(c);
  }

  /** With the real client the template summary is never used: the client
      never raises, so the summary is the model's content, or the failure
      text when the reply is an error dictionary. */
  lemma TemplateSummaryUnreachable(c: Claim, call: LlmLite.Completion, showOther: Json -> string)
    requires ProcessClaim(c, LlmReturned(LlmLite.GenerateResponse(call)), showOther).Ok?
    requires ProcessClaim(c, LlmReturned(LlmLite.GenerateResponse(call)), showOther).value.ReadyForApproval?
    ensures var s := ProcessClaim(c, LlmReturned(LlmLite.GenerateResponse(call)), showOther).value.summary;
      (call.Completed? ==> s == call.content) && (call.CompletionFailed? ==> s == JStr(SummaryFailed))
  {
  }
}
