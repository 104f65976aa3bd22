/** The submission path with the Strands agent, under one hypothesis: that
    the model follows its system prompt to the letter (validate; ask for
    missing fields and stop; otherwise assess the risk and, for MEDIUM or
    HIGH, request approval).  Nothing in the code enforces that; these
    lemmas say what the claim service does if it holds. */
module StrandsAgent {
  import opened Wrappers
  import opened Json
  import opened Py
  import opened Strings
  import opened Triage
  import opened Claims
  import opened Store
  import opened ClaimService
  import StrandsTools

  /** The dictionary the Strands agent is given: the claim's facts and its id. */
  function AgentData(c: Claim): (d: map<string, Json>)
    ensures forall k :: k in ClaimData(c) ==> k in d && d[k] == ClaimData(c)[k]
  {
    ClaimData(c)["claim_id" := JInt(c.id)]
  }

  /** The fields the Strands validator reports for a stored claim, read off
      the claim: the amount is a number and so never missing. */
  predicate StrandsMissing(c: Claim, f: string) {
    || (f == "policy_number" && IsBlank(c.policyNumber))
    || (f == "incident_date" && c.incidentDate.None?)
    || (f == "description" && (c.description.None? || IsBlank(c.description.value)))
  }

  /** What the validator reads from the agent's dictionary. */
  lemma AgentDataFields(c: Claim)
    ensures Get(AgentData(c), "policy_number") == JStr(c.policyNumber)
    ensures Get(AgentData(c), "claim_type") == JStr(Claims.TypeName(c.claimType))
    ensures Get(AgentData(c), "claim_amount") == JReal(c.claimAmount)
    ensures Get(AgentData(c), "incident_date") == OptStr(c.incidentDate)
    ensures Get(AgentData(c), "description") == OptStr(c.description)
  {
  }

  lemma StringField(d: map<string, Json>, f: string, s: string)
    requires f in RequiredFields && Get(d, f) == JStr(s)
    ensures f in StrandsTools.ValidateClaim(d) <==> IsBlank(s)
  {
    StripEmptyIffBlank(s);
    assert StrandsTools.Missing(d, f) <==> IsBlank(s);
  }

  lemma NullField(d: map<string, Json>, f: string)
    requires f in RequiredFields && Get(d, f).JNull?
    ensures f in StrandsTools.ValidateClaim(d)
  {
    assert StrandsTools.Missing(d, f);
  }

  lemma NumberField(d: map<string, Json>, f: string, x: real)
    requires Get(d, f) == JReal(x)
    ensures f !in StrandsTools.ValidateClaim(d)
  {
    assert !StrandsTools.Missing(d, f);
  }

  /** No field outside the required five is ever reported. */
  lemma OnlyRequiredReported(d: map<string, Json>, f: string)
    requires f !in RequiredFields
    ensures f !in StrandsTools.ValidateClaim(d)
  {
  }

  lemma NonBlankFirst(s: string)
    requires |s| > 0 && !IsSpace(s[0])
    ensures !IsBlank(s)
  {
  }

  lemma OptionalField(d: map<string, Json>, f: string, o: Option<string>)
    requires f in RequiredFields && Get(d, f) == OptStr(o)
    ensures f in StrandsTools.ValidateClaim(d) <==> o.None? || IsBlank(o.value)
  {
    if o.Some? {
      StringField(d, f, o.value);
    } else {
      NullField(d, f);
    }
  }

  /** A claim type's value is never blank. */
  lemma TypeNamePresent(d: map<string, Json>, t: ClaimType)
    requires Get(d, "claim_type") == JStr(Claims.TypeName(t))
    ensures "claim_type" !in StrandsTools.ValidateClaim(d)
  {
    StringField(d, "claim_type", Claims.TypeName(t));
    TypeNameNotBlank(t);
  }

  lemma TypeNameNotBlank(t: ClaimType)
    ensures !IsBlank(Claims.TypeName(t))
  {
    NonBlankFirst(Claims.TypeName(t));
  }

  lemma TimestampNotBlank(s: Timestamp)
    ensures !IsBlank(s)
  {
    NonBlankFirst(s);
  }

  /** A stored incident date is never blank, so only its absence is reported. */
  lemma IncidentDateField(d: map<string, Json>, date: Option<Timestamp>)
    requires Get(d, "incident_date") == OptStr(date)
    ensures "incident_date" in StrandsTools.ValidateClaim(d) <==> date.None?
  {
    OptionalField(d, "incident_date", date);
    if date.Some? {
      TimestampNotBlank(date.value);
    }
  }

  lemma MissingOfFields(d: map<string, Json>, c: Claim, f: string)
    requires Get(d, "policy_number") == JStr(c.policyNumber)
    requires Get(d, "claim_type") == JStr(Claims.TypeName(c.claimType))
    requires Get(d, "claim_amount") == JReal(c.claimAmount)
    requires Get(d, "incident_date") == OptStr(c.incidentDate)
    requires Get(d, "description") == OptStr(c.description)
    ensures f in StrandsTools.ValidateClaim(d) <==> StrandsMissing(c, f)
  {
    if f == "policy_number" {
      StringField(d, f, c.policyNumber);
    } else if f == "claim_type" {
      TypeNamePresent(d, c.claimType);
    } else if f == "claim_amount" {
      NumberField(d, f, c.claimAmount);
    } else if f == "incident_date" {
      IncidentDateField(d, c.incidentDate);
    } else if f == "description" {
      OptionalField(d, f, c.description);
    } else {
      OnlyRequiredReported(d, f);
    }
  }

  lemma MissingOfClaim(c: Claim, f: string)
    ensures f in StrandsTools.ValidateClaim(AgentData(c)) <==> StrandsMissing(c, f)
  {
    AgentDataFields(c);
    MissingOfFields(AgentData(c), c, f);
  }

  /** The run an obedient agent produces: no interrupt when fields are
      missing or the tier is LOW (or the assessment fails), one
      "claim-approval" interrupt carrying the tier otherwise. */
  function ObedientRun(c: Claim, interruptId: string, summary: string, transcript: string): (run: AgentRun)
    ensures run.AgentFinished?
    ensures run.stopReason == "interrupt" <==>
      StrandsTools.ValidateClaim(AgentData(c)) == []
      && StrandsTools.AssessRiskData(AgentData(c)).Ok? && StrandsTools.AssessRiskData(AgentData(c)).value != Low
  {
    var d := AgentData(c);
    if StrandsTools.ValidateClaim(d) != [] then AgentFinished("end_turn", [], transcript)
    else
      var risk := StrandsTools.AssessRiskData(d);
      if risk.Ok? && risk.value != Low then
        AgentFinished("interrupt", [StrandsTools.RequestApproval(interruptId, c.id, TierName(risk.value), summary, c.claimAmount)], transcript)
      else AgentFinished("end_turn", [], transcript)
  }

  /** With an obedient agent, a complete claim with a fraud score goes to
      an approver exactly when its tier is MEDIUM or HIGH, and the approver
      sees that tier; any other submission is auto-approved, including one
      with missing fields. */
  lemma ObedientSubmit(st: Store, id: int, interruptId: string, summary: string, transcript: string)
    requires id in st.claims && st.claims[id].status == Draft
    requires st.claims[id].fraudRiskScore.Some?
    ensures var c := st.claims[id];
      var o := SubmitClaim(st, id, ObedientRun(c, interruptId, summary, transcript));
      && (o.store.claims[id].status == PendingApproval <==>
            StrandsTools.ValidateClaim(AgentData(c)) == []
            && StrandsTools.AssessRisk(c.claimAmount, c.fraudRiskScore.value) != Low)
      && (o.store.claims[id].status != PendingApproval ==> o.store.claims[id].status == Approved)
      && (o.store.claims[id].status == PendingApproval ==>
            && o.store.claims[id].metadata.Some?
            && var md := o.store.claims[id].metadata.value;
            && "interrupt_id" in md && md["interrupt_id"] == JStr(interruptId)
            && "interrupt_reason" in md && md["interrupt_reason"].JObj?
            && "risk_level" in md["interrupt_reason"].fields
            && md["interrupt_reason"].fields["risk_level"]
               == JStr(TierName(StrandsTools.AssessRisk(c.claimAmount, c.fraudRiskScore.value))))
  {
    var c := st.claims[id];
    var run := ObedientRun(c, interruptId, summary, transcript);
    var d := AgentData(c);
    assert Get(d, "claim_amount") == JReal(c.claimAmount);
    assert Get(d, "fraud_risk_score") == JReal(c.fraudRiskScore.value);
    assert StrandsTools.AssessRiskData(d) == Ok(StrandsTools.AssessRisk(c.claimAmount, c.fraudRiskScore.value));
    if run.stopReason == "interrupt" {
      assert run.interrupts[0].name in ApprovalNames;
      assert FirstApproval(run.interrupts) == Some(0);
    }
  }

  /** The first seed scenario, labelled as a low-risk auto-approval, in fact
      waits for an approver: 15,000 is above this agent's 10,000 threshold. */
  lemma SeedScenarioOneWaits(st: Store, id: int, interruptId: string, summary: string, transcript: string)
    requires id in st.claims && st.claims[id].status == Draft
    requires st.claims[id].claimAmount == 15000.0 && st.claims[id].fraudRiskScore == Some(0.1)
    requires st.claims[id].policyNumber == "POL-2024-001"
    requires st.claims[id].incidentDate.Some? && st.claims[id].description == Some("Routine medical procedure - appendectomy")
    ensures SubmitClaim(st, id, ObedientRun(st.claims[id], interruptId, summary, transcript)).store.claims[id].status
            == PendingApproval
  {
    var c := st.claims[id];
    NonBlankFirst(c.policyNumber);
    NonBlankFirst(c.description.value);
    var missing := StrandsTools.ValidateClaim(AgentData(c));
    forall f
      ensures f !in missing
    {
      MissingOfClaim(c, f);
    }
    ObedientSubmit(st, id, interruptId, summary, transcript);
  }

  /** A claim with no description is auto-approved by submission even when
      the agent obeys: asking for more information is not an outcome the
      service recognises. */
  lemma MissingDescriptionAutoApproved(st: Store, id: int, interruptId: string, summary: string, transcript: string)
    requires id in st.claims && st.claims[id].status == Draft
    requires st.claims[id].description.None?
    ensures SubmitClaim(st, id, ObedientRun(st.claims[id], interruptId, summary, transcript)).store.claims[id].status
            == Approved
  {
    MissingOfClaim(st.claims[id], "description");
  }
}
