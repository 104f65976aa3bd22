/** The claim record, its status and type enumerations, and the claim
    dictionary the agents are given. */
module Claims {
  import opened Wrappers
  import opened Json

  /** Lifecycle status; every claim has exactly one of these six. */
  datatype ClaimStatus = Draft | UnderAgentReview | PendingApproval | NeedsMoreInfo | Approved | Rejected

  /** Line of business; every claim has exactly one of these three. */
  datatype ClaimType = Health | Auto | Property

  /** The stored (and JSON-serialised) value of a status. */
  function StatusName(s: ClaimStatus): string {
    match s
    case Draft => "DRAFT"
    case UnderAgentReview => "UNDER_AGENT_REVIEW"
    case PendingApproval => "PENDING_APPROVAL"
    case NeedsMoreInfo => "NEEDS_MORE_INFO"
    case Approved => "APPROVED"
    case Rejected => "REJECTED"
  }

  /** `ClaimStatus(name)`: the member whose value is `name`, if any. */
  function ParseStatus(name: string): (r: Option<ClaimStatus>)
    ensures r.Some? ==> StatusName(r.value) == name
    ensures r.None? ==> forall s: ClaimStatus :: StatusName(s) != name
  {
    if name == "DRAFT" then Some(Draft)
    else if name == "UNDER_AGENT_REVIEW" then Some(UnderAgentReview)
    else if name == "PENDING_APPROVAL" then Some(PendingApproval)
    else if name == "NEEDS_MORE_INFO" then Some(NeedsMoreInfo)
    else if name == "APPROVED" then Some(Approved)
    else if name == "REJECTED" then Some(Rejected)
    else None
  }

  /** Status values are distinct, so a status survives a trip through its name. */
  lemma StatusNameRoundTrip(s: ClaimStatus)
    ensures ParseStatus(StatusName(s)) == Some(s)
  {
  }

  /** The stored value of a claim type. */
  function TypeName(t: ClaimType): string {
    match t
    case Health => "HEALTH"
    case Auto => "AUTO"
    case Property => "PROPERTY"
  }

  /** `ClaimType(name)`: the member whose value is `name`, if any. */
  function ParseType(name: string): (r: Option<ClaimType>)
    ensures r.Some? ==> TypeName(r.value) == name
    ensures r.None? ==> forall t: ClaimType :: TypeName(t) != name
  {
    if name == "HEALTH" then Some(Health)
    else if name == "AUTO" then Some(Auto)
    else if name == "PROPERTY" then Some(Property)
    else None
  }

  lemma TypeNameRoundTrip(t: ClaimType)
    ensures ParseType(TypeName(t)) == Some(t)
  {
  }

  /** The text `str()` gives for a stored incident timestamp: it starts with
      the year's digits. */
  type Timestamp = s: string | |s| > 0 && '0' <= s[0] <= '9' witness "1970-01-01 00:00:00+00:00"

  /** A row of the claims table.  `fraudRiskScore` is nullable (its column
      only has a default); `metadata` is the JSON column, a dict or null. */
  datatype Claim = Claim(
    id: int,
    policyNumber: string,
    claimType: ClaimType,
    claimAmount: real,
    incidentDate: Option<Timestamp>,
    description: Option<string>,
    documentsUploaded: bool,
    fraudRiskScore: Option<real>,
    status: ClaimStatus,
    createdById: int,
    assignedApproverId: Option<int>,
    version: int,
    metadata: Option<map<string, Json>>)

  /** The fields a creation request carries; description and incident date may be omitted. */
  datatype ClaimCreate = ClaimCreate(
    policyNumber: string,
    claimType: ClaimType,
    claimAmount: real,
    description: Option<string>,
    incidentDate: Option<Timestamp>)

  /** A freshly inserted claim: the request's fields, the creator, and the
      column defaults for everything else. */
  function NewClaim(id: int, data: ClaimCreate, owner: int, status: ClaimStatus): (c: Claim)
    ensures c.id == id && c.createdById == owner && c.status == status
    ensures c.policyNumber == data.policyNumber && c.claimType == data.claimType
    ensures c.claimAmount == data.claimAmount && c.description == data.description
    ensures c.incidentDate == data.incidentDate
    ensures !c.documentsUploaded && c.fraudRiskScore == Some(0.0) && c.version == 1
    ensures c.assignedApproverId.None? && c.metadata.None?
  {
    Claim(id, data.policyNumber, data.claimType, data.claimAmount, data.incidentDate,
          data.description, false, Some(0.0), status, owner, None, 1, None)
  }

  function OptStr(o: Option<string>): Json {
    if o.Some? then JStr(o.value) else JNull
  }

  function OptReal(o: Option<real>): Json {
    if o.Some? then JReal(o.value) else JNull
  }

  /** The claim dictionary both agents build before validating: six facts,
      the incident date as its `str()` text or `None`. */
  function ClaimData(c: Claim): (d: map<string, Json>)
    ensures d.Keys == {"policy_number", "claim_type", "claim_amount", "incident_date",
                       "description", "fraud_risk_score"}
    ensures d["claim_amount"] == JReal(c.claimAmount)
    ensures d["incident_date"].JNull? <==> c.incidentDate.None?
    ensures d["description"].JNull? <==> c.description.None?
    ensures d["fraud_risk_score"].JNull? <==> c.fraudRiskScore.None?
    ensures c.fraudRiskScore.Some? ==> d["fraud_risk_score"] == JReal(c.fraudRiskScore.value)
  {
    map["policy_number" := JStr(c.policyNumber),
        "claim_type" := JStr(TypeName(c.claimType)),
        "claim_amount" := JReal(c.claimAmount),
        "incident_date" := (if c.incidentDate.Some? then JStr(c.incidentDate.value) else JNull),
        "description" := OptStr(c.description),
        "fraud_risk_score" := OptReal(c.fraudRiskScore)]
  }
}
