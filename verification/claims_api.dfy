/** The claims endpoints: who may call which claim operation, and how the
    service's outcome becomes an HTTP answer.  A `ValueError` from the
    service becomes 400 with its message; any other exception escapes the
    endpoint and is answered 500. */
module ClaimsApi {
  import opened Wrappers
  import opened Json
  import opened Py
  import opened Claims
  import opened Audit
  import opened Store
  import opened ClaimService
  import Lifecycle

  /** A user's role; every user has exactly one of these four. */
  datatype Role = UserRole | ApproverRole | AdminRole | AgentRole

  datatype Caller = Caller(id: int, role: Role)

  /** An endpoint's answer: the value, or an HTTP error status with its detail. */
  datatype Response<T> = Success(value: T) | HttpError(status: int, detail: string)

  /** The store after a call and the answer given. */
  datatype Reply<T> = Reply(store: Store, response: Response<T>)

  /** `role in [ADMIN, APPROVER]`: the roles that may see every claim and give verdicts. */
  predicate Reviewer(r: Role) {
    r == ApproverRole || r == AdminRole
  }

  /** How an endpoint answers a service outcome. */
  function Answer(o: Outcome): (r: Reply<Claim>)
    ensures r.store == o.store
    ensures o.result.Ok? <==> r.response.Success?
    ensures o.result.Ok? ==> r.response.value == o.result.value
    ensures o.result.Err? ==> (r.response.status == 400 <==> o.result.error.kind == "ValueError")
    ensures o.result.Err? && o.result.error.kind == "ValueError" ==> r.response.detail == o.result.error.message
    ensures o.result.Err? ==> r.response.status in {400, 500}
  {
    match o.result
    case Ok(c) => Reply(o.store, Success(c))
    case Err(e) =>
      if e.kind == "ValueError" then Reply(o.store, HttpError(400, e.message))
      else Reply(o.store, HttpError(500, "Internal Server Error"))
  }

  /** `POST /claims/`: anyone may create; the claim is theirs. */
  function CreateEndpoint(st: Store, caller: Caller, data: ClaimCreate): (r: Reply<Claim>)
    ensures r.response.Success? && r.response.value.createdById == caller.id && r.response.value.status == Draft
  {
    Answer(CreateClaim(st, data, caller.id))
  }

  /** `GET /claims/`: reviewers list every claim, anyone else the claims
      `get_all_claims` gives for their id. */
  function ListEndpoint(st: Store, caller: Caller): (r: set<Claim>)
    ensures Reviewer(caller.role) ==> r == st.claims.Values
    ensures !Reviewer(caller.role) && caller.id != 0 ==>
      forall c :: c in st.claims.Values ==> (c in r <==> c.createdById == caller.id)
    ensures r <= st.claims.Values
  {
    if Reviewer(caller.role) then AllClaims(st, None) else AllClaims(st, Some(caller.id))
  }

  /** `GET /claims/{id}`: 404 for a missing claim, 403 for a non-reviewer
      who does not own it. */
  function ReadEndpoint(st: Store, caller: Caller, id: int): (r: Response<Claim>)
    ensures r.Success? <==> id in st.claims && (Reviewer(caller.role) || st.claims[id].createdById == caller.id)
    ensures r.Success? ==> r.value == st.claims[id]
    ensures r.HttpError? ==> (r.status == 404 <==> id !in st.claims) && r.status in {403, 404}
  {
    if id !in st.claims then HttpError(404, "Claim not found")
    else if !Reviewer(caller.role) && st.claims[id].createdById != caller.id then HttpError(403, "Not authorized to view this claim")
    else Success(st.claims[id])
  }

  /** `PUT /claims/{id}`: the request carries only a description.  404 for a
      missing claim, 403 unless the caller owns it or is an admin, then the
      service's answer. */
  function UpdateEndpoint(st: Store, caller: Caller, id: int, description: Option<string>): (r: Reply<Claim>)
    ensures r.response.HttpError? && r.response.status == 403 <==>
      id in st.claims && st.claims[id].createdById != caller.id && caller.role != AdminRole
    ensures r.response.HttpError? && r.response.status in {403, 404} ==> r.store == st
    ensures r.response.Success? ==>
      id in st.claims && r.response.value.claimAmount == st.claims[id].claimAmount
      && r.response.value.status == st.claims[id].status
    ensures r.response.Success? <==>
      id in st.claims && (st.claims[id].createdById == caller.id || caller.role == AdminRole) && Editable(st.claims[id].status)
    ensures r.response.Success? ==>
      && r.response.value.description == (if description.Some? then description else st.claims[id].description)
      && r.store.claims == st.claims[id := r.response.value]
    ensures r.response.HttpError? && r.response.status == 404 <==> id !in st.claims
    ensures r.response.HttpError? && r.response.status == 400 <==>
      id in st.claims && (st.claims[id].createdById == caller.id || caller.role == AdminRole) && !Editable(st.claims[id].status)
    ensures r.response.HttpError? ==> r.store == st
  {
    if id !in st.claims then Reply(st, HttpError(404, "Claim not found"))
    else if st.claims[id].createdById != caller.id && caller.role != AdminRole then Reply(st, HttpError(403, "Not authorized"))
    else Answer(UpdateClaim(st, id, Patch(None, description)))
  }

  /** `POST /claims/{id}/submit`: no role or ownership check at all. */
  function SubmitEndpoint(st: Store, caller: Caller, id: int, run: AgentRun): (r: Reply<Claim>)
    ensures r.store == SubmitClaim(st, id, run).store
    ensures r.response.HttpError? && r.response.status == 400 <==>
      id !in st.claims || st.claims[id].status != Draft || (run.AgentRaised? && run.error.kind == "ValueError")
  {
    Answer(SubmitClaim(st, id, run))
  }

  /** The guard the three verdict endpoints share, checked before the service is touched. */
  function Guarded(st: Store, caller: Caller, o: Outcome): (r: Reply<Claim>)
    ensures !Reviewer(caller.role) ==> r == Reply(st, HttpError(403, "Not authorized"))
    ensures Reviewer(caller.role) ==> r == Answer(o)
  {
    if !Reviewer(caller.role) then Reply(st, HttpError(403, "Not authorized")) else Answer(o)
  }

  /** `PUT /claims/{id}/approve`. */
  function ApproveEndpoint(st: Store, caller: Caller, id: int, reason: Option<string>, resume: ResumeCall): (r: Reply<Claim>)
    ensures r.response.HttpError? && r.response.status == 403 <==> !Reviewer(caller.role)
    ensures !Reviewer(caller.role) ==> r.store == st
    ensures r.response.Success? ==> r.response.value.status == Approved && r.response.value.assignedApproverId == Some(caller.id)
    ensures Reviewer(caller.role) && id !in st.claims ==> r == Reply(st, HttpError(500, "Internal Server Error"))
  {
    Guarded(st, caller, ApproveClaim(st, id, caller.id, reason, resume))
  }

  /** `PUT /claims/{id}/reject`. */
  function RejectEndpoint(st: Store, caller: Caller, id: int, reason: Option<string>, resume: ResumeCall): (r: Reply<Claim>)
    ensures r.response.HttpError? && r.response.status == 403 <==> !Reviewer(caller.role)
    ensures !Reviewer(caller.role) ==> r.store == st
    ensures r.response.Success? ==> r.response.value.status == Rejected && r.response.value.assignedApproverId == Some(caller.id)
    ensures Reviewer(caller.role) && id !in st.claims ==> r == Reply(st, HttpError(500, "Internal Server Error"))
  {
    Guarded(st, caller, RejectClaim(st, id, caller.id, reason, resume))
  }

  /** `PUT /claims/{id}/request-info`. */
  function RequestInfoEndpoint(st: Store, caller: Caller, id: int, info: string): (r: Reply<Claim>)
    ensures r.response.HttpError? && r.response.status == 403 <==> !Reviewer(caller.role)
    ensures !Reviewer(caller.role) ==> r.store == st
    ensures r.response.Success? ==> r.response.value.status == NeedsMoreInfo && r.response.value.assignedApproverId == Some(caller.id)
    ensures Reviewer(caller.role) && id !in st.claims ==> r == Reply(st, HttpError(500, "Internal Server Error"))
  {
    Guarded(st, caller, RequestMoreInfo(st, id, caller.id, info))
  }

  /** `GET /claims/{id}/messages`: no permission check. */
  function MessagesEndpoint(st: Store, caller: Caller, id: int): (r: seq<Message>)
    ensures forall i :: 0 <= i < |r| ==> r[i].claimId == Some(id)
  {
    ClaimMessages(st, id)
  }

  /** `GET /claims/{id}/decisions`: no permission check. */
  function DecisionsEndpoint(st: Store, caller: Caller, id: int): (r: seq<Decision>)
    ensures forall i :: 0 <= i < |r| ==> r[i].claimId == id
  {
    ClaimDecisions(st, id)
  }

  /** `GET /claims/{id}/audit`: admins only. */
  function AuditEndpoint(st: Store, caller: Caller, id: int): (r: Response<seq<AgentAudit>>)
    ensures r.Success? <==> caller.role == AdminRole
    ensures r.HttpError? ==> r == HttpError(403, "Admin access required")
    ensures r.Success? ==> forall i :: 0 <= i < |r.value| ==> r.value[i].claimId == id
  {
    if caller.role != AdminRole then HttpError(403, "Admin access required") else Success(ClaimAudit(st, id))
  }

  // ---------------------------------------------------------------------
  // Properties

  /** An approver can read every claim but cannot edit one someone else created. */
  lemma ApproverReadsButCannotEdit(st: Store, approver: int, id: int, description: Option<string>)
    requires id in st.claims && st.claims[id].createdById != approver
    ensures ReadEndpoint(st, Caller(approver, ApproverRole), id).Success?
    ensures UpdateEndpoint(st, Caller(approver, ApproverRole), id, description) == Reply(st, HttpError(403, "Not authorized"))
  {
  }

  /** Who calls submit makes no difference, owner or stranger. */
  lemma SubmitIgnoresCaller(st: Store, a: Caller, b: Caller, id: int, run: AgentRun)
    ensures SubmitEndpoint(st, a, id, run) == SubmitEndpoint(st, b, id, run)
  {
  }

  /** Message and decision histories are the same for every caller. */
  lemma HistoriesIgnoreCaller(st: Store, a: Caller, b: Caller, id: int)
    ensures MessagesEndpoint(st, a, id) == MessagesEndpoint(st, b, id)
    ensures DecisionsEndpoint(st, a, id) == DecisionsEndpoint(st, b, id)
  {
  }

  /** On a store in the lifecycle invariant, a reviewer's verdict on a
      pending claim always succeeds. */
  lemma ReviewerSettlesPendingClaim(st: Store, caller: Caller, id: int, reason: Option<string>, resume: ResumeCall)
    requires Lifecycle.Inv(st) && Reviewer(caller.role) && id in st.claims && st.claims[id].status == PendingApproval
    ensures ApproveEndpoint(st, caller, id, reason, resume).response.Success?
    ensures RejectEndpoint(st, caller, id, reason, resume).response.Success?
    ensures RequestInfoEndpoint(st, caller, id, "details").response.Success?
  {
    Lifecycle.PendingVerdictSucceeds(st, id, caller.id, reason, resume);
  }

  /** A plain user listing claims sees exactly their own. */
  lemma UserListsOwnClaims(st: Store, caller: Caller, c: Claim)
    requires caller.role == UserRole && caller.id != 0 && c in st.claims.Values
    ensures c in ListEndpoint(st, caller) <==> c.createdById == caller.id
  {
  }

  /** A user with id 0 falls through `if user_id:` and lists everyone's claims. */
  lemma UserZeroListsEverything(st: Store, role: Role)
    ensures ListEndpoint(st, Caller(0, role)) == st.claims.Values
  {
  }
}
