/** The claim lifecycle as a whole: every service operation in one
    datatype, the status moves a single operation may make, and the store
    invariant all operations keep. */
module Lifecycle {
  import opened Wrappers
  import opened Json
  import opened Py
  import opened Triage
  import opened Claims
  import opened Audit
  import opened Store
  import opened ClaimService

  /** One call into the claim service, with the oracle results it consumes. */
  datatype Op =
    | Create(data: ClaimCreate, userId: int)
    | Update(id: int, patch: Patch)
    | Submit(id: int, run: AgentRun)
    | Approve(id: int, approverId: int, reason: Option<string>, resume: ResumeCall)
    | Reject(id: int, approverId: int, reason: Option<string>, resume: ResumeCall)
    | RequestInfo(id: int, approverId: int, info: string)

  function Apply(st: Store, op: Op): Outcome {
    match op
    case Create(data, userId) => CreateClaim(st, data, userId)
    case Update(id, patch) => UpdateClaim(st, id, patch)
    case Submit(id, run) => SubmitClaim(st, id, run)
    case Approve(id, a, reason, resume) => ApproveClaim(st, id, a, reason, resume)
    case Reject(id, a, reason, resume) => RejectClaim(st, id, a, reason, resume)
    case RequestInfo(id, a, info) => RequestMoreInfo(st, id, a, info)
  }

  /** The status moves one operation can make, written independently of the
      operations: submission leaves DRAFT for review, approval or the
      approver's queue; an approver settles a pending claim; nothing else moves. */
  predicate Step(from: ClaimStatus, to: ClaimStatus) {
    || from == to
    || (from == Draft && to in {UnderAgentReview, PendingApproval, Approved})
    || (from == PendingApproval && to in {Approved, Rejected, NeedsMoreInfo})
  }

  /** A claim waiting for an approver knows which interrupt to resume: its
      metadata holds the interrupt id as a string. */
  predicate CarriesInterrupt(c: Claim) {
    c.status == PendingApproval ==>
      c.metadata.Some? && "interrupt_id" in c.metadata.value && c.metadata.value["interrupt_id"].JStr?
  }

  predicate Inv(st: Store) {
    Valid(st) && forall id :: id in st.claims ==> CarriesInterrupt(st.claims[id])
  }

  /** Claims only ever move along `Step`, and none disappears. */
  predicate Moves(st: Store, st': Store) {
    forall id :: id in st.claims ==> id in st'.claims && Step(st.claims[id].status, st'.claims[id].status)
  }

  /** Submission never leaves a pending claim without its interrupt id. */
  lemma SettleCarriesInterrupt(c: Claim, stopReason: string, interrupts: seq<Interrupt>)
    ensures CarriesInterrupt(Settle(c, stopReason, interrupts))
  {
    var c' := Settle(c, stopReason, interrupts);
    if c'.status == PendingApproval {
      var i := interrupts[FirstApproval(interrupts).value];
      assert c'.metadata == Some(WithInterrupt(c.metadata, i));
    }
  }

  lemma CreateKeepsInv(st: Store, data: ClaimCreate, userId: int)
    requires Inv(st)
    ensures Inv(CreateClaim(st, data, userId).store) && Moves(st, CreateClaim(st, data, userId).store)
  {
    var o := CreateClaim(st, data, userId);
    assert o.result.value.status == Draft;
  }

  lemma UpdateKeepsInv(st: Store, id: int, patch: Patch)
    requires Inv(st)
    ensures Inv(UpdateClaim(st, id, patch).store) && Moves(st, UpdateClaim(st, id, patch).store)
  {
  }

  lemma SubmitKeepsInv(st: Store, id: int, run: AgentRun)
    requires Inv(st)
    ensures Inv(SubmitClaim(st, id, run).store) && Moves(st, SubmitClaim(st, id, run).store)
  {
    if id in st.claims && st.claims[id].status == Draft && run.AgentFinished? {
      SettleCarriesInterrupt(st.claims[id].(status := UnderAgentReview), run.stopReason, run.interrupts);
    }
  }

  lemma ApproveKeepsInv(st: Store, id: int, approverId: int, reason: Option<string>, resume: ResumeCall)
    requires Inv(st)
    ensures Inv(ApproveClaim(st, id, approverId, reason, resume).store)
    ensures Moves(st, ApproveClaim(st, id, approverId, reason, resume).store)
  {
  }

  lemma RejectKeepsInv(st: Store, id: int, approverId: int, reason: Option<string>, resume: ResumeCall)
    requires Inv(st)
    ensures Inv(RejectClaim(st, id, approverId, reason, resume).store)
    ensures Moves(st, RejectClaim(st, id, approverId, reason, resume).store)
  {
  }

  lemma RequestInfoKeepsInv(st: Store, id: int, approverId: int, info: string)
    requires Inv(st)
    ensures Inv(RequestMoreInfo(st, id, approverId, info).store)
    ensures Moves(st, RequestMoreInfo(st, id, approverId, info).store)
  {
  }

  /** Every operation keeps the invariant and moves each claim along `Step`. */
  lemma {:induction false} ApplyKeepsInv(st: Store, op: Op)
    requires Inv(st)
    ensures Inv(Apply(st, op).store)
    ensures Moves(st, Apply(st, op).store)
  {
    match op
    case Create(data, userId) => CreateKeepsInv(st, data, userId);
    case Update(id, patch) => UpdateKeepsInv(st, id, patch);
    case Submit(id, run) => SubmitKeepsInv(st, id, run);
    case Approve(id, a, reason, resume) => ApproveKeepsInv(st, id, a, reason, resume);
    case Reject(id, a, reason, resume) => RejectKeepsInv(st, id, a, reason, resume);
    case RequestInfo(id, a, info) => RequestInfoKeepsInv(st, id, a, info);
  }

  /** The statuses a claim can reach through any number of operations:
      from DRAFT anything, from PENDING_APPROVAL one of the three verdicts,
      and from every other status nothing but itself. */
  predicate Reachable(from: ClaimStatus, to: ClaimStatus) {
    || from == to
    || from == Draft
    || (from == PendingApproval && to in {Approved, Rejected, NeedsMoreInfo})
  }

  lemma StepThenReachable(a: ClaimStatus, b: ClaimStatus, c: ClaimStatus)
    requires Step(a, b) && Reachable(b, c)
    ensures Reachable(a, c)
  {
  }

  /** The store after a sequence of operations, failed ones included. */
  function Run(st: Store, ops: seq<Op>): Store
    decreases |ops|
  {
    if |ops| == 0 then st else Run(Apply(st, ops[0]).store, ops[1..])
  }

  /** Any sequence of operations keeps the invariant, keeps every claim, and
      moves each along `Reachable`. */
  lemma {:induction false} RunKeepsInv(st: Store, ops: seq<Op>)
    requires Inv(st)
    ensures Inv(Run(st, ops))
    ensures forall id :: id in st.claims ==>
      id in Run(st, ops).claims && Reachable(st.claims[id].status, Run(st, ops).claims[id].status)
    decreases |ops|
  {
    if |ops| > 0 {
      var st1 := Apply(st, ops[0]).store;
      ApplyKeepsInv(st, ops[0]);
      RunKeepsInv(st1, ops[1..]);
      forall id | id in st.claims
        ensures id in Run(st, ops).claims && Reachable(st.claims[id].status, Run(st, ops).claims[id].status)
      {
        StepThenReachable(st.claims[id].status, st1.claims[id].status, Run(st1, ops[1..]).claims[id].status);
      }
    }
  }

  /** A claim whose agent run raised is stuck: once UNDER_AGENT_REVIEW, no
      sequence of operations moves it again. */
  lemma StuckUnderReview(st: Store, ops: seq<Op>, id: int)
    requires Inv(st) && id in st.claims && st.claims[id].status == UnderAgentReview
    ensures id in Run(st, ops).claims && Run(st, ops).claims[id].status == UnderAgentReview
  {
    RunKeepsInv(st, ops);
  }

  /** For a claim in the invariant, approving or rejecting never fails on
      the interrupt id: only a missing claim or a wrong status is refused. */
  lemma PendingVerdictSucceeds(st: Store, id: int, approverId: int, reason: Option<string>, resume: ResumeCall)
    requires Inv(st) && id in st.claims && st.claims[id].status == PendingApproval
    ensures ApproveClaim(st, id, approverId, reason, resume).result.Ok?
    ensures RejectClaim(st, id, approverId, reason, resume).result.Ok?
  {
    assert CarriesInterrupt(st.claims[id]);
  }

  /** APPROVED and REJECTED are final, and so is NEEDS_MORE_INFO: no
      operation leads out of it (an update keeps the status, and only a
      DRAFT claim can be submitted). */
  lemma FinalStatuses(st: Store, op: Op, id: int)
    requires Inv(st) && id in st.claims && st.claims[id].status in {Approved, Rejected, NeedsMoreInfo}
    ensures id in Apply(st, op).store.claims
    ensures Apply(st, op).store.claims[id].status == st.claims[id].status
  {
    ApplyKeepsInv(st, op);
  }

  /** A claim can be at PENDING_APPROVAL only by a submission whose run stopped
      on an approval interrupt. */
  lemma PendingOnlyFromApprovalInterrupt(st: Store, id: int, run: AgentRun)
    requires id in st.claims && st.claims[id].status == Draft
    requires SubmitClaim(st, id, run).store.claims[id].status == PendingApproval
    ensures run.AgentFinished? && run.stopReason == "interrupt"
    ensures exists j :: 0 <= j < |run.interrupts| && run.interrupts[j].name in ApprovalNames
  {
  }

  /** Submission never asks the user for more information, whatever the agent did. */
  lemma SubmitNeverNeedsMoreInfo(st: Store, id: int, run: AgentRun)
    requires id in st.claims && st.claims[id].status == Draft
    ensures SubmitClaim(st, id, run).store.claims[id].status != NeedsMoreInfo
  {
  }
}
