/** The claim lifecycle: create, update, submit to the agent, and the three
    approver verdicts, as functions over the in-memory store.  The agent run
    and the resume call are inputs, because their results come from a
    language model. */
module ClaimService {
  import opened Wrappers
  import opened Json
  import opened Py
  import opened Strings
  import opened Seqs
  import opened Triage
  import opened Claims
  import opened Audit
  import opened Store

  const AuditModel: string := "gemini/gemini-2.5-flash-lite"

  /** Interrupt names that put a submitted claim in front of an approver. */
  const ApprovalNames: seq<string> := ["claim-approval", "insurance-agent-approval"]

  const SubmitError: string := "Invalid transition: Claim must be in DRAFT to submit."
  const DefaultApproveReason: string := "Approved by approver"
  const InfoPrefix: string := "Additional information required: "

  /** What the agent run at submission gave back: a stop reason with the
      interrupts it raised and its final text, or an exception. */
  datatype AgentRun =
    | AgentFinished(stopReason: string, interrupts: seq<Interrupt>, transcript: string)
    | AgentRaised(error: PyError)

  /** What resuming the agent with the approver's answer gave back. */
  datatype ResumeCall = Resumed(transcript: string) | ResumeRaised(error: PyError)

  /** The store after an operation, and the claim it returned or the error it raised. */
  datatype Outcome = Outcome(store: Store, result: Result<Claim, PyError>)

  /** What the service raises when it reads `.status` of a claim that is not there. */
  function NoClaim(): PyError {
    NoAttribute(JNull, "status")
  }

  /** The logs are as they were. */
  predicate LogsUnchanged(st: Store, st': Store) {
    st'.messages == st.messages && st'.decisions == st.decisions && st'.audits == st.audits
  }

  /** `create_claim`: always a DRAFT claim owned by the creator, stored under
      a fresh id; nothing else changes. */
  function CreateClaim(st: Store, data: ClaimCreate, userId: int): (o: Outcome)
    ensures o.result.Ok?
    ensures o.result.value.status == Draft && o.result.value.createdById == userId
    ensures o.result.value.policyNumber == data.policyNumber && o.result.value.claimAmount == data.claimAmount
    ensures o.store.claims == st.claims[o.result.value.id := o.result.value]
    ensures Valid(st) ==> o.result.value.id !in st.claims && Valid(o.store)
    ensures LogsUnchanged(st, o.store)
  {
    var c := NewClaim(st.nextId, data, userId, Draft);
    Outcome(st.(claims := st.claims[c.id := c], nextId := st.nextId + 1), Ok(c))
  }

  /** The fields an update may carry; `None` means absent or `None`, and both are skipped. */
  datatype Patch = Patch(claimAmount: Option<real>, description: Option<string>)

  /** `status in [DRAFT, NEEDS_MORE_INFO]`. */
  predicate Editable(s: ClaimStatus) {
    s == Draft || s == NeedsMoreInfo
  }

  /** `update_claim`: only a DRAFT or NEEDS_MORE_INFO claim changes, and then
      only in the fields the patch carries; the status stays as it was. */
  function UpdateClaim(st: Store, id: int, patch: Patch): (o: Outcome)
    ensures id !in st.claims ==> o == Outcome(st, Err(ValueError("Claim not found")))
    ensures o.result.Ok? <==> id in st.claims && Editable(st.claims[id].status)
    ensures o.result.Err? ==> o.store == st && o.result.error.kind == "ValueError"
    ensures o.result.Ok? ==>
      var c := st.claims[id];
      var c' := o.result.value;
      && c' == c.(claimAmount := c'.claimAmount, description := c'.description)
      && c'.claimAmount == patch.claimAmount.GetOr(c.claimAmount)
      && c'.description == (if patch.description.Some? then patch.description else c.description)
      && o.store.claims == st.claims[id := c']
      && LogsUnchanged(st, o.store) && o.store.nextId == st.nextId
  {
    if id !in st.claims then Outcome(st, Err(ValueError("Claim not found")))
    else
      var c := st.claims[id];
      if !Editable(c.status) then
        Outcome(st, Err(ValueError("Cannot update claim in status " + StatusName(c.status)
                                   + ". Only DRAFT or NEEDS_MORE_INFO claims can be updated.")))
      else
        var c' := c.(claimAmount := patch.claimAmount.GetOr(c.claimAmount),
                     description := if patch.description.Some? then patch.description else c.description);
        Outcome(st.(claims := st.claims[id := c']), Ok(c'))
  }

  /** The index of the first interrupt whose name asks for approval. */
  function FirstApproval(xs: seq<Interrupt>): (r: Option<nat>)
    ensures r.Some? ==> r.value < |xs| && xs[r.value].name in ApprovalNames
    ensures r.Some? ==> forall j :: 0 <= j < r.value ==> xs[j].name !in ApprovalNames
    ensures r.None? <==> forall j :: 0 <= j < |xs| ==> xs[j].name !in ApprovalNames
  {
    if |xs| == 0 then None
    else if xs[0].name in ApprovalNames then Some(0)
    else
      var rest := FirstApproval(xs[1..]);
      if rest.Some? then Some(rest.value + 1)
      else assert forall j :: 1 <= j < |xs| ==> xs[j] == xs[1..][j - 1]; None
  }

  /** The claim's metadata with the approval interrupt recorded in it. */
  function WithInterrupt(md: Option<map<string, Json>>, i: Interrupt): (r: map<string, Json>)
    ensures "interrupt_id" in r && r["interrupt_id"] == JStr(i.id)
    ensures "interrupt_reason" in r && r["interrupt_reason"] == i.reason
    ensures md.Some? ==> forall k :: k in md.value && k != "interrupt_id" && k != "interrupt_reason" ==>
              k in r && r[k] == md.value[k]
    ensures r.Keys == md.GetOr(map[]).Keys + {"interrupt_id", "interrupt_reason"}
  {
    md.GetOr(map[])["interrupt_id" := JStr(i.id)]["interrupt_reason" := i.reason]
  }

  /** The claim once the agent has finished: PENDING_APPROVAL, holding the
      first approval interrupt, when the run stopped on one; APPROVED otherwise. */
  function Settle(c: Claim, stopReason: string, interrupts: seq<Interrupt>): (c': Claim)
    ensures c'.status == PendingApproval <==>
      stopReason == "interrupt" && exists j :: 0 <= j < |interrupts| && interrupts[j].name in ApprovalNames
    ensures c'.status != PendingApproval ==> c' == c.(status := Approved)
    ensures c'.status == PendingApproval ==>
      FirstApproval(interrupts).Some? &&
      c' == c.(status := PendingApproval, metadata := Some(WithInterrupt(c.metadata, interrupts[FirstApproval(interrupts).value])))
  {
    var pick := if stopReason == "interrupt" then FirstApproval(interrupts) else None;
    if pick.Some? then
      c.(status := PendingApproval, metadata := Some(WithInterrupt(c.metadata, interrupts[pick.value])))
    else c.(status := Approved)
  }

  /** `submit_claim`.  A missing or non-DRAFT claim is refused with nothing
      changed.  Otherwise the claim is UNDER_AGENT_REVIEW before the agent
      runs, and stays so if the agent raises; a finished run is audited and
      ends in PENDING_APPROVAL or APPROVED, never NEEDS_MORE_INFO. */
  function SubmitClaim(st: Store, id: int, run: AgentRun): (o: Outcome)
    ensures id !in st.claims || st.claims[id].status != Draft ==>
      o == Outcome(st, Err(ValueError(SubmitError)))
    ensures id in st.claims && st.claims[id].status == Draft ==>
      var c := st.claims[id];
      && id in o.store.claims && OthersUnchanged(st, o.store, id)
      && o.store.messages == st.messages && o.store.decisions == st.decisions && o.store.nextId == st.nextId
      && (run.AgentRaised? ==>
            o.result == Err(run.error) && o.store.claims[id] == c.(status := UnderAgentReview)
            && o.store.audits == st.audits)
      && (run.AgentFinished? ==>
            && o.result == Ok(o.store.claims[id])
            && o.store.claims[id].status in {PendingApproval, Approved}
            && o.store.claims[id] == Settle(c.(status := UnderAgentReview), run.stopReason, run.interrupts)
            && o.store.audits == st.audits + [AgentAudit(c.id, "Initial claim analysis for claim " + IntToString(c.id),
                                                         run.transcript, AuditModel)])
  {
    if id !in st.claims || st.claims[id].status != Draft then Outcome(st, Err(ValueError(SubmitError)))
    else
      var c := st.claims[id].(status := UnderAgentReview);
      match run
      case AgentRaised(e) => Outcome(st.(claims := st.claims[id := c]), Err(e))
      case AgentFinished(stopReason, interrupts, transcript) =>
        var audit := AgentAudit(c.id, "Initial claim analysis for claim " + IntToString(c.id), transcript, AuditModel);
        var c' := Settle(c, stopReason, interrupts);
        Outcome(st.(claims := st.claims[id := c'], audits := st.audits + [audit]), Ok(c'))
  }

  /** Whether approve/reject resume the agent: only for a truthy interrupt id
      that does not start with "test-".  A truthy id that is not a string has
      no `startswith` and raises. */
  function ShouldResume(md: Option<map<string, Json>>): (r: Result<bool, PyError>)
    ensures r == Ok(true) <==>
      md.Some? && "interrupt_id" in md.value && md.value["interrupt_id"].JStr?
      && md.value["interrupt_id"].s != "" && !StartsWith(md.value["interrupt_id"].s, "test-")
    ensures r.Err? <==>
      md.Some? && "interrupt_id" in md.value && Truthy(md.value["interrupt_id"]) && !md.value["interrupt_id"].JStr?
  {
    var iid := if md.Some? then Get(md.value, "interrupt_id") else JNull;
    if !Truthy(iid) then Ok(false)
    else if iid.JStr? then Ok(!StartsWith(iid.s, "test-"))
    else Err(NoAttribute(iid, "startswith"))
  }

  /** The audit trail after a resume attempt: one entry when the agent was
      resumed and answered, none when it was not resumed or its failure was swallowed. */
  function ResumeAudits(audits: seq<AgentAudit>, c: Claim, verdict: string, attempt: bool, resume: ResumeCall): (r: seq<AgentAudit>)
    ensures attempt && resume.Resumed? ==>
      r == audits + [AgentAudit(c.id, "Resume after " + verdict + " for claim " + IntToString(c.id), resume.transcript, AuditModel)]
    ensures !(attempt && resume.Resumed?) ==> r == audits
  {
    if attempt && resume.Resumed? then
      audits + [AgentAudit(c.id, "Resume after " + verdict + " for claim " + IntToString(c.id), resume.transcript, AuditModel)]
    else audits
  }

  /** `reason or "Approved by approver"`. */
  function ApproveReason(reason: Option<string>): (r: string)
    ensures r != ""
    ensures reason.Some? && reason.value != "" ==> r == reason.value
  {
    if reason.Some? && reason.value != "" then reason.value else DefaultApproveReason
  }

  /** `approve_claim`: a PENDING_APPROVAL claim becomes APPROVED with the
      approver assigned and exactly one APPROVED decision logged; the reason
      is never empty.  Whether the agent resumes only touches the audit trail. */
  function ApproveClaim(st: Store, id: int, approverId: int, reason: Option<string>, resume: ResumeCall): (o: Outcome)
    ensures id !in st.claims ==> o == Outcome(st, Err(NoClaim()))
    ensures id in st.claims && st.claims[id].status != PendingApproval ==>
      o == Outcome(st, Err(ValueError("Claim must be PENDING_APPROVAL to approve.")))
    ensures o.result.Err? ==> o.store == st
    ensures o.result.Ok? <==>
      id in st.claims && st.claims[id].status == PendingApproval && ShouldResume(st.claims[id].metadata).Ok?
    ensures o.result.Ok? ==>
      var c := st.claims[id];
      && o.result.value == c.(status := Approved, assignedApproverId := Some(approverId))
      && o.store.claims == st.claims[id := o.result.value]
      && o.store.decisions == st.decisions + [Decision(c.id, DecidedApproved, Some(ApproveReason(reason)), approverId)]
      && o.store.messages == st.messages && o.store.nextId == st.nextId
      && o.store.audits == ResumeAudits(st.audits, c, "approval", ShouldResume(c.metadata).value, resume)
  {
    if id !in st.claims then Outcome(st, Err(NoClaim()))
    else
      var c := st.claims[id];
      if c.status != PendingApproval then Outcome(st, Err(ValueError("Claim must be PENDING_APPROVAL to approve.")))
      else
        var attempt := ShouldResume(c.metadata);
        if attempt.Err? then Outcome(st, Err(attempt.error))
        else
          var c' := c.(status := Approved, assignedApproverId := Some(approverId));
          var d := Decision(c.id, DecidedApproved, Some(ApproveReason(reason)), approverId);
          Outcome(st.(claims := st.claims[id := c'], decisions := st.decisions + [d],
                      audits := ResumeAudits(st.audits, c, "approval", attempt.value, resume)), Ok(c'))
  }

  /** `reject_claim`: as approval, ending REJECTED with the reason passed through as given. */
  function RejectClaim(st: Store, id: int, approverId: int, reason: Option<string>, resume: ResumeCall): (o: Outcome)
    ensures id !in st.claims ==> o == Outcome(st, Err(NoClaim()))
    ensures id in st.claims && st.claims[id].status != PendingApproval ==>
      o == Outcome(st, Err(ValueError("Claim must be PENDING_APPROVAL to reject.")))
    ensures o.result.Err? ==> o.store == st
    ensures o.result.Ok? <==>
      id in st.claims && st.claims[id].status == PendingApproval && ShouldResume(st.claims[id].metadata).Ok?
    ensures o.result.Ok? ==>
      var c := st.claims[id];
      && o.result.value == c.(status := Rejected, assignedApproverId := Some(approverId))
      && o.store.claims == st.claims[id := o.result.value]
      && o.store.decisions == st.decisions + [Decision(c.id, DecidedRejected, reason, approverId)]
      && o.store.messages == st.messages && o.store.nextId == st.nextId
      && o.store.audits == ResumeAudits(st.audits, c, "rejection", ShouldResume(c.metadata).value, resume)
  {
    if id !in st.claims then Outcome(st, Err(NoClaim()))
    else
      var c := st.claims[id];
      if c.status != PendingApproval then Outcome(st, Err(ValueError("Claim must be PENDING_APPROVAL to reject.")))
      else
        var attempt := ShouldResume(c.metadata);
        if attempt.Err? then Outcome(st, Err(attempt.error))
        else
          var c' := c.(status := Rejected, assignedApproverId := Some(approverId));
          var d := Decision(c.id, DecidedRejected, reason, approverId);
          Outcome(st.(claims := st.claims[id := c'], decisions := st.decisions + [d],
                      audits := ResumeAudits(st.audits, c, "rejection", attempt.value, resume)), Ok(c'))
  }

  /** `request_more_info`: a PENDING_APPROVAL claim becomes NEEDS_MORE_INFO,
      with one NEEDS_MORE_INFO decision and one approver message logged; the
      agent is never resumed and the audit trail is untouched. */
  function RequestMoreInfo(st: Store, id: int, approverId: int, info: string): (o: Outcome)
    ensures id !in st.claims ==> o == Outcome(st, Err(NoClaim()))
    ensures o.result.Err? ==> o.store == st
    ensures o.result.Ok? <==> id in st.claims && st.claims[id].status == PendingApproval
    ensures o.result.Ok? ==>
      var c := st.claims[id];
      && o.result.value == c.(status := NeedsMoreInfo, assignedApproverId := Some(approverId))
      && o.store.claims == st.claims[id := o.result.value]
      && o.store.decisions == st.decisions + [Decision(c.id, DecidedNeedsMoreInfo, Some(info), approverId)]
      && o.store.messages == st.messages + [Message(Some(c.id), ApproverSender, Some(approverId), InfoPrefix + info, None)]
      && o.store.audits == st.audits && o.store.nextId == st.nextId
  {
    if id !in st.claims then Outcome(st, Err(NoClaim()))
    else
      var c := st.claims[id];
      if c.status != PendingApproval then Outcome(st, Err(ValueError("Claim must be PENDING_APPROVAL to request info.")))
      else
        var c' := c.(status := NeedsMoreInfo, assignedApproverId := Some(approverId));
        var d := Decision(c.id, DecidedNeedsMoreInfo, Some(info), approverId);
        var m := Message(Some(c.id), ApproverSender, Some(approverId), InfoPrefix + info, None);
        Outcome(st.(claims := st.claims[id := c'], decisions := st.decisions + [d], messages := st.messages + [m]), Ok(c'))
  }

  /** A failed resume leaves exactly what a skipped one leaves: the claim,
      its decision and the messages do not depend on the resume call. */
  lemma ResumeOnlyTouchesAudit(st: Store, id: int, approverId: int, reason: Option<string>, r1: ResumeCall, r2: ResumeCall)
    ensures ApproveClaim(st, id, approverId, reason, r1).result == ApproveClaim(st, id, approverId, reason, r2).result
    ensures ApproveClaim(st, id, approverId, reason, r1).store.(audits := []) == ApproveClaim(st, id, approverId, reason, r2).store.(audits := [])
    ensures RejectClaim(st, id, approverId, reason, r1).result == RejectClaim(st, id, approverId, reason, r2).result
    ensures RejectClaim(st, id, approverId, reason, r1).store.(audits := []) == RejectClaim(st, id, approverId, reason, r2).store.(audits := [])
  {
  }

  /** Every decision a verdict logs names the status the claim is left in. */
  lemma DecisionMatchesStatus(st: Store, id: int, approverId: int, reason: Option<string>, info: string, resume: ResumeCall)
    ensures var o := ApproveClaim(st, id, approverId, reason, resume);
      o.result.Ok? ==> StatusAfter(o.store.decisions[|o.store.decisions| - 1].decision) == o.result.value.status
    ensures var o := RejectClaim(st, id, approverId, reason, resume);
      o.result.Ok? ==> StatusAfter(o.store.decisions[|o.store.decisions| - 1].decision) == o.result.value.status
    ensures var o := RequestMoreInfo(st, id, approverId, info);
      o.result.Ok? ==> StatusAfter(o.store.decisions[|o.store.decisions| - 1].decision) == o.result.value.status
  {
  }

  /** `get_claim_messages`: every message of the claim, in creation order, and no other. */
  function ClaimMessages(st: Store, id: int): (r: seq<Message>)
    ensures forall i :: 0 <= i < |r| ==> r[i] in st.messages && r[i].claimId == Some(id)
    ensures forall i :: 0 <= i < |st.messages| && st.messages[i].claimId == Some(id) ==> st.messages[i] in r
  {
    var p := (m: Message) => m.claimId == Some(id);
    FilterMembers(st.messages, p);
    Filter(st.messages, p)
  }

  /** Messages stored under a claim, by any path, join the end of its history. */
  lemma ClaimMessagesGrow(st: Store, st': Store, id: int, added: seq<Message>)
    requires st'.messages == st.messages + added
    requires forall i :: 0 <= i < |added| ==> added[i].claimId == Some(id)
    ensures ClaimMessages(st', id) == ClaimMessages(st, id) + added
  {
    var p := (m: Message) => m.claimId == Some(id);
    FilterConcat(st.messages, added, p);
    FilterAll(added, p);
  }

  /** `get_claim_decisions`: every decision on the claim, in creation order, and no other. */
  function ClaimDecisions(st: Store, id: int): (r: seq<Decision>)
    ensures forall i :: 0 <= i < |r| ==> r[i] in st.decisions && r[i].claimId == id
    ensures forall i :: 0 <= i < |st.decisions| && st.decisions[i].claimId == id ==> st.decisions[i] in r
  {
    var p := (d: Decision) => d.claimId == id;
    FilterMembers(st.decisions, p);
    Filter(st.decisions, p)
  }

  /** `get_claim_audit`: every audit entry of the claim, in creation order, and no other. */
  function ClaimAudit(st: Store, id: int): (r: seq<AgentAudit>)
    ensures forall i :: 0 <= i < |r| ==> r[i] in st.audits && r[i].claimId == id
    ensures forall i :: 0 <= i < |st.audits| && st.audits[i].claimId == id ==> st.audits[i] in r
  {
    var p := (a: AgentAudit) => a.claimId == id;
    FilterMembers(st.audits, p);
    Filter(st.audits, p)
  }

  /** A verdict adds exactly its own decision to the claim's decision
      history and leaves every other claim's history alone. */
  lemma {:induction false} VerdictExtendsHistory(st: Store, id: int, other: int, approverId: int, reason: Option<string>, resume: ResumeCall)
    requires Valid(st) && other != id
    requires ApproveClaim(st, id, approverId, reason, resume).result.Ok?
    ensures var st' := ApproveClaim(st, id, approverId, reason, resume).store;
      && ClaimDecisions(st', id) == ClaimDecisions(st, id) + [Decision(id, DecidedApproved, Some(ApproveReason(reason)), approverId)]
      && ClaimDecisions(st', other) == ClaimDecisions(st, other)
  {
    var d := Decision(id, DecidedApproved, Some(ApproveReason(reason)), approverId);
    var p := (d: Decision) => d.claimId == id;
    var q := (d: Decision) => d.claimId == other;
    FilterConcat(st.decisions, [d], p);
    FilterConcat(st.decisions, [d], q);
  }

  /** A request for information shows up, once, in the claim's message history. */
  lemma {:induction false} RequestInfoExtendsMessages(st: Store, id: int, approverId: int, info: string)
    requires Valid(st) && RequestMoreInfo(st, id, approverId, info).result.Ok?
    ensures ClaimMessages(RequestMoreInfo(st, id, approverId, info).store, id)
      == ClaimMessages(st, id) + [Message(Some(id), ApproverSender, Some(approverId), InfoPrefix + info, None)]
  {
    var m := Message(Some(id), ApproverSender, Some(approverId), InfoPrefix + info, None);
    var p := (m: Message) => m.claimId == Some(id);
    FilterConcat(st.messages, [m], p);
  }
}
