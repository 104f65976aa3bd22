/** The append-only records kept beside claims: chat messages, approver
    decisions and the agent audit trail. */
module Audit {
  import opened Wrappers
  import opened Json
  import opened Claims

  /** Who wrote a message; exactly one of three. */
  datatype SenderType = UserSender | AgentSender | ApproverSender

  /** What an approver decided; exactly one of three. */
  datatype DecisionType = DecidedApproved | DecidedRejected | DecidedNeedsMoreInfo

  /** A chat message.  `claimId` is absent for general chat, `senderId` is
      absent for agent messages in claim chat; the content is required. */
  datatype Message = Message(
    claimId: Option<int>,
    senderType: SenderType,
    senderId: Option<int>,
    content: string,
    metadata: Option<Json>)

  /** An approver's decision: claim and decider always present, reason optional. */
  datatype Decision = Decision(claimId: int, decision: DecisionType, reason: Option<string>, decidedBy: int)

  /** One logged agent interaction; every field is required. */
  datatype AgentAudit = AgentAudit(claimId: int, prompt: string, response: string, model: string)

  /** The claim status a decision of each kind leaves behind. */
  function StatusAfter(d: DecisionType): (s: ClaimStatus)
    ensures s in {Approved, Rejected, NeedsMoreInfo}
  {
    match d
    case DecidedApproved => Approved
    case DecidedRejected => Rejected
    case DecidedNeedsMoreInfo => NeedsMoreInfo
  }

  /** Different decisions lead to different statuses. */
  lemma StatusAfterInjective(d1: DecisionType, d2: DecisionType)
    requires StatusAfter(d1) == StatusAfter(d2)
    ensures d1 == d2
  {
  }
}
