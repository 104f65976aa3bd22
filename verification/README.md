# Insurance claim triage backend, modelled in Dafny

The system is a claims backend for an insurance company. A user drafts a claim and submits it. An AI agent then validates the claim, assesses its risk tier, and either lets it through or raises a "claim-approval" interrupt. An interrupted claim waits at PENDING_APPROVAL until an approver approves it, rejects it, or asks for more information. Every verdict is logged as a decision, and every agent run as an audit entry.

Users and approvers also chat with the agent, either about one claim or in a general chat. A converter turns the agent's reply into A2UI display components: tables, card lists and forms.

The model is purely functional:

- The database is a `Store` value holding claims by id plus append-only message, decision and audit logs (`store.dfy`).
- Every service operation is a function from a store to a new store and a result or Python exception (`Outcome`, `SendOutcome`).
- Everything the code cannot decide by itself is a parameter. This covers:
  - what the agent run returned (`AgentRun`, `ChatRun`);
  - whether resuming the agent succeeded (`ResumeCall`);
  - the LLM and the parser agent replies (`LlmReply`, `Completion`, `ParserReply`);
  - `json.loads` (`loads`);
  - `str()` of floats and containers (`showOther`);
  - the strings the fenced-block regex captures (`blocks`);
  - the current time (`now`).

Modules follow the program:

- `claims`, `audit`: the records and enumerations.
- `claim_service`, `lifecycle`: the claim lifecycle and its invariant.
- `claims_api`: the HTTP endpoints and their role checks.
- `legacy_tools`, `legacy_agent`, `llmlite`: the first agent and its tool set.
- `strands_tools`, `strands_agent`, `db_tools`: the Strands agent, its tool set and its per-user database tools.
- `triage`, `actions`, `risk_drift`: what the two tool sets share and where they differ.
- `a2ui`: the component converter.
- `chat_service`: the chat.
- `config`: the CORS setting validator.
- Supporting modules: `json` (JSON values plus the Python semantics used: truthiness, `in`, `float()`, `str()`), `strings`, `seqs`, `wrappers`.

## Model

| member | source | states |
|---|---|---|
| Claims.ParseStatus | backend/app/models/claim.py:7-13 | Looking up a status by its value finds the member with exactly that value, and fails only when no member has it |
| Claims.StatusNameRoundTrip | backend/app/models/claim.py:7-13 | The six status values are distinct, so every status is recovered from its stored value |
| Claims.ParseType | backend/app/models/claim.py:15-18 | Looking up a claim type by value finds the member with that value, and fails only when none has it |
| Claims.TypeNameRoundTrip | backend/app/models/claim.py:15-18 | Every claim type is recovered from its stored value |
| Claims.NewClaim | backend/app/models/claim.py:24-38 | A new row carries the request's fields and the creator; the column defaults apply (no documents, fraud score 0.0, version 1, no approver, no metadata) |
| Claims.ClaimData | backend/app/agent/service.py:15-22 | The agent's claim dictionary has exactly six keys, carries the amount as a float and the fraud score as given, and holds None exactly where the claim has no date, description or fraud score |
| Audit.StatusAfter | backend/app/models/audit.py:18-22 | Each decision kind names one of the three verdict statuses |
| Audit.StatusAfterInjective | backend/app/models/audit.py:18-22 | Different decision kinds lead to different claim statuses |
| Store.AllClaims | backend/app/services/claim_service.py:235-241 | A truthy user id selects exactly that user's claims; None or 0 selects every claim |
| Py.In | backend/app/core/a2ui_converter.py:85-87 | `key in v` is key membership on a dict, and raises exactly when `v` is not a dict, string or list |
| Py.Float | backend/app/agent/tools.py:20-21 | `float()` keeps an int's or float's value and raises on None |
| Py.StrList | backend/app/core/config.py:18 | A list of strings becomes a JSON list with the same strings in order |
| Triage.MissingFields | backend/app/agent/tools.py:9-14 | The reported fields are exactly the required fields the check finds missing, never more than five |
| Triage.MissingFieldsInOrder | backend/app/agent/tools.py:9-14 | The report lists the missing required fields in the order of the required-field list, each once |
| Triage.Clarification | backend/app/agent/tools.py:39-43 | The question starts with the fixed prefix and ends with a period |
| Triage.ClarificationBodyIsList | backend/app/agent/tools.py:43 | Between the prefix and the period sits the ", "-joined field list |
| Triage.ClarificationListsFields | backend/app/agent/strands_service.py:95-100 | Splitting the question's list on commas and stripping recovers the missing fields exactly (inverse of the join) |
| Strings.JoinCommaSpace | backend/app/agent/tools.py:43 | A ", "-join equals a ","-join of the names with a space put in front of all but the first |
| Strings.SpaceLed | backend/app/agent/tools.py:43 | The first name is kept and every later name gets one leading space |
| Strings.StripSpaceLed | backend/app/core/config.py:18 | Stripping undoes the leading space on a plain field name |
| Strings.SpaceLedHasNoComma | backend/app/agent/tools.py:43 | A space-led plain name contains no comma, so a split cannot cut it |
| Strings.SplitStripCommaSpace | backend/app/core/config.py:17-18 | A ", "-joined list of plain names, split on commas with each piece stripped, gives the names back (inverse of the join) |
| LegacyTools.ValidateClaim | backend/app/agent/tools.py:4-14 | A field is reported exactly when it is required and falsy; the list is empty exactly when every required field is truthy |
| LegacyTools.ValidateClaimInOrder | backend/app/agent/tools.py:9-14 | The falsy required fields are reported in the required-field order, with no duplicates |
| LegacyTools.ZeroAmountIsMissing | backend/app/agent/tools.py:12 | A zero amount counts as missing under the falsy check |
| LegacyTools.BlankStringIsPresent | backend/app/agent/tools.py:12 | A non-empty string counts as present, even one that is only white space |
| LegacyTools.AssessRisk | backend/app/agent/tools.py:23-27 | HIGH exactly when the amount exceeds 500000 or the score exceeds 0.7; LOW exactly when neither exceeds 50000 / 0.4 |
| LegacyTools.AssessRiskMonotone | backend/app/agent/tools.py:23-27 | Raising the amount or the fraud score never lowers the tier |
| LegacyTools.AssessRiskBoundaries | backend/app/agent/tools.py:23-27 | All comparisons are strict: each threshold itself falls in the lower tier |
| LegacyTools.AssessRiskData | backend/app/agent/tools.py:16-21 | The tier is the one for the amount and score, absent ones read as 0 (so both absent is LOW); it succeeds exactly when both convert to float; a fraud score above 0.7 is HIGH whatever the amount; a present None raises |
| LegacyTools.SummarizeForApprover | backend/app/agent/tools.py:29-37 | The template summary exists exactly when the risk can be assessed; it starts "Claim for " and ends with that tier |
| LegacyTools.SummaryText | backend/app/agent/tools.py:34-37 | The template always opens with "Claim for " and closes with the tier's "Risk Level" sentence, whatever facts fill it |
| LegacyTools.CreateClaimDraft | backend/app/agent/tools.py:45-58 | The draft action is a flat dictionary with the action name and the four facts |
| LegacyAgent.MissingOfClaim | backend/app/agent/service.py:15-25 | For a stored claim, the falsy check reports exactly an empty policy number, a zero amount, no date, or an absent or empty description |
| LegacyAgent.ProcessClaim | backend/app/agent/service.py:11-58 | Missing fields give REQUEST_INFO with the clarification and the fields; a complete claim goes READY_FOR_APPROVAL with its assessed tier, or raises when it has no fraud score |
| LegacyAgent.ZeroAmountRequestsInfo | backend/app/agent/service.py:25-33 | A zero-amount claim is always sent back for information, listing claim_amount |
| LegacyAgent.TemplateSummaryUnreachable | backend/app/agent/service.py:44-48 | With the real client, which never raises, the summary is the completion's content or "Summary generation failed.", never the template |
| LlmLite.NonSelf | backend/app/agent/llmlite.py:26-27 | Dropping `self` keeps every other parameter and changes nothing when there is no `self` |
| LlmLite.ParamsSchema | backend/app/agent/llmlite.py:21-30 | The parameters object has one string property per name and requires exactly those names, in order |
| LlmLite.FunctionObject | backend/app/agent/llmlite.py:34-38 | The function object carries the tool's name and description and the parameters object of its non-self parameters |
| LlmLite.ToOpenAiTool | backend/app/agent/llmlite.py:32-39 | The schema is a "function" tool whose function object is the one above |
| LlmLite.ToolParameters | backend/app/agent/llmlite.py:18-39 | The schema declares exactly the non-self parameters, each a string, and requires all of them |
| LlmLite.StrItemsStrList | backend/app/agent/llmlite.py:30 | The strings of a JSON string list are the strings it was built from |
| LlmLite.RequiredIsSignature | backend/app/agent/llmlite.py:26-30 | The schema's required list reads back as exactly the signature's parameters, in order |
| LlmLite.GenerateResponse | backend/app/agent/llmlite.py:49-79 | The reply is {content, tool_calls} from the first choice, or {error} exactly when the call failed |
| StrandsTools.ValidateClaim | backend/app/agent/strands_service.py:26-45 | A field is reported exactly when it is required and None, absent, or a blank string |
| StrandsTools.ValidateClaimInOrder | backend/app/agent/strands_service.py:33-44 | The missing required fields are reported in the required-field order, with no duplicates |
| StrandsTools.MissingIffNoneOrBlank | backend/app/agent/strands_service.py:40-44 | Missing means absent, None, or a string that strips to empty, and nothing else |
| StrandsTools.ZeroAmountIsPresent | backend/app/agent/strands_service.py:42-43 | A zero amount counts as present under this validator |
| StrandsTools.AssessRisk | backend/app/agent/strands_service.py:58-66 | HIGH exactly when the amount exceeds 100000 or the score 0.7; LOW exactly when neither exceeds 10000 / 0.4 |
| StrandsTools.AssessRiskMonotone | backend/app/agent/strands_service.py:60-66 | Raising the amount or the fraud score never lowers the tier |
| StrandsTools.AssessRiskData | backend/app/agent/strands_service.py:58-61 | The tier is the one for the amount and score, absent ones read as 0 (so both absent is LOW); it succeeds exactly when both convert to float; an amount above 250,000 is HIGH whatever the score; a present None raises |
| StrandsTools.RequestApproval | backend/app/agent/strands_service.py:69-92 | The interrupt is named "claim-approval" and carries the claim id, tier, summary and amount as its reason |
| StrandsTools.CreateClaimDraft | backend/app/agent/strands_service.py:103-132 | The draft action nests exactly the four facts under "data" |
| Actions.LegacyActionsRoundTrip | backend/app/agent/tools.py:45-71 | Every action the first tool set builds decodes back to the call that built it |
| Actions.StrandsActionsRoundTrip | backend/app/agent/strands_service.py:124-147 | Every action the second tool set builds decodes back to the call that built it |
| Actions.DraftShapesAgree | backend/app/agent/strands_service.py:124-132 | The nested draft carries the same four facts as the flat draft of the first tool set |
| RiskDrift.StrandsAtLeastAsSevere | backend/app/agent/strands_service.py:60-66 | The Strands tier is never lower than the first tool set's tier for the same inputs |
| RiskDrift.TiersDisagreeIff | backend/app/agent/tools.py:23-27 | The two tiers differ exactly on the amount and score bands between their thresholds |
| RiskDrift.SeedScenarioOne | backend/seed_test_data.py:81-92 | The seed's "low risk" claim ($15,000, score 0.1) is LOW for the first tool set but MEDIUM for the Strands one |
| RiskDrift.SeedScenarioFive | backend/seed_test_data.py:133-154 | The seed's "medium" claim ($125,000, score 0.4) is MEDIUM for the first tool set but HIGH for the Strands one |
| RiskDrift.ValidatorsDisagreeIff | backend/app/agent/strands_service.py:40-44 | The validators disagree on a field exactly when its value is falsy but neither None nor a string (zero, False, an empty list or dict), or a non-empty string of white space only |
| StrandsAgent.AgentData | backend/app/agent/strands_service.py:240-248 | The agent's dictionary holds every fact of the claim dictionary unchanged, plus the claim id |
| StrandsAgent.AgentDataFields | backend/app/agent/strands_service.py:240-248 | The validator reads the policy, type value, amount, and optional date and description from it |
| StrandsAgent.MissingOfFields | backend/app/agent/strands_service.py:40-44 | On those values a field is reported exactly when the claim lacks it or holds a blank string |
| StrandsAgent.MissingOfClaim | backend/app/agent/strands_service.py:40-44 | For a stored claim, the Strands validator reports exactly a blank policy number, or a missing or blank date or description |
| StrandsAgent.StringField | backend/app/agent/strands_service.py:43 | A string field is missing exactly when it is blank |
| StrandsAgent.NullField | backend/app/agent/strands_service.py:43 | A None field is always missing |
| StrandsAgent.NumberField | backend/app/agent/strands_service.py:43 | A number is never missing, zero included |
| StrandsAgent.OnlyRequiredReported | backend/app/agent/strands_service.py:33-40 | Fields outside the required five are never reported |
| StrandsAgent.OptionalField | backend/app/agent/strands_service.py:43 | An optional string field is missing exactly when it is None or blank |
| StrandsAgent.TypeNamePresent | backend/app/agent/strands_service.py:243 | The claim type is never reported missing |
| StrandsAgent.IncidentDateField | backend/app/agent/strands_service.py:245 | The incident date is reported missing exactly when the claim has none |
| StrandsAgent.ObedientRun | backend/app/agent/strands_service.py:221-229 | An agent that follows its prompt stops on an approval interrupt exactly when nothing is missing and the tier is MEDIUM or HIGH |
| StrandsAgent.ObedientSubmit | backend/app/services/claim_service.py:74-97 | With that agent, submission waits for an approver exactly for complete MEDIUM/HIGH claims, with the interrupt id and tier recorded; otherwise it approves |
| StrandsAgent.SeedScenarioOneWaits | backend/seed_test_data.py:81-92 | The seed claim labelled "auto-approve" in fact waits for an approver |
| StrandsAgent.MissingDescriptionAutoApproved | backend/app/services/claim_service.py:92-97 | A claim with no description is auto-approved by submission even with an obedient agent |
| DbTools.NewestOwned | backend/app/agent/strands_service.py:341 | The listing holds only the user's stored claims, at most the limit of them |
| DbTools.NewestOwnedDescending | backend/app/agent/strands_service.py:341 | The listing is newest first: ids strictly decrease |
| DbTools.NewestOwnedComplete | backend/app/agent/strands_service.py:341 | A listing shorter than the limit misses none of the user's claims |
| DbTools.ListUserClaimsTool | backend/app/agent/strands_service.py:335-362 | "No claims found." exactly when the user owns no claim; otherwise a claims_list of one row per listed claim |
| DbTools.CreateClaimDraftTool | backend/app/agent/strands_service.py:366-393 | The tool succeeds exactly when the upper-cased type names a claim type. The draft belongs to the user, is DRAFT with amount 0.0 and the current time as its date, and gets a fresh id. An unknown type is still committed under a fresh id, and reading it back raises LookupError |
| DbTools.UnknownTypeConsumesId | backend/app/agent/strands_service.py:375-388 | A draft with an unknown type leaves its row behind and uses up an id, so the next good draft gets the id after it |
| DbTools.VehicleIsUnknown | backend/app/agent/strands_service.py:375 | "vehicle" upper-cases to a name that is not a claim type |
| DbTools.LowerCaseTypeAccepted | backend/app/agent/strands_service.py:375 | A lower-case type name is upper-cased and accepted |
| DbTools.NewestWithPolicy | backend/app/agent/strands_service.py:401 | The user's newest claim under a policy number, or None exactly when the user has no such claim |
| DbTools.GetClaimDetailsTool | backend/app/agent/strands_service.py:395-420 | A truthy id wins over the policy number; a missing claim, a foreign claim and no key each get their text; a user only ever sees their own claim |
| DbTools.ClaimFormSchema | backend/app/agent/strands_service.py:422-436 | The creation form is a form_schema for create_claim with four fields |
| DbTools.UpdateFormSchema | backend/app/agent/strands_service.py:438-453 | The update form exists exactly for the user's own claims and shows their current amount and description |
| DbTools.ToolPatch | backend/app/agent/strands_service.py:460-464 | Any non-None amount is patched, but only a non-empty description |
| DbTools.UpdateClaimTool | backend/app/agent/strands_service.py:455-479 | Foreign or missing claims are refused unchanged; otherwise the service update applies and its refusal becomes text |
| DbTools.UpdateToolKeepsDescriptionOnEmpty | backend/app/agent/strands_service.py:461-464 | An empty description leaves the stored one, while an amount (zero too) overwrites |
| DbTools.SubmitClaimTool | backend/app/agent/strands_service.py:481-498 | The tool submits through the service whoever owns the claim, reports the service's exception as text, and on success gives the new status and summary |
| ClaimService.CreateClaim | backend/app/services/claim_service.py:19-25 | Creation always succeeds: a DRAFT claim owned by the creator, under a fresh id, with the logs untouched |
| ClaimService.UpdateClaim | backend/app/services/claim_service.py:27-48 | Succeeds exactly for a DRAFT or NEEDS_MORE_INFO claim; None values are skipped and the status never changes; a refusal changes nothing |
| ClaimService.FirstApproval | backend/app/services/claim_service.py:75-77 | Finds the first interrupt whose name is an approval name, or none when no interrupt has one |
| ClaimService.WithInterrupt | backend/app/services/claim_service.py:82-84 | The metadata gains the interrupt id and reason and keeps every other key |
| ClaimService.Settle | backend/app/services/claim_service.py:74-97 | PENDING_APPROVAL with the first approval interrupt recorded exactly when the run stopped on one; APPROVED otherwise |
| ClaimService.SubmitClaim | backend/app/services/claim_service.py:50-97 | A missing or non-DRAFT claim is refused with nothing changed; a raising agent leaves it UNDER_AGENT_REVIEW; a finished run adds one audit and ends PENDING_APPROVAL or APPROVED |
| ClaimService.ShouldResume | backend/app/services/claim_service.py:108-112 | The agent is resumed exactly for a non-empty string interrupt id not starting "test-"; a truthy non-string id raises |
| ClaimService.ResumeAudits | backend/app/services/claim_service.py:112-131 | A resumed agent adds exactly one audit entry; a skipped or failed resume adds none |
| ClaimService.ApproveReason | backend/app/services/claim_service.py:141 | The logged reason is never empty: the given one when non-empty, else the default |
| ClaimService.ApproveClaim | backend/app/services/claim_service.py:99-147 | Succeeds exactly on a PENDING_APPROVAL claim with a readable interrupt id; then APPROVED, approver assigned, one APPROVED decision logged; a missing claim raises a non-ValueError |
| ClaimService.RejectClaim | backend/app/services/claim_service.py:149-197 | As approval, ending REJECTED with the reason passed through as given |
| ClaimService.RequestMoreInfo | backend/app/services/claim_service.py:199-228 | Succeeds exactly on a PENDING_APPROVAL claim; then NEEDS_MORE_INFO, one decision and one approver message logged |
| ClaimService.ResumeOnlyTouchesAudit | backend/app/services/claim_service.py:129-131 | Whether the resume succeeds or fails changes nothing but the audit trail |
| ClaimService.DecisionMatchesStatus | backend/app/services/claim_service.py:133-143 | Every decision a verdict logs names the status the claim is left in |
| ClaimService.ClaimMessages | backend/app/services/claim_service.py:243-248 | All and only the claim's messages |
| ClaimService.ClaimDecisions | backend/app/services/claim_service.py:250-255 | All and only the claim's decisions |
| ClaimService.ClaimAudit | backend/app/services/claim_service.py:257-262 | All and only the claim's audit entries |
| ClaimService.VerdictExtendsHistory | backend/app/services/claim_service.py:137-143 | An approval appends exactly its decision to that claim's history and leaves every other claim's history unchanged |
| ClaimService.ClaimMessagesGrow | backend/app/services/claim_service.py:243-248 | Messages appended under a claim join the end of its message list, in order |
| ClaimService.RequestInfoExtendsMessages | backend/app/services/claim_service.py:219-225 | A request for information appends exactly one approver message to the claim's chat |
| Lifecycle.SettleCarriesInterrupt | backend/app/services/claim_service.py:79-84 | A claim that submission leaves pending always records its interrupt id as a string |
| Lifecycle.CreateKeepsInv | backend/app/services/claim_service.py:19-25 | Creation keeps the store invariant and moves no claim off the allowed steps |
| Lifecycle.UpdateKeepsInv | backend/app/services/claim_service.py:27-48 | Update keeps the invariant and moves no status |
| Lifecycle.SubmitKeepsInv | backend/app/services/claim_service.py:50-97 | Submission keeps the invariant and moves DRAFT only to review, pending or approved |
| Lifecycle.ApproveKeepsInv | backend/app/services/claim_service.py:99-147 | Approval keeps the invariant and moves only pending claims |
| Lifecycle.RejectKeepsInv | backend/app/services/claim_service.py:149-197 | Rejection keeps the invariant and moves only pending claims |
| Lifecycle.RequestInfoKeepsInv | backend/app/services/claim_service.py:199-228 | A request for information keeps the invariant and moves only pending claims |
| Lifecycle.ApplyKeepsInv | backend/app/services/claim_service.py:19-228 | Every service operation keeps the invariant and moves each claim along the allowed steps |
| Lifecycle.StepThenReachable | backend/app/services/claim_service.py:56-57 | An allowed step followed by a reachable move is reachable |
| Lifecycle.RunKeepsInv | backend/app/services/claim_service.py:19-228 | Any sequence of operations keeps the invariant, keeps every claim, and moves each only to statuses reachable from where it was |
| Lifecycle.StuckUnderReview | backend/app/services/claim_service.py:59-64 | A claim left UNDER_AGENT_REVIEW by a raising agent never moves again |
| Lifecycle.PendingVerdictSucceeds | backend/app/services/claim_service.py:104-112 | Under the invariant, approving or rejecting a pending claim always succeeds |
| Lifecycle.FinalStatuses | backend/app/services/claim_service.py:36-37 | APPROVED, REJECTED and NEEDS_MORE_INFO are never left by any operation |
| Lifecycle.PendingOnlyFromApprovalInterrupt | backend/app/services/claim_service.py:75-79 | A claim reaches PENDING_APPROVAL only by a run that stopped on an approval interrupt |
| Lifecycle.SubmitNeverNeedsMoreInfo | backend/app/services/claim_service.py:92-97 | Submission never yields NEEDS_MORE_INFO, whatever the agent did |
| ClaimsApi.Answer | backend/app/api/endpoints/claims.py:64-67 | A ValueError becomes 400 with its message, any other exception 500, and success returns the claim |
| ClaimsApi.CreateEndpoint | backend/app/api/endpoints/claims.py:12-19 | Anyone may create, and the claim is a DRAFT owned by the caller |
| ClaimsApi.ListEndpoint | backend/app/api/endpoints/claims.py:21-31 | Reviewers list every claim; any other caller with a non-zero id exactly their own |
| ClaimsApi.ReadEndpoint | backend/app/api/endpoints/claims.py:33-48 | The claim is returned exactly when it exists and the caller is a reviewer or its owner; 404 exactly when missing, else 403 |
| ClaimsApi.UpdateEndpoint | backend/app/api/endpoints/claims.py:50-67 | 404 exactly for a missing claim, 403 exactly for one the caller neither owns nor administers, and 400 exactly for an owned or administered claim not in DRAFT or NEEDS_MORE_INFO; any refusal changes nothing. Otherwise it succeeds, writes the requested description (an absent one keeps the old), and changes neither the amount nor the status |
| ClaimsApi.SubmitEndpoint | backend/app/api/endpoints/claims.py:69-80 | No permission check; 400 exactly for a missing or non-DRAFT claim or an agent ValueError |
| ClaimsApi.Guarded | backend/app/api/endpoints/claims.py:89-90 | A non-reviewer gets 403 with the store untouched; a reviewer gets the service's answer |
| ClaimsApi.ApproveEndpoint | backend/app/api/endpoints/claims.py:82-95 | 403 exactly for non-reviewers; success means APPROVED with the caller assigned; a missing claim gives 500 |
| ClaimsApi.RejectEndpoint | backend/app/api/endpoints/claims.py:97-110 | 403 exactly for non-reviewers; success means REJECTED with the caller assigned; a missing claim gives 500 |
| ClaimsApi.RequestInfoEndpoint | backend/app/api/endpoints/claims.py:112-126 | 403 exactly for non-reviewers; success means NEEDS_MORE_INFO with the caller assigned; a missing claim gives 500 |
| ClaimsApi.MessagesEndpoint | backend/app/api/endpoints/claims.py:128-136 | Only messages of the requested claim are returned, to any caller |
| ClaimsApi.DecisionsEndpoint | backend/app/api/endpoints/claims.py:138-146 | Only decisions on the requested claim are returned, to any caller |
| ClaimsApi.AuditEndpoint | backend/app/api/endpoints/claims.py:148-158 | Exactly admins get the claim's audit trail; everyone else gets 403 "Admin access required" |
| ClaimsApi.ReviewerSettlesPendingClaim | backend/app/api/endpoints/claims.py:82-126 | Under the lifecycle invariant, a reviewer's verdict on a pending claim succeeds on all three endpoints |
| Config.CorsPieces | backend/app/core/config.py:18 | One piece per comma plus one, each the stripped text between commas |
| Config.AssembleCorsOrigins | backend/app/core/config.py:15-21 | A string not starting "[" is split on commas; a list or "["-string passes through; anything else raises ValueError |
| Config.EmptySettingIsOneEmptyOrigin | backend/app/core/config.py:17-18 | An empty setting yields one empty origin, not an empty list |
| Config.CommaListRoundTrip | backend/app/core/config.py:17-18 | Origins joined with "," are read back exactly |
| Config.CommaSpaceListRoundTrip | backend/app/core/config.py:17-18 | Origins joined with ", " are read back exactly |
| A2UI.StatusColor | backend/app/core/a2ui_converter.py:167-172 | A string status gets its table colour; an unhashable status raises; anything else is gray |
| A2UI.StatusIcon | backend/app/core/a2ui_converter.py:174-179 | A string status gets its table icon; an unhashable status raises; anything else gets the clipboard icon |
| A2UI.IconsIdentifyStatus | backend/app/core/a2ui_converter.py:174-179 | Each status has its own icon, and the fallback icon marks exactly the unknown statuses |
| A2UI.ColorsIdentifyStatus | backend/app/core/a2ui_converter.py:167-172 | Distinct statuses get distinct colours; gray means DRAFT or unknown |
| A2UI.Card | backend/app/core/a2ui_converter.py:131-140 | A row that is a dict with a hashable status (default DRAFT) gives a status card with that status and a description falling back to the amount; anything else raises |
| A2UI.CardsOf | backend/app/core/a2ui_converter.py:129-140 | The card loop gives one card per row, in order |
| A2UI.CardsOfOkIff | backend/app/core/a2ui_converter.py:129-140 | The card loop succeeds exactly when every row is a dict with a hashable status |
| A2UI.Cards | backend/app/core/a2ui_converter.py:129-131 | Iterating a non-list succeeds only on an empty dict or empty string, with no cards |
| A2UI.ProcessData | backend/app/core/a2ui_converter.py:116-165 | A non-dict raises; for a dict, no component exactly when the intent is unknown; only the card intent can raise; every component is a typed dict |
| A2UI.TableKeepsRows | backend/app/core/a2ui_converter.py:120-126 | A table intent always converts, with the five fixed columns and the data rows unchanged |
| A2UI.CardsPerRow | backend/app/core/a2ui_converter.py:128-145 | A card intent converts exactly when every row is a valid card row, one card per row |
| A2UI.MissingStatusIsDraft | backend/app/core/a2ui_converter.py:132 | A row without Status shows DRAFT, in gray, with the DRAFT icon |
| A2UI.FormsKeepFields | backend/app/core/a2ui_converter.py:147-163 | Both form intents give a submit-labelled, full-width form card with the given fields |
| A2UI.Fence | backend/app/core/a2ui_converter.py:37 | The removed text is the block glued between "```json" and "```" |
| A2UI.ScanBlock | backend/app/core/a2ui_converter.py:33-41 | One block never lengthens the text and adds at most one component after the ones collected |
| A2UI.ScanBounds | backend/app/core/a2ui_converter.py:33-41 | The block loop never lengthens the text, keeps earlier components, and adds at most one per block |
| A2UI.InertBlocksChangeNothing | backend/app/core/a2ui_converter.py:35-36 | Blocks that do not load to a dict with an intent leave the text and components alone |
| A2UI.Item | backend/app/core/a2ui_converter.py:84-89 | An item with "type" is kept as is, else one with an intent is converted, else skipped; a failing `in` raises |
| A2UI.Gather | backend/app/core/a2ui_converter.py:83-89 | The component loop yields at most one component per item, each one the conversion of some item; a first item that raises yields nothing |
| A2UI.TypedItemsVerbatim | backend/app/core/a2ui_converter.py:99-101 | Items that all carry "type" come through verbatim and in order |
| A2UI.ConvertingItemsAllKept | backend/app/core/a2ui_converter.py:83-89 | When every item converts to a component, each item's component is kept, in item order |
| A2UI.ProducedComponentIsTyped | backend/app/core/a2ui_converter.py:84-86 | A component the converter built passes through the component loop unchanged |
| A2UI.GatherStopsAtError | backend/app/core/a2ui_converter.py:111-114 | An item that raises discards itself and everything after it, keeping the earlier components |
| A2UI.ReplacedText | backend/app/core/a2ui_converter.py:94-95 | A truthy replacementText replaces the text; otherwise the text is kept |
| A2UI.FromObject | backend/app/core/a2ui_converter.py:92-109 | A dict reply gives its replacement text, and is itself the component when it has "type" but no component list |
| A2UI.Smart | backend/app/core/a2ui_converter.py:46-114 | Step 2 never raises: a raising parser or unparsable reply keeps the text and gives no components |
| A2UI.ExtractAndConvert | backend/app/core/a2ui_converter.py:22-114 | When a fenced block yields a component, step 1's result is returned and the parser is not used; otherwise the parser step runs on the text step 1 left, and a raising parser leaves that text with no component |
| A2UI.BlocksWinOverParser | backend/app/core/a2ui_converter.py:43-44 | Once a fenced block yields a component, the parser's reply makes no difference, and the text only shrinks |
| A2UI.NothingToConvert | backend/app/core/a2ui_converter.py:27-44 | With no intent-carrying block and a raising parser, the reply text comes back unchanged with no components |
| A2UI.ParserComponentsVerbatim | backend/app/core/a2ui_converter.py:98-101 | A parser reply listing finished components yields exactly those components |
| A2UI.FencedWithNewlinesStays | backend/app/core/a2ui_converter.py:31-37 | A block wrapped in newlines inside its fence is converted, but the fenced text stays in the reply |
| A2UI.FenceNotInWrapped | backend/app/core/a2ui_converter.py:37 | The glued fence never occurs in the newline-wrapped text |
| ChatService.ErrorAnswer | backend/app/services/chat_service.py:104-130 | The alerts error keeps its components with the internal-error text; a rate limit gives the busy card; anything else gives the error card |
| ChatService.GeneralAnswer | backend/app/services/chat_service.py:100-102 | A blank text with components becomes the fallback sentence; a non-string text raises on `strip` and is answered as an error |
| ChatService.AgentAnswer | backend/app/services/chat_service.py:40-130 | In claim chat a missing or foreign claim is an error reply; an agent failure is an error reply; general chat always answers with text |
| ChatService.AgentMessage | backend/app/services/chat_service.py:132-143 | The agent's message is filed under the user exactly in general chat, and has no sender in claim chat |
| ChatService.ContentText | backend/app/models/audit.py:36 | The text column keeps a string as is and a number or boolean as its text (an integer's digits read back as its value); None, a list, a dict or an integer beyond 64 bits cannot be stored |
| ChatService.Record | backend/app/services/chat_service.py:27-35 | The user's message is always stored first; the agent's message follows exactly when the column can take its text, always for a string, never for None, a list or a dict; nothing but messages changes |
| ChatService.SendMessage | backend/app/services/chat_service.py:18-151 | One send stores the user's message then the agent's and returns the two. It can fail only in claim chat. In the model nothing else changes |
| ChatService.GetMessages | backend/app/services/chat_service.py:153-186 | Claim chat returns only that claim's messages; general chat only the user's; errors exactly for a missing or foreign claim with a user id, or no user id in general chat |
| ChatService.ClearMessages | backend/app/services/chat_service.py:188-210 | Refused exactly for a claim chat the caller does not own; otherwise only messages are removed |
| ChatService.ForeignClaimGetsErrorReply | backend/app/services/chat_service.py:41-48 | A send on a missing or foreign claim still succeeds, answered with the generic error card |
| ChatService.AccessErrorsAreGeneric | backend/app/services/chat_service.py:124-130 | The two access errors are answered with the generic error text and card |
| ChatService.PlainValueErrorIsGeneric | backend/app/services/chat_service.py:112-130 | A ValueError whose message cannot match the alert or rate-limit tests gets the generic reply |
| ChatService.NotRateLimited | backend/app/services/chat_service.py:114 | A ValueError message with no digit and no "Quota" is not read as rate limiting |
| ChatService.GeneralSendShowsInOwnHistoryOnly | backend/app/services/chat_service.py:173-182 | After a general send, the sender's history gains exactly the two messages and another user's history is unchanged |
| ChatService.ClaimSendShowsInClaimHistory | backend/app/services/chat_service.py:159-171 | After a claim-chat send, the claim's history gains exactly the two messages |
| ChatService.ZeroClaimIdHiddenFromChat | backend/app/services/chat_service.py:41 | A send with claim id 0 is stored under claim 0. No chat history query (`get_messages`) shows it, but the claims endpoint's message list for claim 0 gains both messages |
| ChatService.ClearClaimChat | backend/app/services/chat_service.py:194-201 | Clearing a claim chat empties it and leaves every other claim's chat as it was |
| ChatService.ClearGeneralChat | backend/app/services/chat_service.py:203-207 | Clearing general chat empties the caller's and leaves other users' and every claim chat as they were |
| ChatService.FallbackOnlyInGeneralChat | backend/app/services/chat_service.py:100-102 | The fallback sentence replaces a blank answer in general chat but not in claim chat |

## Left out

- Database mechanics are not modelled. SQL queries, sessions, commits, refreshes and `created_at` timestamps are left out. The store orders records by creation (claim id, position in each log), so ties between equal timestamps are not modelled.
- The LLM calls are parameters: the agent runs, the prompts, the resume call and the parser agent. Their outputs can be anything. What an agent actually does is only examined under the explicit obedient-agent hypothesis in `StrandsAgent.ObedientRun`.
- The fenced-block regex of the converter's step 1 is not modelled. The captured block bodies are an input, and the model covers what the loop does with them.
- `json.loads` and `json.dumps` are modelled as follows:
  - loading is a parameter;
  - a dumped reply is modelled as the dictionary it serialises;
  - the serialised text, its key order and float formatting are left out.
- `str()` of floats, lists and dicts in f-strings is a parameter (`showOther`).
- Enum members are rendered as their value.
- Upper-casing in the draft tool covers ASCII letters only.
- `float()` of numeric strings is not modelled. Strings are treated as raising. The claim dictionaries never hold amounts as strings.
- The `print` calls and debug file writes in the converter, the LLM wrapper and the claim service are left out.
- The chat service's debug writes to `backend/debug_history.txt` (chat_service.py:56, 82) sit inside its `try`. If the file cannot be opened (for example, no `backend/` directory under the working directory), the exception replaces the agent's result and is answered as an error reply. The model covers that case as a raising run (`ChatRaised`), since the run's outcome is a parameter.
- The handler's own write to `debug_log.txt` (chat_service.py:109) is not modelled. If it fails, the send raises after the user's message is stored, and no agent message is stored.
- The tool data collected from the agent's history in chat only feeds the parser agent's prompt, so it is part of the parser reply. `json` is not imported in the chat service, so its `json.loads` there always falls back to the raw value. That changes nothing in the model.
- ClaimService.SubmitClaim: the database tools the agent is given during the run (strands_service.py:207-219) are not replayed into the store. Among them, `submit_claim_tool` submits any claim without an owner check (strands_service.py:481-498). The frame ensures (other claims, messages, decisions and the id counter unchanged) hold only because the modelled run has no store effects. `Lifecycle.SubmitKeepsInv` and `Lifecycle.RunKeepsInv` rest on the same assumption.
- ChatService.SendMessage: both chat paths give the agent the database tools (strands_service.py:207-219 for claim chat, 520-530 for general chat). Those tools create, update and submit claims. Their calls during a chat are not replayed into the store. The frame ensures (claims, id counter, decisions and audits unchanged) hold only in the model, because of that. The database tools are modelled separately in `DbTools`.
- DbTools.CreateClaimDraftTool: the row of an unknown type is kept in `Store.rawTypes`, apart from `claims`. In the source, every later query that loads that row raises LookupError. Examples are the claim listings, the details lookup and the submit tool; the list tool turns the error into its "Error listing claims" text. The model's operations read `claims` only, so they do not raise on it.
- The `try`/`except` around "Error listing claims" in the list tool is not modelled. Reading stored claims cannot fail in the model.
- The resume path refers to `ClaimApprovalHook`, which is not defined anywhere, so every real resume raises `NameError`. The service swallows that failure. The model treats the outcome as the `ResumeCall` parameter, and `ClaimService.ResumeOnlyTouchesAudit` shows the outcome matters only to the audit trail.
- `ClaimReviewRequest` and `ClaimRequestInfoRequest` are imported from `app.schemas.claim` by the claims endpoints but are not defined there. That import raises `ImportError`. The router imports the endpoints (router.py:5) and the application imports the router (main.py:4), so the application as written cannot start. `ClaimsApi` models what the endpoints evidently intend: the reason is an optional string and the requested information is a string.
- Response-model validation of endpoint answers is not modelled (for example a `None` fraud score against `fraud_risk_score: float`). Nor is the user-id lookup of the current user.
- ClaimsApi.UpdateEndpoint: an explicit `null` description and an absent one are treated alike, both skipped. The service skips `None` values either way.
- ChatService.ContentText: the default database is SQLite (config.py:24). The text SQLite makes of a float is a parameter (`realText`). The exception kinds for values it cannot store are approximations of the driver's and SQLAlchemy's.
- Claims.Timestamp: a stored incident date is rendered as text starting with a digit. Its exact format is not modelled.
- User and authentication models, the chat endpoints, the seed scripts and the application setup are outside this model.
