/** The tools the Strands agent gets for the signed-in user: listing,
    creating, reading, updating and submitting that user's claims.  Each
    returns text for the model; a JSON reply is modelled as the dictionary
    it serialises, leaving out the serialised text. */
module DbTools {
  import opened Wrappers
  import opened Json
  import opened Py
  import opened Strings
  import opened Claims
  import opened Store
  import opened ClaimService

  /** What a tool hands back: plain text, or the dictionary behind `json.dumps`. */
  datatype ToolReply = Text(text: string) | Payload(fields: map<string, Json>)

  const ListLimit: nat := 10

  /** The user's claims with id at most `k`, newest first, at most `limit` of them. */
  function NewestOwned(claims: map<int, Claim>, user: int, k: int, limit: nat): (r: seq<Claim>)
    ensures |r| <= limit
    ensures forall i :: 0 <= i < |r| ==> r[i].id in claims && claims[r[i].id] == r[i]
    ensures forall i :: 0 <= i < |r| ==> r[i].createdById == user && 1 <= r[i].id <= k
    decreases k
  {
    if k < 1 || limit == 0 then []
    else if k in claims && claims[k].createdById == user && claims[k].id == k then
      [claims[k]] + NewestOwned(claims, user, k - 1, limit - 1)
    else NewestOwned(claims, user, k - 1, limit)
  }

  /** Ids strictly decrease along the sequence: newest first. */
  predicate NewestFirst(r: seq<Claim>) {
    forall i, j :: 0 <= i < j < |r| ==> r[i].id > r[j].id
  }

  /** The listing is newest first. */
  lemma {:induction false} NewestOwnedDescending(claims: map<int, Claim>, user: int, k: int, limit: nat)
    ensures NewestFirst(NewestOwned(claims, user, k, limit))
    decreases k
  {
    if k >= 1 && limit > 0 {
      if k in claims && claims[k].createdById == user && claims[k].id == k {
        var rest := NewestOwned(claims, user, k - 1, limit - 1);
        NewestOwnedDescending(claims, user, k - 1, limit - 1);
        var r := [claims[k]] + rest;
        forall i, j | 0 <= i < j < |r|
          ensures r[i].id > r[j].id
        {
          assert r[j] == rest[j - 1] && rest[j - 1].id <= k - 1;
          if i == 0 {
            assert r[0] == claims[k];
          } else {
            assert r[i] == rest[i - 1];
          }
        }
      } else {
        NewestOwnedDescending(claims, user, k - 1, limit);
      }
    }
  }

  /** A listing shorter than the limit misses none of the user's claims with
      id at most `k`. */
  lemma {:induction false} NewestOwnedComplete(claims: map<int, Claim>, user: int, k: int, limit: nat, id: int)
    requires |NewestOwned(claims, user, k, limit)| < limit
    requires 1 <= id <= k && id in claims && claims[id].id == id && claims[id].createdById == user
    ensures claims[id] in NewestOwned(claims, user, k, limit)
    decreases k
  {
    if id < k {
      if k in claims && claims[k].createdById == user && claims[k].id == k {
        NewestOwnedComplete(claims, user, k - 1, limit - 1, id);
      } else {
        NewestOwnedComplete(claims, user, k - 1, limit, id);
      }
    }
  }

  /** One row of the claims list. */
  function Row(c: Claim): map<string, Json> {
    map["id" := JInt(c.id), "policy" := JStr(c.policyNumber), "claim_type" := JStr(Claims.TypeName(c.claimType)),
        "status" := JStr(StatusName(c.status)), "amount" := JReal(c.claimAmount),
        "description" := OptStr(c.description)]
  }

  /** `list_user_claims_tool`: the user's ten newest claims, newest first, or
      "No claims found." when the user has none. */
  function ListUserClaimsTool(st: Store, user: int, viewType: Json): (r: ToolReply)
    ensures var newest := NewestOwned(st.claims, user, st.nextId - 1, ListLimit);
      && (r.Text? <==> newest == [])
      && (r.Text? ==> r.text == "No claims found.")
      && (r.Payload? ==>
            r.fields.Keys == {"type", "view_preference", "claims"}
            && r.fields["type"] == JStr("claims_list") && r.fields["view_preference"] == viewType
            && r.fields["claims"] == JArr(seq(|newest|, i requires 0 <= i < |newest| => JObj(Row(newest[i])))))
    ensures Valid(st) && r.Text? ==> forall id :: id in st.claims ==> st.claims[id].createdById != user
  {
    var newest := NewestOwned(st.claims, user, st.nextId - 1, ListLimit);
    if newest == [] then
      assert Valid(st) ==> forall id :: id in st.claims ==> st.claims[id].createdById != user by {
        forall id | Valid(st) && id in st.claims
          ensures st.claims[id].createdById != user
        {
          if st.claims[id].createdById == user {
            NewestOwnedComplete(st.claims, user, st.nextId - 1, ListLimit, id);
          }
        }
      }
      Text("No claims found.")
    else
      Payload(map["type" := JStr("claims_list"), "view_preference" := viewType,
                  "claims" := JArr(seq(|newest|, i requires 0 <= i < |newest| => JObj(Row(newest[i]))))])
  }

  /** The type name the draft tool writes: upper-cased, "HEALTH" when empty. */
  function DraftTypeName(claimType: Option<string>): string {
    if claimType.Some? && claimType.value != "" then Upper(claimType.value) else "HEALTH"
  }

  /** `create_claim_draft_tool`: a DRAFT claim owned by the user, with amount
      0.0 and the current time as incident date whatever date was passed; the
      type is upper-cased, "HEALTH" when empty.  An unknown type name is
      written and committed as it is, and reading the row back (`refresh`)
      raises LookupError: the row stays, under the id it consumed. */
  function CreateClaimDraftTool(st: Store, user: int, now: Timestamp, policyNumber: string,
                                claimType: Option<string>, description: string,
                                incidentDate: Option<string>): (r: (Store, Result<ToolReply, PyError>))
    ensures r.1.Ok? <==> ParseType(DraftTypeName(claimType)).Some?
    ensures r.1.Err? ==>
      && r.1.error.kind == "LookupError"
      && r.0 == st.(nextId := st.nextId + 1, rawTypes := st.rawTypes[st.nextId := DraftTypeName(claimType)])
    ensures r.1.Ok? ==>
      && st.nextId in r.0.claims
      && var c := r.0.claims[st.nextId];
      && r.0.claims == st.claims[st.nextId := c]
      && c.status == Draft && c.createdById == user && c.claimAmount == 0.0
      && c.incidentDate == Some(now) && c.policyNumber == policyNumber && c.description == Some(description)
      && r.1.value == Payload(map["type" := JStr("claim_created"), "claim_id" := JInt(st.nextId),
                                  "status" := JStr("DRAFT")])
    ensures r.0.nextId == st.nextId + 1
    ensures r.0.messages == st.messages && r.0.decisions == st.decisions && r.0.audits == st.audits
    ensures Valid(st) ==> st.nextId !in st.claims && Valid(r.0)
  {
    var typeName := DraftTypeName(claimType);
    match ParseType(typeName)
    case None =>
      (st.(nextId := st.nextId + 1, rawTypes := st.rawTypes[st.nextId := typeName]),
       Err(PyError("LookupError", "'" + typeName + "' is not among the defined enum values. Enum name: claimtype. "
                                  + "Possible values: HEALTH, AUTO, PROPERTY")))
    case Some(t) =>
      var o := CreateClaim(st, ClaimCreate(policyNumber, t, 0.0, Some(description), Some(now)), user);
      (o.store, Ok(Payload(map["type" := JStr("claim_created"), "claim_id" := JInt(o.result.value.id),
                               "status" := JStr("DRAFT")])))
  }

  /** An unknown type consumes an id: the row stays behind with its type
      string, and the next draft with a known type gets the following id. */
  lemma UnknownTypeConsumesId(st: Store, user: int, now: Timestamp, policyNumber: string, description: string,
                              bad: Option<string>, good: Option<string>)
    requires ParseType(DraftTypeName(bad)).None? && ParseType(DraftTypeName(good)).Some?
    ensures var r1 := CreateClaimDraftTool(st, user, now, policyNumber, bad, description, None);
      && r1.1.Err?
      && r1.0.rawTypes[st.nextId] == DraftTypeName(bad)
      && var r2 := CreateClaimDraftTool(r1.0, user, now, policyNumber, good, description, None);
      && r2.1 == Ok(Payload(map["type" := JStr("claim_created"), "claim_id" := JInt(st.nextId + 1),
                                "status" := JStr("DRAFT")]))
  {
    var r1 := CreateClaimDraftTool(st, user, now, policyNumber, bad, description, None);
    assert r1.0.nextId == st.nextId + 1;
  }

  /** "vehicle" names no claim type, so a draft of that type is committed and then raises. */
  lemma VehicleIsUnknown()
    ensures DraftTypeName(Some("vehicle")) == "VEHICLE"
    ensures ParseType(DraftTypeName(Some("vehicle"))).None?
  {
    assert Upper("vehicle") == "VEHICLE";
  }

  /** Lower-case type names are accepted. */
  lemma LowerCaseTypeAccepted(st: Store, user: int, now: Timestamp, policyNumber: string,
                              description: string, incidentDate: Option<string>)
    ensures CreateClaimDraftTool(st, user, now, policyNumber, Some("auto"), description, incidentDate).1.Ok?
    ensures CreateClaimDraftTool(st, user, now, policyNumber, Some("auto"), description, incidentDate).0.claims[st.nextId].claimType
            == Auto
  {
    assert Upper("auto") == "AUTO";
  }

  /** The user's newest claim with id at most `k` under a policy number. */
  function NewestWithPolicy(claims: map<int, Claim>, user: int, policy: string, k: int): (r: Option<Claim>)
    ensures r.Some? ==> r.value.id in claims && claims[r.value.id] == r.value && r.value.id <= k
    ensures r.Some? ==> r.value.createdById == user && r.value.policyNumber == policy
    ensures r.Some? ==> forall id :: r.value.id < id <= k && id in claims && claims[id].id == id ==>
                          !(claims[id].createdById == user && claims[id].policyNumber == policy)
    ensures r.None? ==> forall id :: 1 <= id <= k && id in claims && claims[id].id == id ==>
                          !(claims[id].createdById == user && claims[id].policyNumber == policy)
    decreases k
  {
    if k < 1 then None
    else if k in claims && claims[k].id == k && claims[k].createdById == user && claims[k].policyNumber == policy then
      Some(claims[k])
    else NewestWithPolicy(claims, user, policy, k - 1)
  }

  /** The detail view of a claim. */
  function Detail(c: Claim): map<string, Json> {
    Row(c)["type" := JStr("claim_detail")]
  }

  /** `get_claim_details_tool`: a truthy claim id wins over the policy
      number; a policy number finds the user's newest claim under it; the
      user only ever sees their own claims. */
  function GetClaimDetailsTool(st: Store, user: int, claimId: Option<int>, policyNumber: Option<string>): (r: ToolReply)
    ensures (claimId.None? || claimId.value == 0) && (policyNumber.None? || policyNumber.value == "") ==>
      r == Text("Please provide a claim ID or Policy Number.")
    ensures claimId.Some? && claimId.value != 0 ==>
      var id := claimId.value;
      && (id !in st.claims ==> r == Text("Claim not found."))
      && (id in st.claims && st.claims[id].createdById != user ==> r == Text("Unauthorized access."))
      && (id in st.claims && st.claims[id].createdById == user ==> r == Payload(Detail(st.claims[id])))
    ensures Valid(st) && (claimId.None? || claimId.value == 0) && policyNumber.Some? && policyNumber.value != "" ==>
      (r == Text("Claim not found.") <==>
        forall id :: id in st.claims ==> !(st.claims[id].createdById == user && st.claims[id].policyNumber == policyNumber.value))
    ensures r.Payload? ==> exists id :: id in st.claims && st.claims[id].createdById == user && r == Payload(Detail(st.claims[id]))
  {
    if claimId.Some? && claimId.value != 0 then
      var id := claimId.value;
      if id !in st.claims then Text("Claim not found.")
      else if st.claims[id].createdById != user then Text("Unauthorized access.")
      else Payload(Detail(st.claims[id]))
    else if policyNumber.Some? && policyNumber.value != "" then
      match NewestWithPolicy(st.claims, user, policyNumber.value, st.nextId - 1)
      case None =>
        Text("Claim not found.")
      case Some(c) => Payload(Detail(c))
    else Text("Please provide a claim ID or Policy Number.")
  }

  /** `get_claim_form_schema_tool`: the fixed creation form. */
  function ClaimFormSchema(): (r: ToolReply)
    ensures r.Payload? && r.fields.Keys == {"type", "purpose", "fields"}
    ensures r.fields["type"] == JStr("form_schema") && r.fields["purpose"] == JStr("create_claim")
    ensures r.fields["fields"].JArr? && |r.fields["fields"].items| == 4
  {
    Payload(map[
      "type" := JStr("form_schema"),
      "purpose" := JStr("create_claim"),
      "fields" := JArr([
        JObj(map["name" := JStr("policy_number"), "label" := JStr("Policy Number"), "required" := JBool(true)]),
        JObj(map["name" := JStr("claim_type"), "options" := StrList(["HEALTH", "AUTO", "PROPERTY"]),
                 "required" := JBool(true)]),
        JObj(map["name" := JStr("description"), "required" := JBool(true)]),
        JObj(map["name" := JStr("incident_date"), "type" := JStr("date")])])])
  }

  /** The user owns a stored claim with this id. */
  predicate Owns(st: Store, user: int, id: int) {
    id in st.claims && st.claims[id].createdById == user
  }

  /** `get_update_form_schema_tool`: the current amount and description of one of the user's claims. */
  function UpdateFormSchema(st: Store, user: int, claimId: int): (r: ToolReply)
    ensures r.Text? <==> !Owns(st, user, claimId)
    ensures r.Text? ==> r.text == "Claim not found or unauthorized."
    ensures r.Payload? ==>
      && r.fields.Keys == {"type", "purpose", "claim_id", "current_values"}
      && r.fields["purpose"] == JStr("update_claim")
      && r.fields["current_values"] == JObj(map["claim_amount" := JReal(st.claims[claimId].claimAmount),
                                                "description" := OptStr(st.claims[claimId].description)])
  {
    if !Owns(st, user, claimId) then Text("Claim not found or unauthorized.")
    else
      var c := st.claims[claimId];
      Payload(map["type" := JStr("form_schema"), "purpose" := JStr("update_claim"), "claim_id" := JInt(c.id),
                  "current_values" := JObj(map["claim_amount" := JReal(c.claimAmount),
                                               "description" := OptStr(c.description)])])
  }

  /** The patch `update_claim_tool` builds: any amount that is not `None`,
      zero included, and a description only when it is non-empty. */
  function ToolPatch(amount: Option<real>, description: Option<string>): (p: Patch)
    ensures p.claimAmount == amount
    ensures p.description.Some? <==> description.Some? && description.value != ""
    ensures p.description.Some? ==> p.description == description
  {
    Patch(amount, if description.Some? && description.value != "" then description else None)
  }

  /** `update_claim_tool`: refuses claims the user does not own, reports the
      service's refusal as text, and otherwise applies the tool's patch. */
  function UpdateClaimTool(st: Store, user: int, claimId: int, amount: Option<real>,
                           description: Option<string>): (r: (Store, ToolReply))
    ensures !Owns(st, user, claimId) ==> r == (st, Text("Claim not found or unauthorized."))
    ensures Owns(st, user, claimId) ==>
      var o := UpdateClaim(st, claimId, ToolPatch(amount, description));
      && r.0 == o.store
      && (o.result.Err? ==> r.1 == Text("Error updating claim: " + o.result.error.message))
      && (o.result.Ok? ==> r.1.Payload? && "new_amount" in r.1.fields && r.1.fields["new_amount"] == JReal(o.result.value.claimAmount))
  {
    if !Owns(st, user, claimId) then (st, Text("Claim not found or unauthorized."))
    else
      var o := UpdateClaim(st, claimId, ToolPatch(amount, description));
      match o.result
      case Err(e) => (o.store, Text("Error updating claim: " + e.message))
      case Ok(c) => (o.store, Payload(map["type" := JStr("claim_updated"), "id" := JInt(c.id),
                                          "new_amount" := JReal(c.claimAmount),
                                          "status" := JStr(StatusName(c.status))]))
  }

  /** An empty description never overwrites the stored one, but a zero amount does. */
  lemma UpdateToolKeepsDescriptionOnEmpty(st: Store, user: int, claimId: int, amount: Option<real>)
    requires Owns(st, user, claimId) && Editable(st.claims[claimId].status)
    ensures var r := UpdateClaimTool(st, user, claimId, amount, Some(""));
      r.0.claims[claimId].description == st.claims[claimId].description
      && r.0.claims[claimId].claimAmount == amount.GetOr(st.claims[claimId].claimAmount)
  {
  }

  /** `submit_claim_tool`: submits through the service and reports any
      exception as text.  It checks no ownership, unlike every other tool. */
  function SubmitClaimTool(st: Store, claimId: int, run: AgentRun): (r: (Store, ToolReply))
    ensures var o := SubmitClaim(st, claimId, run);
      && r.0 == o.store
      && (o.result.Err? ==> r.1 == Text("Error submitting claim: " + o.result.error.message))
      && (o.result.Ok? ==>
            && r.1.Payload? && r.1.fields.Keys == {"type", "id", "status", "summary"}
            && r.1.fields["summary"] == JStr("Claim #" + IntToString(o.result.value.id) + " has been submitted for review.")
            && r.1.fields["status"] == JStr(StatusName(o.result.value.status)))
  {
    var o := SubmitClaim(st, claimId, run);
    match o.result
    case Err(e) => (o.store, Text("Error submitting claim: " + e.message))
    case Ok(c) => (o.store, Payload(map["type" := JStr("claim_submitted"), "id" := JInt(c.id),
                                        "status" := JStr(StatusName(c.status)),
                                        "summary" := JStr("Claim #" + IntToString(c.id) + " has been submitted for review.")]))
  }
}
