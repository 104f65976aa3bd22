/** The actions the agent tools hand back to the service layer, and a
    reading of both tool sets' action JSON back into them. */
module Actions {
  import opened Wrappers
  import opened Json
  import LegacyTools
  import StrandsTools

  datatype Action =
    | CreateClaim(policyNumber: string, claimType: string, description: string, incidentDate: Option<string>)
    | ListClaims(userId: Option<int>)
    | GetClaim(claimId: int)

  function DecodeDraft(m: map<string, Json>): Option<Action> {
    var p, t, d, i := Get(m, "policy_number"), Get(m, "claim_type"), Get(m, "description"), Get(m, "incident_date");
    if p.JStr? && t.JStr? && d.JStr? && (i.JStr? || i.JNull?) then
      Some(CreateClaim(p.s, t.s, d.s, if i.JStr? then Some(i.s) else None))
    else None
  }

  /** Reads an action dictionary of either shape: a draft's facts nested
      under "data" or flat beside "action". */
  function DecodeAction(v: Json): Option<Action> {
    if !v.JObj? || Get(v.fields, "action") !in {JStr("create_claim"), JStr("list_claims"), JStr("get_claim")} then None
    else
      var m := v.fields;
      if m["action"] == JStr("create_claim") then
        (if "data" in m && m["data"].JObj? then DecodeDraft(m["data"].fields) else DecodeDraft(m))
      else if m["action"] == JStr("list_claims") then
        (if "user_id" !in m then Some(ListClaims(None))
         else if m["user_id"].JInt? then Some(ListClaims(Some(m["user_id"].i)))
         else None)
      else
        (if Get(m, "claim_id").JInt? then Some(GetClaim(m["claim_id"].i)) else None)
  }

  /** Every action of the first tool set reads back as the call that produced it. */
  lemma LegacyActionsRoundTrip(policyNumber: string, claimType: string, description: string,
                                incidentDate: Option<string>, userId: int, claimId: int)
    ensures DecodeAction(LegacyTools.CreateClaimDraft(policyNumber, claimType, description, incidentDate))
         == Some(CreateClaim(policyNumber, claimType, description, incidentDate))
    ensures DecodeAction(LegacyTools.ListUserClaims(userId)) == Some(ListClaims(Some(userId)))
    ensures DecodeAction(LegacyTools.GetClaimDetails(claimId)) == Some(GetClaim(claimId))
  {
  }

  /** Every action of the second tool set reads back as the call that produced it. */
  lemma StrandsActionsRoundTrip(policyNumber: string, claimType: string, description: string,
                                 incidentDate: Option<string>, claimId: int)
    ensures DecodeAction(StrandsTools.CreateClaimDraft(policyNumber, claimType, description, incidentDate))
         == Some(CreateClaim(policyNumber, claimType, description, incidentDate))
    ensures DecodeAction(StrandsTools.ListUserClaims()) == Some(ListClaims(None))
    ensures DecodeAction(StrandsTools.GetClaimDetails(claimId)) == Some(GetClaim(claimId))
  {
  }

  /** The two draft shapes carry the same facts: the nested "data" object is
      the flat dictionary without its "action" key. */
  lemma DraftShapesAgree(policyNumber: string, claimType: string, description: string, incidentDate: Option<string>)
    ensures StrandsTools.CreateClaimDraft(policyNumber, claimType, description, incidentDate).fields["data"].fields
         == LegacyTools.CreateClaimDraft(policyNumber, claimType, description, incidentDate).fields - {"action"}
  {
    var flat := LegacyTools.CreateClaimDraft(policyNumber, claimType, description, incidentDate).fields;
    var nested := StrandsTools.CreateClaimDraft(policyNumber, claimType, description, incidentDate).fields["data"].fields;
    assert (flat - {"action"}).Keys == nested.Keys;
  }
}
