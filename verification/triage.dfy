/** Vocabulary shared by both agent tool sets: the required claim fields,
    the risk tiers, the clarification template and the interrupt record. */
module Triage {
  import opened Json
  import Strings
  import Seqs

  /** The fields a claim must carry before it can be assessed, in checking order. */
  const RequiredFields: seq<string> :=
    ["policy_number", "claim_type", "claim_amount", "incident_date", "description"]

  datatype Tier = Low | Medium | High

  /** The tier's text, as the risk tools return it. */
  function TierName(t: Tier): string {
    match t
    case Low => "LOW"
    case Medium => "MEDIUM"
    case High => "HIGH"
  }

  /** Severity order of the tiers. */
  function Rank(t: Tier): nat {
    match t
    case Low => 0
    case Medium => 1
    case High => 2
  }

  /** `[f]` when `f` is reported missing, `[]` otherwise. */
  function Flag(missing: bool, f: string): seq<string> {
    if missing then [f] else []
  }

  /** The fields, in checking order, that `missing` reports: the loop over
      the required fields that appends each missing one. */
  function MissingFields(missing: string -> bool): (r: seq<string>)
    ensures |r| <= |RequiredFields|
    ensures forall f :: f in r <==> f in RequiredFields && missing(f)
  {
    FilterRequired(missing);
    Seqs.FilterMembers(RequiredFields, missing);
    Flag(missing("policy_number"), "policy_number") + (Flag(missing("claim_type"), "claim_type")
      + (Flag(missing("claim_amount"), "claim_amount") + (Flag(missing("incident_date"), "incident_date")
      + Flag(missing("description"), "description"))))
  }

  /** The reported fields are the required fields that `missing` selects,
      in the required order and each at most once. */
  lemma MissingFieldsInOrder(missing: string -> bool)
    ensures MissingFields(missing) == Seqs.Filter(RequiredFields, missing)
    ensures Seqs.Distinct(MissingFields(missing))
  {
    FilterRequired(missing);
    RequiredFieldsDistinct();
    Seqs.FilterDistinct(RequiredFields, missing);
  }

  /** Selecting from the required fields one field at a time. */
  lemma FilterRequired(missing: string -> bool)
    ensures Seqs.Filter(RequiredFields, missing)
      == Flag(missing("policy_number"), "policy_number") + (Flag(missing("claim_type"), "claim_type")
         + (Flag(missing("claim_amount"), "claim_amount") + (Flag(missing("incident_date"), "incident_date")
         + Flag(missing("description"), "description"))))
  {
    Seqs.FilterFive("policy_number", "claim_type", "claim_amount", "incident_date", "description", missing);
  }

  /** No required field is listed twice. */
  lemma RequiredFieldsDistinct()
    ensures Seqs.Distinct(RequiredFields)
  {
  }

  const ClarificationPrefix: string := "Please provide the following missing details to proceed: "

  /** The user-facing question listing missing fields (identical in both tool sets). */
  function Clarification(fields: seq<string>): (r: string)
    ensures Strings.StartsWith(r, ClarificationPrefix)
    ensures |r| > |ClarificationPrefix| && r[|r| - 1] == '.'
  {
    ClarificationPrefix + Strings.Join(fields, ", ") + "."
  }

  /** The list part of a clarification: what lies between the prefix and the final period. */
  function ClarificationBody(r: string): string
    requires |r| > |ClarificationPrefix|
  {
    r[|ClarificationPrefix|..|r| - 1]
  }

  lemma ClarificationBodyIsList(fields: seq<string>)
    ensures ClarificationBody(Clarification(fields)) == Strings.Join(fields, ", ")
  {
    var j := Strings.Join(fields, ", ");
    var r := ClarificationPrefix + j + ".";
    assert r[|ClarificationPrefix|..|r| - 1] == j;
  }

  /** The clarification lists its fields recoverably: splitting the list part
      on commas and stripping each piece gives the fields back. */
  lemma ClarificationListsFields(fields: seq<string>)
    requires |fields| > 0
    requires forall i :: 0 <= i < |fields| ==> Strings.PlainField(fields[i])
    ensures Strings.StripAll(Strings.Split(ClarificationBody(Clarification(fields)), ',')) == fields
  {
    ClarificationBodyIsList(fields);
    Strings.SplitStripCommaSpace(fields);
  }

  /** A suspension raised by an agent tool, as the agent result carries it. */
  datatype Interrupt = Interrupt(id: string, name: string, reason: Json)
}
