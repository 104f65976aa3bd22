/** The in-memory stand-in for the database: claims by id, and the
    append-only message, decision and agent-audit logs in creation order.
    `rawTypes` holds the claim rows committed with a type string that names
    no claim type: the Enum column writes such a string unchecked but cannot
    load it back, so these rows are kept apart from `claims`. */
module Store {
  import opened Wrappers
  import opened Claims
  import opened Audit

  datatype Store = Store(
    claims: map<int, Claim>,
    nextId: int,
    messages: seq<Message>,
    decisions: seq<Decision>,
    audits: seq<AgentAudit>,
    rawTypes: map<int, string>)

  /** Ids are handed out from 1 upward and every claim sits under its own id. */
  predicate Valid(st: Store) {
    && st.nextId >= 1
    && forall id :: id in st.claims ==> 1 <= id < st.nextId && st.claims[id].id == id
  }

  /** Every claim other than `id` is the same in both stores. */
  predicate OthersUnchanged(st: Store, st': Store, id: int) {
    && st'.claims.Keys == st.claims.Keys
    && forall k :: k in st.claims && k != id ==> st'.claims[k] == st.claims[k]
  }

  /** `get_all_claims(user_id)`: every claim, or, for a truthy user id, the
      claims that user created.  The query has no ORDER BY, so the result is a set. */
  function AllClaims(st: Store, userId: Option<int>): (r: set<Claim>)
    ensures forall c :: c in r ==> c in st.claims.Values
    ensures userId.Some? && userId.value != 0 ==>
      forall c :: c in st.claims.Values ==> (c in r <==> c.createdById == userId.value)
    ensures userId.None? || userId.value == 0 ==> r == st.claims.Values
  {
    if userId.Some? && userId.value != 0 then set c | c in st.claims.Values && c.createdById == userId.value
    else st.claims.Values
  }
}
