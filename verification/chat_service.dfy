/** The chat service: a user talks either about one claim ("claim chat") or
    in general.  Every send stores the user's message, lets the agent
    answer, turns the answer into display components and stores the
    agent's message.  The agent's answer is an input (`ChatRun`): what it
    said, the fenced blocks the scanner found in it, and the parser model's
    reply; tools the agent may have called are not modelled. */
module ChatService {
  import opened Wrappers
  import opened Json
  import opened Py
  import opened Strings
  import opened Seqs
  import opened Claims
  import opened Audit
  import opened Store
  import opened A2UI
  import ClaimService

  const FallbackText := "Here is the information you requested:"
  const InternalErrorText := "I encountered an internal processing error. Please try again."
  const BusyText := "\U{26A0}\U{FE0F} **Service Busy**: I am currently experiencing high traffic (Rate Limit Exceeded). Please wait a minute and try again."
  const GenericErrorText := "I encountered an error while processing your request. Please try again later."

  /** The card shown while the model is rate limited. */
  const BusyCard := JObj(map[
    "type" := JStr("status_card"), "status" := JStr("RATE_LIMIT"), "title" := JStr("Service Busy"),
    "description" := JStr("The AI model is currently rate limited."), "color" := JStr("red"),
    "icon" := JStr("\U{23F3}")])

  /** The card shown for any other failure. */
  const ErrorCard := JObj(map[
    "type" := JStr("info_card"), "title" := JStr("Error"),
    "fields" := JArr([JObj(map["label" := JStr("Details"), "value" := JStr("Internal System Error")])])])

  /** What the agent did for one send. */
  datatype ChatRun =
    | ChatRaised(error: PyError)
    | ChatAnswered(text: string, blocks: seq<string>, reply: ParserReply)

  /** The agent's side of an exchange before it is stored. */
  datatype Answer = Answer(text: Json, components: seq<Json>)

  /** The two stored messages of a successful send. */
  datatype Exchange = Exchange(userMessage: Message, agentMessage: Message)

  datatype SendOutcome = SendOutcome(store: Store, result: Result<Exchange, PyError>)

  /** `if claim_id:`: a claim chat needs a present, non-zero claim id. */
  predicate IsClaimChat(claimId: Option<int>) {
    claimId.Some? && claimId.value != 0
  }

  /** An error that reads as rate limiting. */
  predicate RateLimited(e: PyError) {
    Contains(e.message, "429") || Contains(e.kind, "RateLimitError") || Contains(e.message, "Quota exceeded")
  }

  /** The reply for an exception: an internal-error text that keeps the
      components gathered so far, or a fixed text and card. */
  function ErrorAnswer(e: PyError, comps: seq<Json>): (a: Answer)
    ensures Contains(e.message, "All generated alerts") ==> a == Answer(JStr(InternalErrorText), comps)
    ensures !Contains(e.message, "All generated alerts") && RateLimited(e) ==> a == Answer(JStr(BusyText), [BusyCard])
    ensures !Contains(e.message, "All generated alerts") && !RateLimited(e) ==> a == Answer(JStr(GenericErrorText), [ErrorCard])
    ensures a.text.JStr?
  {
    if Contains(e.message, "All generated alerts") then Answer(JStr(InternalErrorText), comps)
    else if RateLimited(e) then Answer(JStr(BusyText), [BusyCard])
    else Answer(JStr(GenericErrorText), [ErrorCard])
  }

  /** The reply text in general chat: a blank text with components gives
      way to the fallback sentence; `.strip()` on a non-string raises. */
  function GeneralAnswer(c: Converted): (a: Answer)
    ensures c.text.JStr? && IsBlank(c.text.s) && |c.components| > 0 ==> a == Answer(JStr(FallbackText), c.components)
    ensures c.text.JStr? && !(IsBlank(c.text.s) && |c.components| > 0) ==> a == Answer(c.text, c.components)
    ensures !c.text.JStr? ==> a == ErrorAnswer(NoAttribute(c.text, "strip"), c.components)
  {
    match c.text
    case JStr(t) =>
      StripEmptyIffBlank(t);
      if Strip(t) == "" && |c.components| > 0 then Answer(JStr(FallbackText), c.components) else Answer(c.text, c.components)
    case _ => ErrorAnswer(NoAttribute(c.text, "strip"), c.components)
  }

  /** The agent's answer for one send, failures included. */
  function AgentAnswer(st: Store, claimId: Option<int>, userId: int, run: ChatRun,
                       loads: string -> Option<Json>, showOther: Json -> string): (a: Answer)
    ensures IsClaimChat(claimId) && claimId.value !in st.claims ==>
      a == ErrorAnswer(ValueError("Claim not found"), [])
    ensures IsClaimChat(claimId) && claimId.value in st.claims && st.claims[claimId.value].createdById != userId ==>
      a == ErrorAnswer(ValueError("Not authorized to access this claim"), [])
    ensures run.ChatRaised? && (!IsClaimChat(claimId) || (claimId.value in st.claims && st.claims[claimId.value].createdById == userId)) ==>
      a == ErrorAnswer(run.error, [])
    ensures !IsClaimChat(claimId) ==> a.text.JStr?
  {
    if IsClaimChat(claimId) then
      var k := claimId.value;
      if k !in st.claims then ErrorAnswer(ValueError("Claim not found"), [])
      else if st.claims[k].createdById != userId then ErrorAnswer(ValueError("Not authorized to access this claim"), [])
      else match run
        case ChatRaised(e) => ErrorAnswer(e, [])
        case ChatAnswered(text, blocks, reply) =>
          var c := ExtractAndConvert(text, blocks, reply, loads, showOther);
          Answer(c.text, c.components)
    else
      match run
      case ChatRaised(e) => ErrorAnswer(e, [])
      case ChatAnswered(text, blocks, reply) => GeneralAnswer(ExtractAndConvert(text, blocks, reply, loads, showOther))
  }

  /** The user's message as stored. */
  function UserMessage(claimId: Option<int>, userId: int, content: string): Message {
    Message(claimId, UserSender, Some(userId), content, None)
  }

  /** The agent's message as stored: in general chat it is filed under the
      user, in any other chat it has no sender. */
  function AgentMessage(claimId: Option<int>, userId: int, text: string, comps: seq<Json>): (m: Message)
    ensures m.senderType == AgentSender && m.claimId == claimId && m.content == text
    ensures m.senderId == Some(userId) <==> claimId.None?
    ensures claimId.Some? ==> m.senderId.None?
  {
    Message(claimId, AgentSender, if claimId.None? then Some(userId) else None, text, Some(JObj(map["a2ui" := JArr(comps)])))
  }

  /** SQLite's 64-bit integer range: a Python integer outside it cannot be bound. */
  const Int64Bound: int := 0x8000_0000_0000_0000

  /** What the `content` column (TEXT, NOT NULL, on SQLite) keeps of a reply
      text read back after the commit.  A string is kept as it is.  Numbers are
      turned into text by the column's TEXT affinity: an integer as its decimal
      digits, a boolean as the integer 1 or 0 it is bound as, a float as
      SQLite's rendering (`realText`).  `None` breaks NOT NULL, an integer
      beyond 64 bits overflows the driver, and a list or dict cannot be bound. */
  function ContentText(j: Json, realText: real -> string): (r: Result<string, PyError>)
    ensures r.Ok? <==> j.JStr? || j.JBool? || j.JReal? || (j.JInt? && -Int64Bound <= j.i < Int64Bound)
    ensures j.JStr? ==> r == Ok(j.s)
    ensures j.JInt? && 0 <= j.i < Int64Bound ==>
      r.Ok? && (forall k :: 0 <= k < |r.value| ==> IsDigit(r.value[k])) && DigitsValue(r.value) == j.i
    ensures j.JInt? && -Int64Bound <= j.i < 0 ==> r.Ok? && |r.value| > 0 && r.value[0] == '-'
    ensures j.JBool? ==> r == Ok(if j.b then "1" else "0")
    ensures j.JNull? ==> r.Err? && r.error.kind == "IntegrityError"
  {
    match j
    case JStr(s) => Ok(s)
    case JBool(b) => Ok(if b then "1" else "0")
    case JInt(i) =>
      if -Int64Bound <= i < Int64Bound then
        NatToStringRoundTrip(if i >= 0 then i else 0);
        Ok(IntToString(i))
      else Err(PyError("OverflowError", "Python int too large to convert to SQLite INTEGER"))
    case JReal(x) => Ok(realText(x))
    case JNull => Err(PyError("IntegrityError", "NOT NULL constraint failed: messages.content"))
    case _ => Err(PyError("StatementError", "Error binding parameter: type is not supported"))
  }

  /** Storing one exchange: the user's message, then the agent's message
      when the column takes its text.  In general chat the text is always a
      string; in claim chat a parser `replacementText` of another type is
      kept as text when it is a number or boolean, and otherwise fails after
      the user's message is already stored. */
  function Record(st: Store, claimId: Option<int>, userId: int, content: string, a: Answer,
                  realText: real -> string): (o: SendOutcome)
    ensures o.store.claims == st.claims && o.store.nextId == st.nextId
    ensures o.store.decisions == st.decisions && o.store.audits == st.audits
    ensures |o.store.messages| > |st.messages| && o.store.messages[..|st.messages|] == st.messages
    ensures o.store.messages[|st.messages|] == UserMessage(claimId, userId, content)
    ensures o.result.Ok? <==> ContentText(a.text, realText).Ok?
    ensures o.result.Ok? <==> |o.store.messages| == |st.messages| + 2
    ensures a.text.JStr? ==> o.result.Ok? && o.result.value.agentMessage.content == a.text.s
    ensures a.text.JArr? || a.text.JObj? || a.text.JNull? ==> o.result.Err?
    ensures o.result.Ok? ==>
      && o.result.value == Exchange(o.store.messages[|st.messages|], o.store.messages[|st.messages| + 1])
      && o.result.value.agentMessage == AgentMessage(claimId, userId, ContentText(a.text, realText).value, a.components)
      && o.store.messages == st.messages + [o.result.value.userMessage, o.result.value.agentMessage]
  {
    var um := UserMessage(claimId, userId, content);
    var st1 := st.(messages := st.messages + [um]);
    match ContentText(a.text, realText)
    case Ok(t) =>
      var am := AgentMessage(claimId, userId, t, a.components);
      SendOutcome(st1.(messages := st1.messages + [am]), Ok(Exchange(um, am)))
    case Err(e) =>
      SendOutcome(st1, Err(e))
  }

  /** `send_message`: the user's message is stored before the agent runs and
      the agent's message follows it.  In the model nothing but the message
      log changes: the database tool calls the agent may make are not replayed. */
  function SendMessage(st: Store, claimId: Option<int>, userId: int, content: string, run: ChatRun,
                       loads: string -> Option<Json>, showOther: Json -> string, realText: real -> string): (o: SendOutcome)
    ensures o.store.claims == st.claims && o.store.nextId == st.nextId
    ensures o.store.decisions == st.decisions && o.store.audits == st.audits
    ensures |o.store.messages| > |st.messages| && o.store.messages[..|st.messages|] == st.messages
    ensures o.store.messages[|st.messages|] == UserMessage(claimId, userId, content)
    ensures o.result.Ok? <==> |o.store.messages| == |st.messages| + 2
    ensures o.result.Ok? ==> o.result.value == Exchange(o.store.messages[|st.messages|], o.store.messages[|st.messages| + 1])
    ensures o.result.Ok? ==>
      var m := o.result.value.agentMessage;
      && m.senderType == AgentSender
      && m.claimId == claimId
      && (m.senderId == Some(userId) <==> claimId.None?)
      && m.metadata == Some(JObj(map["a2ui" := JArr(AgentAnswer(st, claimId, userId, run, loads, showOther).components)]))
    ensures o.result.Err? ==> IsClaimChat(claimId)
  {
    Record(st, claimId, userId, content, AgentAnswer(st, claimId, userId, run, loads, showOther), realText)
  }

  /** Messages of claim `k`'s chat. */
  function InClaimChat(k: int): Message -> bool {
    (m: Message) => m.claimId == Some(k)
  }

  /** Messages of user `u`'s general chat: no claim, and sent by or filed under `u`. */
  function InGeneralChat(u: int): Message -> bool {
    (m: Message) => m.claimId.None? && m.senderId == Some(u)
  }

  /** The complement of a chat. */
  function Outside(p: Message -> bool): Message -> bool {
    (m: Message) => !p(m)
  }

  /** `get_messages`: a claim chat, checked against the owner only when a
      user id is given, or a user's general chat, which needs a user id. */
  function GetMessages(st: Store, claimId: Option<int>, userId: Option<int>): (r: Result<seq<Message>, PyError>)
    ensures r.Ok? && IsClaimChat(claimId) ==> forall i :: 0 <= i < |r.value| ==> r.value[i].claimId == claimId
    ensures r.Ok? && !IsClaimChat(claimId) ==>
      && userId.Some? && userId.value != 0
      && forall i :: 0 <= i < |r.value| ==> r.value[i].claimId.None? && r.value[i].senderId == userId
    ensures r.Err? <==>
      if IsClaimChat(claimId) then userId.Some? && userId.value != 0 &&
        (claimId.value !in st.claims || st.claims[claimId.value].createdById != userId.value)
      else userId.None? || userId.value == 0
  {
    if IsClaimChat(claimId) then
      var k := claimId.value;
      if userId.Some? && userId.value != 0 && k !in st.claims then Err(ValueError("Claim not found"))
      else if userId.Some? && userId.value != 0 && st.claims[k].createdById != userId.value then
        Err(ValueError("Not authorized to access this claim"))
      else
        FilterMembers(st.messages, InClaimChat(k));
        Ok(Filter(st.messages, InClaimChat(k)))
    else if userId.None? || userId.value == 0 then Err(ValueError("User ID required for general chat"))
    else
      FilterMembers(st.messages, InGeneralChat(userId.value));
      Ok(Filter(st.messages, InGeneralChat(userId.value)))
  }

  /** `clear_messages`: a claim chat only by the claim's owner, all of its
      messages whoever wrote them; a general chat is the caller's own. */
  function ClearMessages(st: Store, userId: int, claimId: Option<int>): (r: Result<Store, PyError>)
    ensures r.Err? <==> IsClaimChat(claimId) && (claimId.value !in st.claims || st.claims[claimId.value].createdById != userId)
    ensures r.Ok? ==> r.value.claims == st.claims && r.value.decisions == st.decisions && r.value.audits == st.audits
    ensures r.Ok? ==> |r.value.messages| <= |st.messages|
  {
    if IsClaimChat(claimId) then
      var k := claimId.value;
      if k !in st.claims || st.claims[k].createdById != userId then Err(ValueError("Unauthorized to clear this chat"))
      else Ok(st.(messages := Filter(st.messages, Outside(InClaimChat(k)))))
    else Ok(st.(messages := Filter(st.messages, Outside(InGeneralChat(userId)))))
  }

  // ---------------------------------------------------------------------
  // Properties

  /** A failure while reaching the claim never escapes: a missing or
      foreign claim gets the generic error reply and card, and both
      messages are stored. */
  lemma ForeignClaimGetsErrorReply(st: Store, k: int, userId: int, content: string, run: ChatRun,
                                   loads: string -> Option<Json>, showOther: Json -> string, realText: real -> string)
    requires k != 0 && (k !in st.claims || st.claims[k].createdById != userId)
    ensures var o := SendMessage(st, Some(k), userId, content, run, loads, showOther, realText);
      o.result.Ok? && o.result.value.agentMessage.content == GenericErrorText
      && o.result.value.agentMessage.metadata == Some(JObj(map["a2ui" := JArr([ErrorCard])]))
  {
    var a := AgentAnswer(st, Some(k), userId, run, loads, showOther);
    if k !in st.claims {
      AccessErrorsAreGeneric("Claim not found");
    } else {
      AccessErrorsAreGeneric("Not authorized to access this claim");
    }
    assert a == Answer(JStr(GenericErrorText), [ErrorCard]);
    assert SendMessage(st, Some(k), userId, content, run, loads, showOther, realText) == Record(st, Some(k), userId, content, a, realText);
  }

  /** The two access errors of claim chat get the generic reply. */
  lemma AccessErrorsAreGeneric(message: string)
    requires message in {"Claim not found", "Not authorized to access this claim"}
    ensures ErrorAnswer(ValueError(message), []) == Answer(JStr(GenericErrorText), [ErrorCard])
  {
    if message == "Claim not found" {
      PlainValueErrorIsGeneric("Claim not found");
    } else {
      PlainValueErrorIsGeneric("Not authorized to access this claim");
    }
  }

  /** A `ValueError` whose message has no digit, no 'Q' and no 'A' gets
      the generic reply. */
  lemma PlainValueErrorIsGeneric(message: string)
    requires forall i :: 0 <= i < |message| ==> !IsDigit(message[i]) && message[i] != 'Q' && message[i] != 'A'
    ensures ErrorAnswer(ValueError(message), []) == Answer(JStr(GenericErrorText), [ErrorCard])
  {
    NoCharNoContains(message, "All generated alerts");
    NotRateLimited(message);
  }

  /** A `ValueError` whose message has no digit and no "Quota" does not
      read as rate limiting. */
  lemma NotRateLimited(message: string)
    requires forall i :: 0 <= i < |message| ==> !IsDigit(message[i]) && message[i] != 'Q'
    ensures !RateLimited(ValueError(message))
  {
    NoCharNoContains(message, "429");
    NoCharNoContains(message, "Quota exceeded");
    ContainsFits("ValueError", "RateLimitError");
  }

  /** A string lacking the first character of `p` does not contain `p`. */
  lemma {:induction false} NoCharNoContains(s: string, p: string)
    requires |p| > 0 && forall i :: 0 <= i < |s| ==> s[i] != p[0]
    ensures !Contains(s, p)
    decreases |s|
  {
    if |s| > 0 {
      assert !StartsWith(s, p) by {
        if |p| <= |s| { assert s[..|p|][0] == s[0]; }
      }
      NoCharNoContains(s[1..], p);
    } else {
      ContainsFits(s, p);
    }
  }

  /** After a successful general-chat send by a user, that user's history
      ends with the two new messages; every other user's history is as it
      was. */
  lemma GeneralSendShowsInOwnHistoryOnly(st: Store, userId: int, other: int, content: string, run: ChatRun,
                                         loads: string -> Option<Json>, showOther: Json -> string, realText: real -> string)
    requires userId != 0 && other != userId
    ensures var o := SendMessage(st, None, userId, content, run, loads, showOther, realText);
      && o.result.Ok?
      && GetMessages(o.store, None, Some(userId)) == Ok(GetMessages(st, None, Some(userId)).value
        + [o.result.value.userMessage, o.result.value.agentMessage])
      && GetMessages(o.store, None, Some(other)) == GetMessages(st, None, Some(other))
  {
    var a := AgentAnswer(st, None, userId, run, loads, showOther);
    assert SendMessage(st, None, userId, content, run, loads, showOther, realText) == Record(st, None, userId, content, a, realText);
    RecordGeneral(st, userId, other, content, a, realText);
  }

  lemma RecordGeneral(st: Store, userId: int, other: int, content: string, a: Answer, realText: real -> string)
    requires userId != 0 && other != userId && a.text.JStr?
    ensures var o := Record(st, None, userId, content, a, realText);
      && o.result.Ok?
      && GetMessages(o.store, None, Some(userId)) == Ok(GetMessages(st, None, Some(userId)).value
        + [o.result.value.userMessage, o.result.value.agentMessage])
      && GetMessages(o.store, None, Some(other)) == GetMessages(st, None, Some(other))
  {
    var o := Record(st, None, userId, content, a, realText);
    var added := [o.result.value.userMessage, o.result.value.agentMessage];
    assert InGeneralChat(userId)(added[0]) && InGeneralChat(userId)(added[1]);
    assert !InGeneralChat(other)(added[0]) && !InGeneralChat(other)(added[1]);
    FilterConcat(st.messages, added, InGeneralChat(userId));
    FilterAll(added, InGeneralChat(userId));
    if other != 0 {
      FilterConcat(st.messages, added, InGeneralChat(other));
      FilterNone(added, InGeneralChat(other));
      assert o.store.messages == st.messages + added;
      assert Filter(o.store.messages, InGeneralChat(other)) == Filter(st.messages, InGeneralChat(other));
    }
  }

  /** In claim chat the two new messages join that claim's history. */
  lemma ClaimSendShowsInClaimHistory(st: Store, k: int, userId: int, content: string, run: ChatRun,
                                     loads: string -> Option<Json>, showOther: Json -> string, realText: real -> string)
    requires k != 0 && SendMessage(st, Some(k), userId, content, run, loads, showOther, realText).result.Ok?
    ensures var o := SendMessage(st, Some(k), userId, content, run, loads, showOther, realText);
      GetMessages(o.store, Some(k), None) == Ok(GetMessages(st, Some(k), None).value
        + [o.result.value.userMessage, o.result.value.agentMessage])
  {
    var a := AgentAnswer(st, Some(k), userId, run, loads, showOther);
    assert SendMessage(st, Some(k), userId, content, run, loads, showOther, realText) == Record(st, Some(k), userId, content, a, realText);
    RecordClaim(st, k, userId, content, a, realText);
  }

  lemma RecordClaim(st: Store, k: int, userId: int, content: string, a: Answer, realText: real -> string)
    requires k != 0 && ContentText(a.text, realText).Ok?
    ensures var o := Record(st, Some(k), userId, content, a, realText);
      GetMessages(o.store, Some(k), None) == Ok(GetMessages(st, Some(k), None).value
        + [o.result.value.userMessage, o.result.value.agentMessage])
  {
    var o := Record(st, Some(k), userId, content, a, realText);
    var added := [o.result.value.userMessage, o.result.value.agentMessage];
    assert InClaimChat(k)(added[0]) && InClaimChat(k)(added[1]);
    FilterConcat(st.messages, added, InClaimChat(k));
    FilterAll(added, InClaimChat(k));
  }

  /** A send with claim id 0 is treated as general chat by the agent but is
      stored under claim 0, so no chat history query (`get_messages`) shows
      it: not claim 0's (a zero id reads the caller's general chat) and not
      the general chat (its messages carry a claim id).  The claims
      endpoint's message list (`get_claim_messages`), which has no such
      guard, does show both messages under claim 0. */
  lemma ZeroClaimIdHiddenFromChat(st: Store, userId: int, reader: Option<int>, content: string, run: ChatRun,
                                  loads: string -> Option<Json>, showOther: Json -> string, realText: real -> string)
    ensures var o := SendMessage(st, Some(0), userId, content, run, loads, showOther, realText);
      && o.result.Ok?
      && GetMessages(o.store, Some(0), reader) == GetMessages(st, Some(0), reader)
      && GetMessages(o.store, None, reader) == GetMessages(st, None, reader)
      && ClaimService.ClaimMessages(o.store, 0)
         == ClaimService.ClaimMessages(st, 0) + [o.result.value.userMessage, o.result.value.agentMessage]
  {
    var a := AgentAnswer(st, Some(0), userId, run, loads, showOther);
    assert SendMessage(st, Some(0), userId, content, run, loads, showOther, realText) == Record(st, Some(0), userId, content, a, realText);
    assert a.text.JStr?;
    RecordZero(st, userId, reader, content, a, realText);
  }

  lemma RecordZero(st: Store, userId: int, reader: Option<int>, content: string, a: Answer, realText: real -> string)
    requires a.text.JStr?
    ensures var o := Record(st, Some(0), userId, content, a, realText);
      && o.result.Ok?
      && GetMessages(o.store, Some(0), reader) == GetMessages(st, Some(0), reader)
      && GetMessages(o.store, None, reader) == GetMessages(st, None, reader)
      && ClaimService.ClaimMessages(o.store, 0)
         == ClaimService.ClaimMessages(st, 0) + [o.result.value.userMessage, o.result.value.agentMessage]
  {
    var o := Record(st, Some(0), userId, content, a, realText);
    var added := [o.result.value.userMessage, o.result.value.agentMessage];
    ClaimService.ClaimMessagesGrow(st, o.store, 0, added);
    if reader.Some? && reader.value != 0 {
      assert !InGeneralChat(reader.value)(added[0]) && !InGeneralChat(reader.value)(added[1]);
      FilterConcat(st.messages, added, InGeneralChat(reader.value));
      FilterNone(added, InGeneralChat(reader.value));
      assert o.store.messages == st.messages + added;
      assert Filter(o.store.messages, InGeneralChat(reader.value)) == Filter(st.messages, InGeneralChat(reader.value));
    }
  }

  /** Clearing a chat empties it for its owner and leaves every other
      claim's chat alone. */
  lemma ClearClaimChat(st: Store, userId: int, k: int, j: int)
    requires k != 0 && ClearMessages(st, userId, Some(k)).Ok? && userId != 0 && j != k && j != 0
    ensures GetMessages(ClearMessages(st, userId, Some(k)).value, Some(k), Some(userId)) == Ok([])
    ensures GetMessages(ClearMessages(st, userId, Some(k)).value, Some(j), None) == GetMessages(st, Some(j), None)
  {
    var st' := ClearMessages(st, userId, Some(k)).value;
    FilterMembers(st.messages, Outside(InClaimChat(k)));
    FilterNone(st'.messages, InClaimChat(k));
    FilterOfFilter(st.messages, Outside(InClaimChat(k)), InClaimChat(j));
  }

  /** Clearing general chat empties the caller's and leaves other users'
      general chats and every claim chat alone. */
  lemma ClearGeneralChat(st: Store, userId: int, other: int, k: int)
    requires userId != 0 && other != userId && other != 0 && k != 0
    ensures ClearMessages(st, userId, None).Ok?
    ensures GetMessages(ClearMessages(st, userId, None).value, None, Some(userId)) == Ok([])
    ensures GetMessages(ClearMessages(st, userId, None).value, None, Some(other)) == GetMessages(st, None, Some(other))
    ensures GetMessages(ClearMessages(st, userId, None).value, Some(k), None) == GetMessages(st, Some(k), None)
  {
    var st' := ClearMessages(st, userId, None).value;
    FilterMembers(st.messages, Outside(InGeneralChat(userId)));
    FilterNone(st'.messages, InGeneralChat(userId));
    FilterOfFilter(st.messages, Outside(InGeneralChat(userId)), InGeneralChat(other));
    FilterOfFilter(st.messages, Outside(InGeneralChat(userId)), InClaimChat(k));
  }

  /** Removing messages of one chat does not change what a disjoint chat selects. */
  lemma {:induction false} FilterOfFilter(xs: seq<Message>, keep: Message -> bool, p: Message -> bool)
    requires forall m :: p(m) ==> keep(m)
    ensures Filter(Filter(xs, keep), p) == Filter(xs, p)
  {
    if |xs| > 0 {
      FilterOfFilter(xs[1..], keep, p);
      var h := if keep(xs[0]) then [xs[0]] else [];
      assert Filter(xs, keep) == h + Filter(xs[1..], keep);
      FilterConcat(h, Filter(xs[1..], keep), p);
    }
  }

  /** In general chat a blank answer that came with components is replaced
      by the fallback sentence; claim chat stores the blank text as it is. */
  lemma FallbackOnlyInGeneralChat(st: Store, k: int, userId: int, text: string, blocks: seq<string>, reply: ParserReply,
                                  loads: string -> Option<Json>, showOther: Json -> string, realText: real -> string)
    requires k != 0 && k in st.claims && st.claims[k].createdById == userId
    requires var c := ExtractAndConvert(text, blocks, reply, loads, showOther);
      c.text.JStr? && IsBlank(c.text.s) && |c.components| > 0
    ensures AgentAnswer(st, None, userId, ChatAnswered(text, blocks, reply), loads, showOther).text == JStr(FallbackText)
    ensures AgentAnswer(st, Some(k), userId, ChatAnswered(text, blocks, reply), loads, showOther).text
      == ExtractAndConvert(text, blocks, reply, loads, showOther).text
  {
  }
}
