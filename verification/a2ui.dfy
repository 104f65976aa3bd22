/** The A2UI converter: it turns an agent's reply into display components.
    Step 1 looks for fenced JSON blocks that carry an `a2ui_intent` and
    converts them directly.  Step 2 asks a parser model and post-processes
    its reply.  The regex scan, `json.loads` and the parser model are
    inputs here: the scan is given as the list of captured block bodies in
    text order, `json.loads` as a function that yields `None` where it would
    raise, and the parser's reply as a `ParserReply`. */
module A2UI {
  import opened Wrappers
  import opened Json
  import opened Py
  import opened Strings
  import opened Claims

  /** The intents `_process_data` understands. */
  const TableIntent := "list_claims_table"
  const CardsIntent := "list_claims_cards"
  const CreateFormIntent := "create_claim_form"
  const UpdateFormIntent := "update_claim_form"

  const IntentValues: set<Json> := {JStr(TableIntent), JStr(CardsIntent), JStr(CreateFormIntent), JStr(UpdateFormIntent)}

  /** The table's columns, always these five in this order. */
  const Columns: seq<string> := ["ID", "Policy", "Type", "Status", "Amount"]

  /** The icon for a status none of the six names. */
  const UnknownIcon := "\U{1F4CB}"

  /** The error a dict lookup raises for a key that cannot be hashed. */
  function Unhashable(v: Json): PyError {
    PyError("TypeError", "unhashable type: '" + Py.TypeName(v) + "'")
  }

  /** The colour table, on a status string. */
  function ColorOf(s: string): string {
    if s == "DRAFT" then "gray"
    else if s == "UNDER_AGENT_REVIEW" then "blue"
    else if s == "PENDING_APPROVAL" then "yellow"
    else if s == "NEEDS_MORE_INFO" then "orange"
    else if s == "APPROVED" then "green"
    else if s == "REJECTED" then "red"
    else "gray"
  }

  /** The icon table, on a status string. */
  function IconOf(s: string): string {
    if s == "DRAFT" then "\U{1F4DD}"
    else if s == "UNDER_AGENT_REVIEW" then "\U{1F916}"
    else if s == "PENDING_APPROVAL" then "\U{23F3}"
    else if s == "NEEDS_MORE_INFO" then "\U{2753}"
    else if s == "APPROVED" then "\U{2705}"
    else if s == "REJECTED" then "\U{274C}"
    else UnknownIcon
  }

  /** `colors.get(status, "gray")`: a list or dict status cannot be looked
      up; any other non-string misses every key. */
  function StatusColor(status: Json): (r: Result<string, PyError>)
    ensures r.Err? <==> status.JArr? || status.JObj?
    ensures status.JStr? ==> r == Ok(ColorOf(status.s))
    ensures r.Ok? && !status.JStr? ==> r.value == "gray"
  {
    match status
    case JStr(s) => Ok(ColorOf(s))
    case JArr(_) => Err(Unhashable(status))
    case JObj(_) => Err(Unhashable(status))
    case _ => Ok("gray")
  }

  /** `icons.get(status, "📋")`, with the same lookup failures. */
  function StatusIcon(status: Json): (r: Result<string, PyError>)
    ensures r.Err? <==> status.JArr? || status.JObj?
    ensures status.JStr? ==> r == Ok(IconOf(status.s))
    ensures r.Ok? && !status.JStr? ==> r.value == UnknownIcon
  {
    match status
    case JStr(s) => Ok(IconOf(s))
    case JArr(_) => Err(Unhashable(status))
    case JObj(_) => Err(Unhashable(status))
    case _ => Ok(UnknownIcon)
  }

  /** Each status has its own icon, and the fallback icon belongs to none of
      them: an icon tells exactly which status (if any) a card shows. */
  lemma IconsIdentifyStatus(a: ClaimStatus, b: ClaimStatus, s: string)
    ensures IconOf(StatusName(a)) == IconOf(StatusName(b)) <==> a == b
    ensures IconOf(s) == UnknownIcon <==> ParseStatus(s).None?
  {
  }

  /** Colours distinguish the statuses too, except that an unknown status is
      drawn gray, exactly like DRAFT. */
  lemma ColorsIdentifyStatus(a: ClaimStatus, b: ClaimStatus, s: string)
    ensures ColorOf(StatusName(a)) == ColorOf(StatusName(b)) <==> a == b
    ensures ColorOf(s) == "gray" <==> (s == "DRAFT" || ParseStatus(s).None?)
  {
  }

  /** One status card for a claim row, or the error building it raises. */
  function Card(c: Json, showOther: Json -> string): (r: Result<Json, PyError>)
    ensures r.Err? <==> !c.JObj? || GetOr(c.fields, "Status", JStr("DRAFT")).JArr? || GetOr(c.fields, "Status", JStr("DRAFT")).JObj?
    ensures r.Ok? ==> r.value.JObj? && r.value.fields.Keys == {"type", "status", "title", "description", "color", "icon"}
    ensures r.Ok? ==> r.value.fields["type"] == JStr("status_card")
    ensures r.Ok? ==> r.value.fields["status"] == GetOr(c.fields, "Status", JStr("DRAFT"))
    ensures r.Ok? ==> r.value.fields["description"] == (if Truthy(Get(c.fields, "Description")) then c.fields["Description"] else JStr("Amount: " + Str(Get(c.fields, "Amount"), showOther)))
  {
    if !c.JObj? then Err(NoAttribute(c, "get"))
    else
      var status := GetOr(c.fields, "Status", JStr("DRAFT"));
      var description := Get(c.fields, "Description");
      match StatusColor(status)
      case Err(e) => Err(e)
      case Ok(color) =>
        match StatusIcon(status)
        case Err(e) => Err(e)
        case Ok(icon) =>
          Ok(JObj(map[
            "type" := JStr("status_card"),
            "status" := status,
            "title" := JStr("Claim #" + Str(Get(c.fields, "ID"), showOther) + " - " + Str(Get(c.fields, "Type"), showOther)),
            "description" := if Truthy(description) then description else JStr("Amount: " + Str(Get(c.fields, "Amount"), showOther)),
            "color" := JStr(color),
            "icon" := JStr(icon)]))
  }

  /** A row the card loop accepts: a dict whose status can be looked up. */
  predicate CardRow(c: Json) {
    c.JObj? && !GetOr(c.fields, "Status", JStr("DRAFT")).JArr? && !GetOr(c.fields, "Status", JStr("DRAFT")).JObj?
  }

  /** The card loop over a list of rows: one card per row, in order, or the
      first row's error. */
  function CardsOf(rows: seq<Json>, showOther: Json -> string): (r: Result<seq<Json>, PyError>)
    ensures r.Ok? ==> |r.value| == |rows|
    ensures r.Ok? ==> forall i :: 0 <= i < |rows| ==> Card(rows[i], showOther) == Ok(r.value[i])
  {
    if |rows| == 0 then Ok([])
    else
      match Card(rows[0], showOther)
      case Err(e) => Err(e)
      case Ok(card) =>
        match CardsOf(rows[1..], showOther)
        case Err(e) => Err(e)
        case Ok(cards) => Ok([card] + cards)
  }

  /** The card loop succeeds exactly when every row is a `CardRow`. */
  lemma {:induction false} CardsOfOkIff(rows: seq<Json>, showOther: Json -> string)
    ensures CardsOf(rows, showOther).Ok? <==> forall i :: 0 <= i < |rows| ==> CardRow(rows[i])
    decreases |rows|
  {
    if |rows| > 0 {
      CardsOfOkIff(rows[1..], showOther);
      if forall i :: 0 <= i < |rows| ==> CardRow(rows[i]) {
        assert forall i :: 0 <= i < |rows| - 1 ==> CardRow(rows[1..][i]) by {
          forall i | 0 <= i < |rows| - 1
            ensures CardRow(rows[1..][i])
          {
            assert rows[1..][i] == rows[i + 1];
          }
        }
      } else if CardRow(rows[0]) {
        var i :| 0 <= i < |rows| && !CardRow(rows[i]);
        assert i > 0;
        assert rows[1..][i - 1] == rows[i];
      }
    }
  }

  /** `for c in claims` where `claims` need not be a list: iterating a dict
      yields its string keys and a string its characters, and `.get` on a
      string raises; None and numbers are not iterable. */
  function Cards(claims: Json, showOther: Json -> string): (r: Result<seq<Json>, PyError>)
    ensures claims.JArr? ==> r == CardsOf(claims.items, showOther)
    ensures claims.JObj? ==> (r.Ok? <==> |claims.fields| == 0)
    ensures claims.JStr? ==> (r.Ok? <==> claims.s == "")
    ensures r.Ok? && !claims.JArr? ==> r.value == []
  {
    match claims
    case JArr(rows) => CardsOf(rows, showOther)
    case JObj(m) => if |m| == 0 then Ok([]) else Err(NoAttribute(JStr(""), "get"))
    case JStr(s) => if s == "" then Ok([]) else Err(NoAttribute(JStr(""), "get"))
    case _ => Err(PyError("TypeError", "'" + Py.TypeName(claims) + "' object is not iterable"))
  }

  /** The form card both form intents produce. */
  function FormCard(title: string, fields: Json): Json {
    JObj(map["type" := JStr("form_card"), "title" := JStr(title), "submitLabel" := JStr("Submit"),
             "fullWidth" := JBool(true), "fields" := fields])
  }

  /** `_process_data`: the component for an intent, `None` for any other
      intent, or the error raised on the way (a non-dict argument, or a
      card row the card loop cannot handle). */
  function ProcessData(data: Json, showOther: Json -> string): (r: Result<Option<Json>, PyError>)
    ensures !data.JObj? ==> r.Err?
    ensures data.JObj? ==>
      (r == Ok(None) <==> Get(data.fields, "a2ui_intent") !in IntentValues)
    ensures r.Err? ==> !data.JObj? || Get(data.fields, "a2ui_intent") == JStr(CardsIntent)
    ensures r.Ok? && r.value.Some? ==> r.value.value.JObj? && "type" in r.value.value.fields
  {
    if !data.JObj? then Err(NoAttribute(data, "get"))
    else
      var m := data.fields;
      var intent := Get(m, "a2ui_intent");
      if intent == JStr(TableIntent) then
        Ok(Some(JObj(map["type" := JStr("table_card"), "title" := GetOr(m, "summary", JStr("Claims List")),
                         "columns" := StrList(Columns), "rows" := GetOr(m, "data", JArr([]))])))
      else if intent == JStr(CardsIntent) then
        match Cards(GetOr(m, "data", JArr([])), showOther)
        case Err(e) => Err(e)
        case Ok(cards) =>
          Ok(Some(JObj(map["type" := JStr("card_list"), "title" := GetOr(m, "summary", JStr("Claims View")),
                           "cards" := JArr(cards)])))
      else if intent == JStr(CreateFormIntent) then
        Ok(Some(FormCard("Create New Claim", GetOr(m, "fields", JArr([])))))
      else if intent == JStr(UpdateFormIntent) then
        Ok(Some(FormCard("Update Claim #" + Str(Get(m, "claim_id"), showOther), GetOr(m, "fields", JArr([])))))
      else Ok(None)
  }

  /** A table intent always converts; its columns are the five fixed names
      whatever the data says, and its rows are the data unchanged. */
  lemma TableKeepsRows(m: map<string, Json>, showOther: Json -> string)
    requires Get(m, "a2ui_intent") == JStr(TableIntent)
    ensures ProcessData(JObj(m), showOther).Ok? && ProcessData(JObj(m), showOther).value.Some?
    ensures var t := ProcessData(JObj(m), showOther).value.value;
      t.fields["type"] == JStr("table_card") && t.fields["columns"] == StrList(Columns)
      && t.fields["rows"] == GetOr(m, "data", JArr([]))
      && (!("summary" in m) ==> t.fields["title"] == JStr("Claims List"))
  {
  }

  /** A card intent over a list of rows converts exactly when every row is a
      `CardRow`, and then gives one card per row, row `i` to card `i`. */
  lemma CardsPerRow(m: map<string, Json>, rows: seq<Json>, showOther: Json -> string)
    requires Get(m, "a2ui_intent") == JStr(CardsIntent) && GetOr(m, "data", JArr([])) == JArr(rows)
    ensures ProcessData(JObj(m), showOther).Ok? <==> forall i :: 0 <= i < |rows| ==> CardRow(rows[i])
    ensures ProcessData(JObj(m), showOther).Ok? ==>
      var l := ProcessData(JObj(m), showOther).value.value;
      l.fields["type"] == JStr("card_list") && l.fields["cards"].JArr? && |l.fields["cards"].items| == |rows|
      && forall i :: 0 <= i < |rows| ==> Card(rows[i], showOther) == Ok(l.fields["cards"].items[i])
  {
    CardsOfOkIff(rows, showOther);
  }

  /** A card whose row has no Status shows DRAFT, in gray with the DRAFT icon. */
  lemma MissingStatusIsDraft(c: map<string, Json>, showOther: Json -> string)
    requires "Status" !in c
    ensures Card(JObj(c), showOther).Ok?
    ensures var f := Card(JObj(c), showOther).value.fields;
      f["status"] == JStr("DRAFT") && f["color"] == JStr(ColorOf("DRAFT")) && f["icon"] == JStr(IconOf("DRAFT"))
  {
  }

  /** Both form intents give a submit-labelled, full-width form card whose
      fields are passed through unchanged. */
  lemma FormsKeepFields(m: map<string, Json>, showOther: Json -> string)
    requires Get(m, "a2ui_intent") in {JStr(CreateFormIntent), JStr(UpdateFormIntent)}
    ensures ProcessData(JObj(m), showOther).Ok? && ProcessData(JObj(m), showOther).value.Some?
    ensures var f := ProcessData(JObj(m), showOther).value.value.fields;
      f["type"] == JStr("form_card") && f["submitLabel"] == JStr("Submit") && f["fullWidth"] == JBool(true)
      && f["fields"] == GetOr(m, "fields", JArr([]))
  {
  }

  // ---------------------------------------------------------------------
  // Step 1: fenced blocks in the reply text

  /** The exact text the cleanup removes for a block. */
  function Fence(block: string): (f: string)
    ensures |f| == |block| + 10
  {
    "```json" + block + "```"
  }

  /** One iteration of the block loop.  A block that loads to a dict with an
      intent is cut out of the text first; its component is then added if
      there is one.  Any failure inside the iteration is swallowed, the cut
      included. */
  function ScanBlock(block: string, loads: string -> Option<Json>, clean: string, comps: seq<Json>,
                     showOther: Json -> string): (r: (string, seq<Json>))
    ensures |r.0| <= |clean|
    ensures |comps| <= |r.1| <= |comps| + 1 && r.1[..|comps|] == comps
  {
    match loads(block)
    case None => (clean, comps)
    case Some(data) =>
      if data.JObj? && "a2ui_intent" in data.fields then
        var clean' := Strip(ReplaceAll(clean, Fence(block), ""));
        match ProcessData(data, showOther)
        case Ok(Some(comp)) => (clean', comps + [comp])
        case _ => (clean', comps)
      else (clean, comps)
  }

  /** The block loop over the captured bodies, in text order. */
  function Scan(blocks: seq<string>, loads: string -> Option<Json>, clean: string, comps: seq<Json>,
                showOther: Json -> string): (r: (string, seq<Json>))
    decreases |blocks|
  {
    if |blocks| == 0 then (clean, comps)
    else
      var s := ScanBlock(blocks[0], loads, clean, comps, showOther);
      Scan(blocks[1..], loads, s.0, s.1, showOther)
  }

  /** The loop only ever shortens the text, keeps what it had collected,
      and adds at most one component per block. */
  lemma {:induction false} ScanBounds(blocks: seq<string>, loads: string -> Option<Json>, clean: string,
                                      comps: seq<Json>, showOther: Json -> string)
    ensures var r := Scan(blocks, loads, clean, comps, showOther);
      |r.0| <= |clean| && |comps| <= |r.1| <= |comps| + |blocks| && r.1[..|comps|] == comps
    decreases |blocks|
  {
    if |blocks| > 0 {
      var s := ScanBlock(blocks[0], loads, clean, comps, showOther);
      ScanBounds(blocks[1..], loads, s.0, s.1, showOther);
      var r := Scan(blocks[1..], loads, s.0, s.1, showOther);
      assert r.1[..|comps|] == r.1[..|s.1|][..|comps|];
    }
  }

  /** A block the loop ignores: it does not load to a dict with an intent. */
  predicate Inert(block: string, loads: string -> Option<Json>) {
    loads(block).None? || !loads(block).value.JObj? || "a2ui_intent" !in loads(block).value.fields
  }

  /** Blocks without an intent leave the text and the components alone. */
  lemma {:induction false} InertBlocksChangeNothing(blocks: seq<string>, loads: string -> Option<Json>, clean: string,
                                                    comps: seq<Json>, showOther: Json -> string)
    requires forall i :: 0 <= i < |blocks| ==> Inert(blocks[i], loads)
    ensures Scan(blocks, loads, clean, comps, showOther) == (clean, comps)
    decreases |blocks|
  {
    if |blocks| > 0 {
      assert Inert(blocks[0], loads);
      assert forall i :: 0 <= i < |blocks| - 1 ==> blocks[1..][i] == blocks[i + 1];
      InertBlocksChangeNothing(blocks[1..], loads, clean, comps, showOther);
    }
  }

  // ---------------------------------------------------------------------
  // Step 2: the parser model's reply

  /** What the parser agent call gave: it raised, or it answered with text. */
  datatype ParserReply = ParserRaised(error: PyError) | ParserSaid(text: string)

  /** The converter's answer: the text to show (a `replacementText` of any
      JSON type is passed through as it is) and the components. */
  datatype Converted = Converted(text: Json, components: seq<Json>)

  /** How one item of a component list is treated: kept as it is when it has
      "type", converted when it has "a2ui_intent", skipped otherwise; `in`
      on a number or None and `_process_data` on a non-dict raise. */
  function Item(x: Json, showOther: Json -> string): (r: Result<Option<Json>, PyError>)
    ensures In("type", x) == Ok(true) ==> r == Ok(Some(x))
    ensures In("type", x).Err? ==> r.Err?
    ensures In("type", x) == Ok(false) && In("a2ui_intent", x) == Ok(true) ==> r == ProcessData(x, showOther)
    ensures In("type", x) == Ok(false) && In("a2ui_intent", x) == Ok(false) ==> r == Ok(None)
  {
    match In("type", x)
    case Err(e) => Err(e)
    case Ok(hasType) =>
      if hasType then Ok(Some(x))
      else
        match In("a2ui_intent", x)
        case Err(e) => Err(e)
        case Ok(hasIntent) => if hasIntent then ProcessData(x, showOther) else Ok(None)
  }

  /** The component loop: the components of the items before the first one
      that raises; the exception ends the loop and is swallowed. */
  function Gather(items: seq<Json>, showOther: Json -> string): (r: seq<Json>)
    ensures |r| <= |items|
    ensures forall k :: 0 <= k < |r| ==> ItemComponent(items, r[k], showOther)
    ensures |items| > 0 && Item(items[0], showOther).Err? ==> r == []
    decreases |items|
  {
    if |items| == 0 then []
    else
      match Item(items[0], showOther)
      case Err(_) => []
      case Ok(None) =>
        var rest := Gather(items[1..], showOther);
        FromLaterItems(items, rest, [], showOther);
        rest
      case Ok(Some(c)) =>
        var rest := Gather(items[1..], showOther);
        FromLaterItems(items, rest, [c], showOther);
        [c] + rest
  }

  /** `c` is the component some item converts to. */
  predicate ItemComponent(items: seq<Json>, c: Json, showOther: Json -> string) {
    exists i :: 0 <= i < |items| && Item(items[i], showOther) == Ok(Some(c))
  }

  /** Components drawn from the items after the first, behind at most the
      first item's own component, are all drawn from the items. */
  lemma FromLaterItems(items: seq<Json>, rest: seq<Json>, head: seq<Json>, showOther: Json -> string)
    requires |items| > 0 && |head| <= 1
    requires |head| == 1 ==> Item(items[0], showOther) == Ok(Some(head[0]))
    requires forall k :: 0 <= k < |rest| ==> ItemComponent(items[1..], rest[k], showOther)
    ensures forall k :: 0 <= k < |head + rest| ==> ItemComponent(items, (head + rest)[k], showOther)
  {
    forall k | 0 <= k < |head + rest|
      ensures ItemComponent(items, (head + rest)[k], showOther)
    {
      if k < |head| {
        assert Item(items[0], showOther) == Ok(Some((head + rest)[k]));
      } else {
        assert ItemComponent(items[1..], rest[k - |head|], showOther);
        var i :| 0 <= i < |items[1..]| && Item(items[1..][i], showOther) == Ok(Some(rest[k - |head|]));
        assert Item(items[i + 1], showOther) == Ok(Some((head + rest)[k]));
      }
    }
  }

  /** When every item converts, each yields its component, in order. */
  lemma {:induction false} ConvertingItemsAllKept(items: seq<Json>, showOther: Json -> string)
    requires forall i :: 0 <= i < |items| ==> Item(items[i], showOther).Ok? && Item(items[i], showOther).value.Some?
    ensures |Gather(items, showOther)| == |items|
    ensures forall i :: 0 <= i < |items| ==> Gather(items, showOther)[i] == Item(items[i], showOther).value.value
    decreases |items|
  {
    if |items| > 0 {
      ConvertingItemsAllKept(items[1..], showOther);
    }
  }

  /** A dict carrying "type" counts as a finished component. */
  predicate Typed(x: Json) {
    x.JObj? && "type" in x.fields
  }

  /** Items that all carry "type" come through verbatim and in order, even
      when they also carry an intent. */
  lemma {:induction false} TypedItemsVerbatim(items: seq<Json>, showOther: Json -> string)
    requires forall i :: 0 <= i < |items| ==> Typed(items[i])
    ensures Gather(items, showOther) == items
    decreases |items|
  {
    if |items| > 0 {
      TypedConverts(items[0], showOther);
      TypedItemsVerbatim(items[1..], showOther);
    }
  }

  /** A typed item converts to itself. */
  lemma TypedConverts(x: Json, showOther: Json -> string)
    requires Typed(x)
    ensures Item(x, showOther) == Ok(Some(x))
  {
  }

  /** Components the converter builds itself pass through it again unchanged. */
  lemma ProducedComponentIsTyped(data: Json, showOther: Json -> string)
    requires ProcessData(data, showOther).Ok? && ProcessData(data, showOther).value.Some?
    ensures Typed(ProcessData(data, showOther).value.value)
    ensures Item(ProcessData(data, showOther).value.value, showOther) == Ok(ProcessData(data, showOther).value)
  {
  }

  /** An item that raises drops itself and everything after it, and keeps
      what came before. */
  lemma {:induction false} GatherStopsAtError(items: seq<Json>, k: nat, showOther: Json -> string)
    requires k < |items| && Item(items[k], showOther).Err?
    ensures Gather(items, showOther) == Gather(items[..k], showOther)
    decreases k
  {
    if k > 0 {
      assert items[1..][k - 1] == items[k];
      GatherStopsAtError(items[1..], k - 1, showOther);
      assert items[1..][..k - 1] == items[..k][1..];
      assert items[..k][0] == items[0];
    }
  }

  /** The parser reply with code fences removed and stripped. */
  function Unfenced(reply: string): string {
    Strip(ReplaceAll(ReplaceAll(reply, "```json", ""), "```", ""))
  }

  /** The text after step 2: a truthy `replacementText` wins. */
  function ReplacedText(m: map<string, Json>, clean: string): (t: Json)
    ensures "replacementText" in m && Truthy(m["replacementText"]) ==> t == m["replacementText"]
    ensures !("replacementText" in m && Truthy(m["replacementText"])) ==> t == JStr(clean)
  {
    if "replacementText" in m && Truthy(m["replacementText"]) then m["replacementText"] else JStr(clean)
  }

  /** Step 2 on a parser reply that is a dict: its `replacementText`, then
      its component list, or the dict itself as a finished component, or the
      dict converted by intent. */
  function FromObject(m: map<string, Json>, clean: string, showOther: Json -> string): (r: Converted)
    ensures r.text == ReplacedText(m, clean)
    ensures "type" in m && "components" !in m ==> r.components == [JObj(m)]
  {
    var text := ReplacedText(m, clean);
    if "components" in m && m["components"].JArr? then Converted(text, Gather(m["components"].items, showOther))
    else if "type" in m then Converted(text, [JObj(m)])
    else if "a2ui_intent" in m then
      match ProcessData(JObj(m), showOther)
      case Ok(Some(c)) => Converted(text, [c])
      case _ => Converted(text, [])
    else Converted(text, [])
  }

  /** Step 2's post-processing.  It never raises: a raising parser call or an
      unparsable reply gives back the text with no components. */
  function Smart(clean: string, reply: ParserReply, loads: string -> Option<Json>, showOther: Json -> string): (r: Converted)
    ensures reply.ParserRaised? ==> r == Converted(JStr(clean), [])
    ensures reply.ParserSaid? && loads(Unfenced(reply.text)).None? ==> r == Converted(JStr(clean), [])
    ensures r.text != JStr(clean) ==>
      && reply.ParserSaid?
      && loads(Unfenced(reply.text)).Some?
      && loads(Unfenced(reply.text)).value.JObj?
      && r.text == ReplacedText(loads(Unfenced(reply.text)).value.fields, clean)
  {
    match reply
    case ParserRaised(_) => Converted(JStr(clean), [])
    case ParserSaid(answer) =>
      match loads(Unfenced(answer))
      case None => Converted(JStr(clean), [])
      case Some(JArr(items)) => Converted(JStr(clean), Gather(items, showOther))
      case Some(JObj(m)) => FromObject(m, clean, showOther)
      case Some(_) => Converted(JStr(clean), [])
  }

  /** `extract_and_convert`: step 1, and step 2 only when step 1 produced no
      component.  The text step 2 starts from is whatever step 1 left. */
  function ExtractAndConvert(text: string, blocks: seq<string>, reply: ParserReply, loads: string -> Option<Json>,
                             showOther: Json -> string): (r: Converted)
    ensures |Scan(blocks, loads, text, [], showOther).1| > 0 ==>
      r == Converted(JStr(Scan(blocks, loads, text, [], showOther).0), Scan(blocks, loads, text, [], showOther).1)
    ensures |Scan(blocks, loads, text, [], showOther).1| == 0 ==>
      r == Smart(Scan(blocks, loads, text, [], showOther).0, reply, loads, showOther)
    ensures |Scan(blocks, loads, text, [], showOther).1| == 0 && reply.ParserRaised? ==>
      r == Converted(JStr(Scan(blocks, loads, text, [], showOther).0), [])
  {
    var s := Scan(blocks, loads, text, [], showOther);
    if |s.1| > 0 then Converted(JStr(s.0), s.1)
    else Smart(s.0, reply, loads, showOther)
  }

  /** Once a fenced block yields a component, the parser is never consulted:
      any two parser replies give the same answer, and every component
      comes from a block. */
  lemma BlocksWinOverParser(text: string, blocks: seq<string>, r1: ParserReply, r2: ParserReply,
                            loads: string -> Option<Json>, showOther: Json -> string)
    requires |Scan(blocks, loads, text, [], showOther).1| > 0
    ensures ExtractAndConvert(text, blocks, r1, loads, showOther) == ExtractAndConvert(text, blocks, r2, loads, showOther)
    ensures |ExtractAndConvert(text, blocks, r1, loads, showOther).components| <= |blocks|
    ensures |ExtractAndConvert(text, blocks, r1, loads, showOther).text.s| <= |text|
  {
    ScanBounds(blocks, loads, text, [], showOther);
  }

  /** With no intent-carrying block and a parser that raises, the reply text
      comes back exactly as it was, with no component. */
  lemma NothingToConvert(text: string, blocks: seq<string>, e: PyError, loads: string -> Option<Json>,
                         showOther: Json -> string)
    requires forall i :: 0 <= i < |blocks| ==> Inert(blocks[i], loads)
    ensures ExtractAndConvert(text, blocks, ParserRaised(e), loads, showOther) == Converted(JStr(text), [])
  {
    InertBlocksChangeNothing(blocks, loads, text, [], showOther);
  }

  /** A parser reply listing finished components, possibly with a
      replacement text, yields exactly those components. */
  lemma ParserComponentsVerbatim(clean: string, m: map<string, Json>, items: seq<Json>, showOther: Json -> string)
    requires "components" in m && m["components"] == JArr(items)
    requires forall i :: 0 <= i < |items| ==> Typed(items[i])
    ensures FromObject(m, clean, showOther) == Converted(ReplacedText(m, clean), items)
  {
    TypedItemsVerbatim(items, showOther);
  }

  /** The cleanup looks only for the block glued to its fences.  A block the
      scanner matched with a newline on each side converts, but the whole
      fenced block stays in the returned text. */
  lemma FencedWithNewlinesStays(block: string, comp: Json, loads: string -> Option<Json>,
                                reply: ParserReply, showOther: Json -> string)
    requires |block| >= 2 && block[0] == '{' && block[|block| - 1] == '}'
    requires loads(block).Some? && loads(block).value.JObj? && "a2ui_intent" in loads(block).value.fields
    requires ProcessData(loads(block).value, showOther) == Ok(Some(comp))
    ensures var text := "```json\n" + block + "\n```";
      ExtractAndConvert(text, [block], reply, loads, showOther) == Converted(JStr(text), [comp])
  {
    var text := "```json\n" + block + "\n```";
    FenceNotInWrapped(block);
    StripTrimmed(text);
    assert Scan([block], loads, text, [], showOther) == ScanBlock(block, loads, text, [], showOther);
  }

  /** The glued fence does not occur in the newline-wrapped text. */
  lemma FenceNotInWrapped(block: string)
    requires |block| >= 2 && block[0] == '{'
    ensures !Contains("```json\n" + block + "\n```", Fence(block))
  {
    var t := "```json\n" + block + "\n```";
    var p := Fence(block);
    assert t[7] == '\n' && p[7] == '{';
    assert t[3] == 'j' && p[1] == '`' && p[2] == '`';
    NoMatchNearStart(t, p);
  }

  /** A string two longer than `p` in which `p` cannot start at positions
      0, 1 or 2 does not contain `p`. */
  lemma NoMatchNearStart(s: string, p: string)
    requires |s| == |p| + 2 && |p| >= 8
    requires s[7] != p[7] && s[3] != p[2] && s[3] != p[1]
    ensures !Contains(s, p)
  {
    assert !StartsWith(s, p) by { assert s[..|p|][7] == s[7]; }
    assert !StartsWith(s[1..], p) by { assert s[1..][..|p|][2] == s[3]; }
    assert !StartsWith(s[2..], p) by { assert s[2..][..|p|][1] == s[3]; }
    assert s[1..][1..] == s[2..];
    assert s[2..][1..] == s[3..];
    ContainsFits(s[3..], p);
    assert !Contains(s[2..], p) by { assert Contains(s[2..], p) == (StartsWith(s[2..], p) || Contains(s[3..], p)); }
    assert !Contains(s[1..], p) by { assert Contains(s[1..], p) == (StartsWith(s[1..], p) || Contains(s[2..], p)); }
    assert Contains(s, p) == (StartsWith(s, p) || Contains(s[1..], p));
  }
}
