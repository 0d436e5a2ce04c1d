/**
 * The `append_to_sheet` tool: parse the model's output, validate its shape in a
 * fixed order, and only then hand it to the sheet. Every failure becomes an
 * error reply; nothing is raised past the tool boundary.
 */
module AppendTool {
  import opened Wrappers
  import opened JsonValue
  import opened Sheets

  /** `expected_keys`. The server holds them in a Python set; since testing one key
      raises exactly when testing any other does, the order of the test does not matter. */
  const RequiredKeys: seq<string> := ["vendor", "date", "line_items"]

  /** Why a parsed document was refused; each comes with the parsed data as `raw`. */
  datatype Rejection =
    | MissingRequiredKeys          // "Invalid JSON: missing required keys ..."
    | LineItemsNotList             // "line_items must be a list"
    | InvalidLineItem(item: Json)  // "Invalid line_item format <item>. Must include ..."

  /** The outcome of the checks: pass, refuse, or an exception raised while checking. */
  datatype Verdict = Accept | Reject(why: Rejection) | Raise(fault: Fault)

  /** Python's `all(k in data for k in keys)`: stops at the first false or raising test. */
  function AllIn(data: Json, keys: seq<string>): (r: Result<bool, Fault>)
    ensures r == Ok(true) <==> forall i :: 0 <= i < |keys| ==> PyContains(data, keys[i]) == Ok(true)
    ensures r.Err? ==> |keys| > 0 && r == PyContains(data, keys[0])
    ensures |keys| > 0 && PyContains(data, keys[0]).Err? ==> r == PyContains(data, keys[0])
  {
    if |keys| == 0 then Ok(true)
    else match PyContains(data, keys[0])
      case Err(f) => Err(f)
      case Ok(false) => Ok(false)
      case Ok(true) =>
        var rest := AllIn(data, keys[1..]);
        assert forall i :: 1 <= i < |keys| ==> keys[i] == keys[1..][i - 1];
        rest
  }

  /** `{"item", "price", "category"} <= li.keys()`; `.keys()` raises on a non-dict. */
  function CheckItem(li: Json): (r: Result<bool, Fault>) {
    if li.Obj? then Ok("item" in li.fields && "price" in li.fields && "category" in li.fields)
    else Err(MissingAttribute("keys"))
  }

  /** The index of the first line item the loop stops at, if any. */
  function FirstFailing(items: seq<Json>): (r: Option<nat>)
    ensures r.None? <==> forall k :: 0 <= k < |items| ==> CheckItem(items[k]) == Ok(true)
    ensures r.Some? ==> r.value < |items| && CheckItem(items[r.value]) != Ok(true)
    ensures r.Some? ==> forall k :: 0 <= k < r.value ==> CheckItem(items[k]) == Ok(true)
  {
    if |items| == 0 then None
    else if CheckItem(items[0]) != Ok(true) then Some(0)
    else match FirstFailing(items[1..])
      case None => None
      case Some(k) => Some(k + 1)
  }

  /** The checks of `append_to_sheet`, in the order the code makes them. */
  function Validate(data: Json): (r: Verdict) {
    match AllIn(data, RequiredKeys)
    case Err(f) => Raise(f)
    case Ok(false) => Reject(MissingRequiredKeys)
    case Ok(true) =>
      if !data.Obj? then Raise(NotSubscriptableByKey)   // data["line_items"] on a list or a str
      else
        assert PyContains(data, RequiredKeys[2]) == Ok(true);
        var lineItems := data.fields["line_items"];
        if !lineItems.Arr? then Reject(LineItemsNotList)
        else match FirstFailing(lineItems.items)
          case None => Accept
          case Some(k) =>
            match CheckItem(lineItems.items[k])
            case Err(f) => Raise(f)
            case Ok(_) => Reject(InvalidLineItem(lineItems.items[k]))
  }

  /** A receipt as the code accepts it, stated directly. */
  predicate IsReceipt(data: Json) {
    && data.Obj?
    && "vendor" in data.fields && "date" in data.fields && "line_items" in data.fields
    && data.fields["line_items"].Arr?
    && forall k :: 0 <= k < |data.fields["line_items"].items| ==>
         var li := data.fields["line_items"].items[k];
         li.Obj? && "item" in li.fields && "price" in li.fields && "category" in li.fields
  }

  lemma AllRequiredInObject(m: map<string, Json>)
    ensures AllIn(Obj(m), RequiredKeys) == Ok("vendor" in m && "date" in m && "line_items" in m)
  {
    var r := AllIn(Obj(m), RequiredKeys);
    if r == Ok(true) {
      assert PyContains(Obj(m), RequiredKeys[0]) == Ok(true);
      assert PyContains(Obj(m), RequiredKeys[1]) == Ok(true);
      assert PyContains(Obj(m), RequiredKeys[2]) == Ok(true);
    } else {
      assert r.Ok?;
      var i :| 0 <= i < |RequiredKeys| && PyContains(Obj(m), RequiredKeys[i]) != Ok(true);
      assert RequiredKeys[i] !in m;
      assert RequiredKeys[i] == "vendor" || RequiredKeys[i] == "date" || RequiredKeys[i] == "line_items";
      assert !r.value;
    }
  }

  /** The checks pass exactly on receipts. */
  lemma ValidateAcceptsExactlyReceipts(data: Json)
    ensures Validate(data) == Accept <==> IsReceipt(data)
  {
    if data.Obj? {
      AllRequiredInObject(data.fields);
      if IsReceipt(data) {
        var items := data.fields["line_items"].items;
        assert forall k :: 0 <= k < |items| ==> CheckItem(items[k]) == Ok(true);
      }
    } else {
      var r := AllIn(data, RequiredKeys);
      assert r.Ok? && r.value ==> Validate(data) == Raise(NotSubscriptableByKey);
    }
  }

  /** A missing top-level key is reported whatever `line_items` holds. */
  lemma MissingKeyReportedFirst(m: map<string, Json>)
    requires "vendor" !in m || "date" !in m || "line_items" !in m
    ensures Validate(Obj(m)) == Reject(MissingRequiredKeys)
  {
    AllRequiredInObject(m);
  }

  /** With every key present, a non-list `line_items` is reported before any line item is looked at. */
  lemma NonListReportedBeforeItems(m: map<string, Json>)
    requires "vendor" in m && "date" in m && "line_items" in m
    requires !m["line_items"].Arr?
    ensures Validate(Obj(m)) == Reject(LineItemsNotList)
  {
  }

  /** The first offending line item is the one reported: as a refusal when it is a dict
      missing a key, as the AttributeError of `.keys()` when it is not a dict. */
  lemma FirstOffendingItemReported(m: map<string, Json>, k: nat)
    requires "vendor" in m && "date" in m && "line_items" in m
    requires m["line_items"].Arr? && k < |m["line_items"].items|
    requires CheckItem(m["line_items"].items[k]) != Ok(true)
    requires forall j :: 0 <= j < k ==> CheckItem(m["line_items"].items[j]) == Ok(true)
    ensures var li := m["line_items"].items[k];
            Validate(Obj(m)) == if li.Obj? then Reject(InvalidLineItem(li)) else Raise(MissingAttribute("keys"))
  {
  }

  /** A number, a boolean or null as the whole document makes the very first `in` raise. */
  lemma ScalarDocumentRaises(data: Json)
    requires data.Null? || data.Bool? || data.Num?
    ensures Validate(data) == Raise(NotAContainer)
  {
  }

  /** What the tool reports. `Appended` is {"status": "success", "rows_added": n}. */
  datatype Reply =
    | Appended(rowsAdded: nat)
    | Rejected(rejection: Rejection, rawData: Json)   // "raw": the parsed data
    | Failed(failure: Failure, rawText: string)      // "raw": the original input text

  datatype Failure =
    | InvalidJsonFromModel   // "Invalid JSON received from LLM" (json.JSONDecodeError)
    | Raised(fault: Fault)   // any other exception, reported as str(e)

  /**
   * `append_to_sheet`. `decoded` is what `json.loads(structuredJson)` produced (None for a
   * decode error); `authError` and `serviceError` are the outcomes of the sheet's external calls.
   */
  method AppendToSheet(structuredJson: string, decoded: Option<Json>, tool: SheetsTool,
                       authError: Option<string>, serviceError: Option<string>)
    returns (reply: Reply)
    modifies tool
    ensures decoded.None? ==> reply == Failed(InvalidJsonFromModel, structuredJson)
    ensures decoded.Some? && Validate(decoded.value).Reject? ==>
      reply == Rejected(Validate(decoded.value).why, decoded.value)
    ensures decoded.Some? && Validate(decoded.value).Raise? ==>
      reply == Failed(Raised(Validate(decoded.value).fault), structuredJson)
    ensures (decoded.None? || !Validate(decoded.value).Accept?) ==>
      tool.received == old(tool.received) && tool.authorized == old(tool.authorized)
    ensures reply.Appended? ==>
      decoded.Some? && IsReceipt(decoded.value) &&
      reply.rowsAdded == |decoded.value.fields["line_items"].items| &&
      tool.received == old(tool.received) + [Rows(decoded.value.fields)]
    ensures decoded.Some? && Validate(decoded.value).Accept? && !reply.Appended? ==>
      reply.Failed? && reply.rawText == structuredJson && reply.failure.Raised? &&
      reply.failure.fault.Collaborator? && tool.received == old(tool.received)
    ensures decoded.Some? && IsReceipt(decoded.value) ==>
      if !old(tool.authorized) && authError.Some? then
        reply == Failed(Raised(Collaborator(authError.value)), structuredJson) &&
        !tool.authorized && tool.received == old(tool.received)
      else if serviceError.Some? then
        reply == Failed(Raised(Collaborator(serviceError.value)), structuredJson) &&
        tool.authorized && tool.received == old(tool.received)
      else
        reply == Appended(|decoded.value.fields["line_items"].items|) &&
        tool.authorized && tool.received == old(tool.received) + [Rows(decoded.value.fields)]
  {
    if decoded.None? {
      return Failed(InvalidJsonFromModel, structuredJson);
    }
    var data := decoded.value;
    var verdict := Validate(data);
    match verdict {
      case Reject(why) =>
        return Rejected(why, data);
      case Raise(f) =>
        return Failed(Raised(f), structuredJson);
      case Accept =>
        ValidateAcceptsExactlyReceipts(data);
        var r := tool.AppendReceipt(data.fields, authError, serviceError);
        match r {
          case Ok(n) =>
            return Appended(n);
          case Err(f) =>
            return Failed(Raised(f), structuredJson);
        }
    }
  }
}
