/** The response decoder: turns the raw text the service returns for an
    action into a structured reply, or into the exception the client would
    raise. The JSON parser is not modelled; it is a parameter. */
module Decoder {
  import opened Wrappers
  import opened Text
  import opened Tables

  /** A parsed JSON document. Numbers keep their literal spelling, since
      the decoder never inspects them. */
  datatype Json =
    | JNull
    | JBool(b: bool)
    | JNumber(literal: string)
    | JString(s: string)
    | JArray(items: seq<Json>)
    | JObject(fields: map<string, Json>)

  /** What `response` returns. */
  datatype Reply =
    | ErrorReply(error: string, message: string)   // {"error": ..., "message": ...}
    | BalanceReply(balance: string)                 // {"balance": ...}
    | NumberReply(activationId: nat, phone: nat)    // {"activation_id": ..., "phone": ...}
    | ServiceReply(id: nat, phone: nat)             // {"id": ..., "phone": ...}
    | JsonReply(value: Json)                        // the parsed document
    | RawReply(text: string)                        // the body itself

  /** The exceptions `response` can raise on an unexpected body. */
  datatype Failure =
    | ValueError       // int() of a segment that is not a decimal number
    | IndexError       // no second segment after the split
    | JsonDecodeError  // the body is not a JSON document
    | TypeError        // `in` or `pop` applied to a JSON value that does not support it
    | AttributeError   // `pop` on a JSON string

  type Outcome = Result<Reply, Failure>

  /** The advisory message returned for an empty body. */
  const ServerErrorMessage: string := "Server error, try again"

  /** The decoding rules the action dispatch chooses between. */
  datatype Rule =
    | ParseJson    // return the parsed document
    | BalanceText  // drop a 15-character prefix
    | NumberPair   // drop 14 characters, then `<activation id>:<phone>`
    | ServicePair  // drop 11 characters, then `<id>:<phone>`
    | TaskJson     // parse, then rename `msg` to `message`
    | RawText      // return the body unchanged

  /** The action dispatch of `response`, in the order of its `elif` chain. */
  function RuleOf(action: string): Rule
  {
    if action == "getNumbersStatus" then ParseJson
    else if action == "getBalance" then BalanceText
    else if action == "getBalanceAndCashBack" then BalanceText
    else if action == "getNumber" then NumberPair
    else if action == "getNumberV2" then ParseJson
    else if action == "getMultiServiceNumber" then ParseJson
    else if action == "getPrices" then ParseJson
    else if action == "getCountries" then ParseJson
    else if action == "getQiwiRequisites" then ParseJson
    else if action == "getAdditionalService" then ServicePair
    else if action == "getRentServicesAndCountries" then ParseJson
    else if action == "getRentNumber" then ParseJson
    else if action == "getRentStatus" then ParseJson
    else if action == "setRentStatus" then ParseJson
    else if action == "getRentList" then ParseJson
    else if action == "continueRentNumber" then ParseJson
    else if action == "getContinueRentPriceNumber" then ParseJson
    else if action == "getTopCountriesByService" then ParseJson
    else if action == "getIncomingCallStatus" then ParseJson
    else if action == "getOperators" then ParseJson
    else if action == "getActiveActivations" then ParseJson
    else if action == "createTaskForCall" then TaskJson
    else if action == "getOutgoingCalls" then ParseJson
    else RawText
  }

  /** The actions whose reply is a JSON document passed through unchanged. */
  const JsonActions: set<string> := {
    "getNumbersStatus", "getNumberV2", "getMultiServiceNumber", "getPrices",
    "getCountries", "getQiwiRequisites", "getRentServicesAndCountries",
    "getRentNumber", "getRentStatus", "setRentStatus", "getRentList",
    "continueRentNumber", "getContinueRentPriceNumber", "getTopCountriesByService",
    "getIncomingCallStatus", "getOperators", "getActiveActivations", "getOutgoingCalls"
  }

  /** Every action the dispatch chain names. */
  const DispatchedActions: set<string> :=
    JsonActions + {"getBalance", "getBalanceAndCashBack", "getNumber",
                   "getAdditionalService", "createTaskForCall"}

  /** The prefix length the pair rules cut off before splitting. */
  function PairPrefix(rule: Rule): nat
    requires rule == NumberPair || rule == ServicePair
  {
    if rule == NumberPair then 14 else 11
  }

  /** `data = s.split(":")`, then `int(data[0])` and `int(data[1])`, in that
      order: a bad first segment fails before a missing second one is noticed,
      and segments after the second are ignored. */
  function IdPhone(s: string): (r: Result<(nat, nat), Failure>)
    ensures var data := Split(s, ':');
            && (r.Success? <==> |data| >= 2 && ParseNat(data[0]).Some? && ParseNat(data[1]).Some?)
            && (r.Success? ==> Some(r.value.0) == ParseNat(data[0]) && Some(r.value.1) == ParseNat(data[1]))
            && (r == Failure(IndexError) <==> |data| == 1 && ParseNat(data[0]).Some?)
            && (r.Failure? ==> r.error in {ValueError, IndexError})
  {
    var data := Split(s, ':');
    match ParseNat(data[0])
    case None => Failure(ValueError)
    case Some(id) =>
      if |data| < 2 then Failure(IndexError)
      else
        match ParseNat(data[1])
        case None => Failure(ValueError)
        case Some(phone) => Success((id, phone))
  }

  /** `result['message'] = result.pop('msg')` when `'msg' in result`: the
      `msg` field moves to `message` (replacing any earlier `message`);
      every other field is untouched. */
  function RenameMsg(fields: map<string, Json>): (r: map<string, Json>)
    ensures "msg" !in r
    ensures "msg" in fields ==> "message" in r && r["message"] == fields["msg"]
    ensures "msg" in fields ==> r.Keys == fields.Keys - {"msg"} + {"message"}
    ensures "msg" !in fields ==> r == fields
    ensures forall k :: k in fields && k != "msg" && k != "message" ==> k in r && r[k] == fields[k]
  {
    if "msg" in fields then (fields - {"msg"})["message" := fields["msg"]] else fields
  }

  /** The `createTaskForCall` step applied to whatever `json.loads` produced.
      Only a JSON object is renamed. For a list, `'msg' in` compares the
      elements and `list.pop('msg')` raises `TypeError`; for a string, `in` is a
      substring test and `str` has no `pop`; for any other value `in` raises. */
  function TaskResult(j: Json): (r: Result<Json, Failure>)
    ensures j.JObject? ==> r == Success(JObject(RenameMsg(j.fields)))
    ensures r.Success? && !j.JObject? ==> r.value == j
    ensures (j.JNull? || j.JBool? || j.JNumber?) ==> r == Failure(TypeError)
    ensures j.JArray? ==> (r == Failure(TypeError) <==> JString("msg") in j.items)
    ensures j.JString? ==> (r == Failure(AttributeError) <==> Contains(j.s, "msg"))
  {
    match j
    case JObject(fields) => Success(JObject(RenameMsg(fields)))
    case JArray(items) => if JString("msg") in items then Failure(TypeError) else Success(j)
    case JString(s) => if Contains(s, "msg") then Failure(AttributeError) else Success(j)
    case _ => Failure(TypeError)
  }

  /** `response(action, body)`: the error table first, then the empty-body
      check, then the action's rule. */
  function Response(action: string, body: string, parseJson: string -> Option<Json>): (r: Outcome)
    ensures body in Errors ==> r == Success(ErrorReply(body, Errors[body]))
    ensures r.Failure? ==> body !in Errors && body != "" && RuleOf(action) in {NumberPair, ServicePair, ParseJson, TaskJson}
    ensures r.Success? && r.value.ErrorReply? ==> r.value.error == body && (body in Errors || body == "")
  {
    if CheckError(body) then Success(ErrorReply(body, GetError(body).value))
    else if body == "" then Success(ErrorReply(body, ServerErrorMessage))
    else
      match RuleOf(action)
      case ParseJson =>
        (match parseJson(body)
         case None => Failure(JsonDecodeError)
         case Some(j) => Success(JsonReply(j)))
      case BalanceText => Success(BalanceReply(Drop(body, 15)))
      case NumberPair =>
        (match IdPhone(Drop(body, 14))
         case Failure(e) => Failure(e)
         case Success(p) => Success(NumberReply(p.0, p.1)))
      case ServicePair =>
        (match IdPhone(Drop(body, 11))
         case Failure(e) => Failure(e)
         case Success(p) => Success(ServiceReply(p.0, p.1)))
      case TaskJson =>
        (match parseJson(body)
         case None => Failure(JsonDecodeError)
         case Some(j) =>
           match TaskResult(j)
           case Failure(e) => Failure(e)
           case Success(t) => Success(JsonReply(t)))
      case RawText => Success(RawReply(body))
  }

  // ---------------------------------------------------------------------
  // The dispatch table

  /** Which actions each rule serves: the 18 JSON actions pass through, the
      two balance actions cut a prefix, one action per pair rule, one for
      the rename, and every action the chain does not name keeps its body. */
  lemma DispatchTable(action: string)
    ensures RuleOf(action) == ParseJson <==> action in JsonActions
    ensures RuleOf(action) == BalanceText <==> action == "getBalance" || action == "getBalanceAndCashBack"
    ensures RuleOf(action) == NumberPair <==> action == "getNumber"
    ensures RuleOf(action) == ServicePair <==> action == "getAdditionalService"
    ensures RuleOf(action) == TaskJson <==> action == "createTaskForCall"
    ensures RuleOf(action) == RawText <==> action !in DispatchedActions
  {
  }

  // ---------------------------------------------------------------------
  // Precedence of the error checks

  /** A known error token wins for every action, including the two tokens
      that are also status codes: a `getStatus` reply `STATUS_CANCEL` is
      reported as an error, not as a status. */
  lemma StatusTokensAreErrors(action: string, parseJson: string -> Option<Json>)
    ensures Response(action, "STATUS_CANCEL", parseJson)
         == Success(ErrorReply("STATUS_CANCEL", "Current activation canceled and no longer available"))
    ensures Response(action, "STATUS_FINISH", parseJson)
         == Success(ErrorReply("STATUS_FINISH", "Rent paid and completed"))
  {
  }

  /** An empty body is a server error for every action: it is not a token. */
  lemma EmptyBodyIsServerError(action: string, parseJson: string -> Option<Json>)
    ensures Response(action, "", parseJson) == Success(ErrorReply("", ServerErrorMessage))
  {
    if "" in Errors {
      ErrorTokensAreColonFree("");
    }
  }

  /** A body containing a colon is never an error token, so it reaches the dispatch. */
  lemma ColonBodyIsDispatched(body: string)
    requires ':' in body
    ensures !CheckError(body) && body != ""
  {
    if body in Errors {
      ErrorTokensAreColonFree(body);
    }
  }

  // ---------------------------------------------------------------------
  // The balance rule

  /** The balance rule never fails: the balance is the body past 15
      characters, and empty for a shorter body. */
  lemma BalanceNeverFails(action: string, body: string, parseJson: string -> Option<Json>)
    requires action == "getBalance" || action == "getBalanceAndCashBack"
    requires body !in Errors && body != ""
    ensures Response(action, body, parseJson) == Success(BalanceReply(Drop(body, 15)))
    ensures |body| <= 15 ==> Response(action, body, parseJson).value.balance == ""
    ensures |body| > 15 ==> body == body[..15] + Response(action, body, parseJson).value.balance
  {
  }

  // ---------------------------------------------------------------------
  // The colon-pair rules

  /** `<id>:<phone>` followed by nothing or by further `:`-segments parses to the pair. */
  lemma {:induction false} IdPhoneRoundTrip(id: nat, phone: nat, tail: string)
    requires tail == [] || tail[0] == ':'
    ensures IdPhone(NatToString(id) + ":" + NatToString(phone) + tail) == Success((id, phone))
  {
    var a, p := NatToString(id), NatToString(phone);
    DigitsAreColonFree(a);
    DigitsAreColonFree(p);
    var s2 := [':'] + p + tail;
    assert a + ":" + p + tail == a + s2;
    SplitFree(a, ':', s2);
    assert s2[1..] == p + tail;
    SplitFree(p, ':', tail);
    var data := Split(a + s2, ':');
    assert data[0] == a && data[1] == p;
    ParseNatToString(id);
    ParseNatToString(phone);
  }

  /** `getNumber`: a non-error body made of a 14-character prefix, the
      activation id, a colon and the phone number decodes to that pair. */
  lemma {:induction false} NumberRoundTrip(prefix: string, id: nat, phone: nat, tail: string,
                                           parseJson: string -> Option<Json>)
    requires |prefix| == 14
    requires tail == [] || tail[0] == ':'
    ensures Response("getNumber", prefix + NatToString(id) + ":" + NatToString(phone) + tail, parseJson)
            == Success(NumberReply(id, phone))
  {
    var rest := NatToString(id) + ":" + NatToString(phone) + tail;
    var body := prefix + NatToString(id) + ":" + NatToString(phone) + tail;
    assert body == prefix + rest;
    assert body[|prefix| + |NatToString(id)|] == ':';
    ColonBodyIsDispatched(body);
    assert Drop(body, 14) == rest;
    IdPhoneRoundTrip(id, phone, tail);
  }

  /** `getAdditionalService`: the same rule after an 11-character prefix,
      giving the keys `id` and `phone`. */
  lemma {:induction false} ServiceRoundTrip(prefix: string, id: nat, phone: nat, tail: string,
                                            parseJson: string -> Option<Json>)
    requires |prefix| == 11
    requires tail == [] || tail[0] == ':'
    ensures Response("getAdditionalService", prefix + NatToString(id) + ":" + NatToString(phone) + tail, parseJson)
            == Success(ServiceReply(id, phone))
  {
    var rest := NatToString(id) + ":" + NatToString(phone) + tail;
    var body := prefix + NatToString(id) + ":" + NatToString(phone) + tail;
    assert body == prefix + rest;
    assert body[|prefix| + |NatToString(id)|] == ':';
    ColonBodyIsDispatched(body);
    assert Drop(body, 11) == rest;
    IdPhoneRoundTrip(id, phone, tail);
  }

  /** A first segment that is not a number fails the pair with `ValueError`,
      whatever follows it. */
  lemma {:induction false} BadIdFails(a: string, rest: string)
    requires ':' !in a && ParseNat(a) == None
    ensures IdPhone(a + ([':'] + rest)) == Failure(ValueError)
  {
    SplitFree(a, ':', [':'] + rest);
  }

  /** The 11-character cut of `getAdditionalService` fits a body that starts
      with `ADDITIONAL:`. A body that starts with `ACCESS_SERVICE:` keeps
      `ICE` as its first segment after the cut, which is not a number, so
      every such body fails to decode. */
  lemma {:induction false} AccessServiceFails(rest: string, parseJson: string -> Option<Json>)
    ensures Response("getAdditionalService", "ACCESS_SERVICE:" + rest, parseJson) == Failure(ValueError)
  {
    var body := "ACCESS_SERVICE:" + rest;
    assert body[14] == ':';
    ColonBodyIsDispatched(body);
    assert Drop(body, 11) == "ICE" + ([':'] + rest);
    assert !IsDigit("ICE"[0]);
    BadIdFails("ICE", rest);
  }

  /** A pair rule fails exactly when, past its prefix, there are fewer than two
      segments or one of the first two is not a decimal number. */
  lemma PairFailure(action: string, body: string, parseJson: string -> Option<Json>)
    requires RuleOf(action) == NumberPair || RuleOf(action) == ServicePair
    requires body !in Errors && body != ""
    ensures var data := Split(Drop(body, PairPrefix(RuleOf(action))), ':');
            Response(action, body, parseJson).Failure? <==>
              |data| < 2 || ParseNat(data[0]) == None || ParseNat(data[1]) == None
  {
  }

  // ---------------------------------------------------------------------
  // The JSON rules

  /** A JSON pass-through action returns exactly the parsed document, and
      fails exactly when the body does not parse. */
  lemma JsonPassThrough(action: string, body: string, parseJson: string -> Option<Json>)
    requires action in JsonActions
    requires body !in Errors && body != ""
    ensures parseJson(body).Some? ==> Response(action, body, parseJson) == Success(JsonReply(parseJson(body).value))
    ensures parseJson(body).None? ==> Response(action, body, parseJson) == Failure(JsonDecodeError)
  {
  }

  /** `createTaskForCall` on a JSON object changes only the `msg` field's name. */
  lemma TaskRenamesOnlyMsg(body: string, parseJson: string -> Option<Json>, fields: map<string, Json>)
    requires body !in Errors && body != ""
    requires parseJson(body) == Some(JObject(fields))
    ensures var r := Response("createTaskForCall", body, parseJson);
            && r.Success? && r.value.JsonReply? && r.value.value.JObject?
            && "msg" !in r.value.value.fields
            && ("msg" !in fields ==> r.value.value.fields == fields)
            && ("msg" in fields ==> r.value.value.fields["message"] == fields["msg"])
            && r.value.value.fields == RenameMsg(fields)
  {
    assert RuleOf("createTaskForCall") == TaskJson;
    assert TaskResult(JObject(fields)) == Success(JObject(RenameMsg(fields)));
    assert Response("createTaskForCall", body, parseJson) == Success(JsonReply(JObject(RenameMsg(fields))));
  }

  /** Renaming twice is renaming once. */
  lemma RenameMsgIdempotent(fields: map<string, Json>)
    ensures RenameMsg(RenameMsg(fields)) == RenameMsg(fields)
  {
  }

  // ---------------------------------------------------------------------
  // The actions without a rule

  /** `setStatus`, `getStatus`, `getFullSms` and every other action outside
      the chain get the body back unchanged. */
  lemma UndispatchedIsRaw(action: string, body: string, parseJson: string -> Option<Json>)
    requires action !in DispatchedActions
    requires body !in Errors && body != ""
    ensures Response(action, body, parseJson) == Success(RawReply(body))
  {
  }

  lemma StatusActionsAreRaw()
    ensures "setStatus" !in DispatchedActions
    ensures "getStatus" !in DispatchedActions
    ensures "getFullSms" !in DispatchedActions
  {
  }

  // ---------------------------------------------------------------------
  // Worked replies

  lemma BalanceExample(parseJson: string -> Option<Json>)
    ensures Response("getBalance", "ACCESS_BALANCE:12.50", parseJson) == Success(BalanceReply("12.50"))
  {
    ColonBodyIsDispatched("ACCESS_BALANCE:12.50");
  }
}
