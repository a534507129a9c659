/** How an answer of the Fragment API becomes succeeded, pending, uncertain or failed. */
module FragmentClient {
  import opened Domain
  import opened OrderFlow
  import opened Strings

  /** A decoded response; of a number or a list only its text matters, and never that it is empty. */
  datatype Data = Null | Flag(b: bool) | Text(text: string) | Object(members: map<string, Data>)

  /** What a call to the SDK ends in: an exception with its code or class name, or a response. */
  datatype Outcome = Raised(code: string) | Answered(data: Data)

  const DEFINITIVE_ERRORS := [
    "VALIDATION_ERROR",
    "INVALID_USERNAME_FORMAT",
    "INVALID_SEED",
    "INVALID_WALLET_SEED",
    "INVALID_FRAGMENT_COOKIES",
    "INVALID_FRAGMENT_LOCAL_STORAGE",
    "INSUFFICIENT_BALANCE",
    "INSUFFICIENT_WALLET_BALANCE",
    "USER_NOT_FOUND",
    "TELEGRAM_USER_NOT_FOUND",
    "FRAGMENT_ADDITIONAL_VERIFICATION_REQUIRED"
  ]

  const FRAGMENT_MIN_STARS := 50

  function Take64(text: string): string {
    if |text| <= 64 then text else text[..64]
  }

  predicate IsBlank(d: Data) {
    d == Null || d == Text("")
  }

  /** Python's truth of a value. */
  predicate IsTrue(d: Data) {
    match d
    case Null => false
    case Flag(b) => b
    case Text(text) => text != ""
    case Object(members) => members != map[]
  }

  function Shown(d: Data): string {
    match d
    case Null => "None"
    case Flag(b) => if b then "True" else "False"
    case Text(text) => text
    case Object(_) => "{...}"
  }

  /** The first key that holds something other than nothing and the empty string. */
  function Pick(d: Data, keys: seq<string>, fallback: Data): Data {
    if keys == [] then fallback
    else if d.Object? && keys[0] in d.members && !IsBlank(d.members[keys[0]]) then d.members[keys[0]]
    else Pick(d, keys[1..], fallback)
  }

  function Or(d: Data, fallback: Data): Data {
    if IsTrue(d) then d else fallback
  }

  // ---------------------------------------------------------------- error codes

  /** The code a decoded object carries, or the empty string. */
  function ObjectCode(d: Data): string {
    if !d.Object? then ""
    else
      var own := Pick(d, ["error_code", "code"], Null);
      var nested := if "error" in d.members then d.members["error"] else Null;
      var code := if own == Null && nested.Object? then Pick(nested, ["error_code", "code"], Null) else own;
      if IsTrue(code) then Take64(UpperText(Strip(Shown(code)))) else ""
  }

  function FirstContained(text: string, codes: seq<string>): string {
    if codes == [] then ""
    else if Contains(text, codes[0]) then codes[0]
    else FirstContained(text, codes[1..])
  }

  /** `parse` is JSON decoding, which gives nothing for text that is not JSON. */
  function FragmentError(error: Data, payload: Data, parse: string -> Option<Data>): string {
    if ObjectCode(payload) != "" then ObjectCode(payload)
    else if ObjectCode(error) != "" then ObjectCode(error)
    else if error.Text? then
      var decoded := parse(Strip(error.text));
      var upper := UpperText(Strip(error.text));
      if decoded.Some? && decoded.value.Object? then
        if ObjectCode(decoded.value) != "" then ObjectCode(decoded.value) else "FRAGMENT_PURCHASE_FAILED"
      else if FirstContained(upper, DEFINITIVE_ERRORS) != "" then FirstContained(upper, DEFINITIVE_ERRORS)
      else if Contains(upper, "INSUFFICIENT") && Contains(upper, "BALANCE") then "INSUFFICIENT_BALANCE"
      else "FRAGMENT_PURCHASE_FAILED"
    else "FRAGMENT_PURCHASE_FAILED"
  }

  /** The code the order service compares; the empty text counts as no code. */
  function CodeOf(text: string): Option<Code> {
    if text == "" then None
    else if text == "INSUFFICIENT_BALANCE" then Some(InsufficientBalance)
    else if text == "INSUFFICIENT_WALLET_BALANCE" then Some(InsufficientWalletBalance)
    else if text == "MERCHANT_BALANCE_RETRY_APPROVED" then Some(BalanceRetryApproved)
    else Some(ProviderCode(text))
  }

  // ---------------------------------------------------------------- classification

  function Pending(requestId: string): PurchaseResult {
    PurchaseResult(false, true, false, None, Some(requestId), None)
  }

  function Failed(code: string): PurchaseResult {
    PurchaseResult(false, false, false, None, None, CodeOf(code))
  }

  function Doubtful(code: string): PurchaseResult {
    PurchaseResult(false, false, true, None, None, CodeOf(code))
  }

  function ExceptionResponse(code: string): PurchaseResult {
    if Take64(code) in DEFINITIVE_ERRORS then Failed(Take64(code)) else Doubtful(Take64(code))
  }

  function StartStarsPurchase(hasSeed: bool, outcome: Outcome): PurchaseResult {
    if !hasSeed then Failed("WALLET_SEED_MISSING")
    else if outcome.Raised? then ExceptionResponse(outcome.code)
    else
      var requestId := Pick(outcome.data, ["request_id"], Null);
      if !IsTrue(requestId) then Doubtful("FRAGMENT_REQUEST_ID_MISSING") else Pending(Shown(requestId))
  }

  function Status(data: Data): string {
    LowerText(AfterLastDot(Shown(Pick(data, ["status"], Text("")))))
  }

  function Payload(data: Data): Data {
    Or(Pick(data, ["result"], Object(map[])), Object(map[]))
  }

  function Nested(data: Data): Data {
    Or(Pick(Payload(data), ["data"], Payload(data)), Payload(data))
  }

  /** A completed request that says itself that it did not succeed. */
  predicate SaysFailed(data: Data) {
    Pick(Nested(data), ["success"], Pick(Payload(data), ["success"], Flag(true))) == Flag(false)
  }

  function TransactionOf(data: Data): Data {
    Pick(Nested(data), ["transaction_hash", "transaction_id", "invoice_id"], Null)
  }

  function GetPurchaseStatus(requestId: string, outcome: Outcome, parse: string -> Option<Data>): PurchaseResult {
    match outcome
    case Raised(code) =>
      var response := ExceptionResponse(code);
      PurchaseResult(false, response.uncertain, false, None, Some(requestId), response.code)
    case Answered(data) =>
      if Status(data) in ["queued", "processing", "pending"] then Pending(requestId)
      else if Status(data) == "completed" then
        if SaysFailed(data) then
          var error := Pick(Nested(data), ["error"], Pick(Payload(data), ["error"], Null));
          Failed(FragmentError(error, Nested(data), parse)).(requestId := Some(requestId))
        else if !IsTrue(TransactionOf(data)) then
          Doubtful("FRAGMENT_PURCHASE_REFERENCE_MISSING").(requestId := Some(requestId))
        else PurchaseResult(true, false, false, Some(Shown(TransactionOf(data))), Some(requestId), None)
      else if Status(data) == "failed" then
        var error := Pick(data, ["error"], Pick(data, ["result"], Null));
        Failed(FragmentError(error, Pick(data, ["result"], Null), parse)).(requestId := Some(requestId))
      else Doubtful("FRAGMENT_STATUS_UNCERTAIN").(requestId := Some(requestId))
  }

  datatype Gate = Gate(username: string, enabled: bool, stars: int, wellFormed: bool, hasSeed: bool)

  /** Nothing is sent unless all of these hold. */
  predicate Sends(gate: Gate) {
    gate.username != "" && gate.enabled && gate.stars >= FRAGMENT_MIN_STARS && gate.wellFormed && gate.hasSeed
  }

  function StartPurchase(gate: Gate, outcome: Outcome): PurchaseResult {
    if gate.username == "" then Failed("RECIPIENT_USERNAME_MISSING")
    else if !gate.enabled then Failed("REAL_PURCHASE_DISABLED")
    else if gate.stars < FRAGMENT_MIN_STARS then Failed("AMOUNT_BELOW_MINIMUM")
    else if !gate.wellFormed then Failed("INVALID_USERNAME")
    else StartStarsPurchase(gate.hasSeed, outcome)
  }

  // ---------------------------------------------------------------- what the service may rely on

  /** Every answer is of exactly one kind, and the service reads its kind off the three flags. */
  predicate Classified(res: PurchaseResult) {
    && (res.pending <==> IsQueued(res))
    && (res.succeeded ==> !res.pending && !res.uncertain && Truthy(res.txId))
    && (res.pending ==> !res.uncertain)
    && (IsDefiniteFailure(res) <==> !res.succeeded && !res.pending && !res.uncertain)
  }

  lemma DefinitiveIsShort(code: string)
    requires Take64(code) in DEFINITIVE_ERRORS
    ensures Take64(code) == code
  {
  }

  lemma ExceptionIsDefinitive(code: string)
    ensures ExceptionResponse(code).uncertain <==> code !in DEFINITIVE_ERRORS
    ensures ExceptionResponse(code).uncertain ==> !IsBalanceCode(ResultCode(ExceptionResponse(code)))
  {
    if Take64(code) in DEFINITIVE_ERRORS { DefinitiveIsShort(code); }
    if code in DEFINITIVE_ERRORS { assert Take64(code) == code; }
    assert DEFINITIVE_ERRORS[6] == "INSUFFICIENT_BALANCE" && DEFINITIVE_ERRORS[7] == "INSUFFICIENT_WALLET_BALANCE";
  }

  /**
   After a purchase was sent, only an exception with one of the definitive codes counts as a failure: a timeout, an
   unknown error or a response without a request identifier never does. Before it is sent, every refusal does.
   */
  lemma StartIsClassified(gate: Gate, outcome: Outcome)
    ensures
      var res := StartPurchase(gate, outcome);
      && Classified(res) && !res.succeeded
      && (IsDefiniteFailure(res) <==> !Sends(gate) || (outcome.Raised? && outcome.code in DEFINITIVE_ERRORS))
      && (res.pending <==> Sends(gate) && outcome.Answered? && IsTrue(Pick(outcome.data, ["request_id"], Null)))
  {
    if outcome.Raised? { ExceptionIsDefinitive(outcome.code); }
    hide DEFINITIVE_ERRORS, ExceptionResponse;
    if outcome.Answered? && outcome.data.Object? { assert IsTrue(Flag(false)) == false; }
  }

  /**
   A status answer counts as a failure exactly when it reports one or raises a definitive code, and as a success
   exactly when it completed with a transaction and does not say that it failed.
   */
  lemma StatusIsClassified(requestId: string, outcome: Outcome, parse: string -> Option<Data>)
    requires requestId != ""
    ensures
      var res := GetPurchaseStatus(requestId, outcome, parse);
      && Classified(res) && res.requestId == Some(requestId)
      && (IsDefiniteFailure(res) <==>
            if outcome.Raised? then outcome.code in DEFINITIVE_ERRORS
            else Status(outcome.data) == "failed" || (Status(outcome.data) == "completed" && SaysFailed(outcome.data)))
      && (res.succeeded <==>
            && outcome.Answered? && Status(outcome.data) == "completed"
            && !SaysFailed(outcome.data) && IsTrue(TransactionOf(outcome.data)))
  {
    if outcome.Raised? { ExceptionIsDefinitive(outcome.code); }
    hide DEFINITIVE_ERRORS, ExceptionResponse, Status, SaysFailed, FragmentError, Nested, Payload, TransactionOf;
  }

  // ---------------------------------------------------------------- what is reported

  /** The object says something under this key. */
  predicate Says(d: Data, key: string) {
    d.Object? && key in d.members && d.members[key] != Null && d.members[key] != Text("")
  }

  /** The value is what the object says under the first of the keys that it says anything under. */
  ghost predicate SaysFirst(d: Data, keys: seq<string>, value: Data) {
    exists i :: 0 <= i < |keys| && Says(d, keys[i]) && d.members[keys[i]] == value && forall j :: 0 <= j < i ==> !Says(d, keys[j])
  }

  lemma {:induction false} PickFinds(d: Data, keys: seq<string>, fallback: Data)
    ensures
      if exists i :: 0 <= i < |keys| && Says(d, keys[i]) then SaysFirst(d, keys, Pick(d, keys, fallback))
      else Pick(d, keys, fallback) == fallback
  {
    if keys != [] && !Says(d, keys[0]) {
      PickFinds(d, keys[1..], fallback);
      assert forall i :: 0 < i < |keys| ==> keys[i] == keys[1..][i - 1];
      if i :| 0 <= i < |keys[1..]| && Says(d, keys[1..][i]) && d.members[keys[1..][i]] == Pick(d, keys, fallback)
              && forall j :: 0 <= j < i ==> !Says(d, keys[1..][j]) {
        assert keys[i + 1] == keys[1..][i];
        assert forall j :: 0 <= j < i + 1 ==> !Says(d, keys[j]);
      } else {
        assert forall i :: 0 <= i < |keys| && Says(d, keys[i]) ==> Says(d, keys[1..][i - 1]);
      }
    }
  }

  lemma PickTells(d: Data, keys: seq<string>, value: Data)
    requires Pick(d, keys, Null) == value && IsTrue(value)
    ensures SaysFirst(d, keys, value)
  {
    PickFinds(d, keys, Null);
  }

  /** A request that Fragment took on is known by the identifier in the answer, and by nothing else. */
  lemma PendingNamesRequest(gate: Gate, outcome: Outcome)
    requires StartPurchase(gate, outcome).pending
    ensures
      var res := StartPurchase(gate, outcome);
      && outcome.Answered? && Says(outcome.data, "request_id")
      && res.requestId == Some(Shown(outcome.data.members["request_id"])) && res.txId.None? && res.code.None?
  {
    StartIsClassified(gate, outcome);
    var value := Pick(outcome.data, ["request_id"], Null);
    PickTells(outcome.data, ["request_id"], value);
    hide Pick;
  }

  /** A success names the hash of the transaction, else its identifier, else the invoice. */
  lemma SuccessNamesTransaction(requestId: string, data: Data, parse: string -> Option<Data>)
    requires GetPurchaseStatus(requestId, Answered(data), parse).succeeded
    ensures exists value ::
              && SaysFirst(Nested(data), ["transaction_hash", "transaction_id", "invoice_id"], value)
              && GetPurchaseStatus(requestId, Answered(data), parse).txId == Some(Shown(value))
  {
    var value := TransactionOf(data);
    PickTells(Nested(data), ["transaction_hash", "transaction_id", "invoice_id"], value);
    hide Pick, Nested, FragmentError, SaysFailed, Status;
  }

  /** The result of a request is read from its data where there is some that is not empty, else from the result itself. */
  lemma NestedIsData(data: Data, result: Data)
    requires Says(data, "result") && data.members["result"] == result && result.Object?
    ensures Says(result, "data") && IsTrue(result.members["data"]) ==> Nested(data) == result.members["data"]
    ensures !Says(result, "data") ==> Nested(data) == result
  {
    PickFinds(data, ["result"], Object(map[]));
    PickFinds(result, ["data"], result);
    assert Pick(data, ["result"], Object(map[])) == result;
    if !IsTrue(result) { assert result == Object(map[]); }
  }

  /** A purchase waits for the balance exactly when the SDK raised one of the two codes for that. */
  lemma RaisedCodeIsKept(gate: Gate, code: string)
    requires Sends(gate)
    ensures
      var res := StartPurchase(gate, Raised(code));
      && (res.code == Some(InsufficientBalance) <==> code == "INSUFFICIENT_BALANCE")
      && (res.code == Some(InsufficientWalletBalance) <==> code == "INSUFFICIENT_WALLET_BALANCE")
      && (code in {"USER_NOT_FOUND", "INVALID_FRAGMENT_COOKIES", "TELEGRAM_USER_NOT_FOUND"} ==> res.code == Some(ProviderCode(code)))
      && res.txId.None? && res.requestId.None?
  {
    if |code| > 64 { assert |Take64(code)| == 64; }
    hide DEFINITIVE_ERRORS;
  }

  /** What was refused before it was sent says why, the first reason first. */
  lemma RefusalIsNamed(gate: Gate, outcome: Outcome)
    requires !Sends(gate)
    ensures
      var code := StartPurchase(gate, outcome).code;
      && (gate.username == "" ==> code == Some(ProviderCode("RECIPIENT_USERNAME_MISSING")))
      && (gate.username != "" && !gate.enabled ==> code == Some(ProviderCode("REAL_PURCHASE_DISABLED")))
      && (gate.username != "" && gate.enabled && gate.stars < 50 ==> code == Some(ProviderCode("AMOUNT_BELOW_MINIMUM")))
      && (gate.username != "" && gate.enabled && gate.stars >= 50 ==>
            code == Some(ProviderCode(if !gate.wellFormed then "INVALID_USERNAME" else "WALLET_SEED_MISSING")))
  {
  }

  lemma CodeIsShown(d: Data, text: string)
    requires d.Object? && SaysFirst(d, ["error_code", "code"], Text(text))
    ensures ObjectCode(d) == Take64(UpperText(Strip(text)))
  {
    PickFinds(d, ["error_code", "code"], Null);
    var keys := ["error_code", "code"];
    assert Pick(d, keys, Null) == Text(text);
    hide Pick;
  }

  /** A failed request is failed with the code its result carries. */
  lemma FailureKeepsCode(requestId: string, data: Data, parse: string -> Option<Data>, text: string)
    requires Status(data) == "failed" && Says(data, "result") && data.members["result"].Object?
    requires SaysFirst(data.members["result"], ["error_code", "code"], Text(text)) && Take64(UpperText(Strip(text))) != ""
    ensures GetPurchaseStatus(requestId, Answered(data), parse).code == CodeOf(Take64(UpperText(Strip(text))))
  {
    CodeIsShown(data.members["result"], text);
    assert Pick(data, ["result"], Null) == data.members["result"];
    hide Pick, ObjectCode, Status, Take64, UpperText, Strip;
  }
}
