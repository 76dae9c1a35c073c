/**
 * How `showMainPopup` (content.js) reads the background script's answer:
 * the balance view only for an object whose `status` is 'success',
 * otherwise an error view with the answer's `message` or a fixed text.
 */
module Popup {
  import opened Wrappers
  import opened JsValue
  import Gateway
  import Provider
  import Cache

  const FallbackMessage: string := "Unexpected or incomplete response from background service."

  /**
   * What the popup shows. Fields are the answer's properties as read
   * (`None` is `undefined`); their text formatting is not modelled.
   */
  datatype View =
    | BalanceView(address: Option<Json>, balance: Option<Json>, txCount: Option<Json>)
    | ErrorView(address: Option<Json>, message: Json)

  /** `response && typeof response === 'object' && 'status' in response && response.status === 'success'`. */
  predicate IsSuccess(response: Option<Json>)
  {
    Truthy(response) && response.value.JObj? && "status" in response.value.fields
    && response.value.fields["status"] == JStr("success")
  }

  /**
   * The view for `response` (`None` when the promise resolved with
   * `undefined`); `text` is the selected address the popup was opened for.
   */
  function Classify(response: Option<Json>, text: string): (v: View)
    ensures v.BalanceView? <==> IsSuccess(response)
    ensures v.ErrorView? && v.message != JStr(FallbackMessage) ==>
              Truthy(response) && Member(response.value, "message") == Some(v.message)
    ensures v.ErrorView? && !Truthy(response) ==> v == ErrorView(Some(JStr(text)), JStr(FallbackMessage))
    ensures !IsSuccess(response) && Truthy(response) && Truthy(Member(response.value, "message")) ==>
              v.message == Member(response.value, "message").value
    ensures !IsSuccess(response) && Truthy(response) && !Truthy(Member(response.value, "message")) ==>
              v.message == JStr(FallbackMessage)
    ensures v.ErrorView? && Truthy(response) ==> v.address == Member(response.value, "address")
    ensures v.BalanceView? ==>
              v == BalanceView(Member(response.value, "address"), Member(response.value, "balance"),
                               Member(response.value, "n_tx"))
  {
    if IsSuccess(response) then
      BalanceView(Member(response.value, "address"), Member(response.value, "balance"),
                  Member(response.value, "n_tx"))
    else
      var message := if Truthy(response) && Truthy(Member(response.value, "message"))
                     then Member(response.value, "message").value
                     else JStr(FallbackMessage);
      ErrorView(if Truthy(response) then Member(response.value, "address") else Some(JStr(text)), message)
  }

  /** A number as message passing carries it: NaN becomes null. */
  function NumberToJson(n: Number): Json
  {
    match n
    case Finite(v) => JNum(v)
    case NaN => JNull
  }

  /** The response object built at background.js lines 162 and 165. */
  function Encode(resp: Gateway.Response): (r: Json)
    ensures r.JObj? && (IsSuccess(Some(r)) <==> resp.Success?)
    ensures Member(r, "address") == Some(JStr(resp.address))
    ensures Member(r, "type") == Some(JStr(resp.addressType))
    ensures resp.Failure? ==> Member(r, "message") == Some(JStr(resp.message))
    ensures resp.Success? ==> Member(r, "balance") == Some(NumberToJson(resp.balance))
                              && Member(r, "n_tx") == Some(resp.txCount)
  {
    match resp
    case Success(balance, address, txCount, addressType) =>
      JObj(map["status" := JStr("success"), "balance" := NumberToJson(balance), "address" := JStr(address),
               "n_tx" := txCount, "type" := JStr(addressType)])
    case Failure(message, address, addressType) =>
      JObj(map["status" := JStr("error"), "message" := JStr(message), "address" := JStr(address),
               "type" := JStr(addressType)])
  }

  /**
   * Every answer the gateway sends is read back as intended: a success as
   * the balance view with the same address, balance and count, a failure as
   * an error view showing its message (the background's messages are never
   * empty).
   */
  lemma GatewayAnswersReadBack(resp: Gateway.Response, text: string)
    requires resp.Failure? ==> resp.message != ""
    ensures resp.Success? ==>
      (Classify(Some(Encode(resp)), text)
       == BalanceView(Some(JStr(resp.address)), Some(NumberToJson(resp.balance)), Some(resp.txCount)))
    ensures resp.Failure? ==>
      (Classify(Some(Encode(resp)), text) == ErrorView(Some(JStr(resp.address)), JStr(resp.message)))
  {
  }

  /** The message content.js sends (line 131): it carries no `addressType`. */
  function RequestAsWritten(text: string): (req: Gateway.Request)
    ensures req.kind == Some("GET_BALANCE") && req.address == Some(text)
    ensures req.addressType == None
  {
    Gateway.Request(Some("GET_BALANCE"), Some(text), None)
  }

  /** As written, the background script's guard turns every popup request away. */
  lemma RequestAsWrittenIsIgnored(text: string)
    ensures !Gateway.IsBalanceRequest(RequestAsWritten(text))
  {
  }

  /**
   * The request the popup evidently means to send: the selection was
   * detected as a bitcoin address, and the popup labels the balance BTC.
   */
  function BalanceRequest(text: string): (req: Gateway.Request)
    ensures req.kind == Some("GET_BALANCE") && req.address == Some(text)
    ensures req.addressType == Some("bitcoin")
  {
    Gateway.Request(Some("GET_BALANCE"), Some(text), Some("bitcoin"))
  }

  /** Every non-empty selection then reaches `getAddressData` under a supported type. */
  lemma BalanceRequestIsAnswered(text: string)
    requires text != ""
    ensures Gateway.IsBalanceRequest(BalanceRequest(text))
    ensures Provider.IsSupported(BalanceRequest(text).addressType.value)
  {
  }

  /**
   * End to end with the corrected request: the popup shows the balance view
   * exactly when the lookup succeeded, and otherwise the lookup's own
   * message (a timeout reads as a timeout).
   */
  lemma PopupShowsLookupResult(s: Cache.CacheState, text: string, readAt: int, writtenAt: int,
                               outcome: Provider.FetchOutcome)
    requires Cache.WellFormed(s) && text != ""
    ensures var req := BalanceRequest(text);
      var step := Cache.GetAddressDataStep(s, text, req.addressType.value, readAt, writtenAt, outcome);
      var view := Classify(Some(Encode(Gateway.ToResponse(text, req.addressType.value, step.result))), text);
      && (view.BalanceView? <==> step.result.Ok?)
      && (step.result.Err? ==> view == ErrorView(Some(JStr(text)), JStr(step.result.error)))
  {
    var req := BalanceRequest(text);
    var step := Cache.GetAddressDataStep(s, text, req.addressType.value, readAt, writtenAt, outcome);
    var resp := Gateway.ToResponse(text, req.addressType.value, step.result);
    if step.result.Err? {
      assert step.result == Provider.FetchAddressData(text, "bitcoin", outcome);
    }
    GatewayAnswersReadBack(resp, text);
  }
}
