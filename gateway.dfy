/**
 * The `GET_BALANCE` branch of the background script's `onMessage`
 * listener: it answers a well-formed request with a success-shaped or an
 * error-shaped response and never lets a failure escape.
 */
module Gateway {
  import opened Wrappers
  import opened JsValue
  import opened Provider
  import opened Cache

  /** The fields of an incoming message the listener reads; `None` is a missing field. */
  datatype Request = Request(kind: Option<string>, address: Option<string>, addressType: Option<string>)

  /** `{status: 'success', balance, address, n_tx, type}` or `{status: 'error', message, address, type}`. */
  datatype Response =
    | Success(balance: Number, address: string, txCount: Json, addressType: string)
    | Failure(message: string, address: string, addressType: string)

  /** A string field is truthy when present and non-empty. */
  predicate Present(v: Option<string>)
  {
    v.Some? && v.value != ""
  }

  /** The guard of line 155. */
  predicate IsBalanceRequest(req: Request): (r: bool)
    ensures r ==> req.kind == Some("GET_BALANCE")
    ensures r ==> req.address.Some? && |req.address.value| > 0 && req.addressType.Some? && |req.addressType.value| > 0
    ensures !Present(req.addressType) || !Present(req.address) ==> !r
  {
    req.kind == Some("GET_BALANCE") && Present(req.address) && Present(req.addressType)
  }

  /** The try/catch of lines 159-166: a resolved lookup or its error message, as a response. */
  function ToResponse(address: string, addressType: string, r: Result<AddressData, string>): (resp: Response)
    ensures resp.Success? <==> r.Ok?
    ensures resp.address == address
    ensures r.Ok? ==> resp.balance == r.value.balance && resp.txCount == r.value.txCount
                      && resp.addressType == r.value.addressType
    ensures r.Err? ==> resp.message == r.error && resp.addressType == addressType
  {
    match r
    case Ok(d) => Success(d.balance, address, d.txCount, d.addressType)
    case Err(message) => Failure(message, address, addressType)
  }

  /**
   * The listener on `cache`. `None` means no response is sent: the message
   * is not a balance request (an `ANALYTICS_EVENT` only posts telemetry).
   */
  method HandleMessage(cache: BalanceCache, req: Request, readAt: int, writtenAt: int, outcome: FetchOutcome)
    returns (resp: Option<Response>)
    requires cache.Valid()
    modifies cache
    ensures cache.Valid()
    ensures resp.Some? <==> IsBalanceRequest(req)
    ensures !IsBalanceRequest(req) ==> cache.State() == old(cache.State())
    ensures IsBalanceRequest(req) ==>
      var step := GetAddressDataStep(old(cache.State()), req.address.value, req.addressType.value,
                                     readAt, writtenAt, outcome);
      resp == Some(ToResponse(req.address.value, req.addressType.value, step.result))
      && cache.State() == step.after
  {
    if IsBalanceRequest(req) {
      var address := req.address.value;
      var addressType := req.addressType.value;
      var r := cache.GetAddressData(address, addressType, readAt, writtenAt, outcome);
      return Some(ToResponse(address, addressType, r));
    }
    return None;
  }

  /**
   * A successful response always names the type that was asked for, and a
   * timeout is reported as such exactly when the provider's request was
   * aborted on a cache miss.
   */
  lemma ResponseReportsRequest(s: CacheState, address: string, addressType: string,
                               readAt: int, writtenAt: int, outcome: FetchOutcome)
    requires WellFormed(s)
    ensures var resp := ToResponse(address, addressType,
                                   GetAddressDataStep(s, address, addressType, readAt, writtenAt, outcome).result);
      && (resp.Success? ==> resp.addressType == addressType)
      && ((resp.Failure? && resp.message == TimedOutMessage(address)) <==>
          (Cached(s, address, addressType, readAt).None? && IsSupported(addressType) && outcome.Aborted?))
  {
  }
}
