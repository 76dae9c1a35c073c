/**
 * The network half of `getAddressData` (background.js): choosing the
 * provider by address type, turning the provider's JSON into a
 * `{balance, n_tx, type}` record, and turning every failure into the
 * message the caller sees. The fetch itself is an input, `FetchOutcome`.
 */
module Provider {
  import opened Wrappers
  import opened JsValue
  import Decimal

  /** blockchain.info reports satoshis; 1 BTC is 10^8 satoshis. */
  const SatoshisPerBitcoin: real := 100000000.0
  /** Blockcypher reports wei; 1 ETH is 10^18 wei. */
  const WeiPerEther: real := 1000000000000000000.0

  /** What `getAddressData` resolves with: `{balance, n_tx, type}`. */
  datatype AddressData = AddressData(balance: Number, txCount: Json, addressType: string)

  /** A provider reading before the type is attached. */
  datatype Reading = Reading(balance: Number, txCount: Json)

  /**
   * How the request for the provider's URL ended:
   * a successful response whose body parsed as `json`, a response whose
   * status is not ok (with the body text), the ten-second timer's abort, or
   * any other rejection of `fetch` or `response.json()` with its message.
   */
  datatype FetchOutcome =
    | Body(json: Json)
    | HttpError(status: nat, text: string)
    | Aborted
    | Rejected(message: string)

  /** What the try block throws: the abort, or an Error with a message. */
  datatype Thrown = AbortError | Error(message: string)

  predicate IsSupported(addressType: string)
  {
    addressType == "bitcoin" || addressType == "ethereum"
  }

  const UnsupportedTypeMessage: string := "Unsupported address type."
  const NoBodyText: string := "No additional message."
  const UnknownErrorText: string := "Unknown error"
  /**
   * The unsupported-type error as the catch block rethrows it:
   * "Network or API error: Unsupported address type.." (two periods).
   */
  const UnsupportedTypeError: string := "Network or API error: " + UnsupportedTypeMessage + "."

  /**
   * The message thrown for a response whose status is not ok: the status in
   * decimal, then the body text, or a fixed text when the body is empty.
   */
  function HttpErrorMessage(status: nat, text: string): (m: string)
    ensures var prefix := "API responded with status " + Decimal.NatToString(status) + ". Message: ";
      && |m| > |prefix| && m[..|prefix|] == prefix
      && m[|prefix|..] == (if text == "" then NoBodyText else text)
  {
    "API responded with status " + Decimal.NatToString(status) + ". Message: "
    + (if text == "" then NoBodyText else text)
  }

  /** V8's TypeError message for reading property `key` of null. */
  function NullReadMessage(key: string): string
  {
    "Cannot read properties of null (reading '" + key + "')"
  }

  /** The message rethrown for an abort. */
  function TimedOutMessage(address: string): (m: string)
    ensures |m| == |address| + 23
    ensures m[..12] == "Request for " && m[12..|m| - 11] == address && m[|m| - 11..] == " timed out."
  {
    "Request for " + address + " timed out."
  }

  /**
   * The message rethrown for every other error: a fixed prefix, then the
   * original message (or "Unknown error" when it is empty), then a period.
   */
  function WrappedMessage(message: string): (m: string)
    ensures |m| >= 23 && m[..22] == "Network or API error: " && m[|m| - 1] == '.'
    ensures message != "" ==> m[22..|m| - 1] == message
    ensures message == "" ==> m[22..|m| - 1] == UnknownErrorText
  {
    "Network or API error: " + (if message == "" then UnknownErrorText else message) + "."
  }

  /** A timeout never reads like any other failure: the prefixes differ. */
  lemma TimeoutDistinctFromWrapped(address: string, message: string)
    ensures TimedOutMessage(address) != WrappedMessage(message)
  {
    assert TimedOutMessage(address)[0] == 'R';
    assert WrappedMessage(message)[0] == 'N';
  }

  /** The catch block: an abort becomes a timeout, anything else is wrapped. */
  function CatchMessage(address: string, e: Thrown): (m: string)
    ensures e.AbortError? <==> m == TimedOutMessage(address)
    ensures e.Error? ==> m == WrappedMessage(e.message)
  {
    match e
    case AbortError => TimedOutMessage(address)
    case Error(message) =>
      TimeoutDistinctFromWrapped(address, message);
      WrappedMessage(message)
  }

  /**
   * bitcoin: `data[address] || {}`, then `final_balance || 0` and
   * `n_tx || 0` of that, the balance divided by 10^8. A null body makes
   * the first property read throw.
   */
  function NormalizeBitcoin(data: Json, address: string): (r: Result<Reading, string>)
    ensures r.Err? <==> data == JNull
    ensures r.Err? ==> r.error == NullReadMessage(address)
    ensures r.Ok? ==> r.value.txCount == JNum(0.0) || Truthy(Some(r.value.txCount))
  {
    if data == JNull then Err(NullReadMessage(address))
    else
      var entry := OrElse(Member(data, address), JObj(map[]));
      var satoshis := OrElse(Member(entry, "final_balance"), JNum(0.0));
      var txCount := OrElse(Member(entry, "n_tx"), JNum(0.0));
      Ok(Reading(Divide(ToNumber(satoshis), SatoshisPerBitcoin), txCount))
  }

  /** An address the provider does not report, or reports as a falsy value, reads as zero. */
  lemma BitcoinMissingEntryIsZero(data: Json, address: string)
    requires data != JNull && !Truthy(Member(data, address))
    ensures NormalizeBitcoin(data, address) == Ok(Reading(Finite(0.0), JNum(0.0)))
  {
  }

  /** Missing or falsy `final_balance` and `n_tx` inside a reported entry read as zero. */
  lemma BitcoinMissingFieldsAreZero(f: map<string, Json>, address: string, g: map<string, Json>)
    requires address in f && f[address] == JObj(g)
    requires !Truthy(Member(JObj(g), "final_balance")) && !Truthy(Member(JObj(g), "n_tx"))
    ensures NormalizeBitcoin(JObj(f), address) == Ok(Reading(Finite(0.0), JNum(0.0)))
  {
  }

  /**
   * Numeric fields are taken as they are (a zero is replaced by the same
   * zero): the balance in BTC times 10^8 gives back the satoshis reported.
   */
  lemma BitcoinNumericFields(f: map<string, Json>, address: string, g: map<string, Json>, satoshis: real, txs: real)
    requires address in f && f[address] == JObj(g)
    requires "final_balance" in g && g["final_balance"] == JNum(satoshis)
    requires "n_tx" in g && g["n_tx"] == JNum(txs)
    ensures var r := NormalizeBitcoin(JObj(f), address);
      && r == Ok(Reading(Finite(satoshis / SatoshisPerBitcoin), JNum(txs)))
      && r.value.balance.value * SatoshisPerBitcoin == satoshis
  {
  }

  /** A number in `final_balance` gives that many satoshis in BTC, whatever `n_tx` holds. */
  lemma BitcoinBalanceField(f: map<string, Json>, address: string, g: map<string, Json>, satoshis: real)
    requires address in f && f[address] == JObj(g)
    requires "final_balance" in g && g["final_balance"] == JNum(satoshis)
    ensures NormalizeBitcoin(JObj(f), address).value.balance == Finite(satoshis / SatoshisPerBitcoin)
  {
  }

  /** A missing or falsy `final_balance` gives 0, whatever `n_tx` holds. */
  lemma BitcoinBalanceDefault(f: map<string, Json>, address: string, g: map<string, Json>)
    requires address in f && f[address] == JObj(g)
    requires !Truthy(Member(JObj(g), "final_balance"))
    ensures NormalizeBitcoin(JObj(f), address).value.balance == Finite(0.0)
  {
  }

  /** `n_tx` is taken as it is when truthy and is 0 otherwise, whatever `final_balance` holds. */
  lemma BitcoinTxCountField(f: map<string, Json>, address: string, g: map<string, Json>)
    requires address in f && f[address] == JObj(g)
    ensures NormalizeBitcoin(JObj(f), address).value.txCount
            == (if Truthy(Member(JObj(g), "n_tx")) then g["n_tx"] else JNum(0.0))
  {
  }

  /** A truthy entry that is not an object (a number, a string, an array) reads as zero. */
  lemma BitcoinNonObjectEntryIsZero(f: map<string, Json>, address: string)
    requires address in f && Truthy(Some(f[address])) && !f[address].JObj?
    ensures NormalizeBitcoin(JObj(f), address) == Ok(Reading(Finite(0.0), JNum(0.0)))
  {
  }

  /** ethereum: `data.balance || 0` divided by 10^18 and `data.n_tx || 0`. */
  function NormalizeEthereum(data: Json): (r: Result<Reading, string>)
    ensures r.Err? <==> data == JNull
    ensures r.Err? ==> r.error == NullReadMessage("balance")
    ensures r.Ok? ==> r.value.txCount == JNum(0.0) || Truthy(Some(r.value.txCount))
  {
    if data == JNull then Err(NullReadMessage("balance"))
    else
      var wei := OrElse(Member(data, "balance"), JNum(0.0));
      var txCount := OrElse(Member(data, "n_tx"), JNum(0.0));
      Ok(Reading(Divide(ToNumber(wei), WeiPerEther), txCount))
  }

  /** Missing or falsy `balance` and `n_tx` read as zero. */
  lemma EthereumMissingFieldsAreZero(data: Json)
    requires data != JNull
    requires !Truthy(Member(data, "balance")) && !Truthy(Member(data, "n_tx"))
    ensures NormalizeEthereum(data) == Ok(Reading(Finite(0.0), JNum(0.0)))
  {
  }

  /** A number in `balance` gives that many wei in ETH, whatever `n_tx` holds. */
  lemma EthereumBalanceField(f: map<string, Json>, wei: real)
    requires "balance" in f && f["balance"] == JNum(wei)
    ensures NormalizeEthereum(JObj(f)).value.balance == Finite(wei / WeiPerEther)
  {
  }

  /** A missing or falsy `balance` gives 0, whatever `n_tx` holds. */
  lemma EthereumBalanceDefault(data: Json)
    requires data != JNull && !Truthy(Member(data, "balance"))
    ensures NormalizeEthereum(data).value.balance == Finite(0.0)
  {
  }

  /** `n_tx` is taken as it is when truthy and is 0 otherwise, whatever `balance` holds. */
  lemma EthereumTxCountField(data: Json)
    requires data != JNull
    ensures NormalizeEthereum(data).value.txCount
            == (if Truthy(Member(data, "n_tx")) then Member(data, "n_tx").value else JNum(0.0))
  {
  }

  /** The balance in ETH times 10^18 gives back the wei reported. */
  lemma EthereumNumericFields(f: map<string, Json>, wei: real, txs: real)
    requires "balance" in f && f["balance"] == JNum(wei)
    requires "n_tx" in f && f["n_tx"] == JNum(txs)
    ensures var r := NormalizeEthereum(JObj(f));
      && r == Ok(Reading(Finite(wei / WeiPerEther), JNum(txs)))
      && r.value.balance.value * WeiPerEther == wei
  {
  }

  /** The reading for the type's provider, bitcoin or else ethereum (lines 52-62). */
  function Normalize(addressType: string, data: Json, address: string): (r: Result<Reading, string>)
    ensures r.Err? <==> data == JNull
    ensures r.Err? ==> r.error == NullReadMessage(if addressType == "bitcoin" then address else "balance")
  {
    if addressType == "bitcoin" then NormalizeBitcoin(data, address) else NormalizeEthereum(data)
  }

  /**
   * The try block of `getAddressData` after a cache miss: the type is
   * checked before any request, then the outcome of the request decides.
   */
  function Attempt(address: string, addressType: string, outcome: FetchOutcome): (r: Result<AddressData, Thrown>)
    ensures !IsSupported(addressType) ==> r == Err(Error(UnsupportedTypeMessage))
    ensures r == Err(AbortError) <==> IsSupported(addressType) && outcome.Aborted?
    ensures IsSupported(addressType) && outcome.Rejected? ==> r == Err(Error(outcome.message))
    ensures IsSupported(addressType) && outcome.HttpError? ==>
      r == Err(Error(HttpErrorMessage(outcome.status, outcome.text)))
    ensures IsSupported(addressType) && outcome.Body? && outcome.json == JNull ==>
      r == Err(Error(NullReadMessage(if addressType == "bitcoin" then address else "balance")))
    ensures IsSupported(addressType) && outcome.Body? && outcome.json != JNull ==>
      var n := Normalize(addressType, outcome.json, address);
      n.Ok? && r == Ok(AddressData(n.value.balance, n.value.txCount, addressType))
    ensures r.Ok? ==> IsSupported(addressType) && outcome.Body? && r.value.addressType == addressType
  {
    if !IsSupported(addressType) then Err(Error(UnsupportedTypeMessage))
    else
      match outcome
      case Aborted => Err(AbortError)
      case Rejected(message) => Err(Error(message))
      case HttpError(status, text) => Err(Error(HttpErrorMessage(status, text)))
      case Body(data) =>
        match Normalize(addressType, data, address)
        case Err(message) => Err(Error(message))
        case Ok(rd) => Ok(AddressData(rd.balance, rd.txCount, addressType))
  }

  /** `getAddressData` after a cache miss, with the catch block applied. */
  function FetchAddressData(address: string, addressType: string, outcome: FetchOutcome): (r: Result<AddressData, string>)
    ensures !IsSupported(addressType) ==> r == Err(UnsupportedTypeError)
    ensures r == Err(TimedOutMessage(address)) <==> IsSupported(addressType) && outcome.Aborted?
    ensures IsSupported(addressType) && outcome.Rejected? ==> r == Err(WrappedMessage(outcome.message))
    ensures IsSupported(addressType) && outcome.HttpError? ==>
      r == Err(WrappedMessage(HttpErrorMessage(outcome.status, outcome.text)))
    ensures IsSupported(addressType) && outcome.Body? && outcome.json == JNull ==>
      r == Err(WrappedMessage(NullReadMessage(if addressType == "bitcoin" then address else "balance")))
    ensures IsSupported(addressType) && outcome.Body? && outcome.json != JNull ==>
      var n := Normalize(addressType, outcome.json, address);
      n.Ok? && r == Ok(AddressData(n.value.balance, n.value.txCount, addressType))
    ensures r.Ok? ==> IsSupported(addressType) && outcome.Body? && r.value.addressType == addressType
    ensures r.Err? ==> r.error != ""
  {
    match Attempt(address, addressType, outcome)
    case Ok(data) => Ok(data)
    case Err(e) => Err(CatchMessage(address, e))
  }

  /** An unsupported type fails the same way whatever the network would have done. */
  lemma UnsupportedTypeNeverFetches(address: string, addressType: string, o1: FetchOutcome, o2: FetchOutcome)
    requires !IsSupported(addressType)
    ensures FetchAddressData(address, addressType, o1) == FetchAddressData(address, addressType, o2)
  {
  }

  /** The bitcoin response `{A: {final_balance: 500000000, n_tx: 3}}` gives 5 BTC and 3 transactions. */
  lemma BitcoinExample(address: string)
    ensures FetchAddressData(address, "bitcoin",
      Body(JObj(map[address := JObj(map["final_balance" := JNum(500000000.0), "n_tx" := JNum(3.0)])])))
      == Ok(AddressData(Finite(5.0), JNum(3.0), "bitcoin"))
  {
  }

  /** The ethereum response `{balance: 2.5 * 10^18, n_tx: 7}` gives 2.5 ETH and 7 transactions. */
  lemma EthereumExample(address: string)
    ensures FetchAddressData(address, "ethereum",
      Body(JObj(map["balance" := JNum(2500000000000000000.0), "n_tx" := JNum(7.0)])))
      == Ok(AddressData(Finite(2.5), JNum(7.0), "ethereum"))
  {
  }
}
