/** The gateway's endpoint table, its result-code table and its set of terminal trade states. */
module PagsmileConstants {
  import opened Wrappers
  import opened PaymentTypes

  datatype Environment = Sandbox | Prod

  datatype Endpoints = Endpoints(gateway: string, security: string)

  /** `PAGSMILE_ENDPOINTS[env]`. */
  function EndpointsOf(env: Environment): Endpoints
  {
    match env
    case Sandbox => Endpoints("https://gateway-test.pagsmile.com", "https://security-test.pagsmile.com")
    case Prod => Endpoints("https://gateway.pagsmile.com", "https://security.pagsmile.com")
  }

  /** The result code of a call the gateway accepted. */
  const SuccessCode: string := "10000"

  /** `PAGSMILE_ERROR_CODES`: no message for the success code, a base message for each known failure code. */
  const ErrorCodes: map<string, Option<string>> := map[
    "10000" := None,
    "40002" := Some("Business operation failed"),
    "40004" := Some("Invalid request parameters"),
    "40005" := Some("Authentication failed"),
    "40006" := Some("Duplicate transaction")]

  const UnexpectedError: string := "An unexpected error occurred"

  /** A code the table lists with a base message. */
  predicate IsKnownFailure(code: string)
  {
    code in ErrorCodes && ErrorCodes[code].Some?
  }

  function BaseMessage(code: string): (m: string)
    requires IsKnownFailure(code)
    ensures m != []
  {
    ErrorCodes[code].value
  }

  /** The known codes: the success code and the four failure codes. */
  lemma KnownCodes(code: string)
    ensures code in ErrorCodes <==> code in {"10000", "40002", "40004", "40005", "40006"}
    ensures IsKnownFailure(code) <==> code in ErrorCodes && code != SuccessCode
  {
  }

  /**
   * `getErrorMessage(code, subMsg)`: nothing for the success code; for a known
   * failure code its base message, followed by `": "` and the sub-message when
   * that is a non-empty string; for any other code the sub-message whenever one
   * is given, even an empty one, and a generic message when it is absent.
   */
  function GetErrorMessage(code: string, subMsg: Option<string>): (r: string)
    ensures code == SuccessCode ==> r == ""
    ensures IsKnownFailure(code) && subMsg.Some? && subMsg.value != "" ==>
              r == BaseMessage(code) + ": " + subMsg.value
    ensures IsKnownFailure(code) && (subMsg == None || subMsg == Some("")) ==> r == BaseMessage(code)
    ensures code !in ErrorCodes && subMsg.Some? ==> r == subMsg.value
    ensures code !in ErrorCodes && subMsg == None ==> r == UnexpectedError
    ensures r == "" <==> code == SuccessCode || (code !in ErrorCodes && subMsg == Some(""))
  {
    if code in ErrorCodes && ErrorCodes[code] == None then ""
    else if code !in ErrorCodes then subMsg.GetOr(UnexpectedError)
    else
      var base := ErrorCodes[code].value;
      if subMsg.Some? && subMsg.value != "" then base + ": " + subMsg.value else base
  }

  /** `TERMINAL_STATUSES`: the states after which a trade never changes again. */
  const TerminalStatuses: seq<string> := ["SUCCESS", "CANCEL", "EXPIRED", "REFUSED", "CHARGEBACK", "REFUNDED"]

  /**
   * `isTerminalStatus(status)`, for any string: true exactly for the names of
   * the trade states other than PROCESSING, so false for every string that
   * names no trade state.
   */
  function IsTerminalStatus(status: string): (r: bool)
    ensures r <==> exists t :: StatusName(t) == status && t != Processing
  {
    if status in TerminalStatuses then
      assert status == StatusName(Success) || status == StatusName(Cancel) || status == StatusName(Expired) ||
             status == StatusName(Refused) || status == StatusName(Chargeback) || status == StatusName(Refunded);
      true
    else false
  }

  /** Over the trade states, exactly `PROCESSING` is not terminal. */
  lemma TerminalIffNotProcessing(t: TradeStatus)
    ensures IsTerminalStatus(StatusName(t)) <==> t != Processing
  {
  }

  /** Different trade states have different names on the wire. */
  lemma StatusNameInjective(t: TradeStatus, u: TradeStatus)
    requires StatusName(t) == StatusName(u)
    ensures t == u
  {
  }
}
