/**
 * The decisions the backend routes take: the client address they forward to
 * the gateway, and the reply each API route builds from the gateway's result.
 * A reply is either an error body `{error}` with its HTTP status or the
 * route's success body (status 200).
 */
module Server {
  import opened Wrappers
  import opened Text
  import opened PaymentTypes
  import opened PagsmileConstants

  const DefaultClientIp: string := "127.0.0.1"

  /**
   * `getClientIp` given the `x-forwarded-for` header (`None` when missing):
   * the default address when the header is missing or empty, otherwise the
   * trimmed text before its first comma. `split` always yields a first
   * piece, so a blank first piece gives "" and not the default.
   */
  function GetClientIp(forwarded: Option<string>): (r: string)
    ensures forwarded == None || forwarded == Some("") ==> r == DefaultClientIp
    ensures forwarded.Some? && forwarded.value != "" ==>
              var s := forwarded.value;
              r == Trim(if ',' in s then s[..IndexOf(s, ',')] else s)
    ensures ',' !in r
  {
    if forwarded.Some? && forwarded.value != "" then
      var first := Split(forwarded.value, ',')[0];
      TrimKeepsOut(first, ',');
      Trim(first)
    else DefaultClientIp
  }

  /** A header whose first piece is only white space yields the empty address, not the default. */
  lemma BlankFirstPiece(piece: string, rest: string)
    requires piece + rest != ""
    requires forall k :: 0 <= k < |piece| ==> IsSpace(piece[k])
    requires rest == "" || rest[0] == ','
    ensures GetClientIp(Some(piece + rest)) == ""
  {
    assert ',' !in piece;
    if rest != "" {
      var tail := rest[1..];
      assert rest == [','] + tail;
      assert piece + rest == piece + [','] + tail;
      IndexOfAfter(piece, ',', tail);
    } else {
      assert piece + rest == piece;
    }
  }

  /** For instance `" , 1.2.3.4"`. */
  lemma BlankFirstPieceExample()
    ensures GetClientIp(Some(" , 1.2.3.4")) == ""
  {
    assert " , 1.2.3.4" == " " + ", 1.2.3.4";
    BlankFirstPiece(" ", ", 1.2.3.4");
  }

  /** What the browser receives from an API route. */
  datatype Reply<T> = ErrorReply(httpStatus: int, error: string) | SuccessReply(body: T)
  {
    /** `response.ok` on the browser side: only success bodies are sent with status 200. */
    predicate Ok() { SuccessReply? }
  }

  /** The outcome of awaiting the gateway client: it threw, or returned a result. */
  datatype GatewayCall<T> = Threw | Returned(result: T)

  /**
   * The test every route applies to a gateway result: a code other than
   * "10000" gives status 400 with `getErrorMessage(code, msg)`; otherwise
   * the mapped success body.
   */
  function Decide<T>(code: string, msg: string, success: T): (r: Reply<T>)
    ensures r.Ok() <==> code == SuccessCode
    ensures r.Ok() ==> r.body == success
    ensures !r.Ok() ==> r.httpStatus == 400 && r.error == GetErrorMessage(code, Some(msg))
    ensures !r.Ok() && IsKnownFailure(code) ==> r.error != ""
  {
    if code != SuccessCode then ErrorReply(400, GetErrorMessage(code, Some(msg))) else SuccessReply(success)
  }

  /**
   * How `await request.json()` ends: it rejects (the body is not JSON), it
   * yields `null` (reading a member of it throws), or it yields some other
   * value (reading a member that is absent gives `undefined`).
   */
  datatype RequestBody = Unparsable | NullBody | Parsed

  datatype OrderCreated = OrderCreated(tradeNo: string, outTradeNo: string, prepayId: string, webUrl: string)

  /**
   * `POST /api/orders`, from how the request body parsed and what the
   * gateway call did. The body's members are first read inside the second
   * `try`, so a `null` body ends in that `try`'s 500 reply.
   */
  function OrdersRoute(body: RequestBody, call: GatewayCall<CreateOrderResponse>): (r: Reply<OrderCreated>)
    ensures body == Unparsable ==> r == ErrorReply(400, "Invalid request body")
    ensures body == NullBody || (body == Parsed && call.Threw?) ==> r == ErrorReply(500, "Failed to create order")
    ensures body == Parsed && call.Returned? ==>
              var res := call.result;
              r == Decide(res.code, res.msg, OrderCreated(res.tradeNo, res.outTradeNo, res.prepayId, res.webUrl))
    ensures r.Ok() <==> body == Parsed && call.Returned? && call.result.code == SuccessCode
  {
    match body
    case Unparsable => ErrorReply(400, "Invalid request body")
    case NullBody => ErrorReply(500, "Failed to create order")
    case Parsed =>
      match call
      case Threw => ErrorReply(500, "Failed to create order")
      case Returned(res) =>
        Decide(res.code, res.msg, OrderCreated(res.tradeNo, res.outTradeNo, res.prepayId, res.webUrl))
  }

  datatype PaymentProcessed = PaymentProcessed(
    tradeNo: string, outTradeNo: string, tradeStatus: TradeStatus, checkUrl: Option<string>, payUrl: Option<string>)

  /**
   * `POST /api/payments`. `None` is a handler that throws instead of
   * replying: the log call that reads `body.outTradeNo` sits between the two
   * `try` blocks, so a `null` body throws there, uncaught.
   */
  function PaymentsRoute(body: RequestBody, call: GatewayCall<PaymentResponse>): (r: Option<Reply<PaymentProcessed>>)
    ensures r.None? <==> body == NullBody
    ensures body == Unparsable ==> r == Some(ErrorReply(400, "Invalid request body"))
    ensures body == Parsed && call.Threw? ==> r == Some(ErrorReply(500, "Failed to process payment"))
    ensures body == Parsed && call.Returned? ==>
              var res := call.result;
              r == Some(Decide(res.code, res.msg,
                          PaymentProcessed(res.tradeNo, res.outTradeNo, res.tradeStatus, res.checkUrl, res.payUrl)))
    ensures r.Some? && r.value.Ok() <==> body == Parsed && call.Returned? && call.result.code == SuccessCode
  {
    match body
    case Unparsable => Some(ErrorReply(400, "Invalid request body"))
    case NullBody => None
    case Parsed =>
      match call
      case Threw => Some(ErrorReply(500, "Failed to process payment"))
      case Returned(res) =>
        Some(Decide(res.code, res.msg,
          PaymentProcessed(res.tradeNo, res.outTradeNo, res.tradeStatus, res.checkUrl, res.payUrl)))
  }

  /** The status body the browser polls for. */
  datatype PaymentStatus = PaymentStatus(
    tradeNo: string, outTradeNo: string, tradeStatus: TradeStatus, orderAmount: string,
    orderCurrency: OrderCurrency, refuseDetail: Option<string>, isTerminal: bool)

  /** `GET /api/payments/:outTradeNo`: its `isTerminal` is `isTerminalStatus(trade_status)`. */
  function StatusRoute(call: GatewayCall<QueryResponse>): (r: Reply<PaymentStatus>)
    ensures call.Threw? ==> r == ErrorReply(500, "Failed to query payment")
    ensures call.Returned? ==>
              var res := call.result;
              r == Decide(res.code, res.msg,
                     PaymentStatus(res.tradeNo, res.outTradeNo, res.tradeStatus, res.orderAmount,
                                   res.orderCurrency, res.refuseDetail, IsTerminalStatus(StatusName(res.tradeStatus))))
    ensures r.Ok() ==> (r.body.isTerminal <==> r.body.tradeStatus != Processing)
  {
    match call
    case Threw => ErrorReply(500, "Failed to query payment")
    case Returned(res) =>
      TerminalIffNotProcessing(res.tradeStatus);
      Decide(res.code, res.msg,
        PaymentStatus(res.tradeNo, res.outTradeNo, res.tradeStatus, res.orderAmount,
                      res.orderCurrency, res.refuseDetail, IsTerminalStatus(StatusName(res.tradeStatus))))
  }
}
