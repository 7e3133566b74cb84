/**
 * The string-literal unions and records of the checkout's type declarations,
 * as datatypes, each constructor named after the literal it stands for; the
 * trade states, which the model compares as strings, also have the function
 * giving their literal.
 */
module PaymentTypes {
  import opened Wrappers

  datatype PaymentMethod = CreditCard | DiscoverCard

  datatype OrderCurrency = BRL | HKD | JPY | USD | EUR | GBP

  datatype IdentificationType = CPF | CNPJ

  datatype ThreeDSStatusCode = U | N | Y | A | C | D | R | I

  /** The gateway's trade states. */
  datatype TradeStatus = Processing | Success | Cancel | Expired | Refused | Chargeback | Refunded

  /** The literal the gateway sends for each trade state. */
  function StatusName(t: TradeStatus): string
  {
    match t
    case Processing => "PROCESSING"
    case Success => "SUCCESS"
    case Cancel => "CANCEL"
    case Expired => "EXPIRED"
    case Refused => "REFUSED"
    case Chargeback => "CHARGEBACK"
    case Refunded => "REFUNDED"
  }

  /** The steps of the checkout flow. */
  datatype PaymentStep =
    | Idle | CreatingOrder | AwaitingCardInput | Processing3DS
    | ProcessingPayment | PollingStatus | Completed | Failed

  datatype ThreeDSData = ThreeDSData(
    serverTransId: string,
    version: string,
    cavv: string,
    statusCode: ThreeDSStatusCode,
    eci: string,
    status: string,
    statusReasonCode: Option<string>,
    liabilityShift: string,
    acsTransId: Option<string>,
    dsTransId: Option<string>)

  datatype CustomerIdentification = CustomerIdentification(idType: IdentificationType, number: string)

  datatype Customer = Customer(name: string, email: string, phone: string, identify: CustomerIdentification)

  datatype Address = Address(
    zipCode: Option<string>,
    street: Option<string>,
    streetNumber: Option<string>,
    city: Option<string>,
    state: Option<string>)

  /** The gateway's reply to `/trade/create`. */
  datatype CreateOrderResponse = CreateOrderResponse(
    code: string, msg: string, tradeNo: string, outTradeNo: string, webUrl: string, prepayId: string)

  /** The gateway's reply to `/trade/pay`. */
  datatype PaymentResponse = PaymentResponse(
    code: string, msg: string, tradeNo: string, outTradeNo: string, webUrl: string,
    tradeStatus: TradeStatus, payUrl: Option<string>, checkUrl: Option<string>)

  /** The gateway's reply to `/trade/query`. */
  datatype QueryResponse = QueryResponse(
    code: string, msg: string, tradeNo: string, outTradeNo: string, tradeStatus: TradeStatus,
    orderCurrency: OrderCurrency, orderAmount: string, refuseDetail: Option<string>,
    createTime: string, updateTime: string)
}
