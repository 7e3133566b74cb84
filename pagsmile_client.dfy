/**
 * The gateway client: its HTTP Basic credential, the URLs it calls and the
 * three request bodies it sends. A body member that is `None` is one the
 * object literal leaves `undefined`, which `JSON.stringify` omits. The
 * request timestamp is a parameter.
 */
module PagsmileClient {
  import opened Wrappers
  import opened Text
  import opened PaymentTypes
  import opened PagsmileConstants
  import Base64

  datatype ClientConfig = ClientConfig(
    appId: string, securityKey: string, env: Environment, notifyUrl: string, returnUrl: Option<string>)

  datatype DeviceInfo = DeviceInfo(userAgent: string, ipAddress: string)

  /**
   * The bytes `btoa` encodes: one per UTF-16 code unit. `None` stands for the
   * exception `btoa` throws when a code unit is above U+00FF; a code point
   * above U+FFFF is two such units, so it throws too.
   */
  function Latin1(s: string): (r: Option<seq<Base64.Byte>>)
    ensures r.Some? <==> forall i :: 0 <= i < |s| ==> s[i] as int < 256
    ensures r.Some? ==> |r.value| == |s| && forall i :: 0 <= i < |s| ==> r.value[i] == s[i] as int
  {
    if s == [] then Some([])
    else if s[0] as int >= 256 then None
    else match Latin1(s[1..])
      case None => None
      case Some(rest) => Some([s[0] as int] + rest)
  }

  /** Bytes back to the characters U+0000 to U+00FF. */
  function FromLatin1(b: seq<Base64.Byte>): (s: string)
    ensures |s| == |b| && forall i :: 0 <= i < |b| ==> s[i] as int == b[i]
  {
    if b == [] then [] else [b[0] as char] + FromLatin1(b[1..])
  }

  /** What the header carries: `appId ":" securityKey`, section 2 of RFC 7617. */
  function Credentials(appId: string, securityKey: string): string
  {
    appId + ":" + securityKey
  }

  /**
   * `createAuthHeader`: `"Basic "` and the base 64 encoding of the
   * credentials. It exists exactly when `btoa` accepts them; its length is
   * 6 + 4 * ceil(n / 3) for n credential characters, and the encoded part
   * decodes back to exactly the credentials.
   */
  function CreateAuthHeader(appId: string, securityKey: string): (r: Option<string>)
    ensures var c := Credentials(appId, securityKey);
      r.Some? <==> forall i :: 0 <= i < |c| ==> c[i] as int < 256
    ensures r.Some? ==> |r.value| == 6 + 4 * ((|appId| + |securityKey| + 3) / 3)
    ensures r.Some? ==> r.value[..6] == "Basic "
    ensures r.Some? ==> var d := Base64.Decode(r.value[6..]);
      d.Some? && FromLatin1(d.value) == Credentials(appId, securityKey)
  {
    var c := Credentials(appId, securityKey);
    match Latin1(c)
    case None => None
    case Some(bytes) =>
      var encoded := Base64.Encode(bytes);
      Base64.EncodeLength(bytes);
      Base64.DecodeEncode(bytes);
      assert FromLatin1(bytes) == c;
      var h := "Basic " + encoded;
      assert h[6..] == encoded;
      Some(h)
  }

  /**
   * The decoding clause of `CreateAuthHeader` determines the header: any
   * "Basic " text whose encoded part decodes to the credentials is the header
   * itself, since strict decoding accepts only the canonical encoding.
   */
  lemma AuthHeaderDetermined(appId: string, securityKey: string, h: string)
    requires |h| >= 6 && h[..6] == "Basic "
    requires var d := Base64.Decode(h[6..]); d.Some? && FromLatin1(d.value) == Credentials(appId, securityKey)
    ensures CreateAuthHeader(appId, securityKey) == Some(h)
  {
    var d := Base64.Decode(h[6..]).value;
    Latin1OfFromLatin1(d);
    Base64.EncodeDecode(h[6..]);
    assert h == "Basic " + Base64.Encode(d);
  }

  lemma Latin1OfFromLatin1(b: seq<Base64.Byte>)
    ensures Latin1(FromLatin1(b)) == Some(b)
  {
    var s := FromLatin1(b);
    assert forall i :: 0 <= i < |s| ==> s[i] as int < 256 by {
      forall i | 0 <= i < |s| ensures s[i] as int < 256 {
        assert s[i] as int == b[i];
      }
    }
    var r := Latin1(s).value;
    assert |r| == |b|;
    assert forall i :: 0 <= i < |r| ==> r[i] == b[i];
    assert r == b;
  }

  /**
   * A server splits the credentials at the first colon (section 2 of RFC
   * 7617), so it recovers the application id exactly when the id has no
   * colon, and then the key as well.
   */
  lemma CredentialsSplit(appId: string, securityKey: string)
    ensures var c := Credentials(appId, securityKey);
      ':' in c && (c[..IndexOf(c, ':')] == appId <==> ':' !in appId)
    ensures var c := Credentials(appId, securityKey);
      ':' !in appId ==> c[IndexOf(c, ':') + 1..] == securityKey
  {
    var c := Credentials(appId, securityKey);
    assert c[|appId|] == ':';
    if ':' !in appId {
      assert c == appId + [':'] + securityKey;
      IndexOfAfter(appId, ':', securityKey);
      assert c[|appId| + 1..] == securityKey;
    }
  }

  /** The three gateway calls. */
  datatype GatewayOperation = TradeCreate | TradePay | TradeQuery

  function OperationPath(op: GatewayOperation): string
  {
    match op
    case TradeCreate => "/trade/create"
    case TradePay => "/trade/pay"
    case TradeQuery => "/trade/query"
  }

  /** `${PAGSMILE_ENDPOINTS[env].gateway}/trade/...`. */
  function RequestUrl(env: Environment, op: GatewayOperation): (url: string)
    ensures |url| > |EndpointsOf(env).gateway|
    ensures url[..|EndpointsOf(env).gateway|] == EndpointsOf(env).gateway
    ensures url[|EndpointsOf(env).gateway|..] == OperationPath(op)
  {
    EndpointsOf(env).gateway + OperationPath(op)
  }

  /** No two (environment, operation) pairs share a URL. */
  lemma RequestUrlInjective(e1: Environment, o1: GatewayOperation, e2: Environment, o2: GatewayOperation)
    requires RequestUrl(e1, o1) == RequestUrl(e2, o2)
    ensures e1 == e2 && o1 == o2
  {
    assert |RequestUrl(e1, o1)| == |RequestUrl(e2, o2)|;
  }

  /** A client as `createPagsmileClient` sets it up; `authHeader` is computed once. */
  datatype Client = Client(config: ClientConfig, authHeader: string)

  /** `createPagsmileClient`: `None` when `btoa` throws on the credentials. */
  function CreateClient(config: ClientConfig): (r: Option<Client>)
    ensures r.Some? <==> CreateAuthHeader(config.appId, config.securityKey).Some?
    ensures r.Some? ==> r.value.config == config
    ensures r.Some? ==> r.value.authHeader == CreateAuthHeader(config.appId, config.securityKey).value
  {
    match CreateAuthHeader(config.appId, config.securityKey)
    case None => None
    case Some(h) => Some(Client(config, h))
  }

  const JsonContentType: string := "application/json; charset=UTF-8"

  /** A `POST` to the gateway with the client's fixed headers. */
  datatype HttpRequest<B> = HttpRequest(url: string, contentType: string, authorization: string, body: B)

  datatype CreateOrderParams = CreateOrderParams(
    outTradeNo: string, paymentMethod: PaymentMethod, orderAmount: string, orderCurrency: OrderCurrency,
    subject: string, content: string, buyerId: string, customer: Customer,
    address: Option<Address>, deviceInfo: Option<DeviceInfo>, timeoutExpress: Option<string>)

  /** The `device_info` member: `user_agent` and `ip_address`. */
  datatype DeviceInfoMember = DeviceInfoMember(userAgent: string, ipAddress: string)

  datatype CreateOrderBody = CreateOrderBody(
    appId: string, outTradeNo: string, paymentMethod: PaymentMethod, orderAmount: string,
    orderCurrency: OrderCurrency, subject: string, content: string, tradeType: string,
    timestamp: string, notifyUrl: string, returnUrl: Option<string>, timeoutExpress: string,
    version: string, buyerId: string, customer: Customer, address: Option<Address>,
    deviceInfo: Option<DeviceInfoMember>)

  /**
   * `createOrder`'s request: to `/trade/create`; the body always has trade
   * type "API" and version "2.0", expires after the supplied period or "1d",
   * carries the configured application id and callback URLs, and has a
   * device member exactly when device information was supplied.
   */
  function CreateOrderRequest(c: Client, p: CreateOrderParams, timestamp: string): (r: HttpRequest<CreateOrderBody>)
    ensures r.url == RequestUrl(c.config.env, TradeCreate) && r.authorization == c.authHeader
    ensures r.body.tradeType == "API" && r.body.version == "2.0"
    ensures r.body.timeoutExpress == if p.timeoutExpress.Some? then p.timeoutExpress.value else "1d"
    ensures r.body.appId == c.config.appId
    ensures r.body.notifyUrl == c.config.notifyUrl && r.body.returnUrl == c.config.returnUrl
    ensures r.body.deviceInfo.Some? <==> p.deviceInfo.Some?
    ensures p.deviceInfo.Some? ==>
              r.body.deviceInfo.value.userAgent == p.deviceInfo.value.userAgent &&
              r.body.deviceInfo.value.ipAddress == p.deviceInfo.value.ipAddress
    ensures r.body.outTradeNo == p.outTradeNo && r.body.timestamp == timestamp
    ensures r.body.paymentMethod == p.paymentMethod && r.body.orderAmount == p.orderAmount
    ensures r.body.orderCurrency == p.orderCurrency && r.body.buyerId == p.buyerId
    ensures r.body.subject == p.subject && r.body.content == p.content
    ensures r.body.customer == p.customer && r.body.address == p.address
  {
    var device := match p.deviceInfo
      case None => None
      case Some(d) => Some(DeviceInfoMember(d.userAgent, d.ipAddress));
    var body := CreateOrderBody(
      c.config.appId, p.outTradeNo, p.paymentMethod, p.orderAmount, p.orderCurrency, p.subject, p.content,
      "API", timestamp, c.config.notifyUrl, c.config.returnUrl, p.timeoutExpress.GetOr("1d"), "2.0",
      p.buyerId, Customer(p.customer.name, p.customer.email, p.customer.phone, p.customer.identify),
      p.address, device);
    HttpRequest(EndpointsOf(c.config.env).gateway + "/trade/create", JsonContentType, c.authHeader, body)
  }

  datatype ProcessPaymentParams = ProcessPaymentParams(
    outTradeNo: string, paymentMethod: PaymentMethod, orderAmount: string, orderCurrency: OrderCurrency,
    subject: string, content: string, buyerId: string, token: string, userIp: string,
    customer: Option<Customer>, address: Option<Address>, installments: Option<string>,
    threeds: Option<ThreeDSData>, deviceUserAgent: Option<string>, websiteUrl: Option<string>,
    region: Option<string>)

  /** The `device` member: `user_agent` only. */
  datatype DeviceMember = DeviceMember(userAgent: string)

  datatype ProcessPaymentBody = ProcessPaymentBody(
    appId: string, paymentMethod: PaymentMethod, outTradeNo: string, notifyUrl: string,
    returnUrl: Option<string>, timestamp: string, subject: string, content: string,
    orderAmount: string, orderCurrency: OrderCurrency, buyerId: string, token: string,
    userIp: string, customer: Option<Customer>, address: Option<Address>,
    installments: Option<string>, threeds: Option<ThreeDSData>, device: Option<DeviceMember>,
    websiteUrl: Option<string>, region: Option<string>)

  /**
   * `processPayment`'s request: to `/trade/pay`, with the configured
   * application id and callback URLs; the device member is present exactly
   * when the user agent is a non-empty string (the source tests it for
   * truthiness), and then carries it.
   */
  function ProcessPaymentRequest(c: Client, p: ProcessPaymentParams, timestamp: string): (r: HttpRequest<ProcessPaymentBody>)
    ensures r.url == RequestUrl(c.config.env, TradePay) && r.authorization == c.authHeader
    ensures r.body.appId == c.config.appId
    ensures r.body.notifyUrl == c.config.notifyUrl && r.body.returnUrl == c.config.returnUrl
    ensures r.body.device.Some? <==> p.deviceUserAgent.Some? && p.deviceUserAgent.value != ""
    ensures r.body.device.Some? ==> r.body.device.value.userAgent == p.deviceUserAgent.value
    ensures r.body.token == p.token && r.body.userIp == p.userIp && r.body.threeds == p.threeds
    ensures r.body.timestamp == timestamp && r.body.outTradeNo == p.outTradeNo
    ensures r.body.paymentMethod == p.paymentMethod && r.body.orderAmount == p.orderAmount
    ensures r.body.orderCurrency == p.orderCurrency && r.body.buyerId == p.buyerId
    ensures r.body.subject == p.subject && r.body.content == p.content
    ensures r.body.customer == p.customer && r.body.address == p.address
    ensures r.body.installments == p.installments && r.body.websiteUrl == p.websiteUrl && r.body.region == p.region
  {
    var device := if p.deviceUserAgent.Some? && p.deviceUserAgent.value != ""
      then Some(DeviceMember(p.deviceUserAgent.value)) else None;
    var body := ProcessPaymentBody(
      c.config.appId, p.paymentMethod, p.outTradeNo, c.config.notifyUrl, c.config.returnUrl, timestamp,
      p.subject, p.content, p.orderAmount, p.orderCurrency, p.buyerId, p.token, p.userIp,
      p.customer, p.address, p.installments, p.threeds, device, p.websiteUrl, p.region);
    HttpRequest(EndpointsOf(c.config.env).gateway + "/trade/pay", JsonContentType, c.authHeader, body)
  }

  datatype QueryPaymentParams = QueryPaymentParams(outTradeNo: Option<string>, tradeNo: Option<string>)

  /** Exactly four members: `app_id`, `timestamp`, `out_trade_no`, `trade_no`. */
  datatype QueryPaymentBody = QueryPaymentBody(
    appId: string, timestamp: string, outTradeNo: Option<string>, tradeNo: Option<string>)

  /** `queryPayment`'s request: to `/trade/query`, the two references passed through as given. */
  function QueryPaymentRequest(c: Client, p: QueryPaymentParams, timestamp: string): (r: HttpRequest<QueryPaymentBody>)
    ensures r.url == RequestUrl(c.config.env, TradeQuery) && r.authorization == c.authHeader
    ensures r.body == QueryPaymentBody(c.config.appId, timestamp, p.outTradeNo, p.tradeNo)
  {
    HttpRequest(EndpointsOf(c.config.env).gateway + "/trade/query", JsonContentType, c.authHeader,
      QueryPaymentBody(c.config.appId, timestamp, p.outTradeNo, p.tradeNo))
  }

  /**
   * Whatever the parameters, a client's three requests go to three different
   * URLs of the same gateway, with the same credential.
   */
  lemma RequestsShareGatewayAndCredential(c: Client, a: CreateOrderParams, b: ProcessPaymentParams,
                                          q: QueryPaymentParams, t: string)
    ensures var r1, r2, r3 := CreateOrderRequest(c, a, t), ProcessPaymentRequest(c, b, t), QueryPaymentRequest(c, q, t);
      r1.url != r2.url && r2.url != r3.url && r1.url != r3.url &&
      r1.authorization == r2.authorization == r3.authorization == c.authHeader
  {
    var e := c.config.env;
    if CreateOrderRequest(c, a, t).url == ProcessPaymentRequest(c, b, t).url {
      RequestUrlInjective(e, TradeCreate, e, TradePay);
    }
    if ProcessPaymentRequest(c, b, t).url == QueryPaymentRequest(c, q, t).url {
      RequestUrlInjective(e, TradePay, e, TradeQuery);
    }
    if CreateOrderRequest(c, a, t).url == QueryPaymentRequest(c, q, t).url {
      RequestUrlInjective(e, TradeCreate, e, TradeQuery);
    }
  }
}
