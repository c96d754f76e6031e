/** The order values that callers, cache and gate exchange. */
module Orders {
  import opened Bytes
  import opened Identifiers

  type UserId = UInt64

  datatype OrderStatus = StatusNew | StatusSuspended | StatusPartiallyFilled | StatusFilled
                       | StatusCanceled | StatusRejected | StatusExpired

  datatype ReportType = TypeNew | TypeSuspended | TypeCanceled | TypeRejected
                      | TypeExpired | TypeTrade | TypeStatus | TypeReplaced

  datatype TimeInForce = GTC | IOC | FOK | DAY | GTD

  datatype Side = Sell | Buy

  datatype OrderType = Market | Limit | StopMarket | StopLimit

  datatype OrderModel = OrderModel(
    orderID: UInt64,
    latestOrderID: UInt64,
    clientOrderID: ClientOrderId,
    orderType: OrderType,
    timeInForce: TimeInForce,
    side: Side,
    orderStatus: OrderStatus,
    postOnly: bool,
    symbol: string,
    price: string,
    stopPrice: string,
    expireTime: UInt64,
    quantity: string,
    lastQuantity: UInt64,
    lastPrice: string,
    leavesQuantity: UInt64,
    cumQuantity: string,
    averagePrice: string,
    created: UInt64,
    modelTimestamp: UInt64)

  /** An execution report; `timestamp` is the report's own and hides the one inside the order. */
  datatype OrderReport = OrderReport(
    order: OrderModel,
    reportType: ReportType,
    originalClientOrderID: ClientOrderId,
    timestamp: UInt64,
    tradeID: UInt64,
    feeAmount: string,
    feeInstrument: string)
  {
    function Id(): ClientOrderId {
      order.clientOrderID
    }
  }

  datatype Trade = Trade(
    id: UInt64,
    timestamp: UInt64,
    quantity: UInt64,
    price: string,
    feeAmount: string,
    feeInstrument: string)

  /** A trade as it is taken from a report; the fee instrument is not filled in. */
  function TradeOf(r: OrderReport): Trade {
    Trade(r.tradeID, r.timestamp, r.order.lastQuantity, r.order.lastPrice, r.feeAmount, "")
  }

  datatype ErrorResponse = Unknown | DuplicateClientOrder | NotFoundOrder | ExceedsLimit | NotChanged
                         | BadQuantity | BadPrice | TradingNotStarted | NoExpireTime | TooLateToEnter

  /** A reject, with its reason already looked up in the error table. */
  datatype Reject = Reject(
    clientOrderID: ClientOrderId,
    cancelRequestClientOrderID: ClientOrderId,
    error: ErrorResponse)

  /** The report types that update the cache. */
  predicate Fills(t: ReportType) {
    t.TypeNew? || t.TypeSuspended? || t.TypeCanceled? || t.TypeExpired? || t.TypeTrade? || t.TypeReplaced?
  }

  /** The report types that can answer a pending new order. */
  predicate AnswersNew(t: ReportType) {
    t.TypeNew? || t.TypeSuspended? || t.TypeExpired? || t.TypeTrade? || t.TypeReplaced?
  }

  predicate Live(s: OrderStatus) {
    s.StatusNew? || s.StatusPartiallyFilled? || s.StatusSuspended?
  }
}
