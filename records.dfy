/** The documents the trading engine keeps in its Mongo collections and the
    broker replies it reads. Each document is a value; a collection that is
    looked up by (Trader, Symbol, Strategy) is a map from that key, and the
    documents under a key belong to the key's trader. */
module Records {
  import opened Wrappers
  import OrderedDict

  /** An instant of `getDatetime()`, in seconds on one clock. */
  type Timestamp = int

  /** An order instruction as it appears in trade signals and orders. */
  datatype Side =
    | Buy | Sell | BuyToOpen | SellToOpen | BuyToClose | SellToClose
    | OtherSide(name: string)

  /** A strategy's Position_Type. */
  datatype PositionType = Long | Short | OtherPositionType(name: string)

  datatype Direction = OpenPosition | ClosePosition

  /** A strategy's Order_Type. */
  datatype OrderType = Standard | Oco | OtherOrderType(name: string)

  /** Account_Position: whether orders really go to the broker. */
  datatype AccountMode = Live | Paper

  /** Data_Integrity of a resolved position. */
  datatype Integrity = Reliable | Assumed

  /** The key every per-order collection is looked up by. */
  datatype Key = Key(trader: string, symbol: string, strategy: string)

  /** Pre_Symbol, Exp_Date and Option_Type of an option order. */
  datatype OptionInfo = OptionInfo(preSymbol: string, expDate: Timestamp, optionType: string)

  /** A price together with the time it was recorded (Entry_* or Exit_*). */
  datatype Stamp = Stamp(price: real, date: Timestamp)

  /** A document of the `strategies` collection. */
  datatype StrategyDoc = StrategyDoc(
    name: string,
    accountId: string,
    active: bool,
    orderType: OrderType,
    assetType: string,
    positionSize: int,
    positionType: PositionType)

  /** A document of the `queue` collection: an order sent and not yet
      resolved. Its fields are those of the order builder's record at the
      time it was queued. */
  datatype QueueEntry = QueueEntry(
    symbol: string,
    strategy: string,
    accountId: string,
    side: Side,
    assetType: string,
    positionType: PositionType,
    orderType: OrderType,
    direction: Direction,
    qty: int,
    positionSize: int,
    entry: Stamp,
    exit: Option<Stamp>,
    option: Option<OptionInfo>,
    orderId: Option<int>,
    status: Option<string>,
    mode: AccountMode)

  datatype ExitType = StopLoss | TakeProfit

  /** One bracket child of an OCO order, as extracted from the broker. */
  datatype ChildEntry = ChildEntry(side: Side, exitPrice: real, exitType: ExitType, status: string)

  /** A document of the `open_positions` collection. The engine never writes
      Side, Direction or childOrderStrategies into it; they are optional
      because the OCO trigger task reads them. */
  datatype PositionDoc = PositionDoc(
    symbol: string,
    strategy: string,
    accountId: string,
    positionSize: int,
    positionType: PositionType,
    integrity: Integrity,
    assetType: string,
    mode: AccountMode,
    orderType: OrderType,
    option: Option<OptionInfo>,
    qty: int,
    entry: Stamp,
    side: Option<Side>,
    direction: Option<Direction>,
    children: Option<OrderedDict.Dict<int, ChildEntry>>)

  /** A document of `closed_positions`: the position as it was, plus the exit. */
  datatype ClosedDoc = ClosedDoc(position: PositionDoc, exit: Stamp)

  /** What an audit record's Order_Type holds: the side for a rejected
      placement, the order type for a rejected or canceled broker order. */
  datatype AuditLabel = SideLabel(side: Side) | TypeLabel(orderType: OrderType)

  /** A document of `rejected` or `canceled`. */
  datatype Audit = Audit(
    symbol: string,
    kind: AuditLabel,
    status: string,
    strategy: string,
    trader: string,
    date: Timestamp,
    accountId: string)

  /** One child order inside the broker's OCO group. */
  datatype BrokerChild = BrokerChild(
    orderId: int,
    instructions: seq<Side>,
    stopPrice: Option<real>,
    price: Option<real>,
    status: string)

  /** An order as the broker reports it. Every field may be missing.
      `activity` is None when orderActivityCollection is absent, and Some(None)
      when it is present but its first execution leg has no price.
      `children` is the child list of the first child strategy, None when
      that path does not exist. */
  datatype BrokerOrder = BrokerOrder(
    orderId: Option<int>,
    status: Option<string>,
    activity: Option<Option<real>>,
    quantity: Option<real>,
    price: Option<real>,
    children: Option<seq<BrokerChild>>)

  /** A broker lookup: an "error" reply, or an order. */
  datatype BrokerReply = NotFound | Found(order: BrokerOrder)
}
