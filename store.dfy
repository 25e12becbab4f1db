/** The state the services share: the rows of the relational store and the
    values kept in the key-value cache.

    Amounts of money are whole cents, odds are whole ten-thousandths (the
    Numeric(10,4) column), times are whole seconds. */
module Store {
  import opened Common

  // Order status (orders.status).
  const OrderSubmitted := 1
  const OrderCancelled := 2
  const OrderPending := 3
  const OrderWon := 4
  const OrderLost := 5
  const OrderVoid := 9

  // Order item result status (order_item.result_status).
  const ItemUnsettled := 0
  const ItemHit := 1
  const ItemMiss := 2
  const ItemVoided := 3

  // Round status (issue.status) written once the numbers are known.
  const IssueDrawn := 3

  /** A round is identified by its lottery and its issue code. */
  datatype RoundKey = RoundKey(lotteryCode: string, issueCode: string)

  datatype Lottery = Lottery(
    name: string,
    periodSeconds: Option<int>,
    lockAheadSeconds: Option<int>,
    status: int,
    tz: string)

  /** One row of the issue table. Every row the services write has its numbers
      and derived fields set, so they are not optional here; close_time is a
      nullable column as far as the betting check is concerned. */
  datatype Issue = Issue(
    lotteryCode: string,
    issueCode: string,
    openTime: int,
    closeTime: Option<int>,
    status: int,
    n1: int, n2: int, n3: int,
    sumValue: int, bs: int, oe: int, extreme: int,
    rawJson: string)

  function KeyOf(row: Issue): RoundKey {
    RoundKey(row.lotteryCode, row.issueCode)
  }

  /** Every round row is stored under its own lottery and issue code: the
      unique key of the issue table. */
  predicate KeyedByRound(issues: map<RoundKey, Issue>) {
    forall k :: k in issues ==> KeyOf(issues[k]) == k
  }

  datatype Order = Order(
    userId: int,
    lotteryCode: string,
    issueCode: string,
    totalAmount: int,
    status: int,
    winAmount: int,
    ip: Option<string>,
    channel: string)

  datatype OrderItem = OrderItem(
    orderId: int,
    playCode: int,
    selection: string,
    odds: int,
    stakeAmount: int,
    resultStatus: int,
    winAmount: int,
    settledAt: Option<int>)

  /** The user row as settlement sees it: only the balance it credits. */
  datatype User = User(balance: int)

  datatype WalletAccount = WalletAccount(available: int, frozen: int, version: int)

  datatype LedgerEntry = LedgerEntry(
    userId: int,
    direction: int,
    amount: int,
    balanceAfter: int,
    bizType: int,
    refTable: string,
    refId: int,
    remark: string)

  /** The relational store. The autoincrement tables that are only appended
      to are sequences: the row with id k is at index k - 1. The others are
      maps by their key (users by id, wallets by their unique user_id, rounds
      by lottery and issue code, lotteries by code). */
  class Db {
    var orders: seq<Order>
    var items: seq<OrderItem>
    var users: map<int, User>
    var wallets: map<int, WalletAccount>
    var ledger: seq<LedgerEntry>
    var issues: map<RoundKey, Issue>
    var lotteries: map<string, Lottery>

    constructor (users: map<int, User>, lotteries: map<string, Lottery>)
      ensures this.users == users && this.lotteries == lotteries
      ensures orders == [] && items == [] && wallets == map[] && ledger == [] && issues == map[]
    {
      this.users := users;
      this.lotteries := lotteries;
      orders, items, wallets, ledger, issues := [], [], map[], [], map[];
    }
  }

  /** The JSON object pushed onto the history list and stored as the last
      result (keys sorted, so equal payloads are equal strings). */
  datatype Payload = Payload(
    lotteryCode: string,
    issueCode: string,
    n1: int, n2: int, n3: int,
    sumValue: int, bs: int, oe: int, extreme: int,
    openTime: string)

  /** A cache entry: a payload this service wrote, or any other string, one
      that does not parse as a JSON object with an issue_code. */
  datatype Entry = Record(payload: Payload) | Opaque(text: string)

  /** json.loads(entry).get("issue_code"), with a parse failure read as None. */
  function EntryIssueCode(e: Entry): Option<string> {
    match e
    case Record(p) => Some(p.issueCode)
    case Opaque(_) => None
  }

  /** The history payload built from a stored round. */
  function HistoryPayload(row: Issue, codec: TimeCodec): (p: Payload)
    ensures p.lotteryCode == row.lotteryCode && p.issueCode == row.issueCode
    ensures p.sumValue == row.sumValue && p.openTime == codec.format(row.openTime)
  {
    Payload(row.lotteryCode, row.issueCode, row.n1, row.n2, row.n3,
            row.sumValue, row.bs, row.oe, row.extreme, codec.format(row.openTime))
  }

  /** The key-value cache, one value per lottery code for each of its three
      keys: the history list (newest first), the last result, and the
      current-issue hash. */
  class Cache {
    var history: map<string, seq<Entry>>
    var lastResult: map<string, Entry>
    var currentIssue: map<string, map<string, string>>

    constructor ()
      ensures history == map[] && lastResult == map[] && currentIssue == map[]
    {
      history, lastResult, currentIssue := map[], map[], map[];
    }
  }

  /** LRANGE on a missing key reads an empty list. */
  function ListAt(history: map<string, seq<Entry>>, code: string): seq<Entry> {
    if code in history then history[code] else []
  }

  /** HGETALL on a missing key reads an empty hash. */
  function HashAt(current: map<string, map<string, string>>, code: string): map<string, string> {
    if code in current then current[code] else map[]
  }
}
