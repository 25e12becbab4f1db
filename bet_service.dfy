/** Bet placement: the wallet row of a user, and placing a bet against an
    open round, which moves the stake from available to frozen and writes
    the order, its items and a ledger entry in one transaction. */
module BetService {
  import opened Common
  import opened Store
  import opened OrderSchemas
  import Settlement

  /** The ledger business type of a bet. */
  const BizBet := 20
  /** Ledger direction: money going out. */
  const DirectionOut := 2
  const BetRemark := "下注冻结"
  const DefaultChannel := "h5"

  datatype BetError = IssueNotFound | BettingClosed | InsufficientFunds

  datatype BetResult = Placed(orderId: int) | Rejected(error: BetError)

  // ------------------------------------------------------------ the wallet

  /** The wallet a new user gets: all zero. */
  const EmptyWallet := WalletAccount(0, 0, 0)

  /** The user's wallet row, or the one that would be created for them. */
  function WalletOf(wallets: map<int, WalletAccount>, userId: int): (acc: WalletAccount)
    ensures userId !in wallets ==> acc == EmptyWallet
  {
    if userId in wallets then wallets[userId] else EmptyWallet
  }

  /** Read the user's wallet row, creating an empty one when there is none. */
  method EnsureWallet(db: Db, userId: int) returns (acc: WalletAccount)
    modifies db
    ensures acc == WalletOf(old(db.wallets), userId)
    ensures db.wallets == old(db.wallets)[userId := acc]
    ensures userId in old(db.wallets) ==> db.wallets == old(db.wallets)
    ensures db.orders == old(db.orders) && db.items == old(db.items) && db.users == old(db.users)
    ensures db.ledger == old(db.ledger) && db.issues == old(db.issues) && db.lotteries == old(db.lotteries)
  {
    if userId in db.wallets {
      acc := db.wallets[userId];
    } else {
      acc := WalletAccount(0, 0, 0);
      db.wallets := db.wallets[userId := acc];
    }
  }

  /** The stake total of a bet. */
  function TotalStake(items: seq<BetItemIn>): int {
    if items == [] then 0 else TotalStake(items[..|items| - 1]) + items[|items| - 1].stakeAmount
  }

  /** A valid bet costs at least one cent per item. */
  lemma {:induction false} TotalStakeAtLeastItems(items: seq<BetItemIn>)
    requires forall k :: 0 <= k < |items| ==> ValidItem(items[k])
    ensures TotalStake(items) >= |items|
  {
    if items != [] {
      TotalStakeAtLeastItems(items[..|items| - 1]);
    }
  }

  /** The funds check: the available balance covers the total. */
  predicate Admits(acc: WalletAccount, total: int) {
    acc.available >= total
  }

  /** The wallet after a bet: the total moves from available to frozen and
      the version goes up by one. */
  function Debited(acc: WalletAccount, total: int): (r: WalletAccount)
    ensures r.available + r.frozen == acc.available + acc.frozen
    ensures r.available == acc.available - total && r.version == acc.version + 1
  {
    WalletAccount(acc.available - total, acc.frozen + total, acc.version + 1)
  }

  /** A bet the funds check admits leaves a non-negative available balance,
      and never lowers a non-negative frozen amount when the total is
      positive. */
  lemma DebitKeepsBalancesNonNegative(acc: WalletAccount, total: int)
    requires Admits(acc, total) && total > 0 && acc.frozen >= 0
    ensures Debited(acc, total).available >= 0 && Debited(acc, total).frozen > acc.frozen
  {
  }

  /** With 10.00 available, of two bets of 8.00 placed one after the other
      (the wallet row lock orders them) exactly one is admitted. */
  lemma SecondBetRefused(acc: WalletAccount)
    requires acc.available == 1000
    ensures Admits(acc, 800) && !Admits(Debited(acc, 800), 800)
  {
  }

  // ------------------------------------------------------------ the rows written

  /** The order row a bet creates, as it stands once the transaction ends:
      status pending settlement, no win, channel "h5" when none is given. */
  function PlacedOrder(userId: int, bet: BetIn, ip: Option<string>, channel: Option<string>): Order {
    Order(userId, bet.lotteryCode, bet.issueCode, TotalStake(bet.items), OrderPending, 0, ip,
          if channel.None? || channel.value == "" then DefaultChannel else channel.value)
  }

  function ItemRow(orderId: int, it: BetItemIn): OrderItem {
    OrderItem(orderId, it.playCode, it.selection, it.odds, it.stakeAmount, ItemUnsettled, 0, None)
  }

  /** The item rows of a bet, in the order of its items. */
  function ItemRows(orderId: int, items: seq<BetItemIn>): (rows: seq<OrderItem>)
    ensures |rows| == |items|
  {
    if items == [] then [] else ItemRows(orderId, items[..|items| - 1]) + [ItemRow(orderId, items[|items| - 1])]
  }

  /** Each item row belongs to the order, is unsettled and carries its
      item's play, selection, odds and stake. */
  lemma {:induction false} ItemRowsAt(orderId: int, items: seq<BetItemIn>, k: nat)
    requires k < |items|
    ensures ItemRows(orderId, items)[k] == ItemRow(orderId, items[k])
  {
    if k < |items| - 1 {
      ItemRowsAt(orderId, items[..|items| - 1], k);
    }
  }

  function StakeSum(rows: seq<OrderItem>): int {
    if rows == [] then 0 else StakeSum(rows[..|rows| - 1]) + rows[|rows| - 1].stakeAmount
  }

  /** The order's total is the sum of its item rows' stakes. */
  lemma {:induction false} OrderTotalIsItemStakes(orderId: int, items: seq<BetItemIn>)
    ensures StakeSum(ItemRows(orderId, items)) == TotalStake(items)
  {
    if items != [] {
      var rows := ItemRows(orderId, items);
      assert rows[..|rows| - 1] == ItemRows(orderId, items[..|items| - 1]);
      OrderTotalIsItemStakes(orderId, items[..|items| - 1]);
    }
  }

  /** The ledger entry of a bet: money out, the total, the available balance
      after the debit, referring to the order. */
  function BetLedger(userId: int, total: int, availableAfter: int, orderId: int): LedgerEntry {
    LedgerEntry(userId, DirectionOut, total, availableAfter, BizBet, "orders", orderId, BetRemark)
  }

  /** A placed order waits for settlement: it is settleable, and since a
      valid bet has items, settlement evaluates them instead of voiding it. */
  lemma PlacedOrderIsSettleable(userId: int, bet: BetIn, ip: Option<string>, channel: Option<string>,
                                items: seq<OrderItem>, orderId: int)
    requires ValidBet(bet)
    ensures Settlement.Settleable(PlacedOrder(userId, bet, ip, channel))
    ensures Settlement.HasItems(items + ItemRows(orderId, bet.items), orderId)
    ensures PlacedOrder(userId, bet, ip, channel).totalAmount >= |bet.items| >= 1
  {
    ItemRowsAt(orderId, bet.items, 0);
    var all := items + ItemRows(orderId, bet.items);
    assert all[|items|].orderId == orderId;
    TotalStakeAtLeastItems(bet.items);
  }

  // ------------------------------------------------------------ placing a bet

  /** Betting on a round is open when it has no close time or the clock is
      before it. */
  predicate BettingOpen(issue: Issue, now: int) {
    issue.closeTime.None? || now < issue.closeTime.value
  }

  /** The item rows of a new order, inserted one by one in bet order. */
  method InsertItems(db: Db, orderId: int, items: seq<BetItemIn>)
    modifies db
    ensures db.items == old(db.items) + ItemRows(orderId, items)
    ensures db.orders == old(db.orders) && db.wallets == old(db.wallets) && db.ledger == old(db.ledger)
    ensures db.users == old(db.users) && db.issues == old(db.issues) && db.lotteries == old(db.lotteries)
  {
    var i := 0;
    while i < |items|
      invariant 0 <= i <= |items|
      invariant db.items == old(db.items) + ItemRows(orderId, items[..i])
      invariant db.orders == old(db.orders) && db.wallets == old(db.wallets) && db.ledger == old(db.ledger)
      invariant db.users == old(db.users) && db.issues == old(db.issues) && db.lotteries == old(db.lotteries)
    {
      assert items[..i + 1][..i] == items[..i];
      db.items := db.items + [ItemRow(orderId, items[i])];
      i := i + 1;
    }
    assert items[..i] == items;
  }

  /** Place a bet (already validated) for a user at time now. A missing
      round, a closed round or too little available balance rejects it and
      nothing changes (the transaction is rolled back, including a wallet
      row just created). Otherwise the stake total moves from available to
      frozen, and the order (pending settlement), its items and the ledger
      entry are appended. */
  method PlaceBet(db: Db, userId: int, bet: BetIn, ip: Option<string>, channel: Option<string>, now: int)
    returns (result: BetResult)
    requires ValidBet(bet)
    modifies db
    ensures var key := RoundKey(bet.lotteryCode, bet.issueCode);
      && (key !in old(db.issues) ==> result == Rejected(IssueNotFound))
      && (key in old(db.issues) && !BettingOpen(old(db.issues)[key], now) ==> result == Rejected(BettingClosed))
      && (key in old(db.issues) && BettingOpen(old(db.issues)[key], now) ==>
            result == if Admits(WalletOf(old(db.wallets), userId), TotalStake(bet.items))
                      then Placed(|old(db.orders)| + 1) else Rejected(InsufficientFunds))
    ensures result.Rejected? ==>
      && db.orders == old(db.orders) && db.items == old(db.items)
      && db.wallets == old(db.wallets) && db.ledger == old(db.ledger)
    ensures result.Placed? ==>
      var total := TotalStake(bet.items);
      var acc := Debited(WalletOf(old(db.wallets), userId), total);
      && db.orders == old(db.orders) + [PlacedOrder(userId, bet, ip, channel)]
      && db.items == old(db.items) + ItemRows(result.orderId, bet.items)
      && db.wallets == old(db.wallets)[userId := acc]
      && db.ledger == old(db.ledger) + [BetLedger(userId, total, acc.available, result.orderId)]
    ensures db.users == old(db.users) && db.issues == old(db.issues) && db.lotteries == old(db.lotteries)
  {
    var key := RoundKey(bet.lotteryCode, bet.issueCode);
    if key !in db.issues {
      return Rejected(IssueNotFound);
    }
    var issue := db.issues[key];
    if issue.closeTime.Some? && now >= issue.closeTime.value {
      return Rejected(BettingClosed);
    }

    var total := TotalStake(bet.items);
    var saved := db.wallets;
    var acc := EnsureWallet(db, userId);
    if acc.available < total {
      db.wallets := saved;
      return Rejected(InsufficientFunds);
    }

    acc := acc.(available := acc.available - total);
    acc := acc.(frozen := acc.frozen + total);
    acc := acc.(version := acc.version + 1);
    assert acc == Debited(WalletOf(old(db.wallets), userId), total);
    db.wallets := db.wallets[userId := acc];

    var orderId := |db.orders| + 1;
    var ch := if channel.None? || channel.value == "" then DefaultChannel else channel.value;
    db.orders := db.orders + [Order(userId, bet.lotteryCode, bet.issueCode, total, OrderSubmitted, 0, ip, ch)];

    InsertItems(db, orderId, bet.items);

    db.ledger := db.ledger + [BetLedger(userId, total, acc.available, orderId)];
    db.orders := db.orders[orderId - 1 := db.orders[orderId - 1].(status := OrderPending)];
    assert db.orders == old(db.orders) + [PlacedOrder(userId, bet, ip, channel)];
    return Placed(orderId);
  }
}
