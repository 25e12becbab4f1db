/** The settlement engine: the hit rule for a selection against the drawn sum,
    the payout rounding, settlement of one order, and the periodic batch that
    settles every order of a drawn round. */
module Settlement {
  import opened Common
  import opened Store

  /** The most orders one batch reads. */
  const BatchLimit := 200

  // The six named selections: big, small, odd, even, extreme big, extreme small.
  const Big := "大"
  const Small := "小"
  const Odd := "单"
  const Even := "双"
  const ExtremeBig := "极大"
  const ExtremeSmall := "极小"

  predicate IsCategory(s: string) {
    s == Big || s == Small || s == Odd || s == Even || s == ExtremeBig || s == ExtremeSmall
  }

  // ------------------------------------------------------------ hit rule

  /** Whether a selection wins against the drawn sum: a numeral (after strip)
      wins when its value is the sum; a named selection wins when the sum is
      in its band; anything else never wins. */
  function IsHit(selection: string, sum: int): bool {
    var s := Strip(selection);
    if IsDigits(s) then DigitsValue(s) == sum else NamedHit(s, sum)
  }

  /** The bands of the named selections. The extreme band here is >= 23 /
      <= 4, wider than the one the ingest path stores. */
  function NamedHit(s: string, sum: int): bool {
    if s == Big then sum >= 14
    else if s == Small then sum <= 13
    else if s == Odd then sum % 2 == 1
    else if s == Even then sum % 2 == 0
    else if s == ExtremeBig then sum >= 23
    else if s == ExtremeSmall then sum <= 4
    else false
  }

  /** An exact-sum selection, as str(n) writes it, wins exactly on that sum. */
  lemma ExactSelectionHits(n: nat, sum: int)
    ensures IsHit(NatToString(n), sum) <==> n == sum
  {
    var s := NatToString(n);
    StripUnpadded(s);
    NatToStringRoundTrip(n);
  }

  // Each named selection is its own strip and not a numeral, so it is
  // judged by its band alone. One selection per lemma: the solver handles
  // one literal selection at a time cheaply, several together poorly.

  lemma BigRule(sum: int)
    ensures IsHit(Big, sum) <==> sum >= 14
  {
    assert Strip(Big) == Big by { StripUnpadded(Big); }
    assert !IsDigits(Big) by { assert !IsDigit(Big[0]); }
  }

  lemma SmallRule(sum: int)
    ensures IsHit(Small, sum) <==> sum <= 13
  {
    assert Strip(Small) == Small by { StripUnpadded(Small); }
    assert !IsDigits(Small) by { assert !IsDigit(Small[0]); }
  }

  lemma OddRule(sum: int)
    ensures IsHit(Odd, sum) <==> sum % 2 == 1
  {
    assert Strip(Odd) == Odd by { StripUnpadded(Odd); }
    assert !IsDigits(Odd) by { assert !IsDigit(Odd[0]); }
  }

  lemma EvenRule(sum: int)
    ensures IsHit(Even, sum) <==> sum % 2 == 0
  {
    assert Strip(Even) == Even by { StripUnpadded(Even); }
    assert !IsDigits(Even) by { assert !IsDigit(Even[0]); }
  }

  lemma ExtremeBigRule(sum: int)
    ensures IsHit(ExtremeBig, sum) <==> sum >= 23
  {
    assert Strip(ExtremeBig) == ExtremeBig by { StripUnpadded(ExtremeBig); }
    assert !IsDigits(ExtremeBig) by { assert !IsDigit(ExtremeBig[0]); }
  }

  lemma ExtremeSmallRule(sum: int)
    ensures IsHit(ExtremeSmall, sum) <==> sum <= 4
  {
    assert Strip(ExtremeSmall) == ExtremeSmall by { StripUnpadded(ExtremeSmall); }
    assert !IsDigits(ExtremeSmall) by { assert !IsDigit(ExtremeSmall[0]); }
  }

  /** Big and small split every sum at 14. */
  lemma BigSmallRules(sum: int)
    ensures IsHit(Big, sum) <==> sum >= 14
    ensures IsHit(Small, sum) <==> sum <= 13
    ensures IsHit(Big, sum) != IsHit(Small, sum)
  {
    BigRule(sum);
    SmallRule(sum);
  }

  /** Odd and even split every sum by its remainder. */
  lemma OddEvenRules(sum: int)
    ensures IsHit(Odd, sum) <==> sum % 2 == 1
    ensures IsHit(Even, sum) <==> sum % 2 == 0
    ensures IsHit(Odd, sum) != IsHit(Even, sum)
  {
    OddRule(sum);
    EvenRule(sum);
  }

  /** The extreme bands, 23 and up and 4 and down, never overlap. */
  lemma ExtremeRules(sum: int)
    ensures IsHit(ExtremeBig, sum) <==> sum >= 23
    ensures IsHit(ExtremeSmall, sum) <==> sum <= 4
    ensures !(IsHit(ExtremeBig, sum) && IsHit(ExtremeSmall, sum))
  {
    ExtremeBigRule(sum);
    ExtremeSmallRule(sum);
  }

  /** A selection that is neither a numeral nor a named selection never wins. */
  lemma UnknownSelectionNeverHits(selection: string, sum: int)
    requires !IsDigits(Strip(selection)) && !IsCategory(Strip(selection))
    ensures !IsHit(selection, sum)
  {
  }

  // ------------------------------------------------------------ the payout

  /** q2(stake * odds) in cents: the stake in cents times the odds in
      ten-thousandths, rounded half-up to a whole cent. */
  function Payout(stake: int, odds: int): (w: int)
    ensures stake >= 0 && odds >= 0 ==> w >= 0
  {
    RoundHalfUp(stake * odds, 10000)
  }

  /** The payout is the nearest cent to stake * odds, halves rounded up. */
  lemma PayoutIsNearestCent(stake: int, odds: int)
    requires stake >= 0 && odds >= 0
    ensures 20000 * Payout(stake, odds) - 10000 <= 2 * stake * odds < 20000 * Payout(stake, odds) + 10000
  {
  }

  /** Odds with whole-cent products pay exactly stake * odds. */
  lemma PayoutExact(stake: int, odds: int, k: int)
    requires stake * odds == k * 10000
    ensures Payout(stake, odds) == k
  {
    RoundHalfUpExact(k, 10000);
  }

  /** The "x,y,z" fallback of the outcome lookup: the sum of the three numbers. */
  function SumFromCode(code: string): (r: Option<int>)
    ensures r.Some? <==> ParseThree(code).Some?
  {
    SumOfNumbers(ParseThree(code))
  }

  function SumOfNumbers(nums: Option<(int, int, int)>): Option<int> {
    if nums.None? then None else Some(nums.value.0 + nums.value.1 + nums.value.2)
  }

  lemma SumFromCodeOfNumbers(parts: seq<string>, a: int, b: int, c: int)
    requires |parts| >= 3
    requires parts[0] == IntToString(a) && parts[1] == IntToString(b) && parts[2] == IntToString(c)
    requires forall k :: 3 <= k < |parts| ==> ',' !in parts[k]
    ensures SumFromCode(Join(parts, ',')) == Some(a + b + c)
  {
    ParseThreeOfJoin(parts, a, b, c);
    SumOfThree(ParseThree(Join(parts, ',')), a, b, c);
  }

  lemma SumOfThree(nums: Option<(int, int, int)>, a: int, b: int, c: int)
    requires nums == Some((a, b, c))
    ensures SumOfNumbers(nums) == Some(a + b + c)
  {
  }

  // ------------------------------------------------------------ one item

  /** Result status 1, 2 or 3: the item was already settled. */
  predicate IsSettled(it: OrderItem) {
    it.resultStatus == ItemHit || it.resultStatus == ItemMiss || it.resultStatus == ItemVoided
  }

  /** An item after evaluation against the drawn sum: settled items are left
      as they are, the others become a hit with the payout or a miss with 0,
      stamped with the settlement time. */
  function EvaluateItem(it: OrderItem, sum: int, now: int): (r: OrderItem)
    ensures IsSettled(r)
    ensures r.orderId == it.orderId && r.selection == it.selection
    ensures r.stakeAmount == it.stakeAmount && r.odds == it.odds && r.playCode == it.playCode
  {
    if IsSettled(it) then it
    else if IsHit(it.selection, sum) then it.(resultStatus := ItemHit, winAmount := Payout(it.stakeAmount, it.odds), settledAt := Some(now))
    else it.(resultStatus := ItemMiss, winAmount := 0, settledAt := Some(now))
  }

  /** What an item adds to its order's win: the recorded amount of a settled
      item, otherwise the payout on a hit and 0 on a miss. */
  function ItemWin(it: OrderItem, sum: int): int {
    if IsSettled(it) then it.winAmount
    else if IsHit(it.selection, sum) then Payout(it.stakeAmount, it.odds)
    else 0
  }

  /** An unsettled item changes exactly once: to hit with its payout or to
      miss with 0; a settled one never changes again. */
  lemma EvaluateItemOnce(it: OrderItem, sum: int, now: int, sum': int, now': int)
    ensures !IsSettled(it) ==> EvaluateItem(it, sum, now).settledAt == Some(now)
    ensures !IsSettled(it) ==>
      (EvaluateItem(it, sum, now).resultStatus == ItemHit <==> IsHit(it.selection, sum))
    ensures !IsSettled(it) && !IsHit(it.selection, sum) ==>
      EvaluateItem(it, sum, now).resultStatus == ItemMiss && EvaluateItem(it, sum, now).winAmount == 0
    ensures !IsSettled(it) && IsHit(it.selection, sum) ==>
      EvaluateItem(it, sum, now).winAmount == Payout(it.stakeAmount, it.odds)
    ensures IsSettled(it) ==> EvaluateItem(it, sum, now) == it
    ensures EvaluateItem(it, sum, now).winAmount == ItemWin(it, sum)
    ensures EvaluateItem(EvaluateItem(it, sum, now), sum', now') == EvaluateItem(it, sum, now)
  {
  }

  // ------------------------------------------------------------ one order

  /** Status 1 or 3: an order settlement may still pick up. */
  predicate Settleable(o: Order) {
    o.status == OrderSubmitted || o.status == OrderPending
  }

  /** The items table with every item of the order evaluated. */
  function SettleItems(items: seq<OrderItem>, orderId: int, sum: int, now: int): (r: seq<OrderItem>)
    ensures |r| == |items|
  {
    if items == [] then []
    else
      var last := items[|items| - 1];
      SettleItems(items[..|items| - 1], orderId, sum, now)
        + [if last.orderId == orderId then EvaluateItem(last, sum, now) else last]
  }

  /** Items of the order are evaluated; every other item is left as it is. */
  lemma {:induction false} SettleItemsAt(items: seq<OrderItem>, orderId: int, sum: int, now: int, k: nat)
    requires k < |items|
    ensures SettleItems(items, orderId, sum, now)[k]
      == if items[k].orderId == orderId then EvaluateItem(items[k], sum, now) else items[k]
  {
    if k < |items| - 1 {
      SettleItemsAt(items[..|items| - 1], orderId, sum, now, k);
    }
  }

  /** One more item of the table: the settled prefix grows by that item,
      evaluated if it belongs to the order, and the total by its win. */
  lemma SettleItemsStep(items: seq<OrderItem>, orderId: int, sum: int, now: int, j: nat)
    requires j < |items|
    ensures SettleItems(items[..j + 1], orderId, sum, now) + items[j + 1..]
      == (SettleItems(items[..j], orderId, sum, now) + items[j..])
         [j := if items[j].orderId == orderId then EvaluateItem(items[j], sum, now) else items[j]]
    ensures OrderWin(items[..j + 1], orderId, sum)
      == OrderWin(items[..j], orderId, sum) + (if items[j].orderId == orderId then ItemWin(items[j], sum) else 0)
  {
    var prefix := items[..j + 1];
    assert prefix[..j] == items[..j];
    var a := SettleItems(items[..j], orderId, sum, now);
    var e := if items[j].orderId == orderId then EvaluateItem(items[j], sum, now) else items[j];
    assert SettleItems(prefix, orderId, sum, now) == a + [e];
    assert a + [e] + items[j + 1..] == (a + items[j..])[j := e];
  }

  /** The order's total win: the sum of ItemWin over its items. */
  function OrderWin(items: seq<OrderItem>, orderId: int, sum: int): int {
    if items == [] then 0
    else
      var last := items[|items| - 1];
      OrderWin(items[..|items| - 1], orderId, sum) + (if last.orderId == orderId then ItemWin(last, sum) else 0)
  }

  /** Re-entry is stable: once the items are evaluated, evaluating them
      again, even against another sum, yields the same total, because
      settled items only contribute their recorded amounts. */
  lemma {:induction false} ReentryTotalStable(items: seq<OrderItem>, orderId: int, sum: int, now: int, sum': int)
    ensures OrderWin(SettleItems(items, orderId, sum, now), orderId, sum') == OrderWin(items, orderId, sum)
  {
    if items != [] {
      var settled := SettleItems(items, orderId, sum, now);
      assert settled[..|settled| - 1] == SettleItems(items[..|items| - 1], orderId, sum, now);
      ReentryTotalStable(items[..|items| - 1], orderId, sum, now, sum');
    }
  }

  /** With non-negative stakes, odds and recorded wins, the total win is
      non-negative. */
  lemma {:induction false} OrderWinNonNegative(items: seq<OrderItem>, orderId: int, sum: int)
    requires forall k :: 0 <= k < |items| ==> items[k].stakeAmount >= 0 && items[k].odds >= 0 && items[k].winAmount >= 0
    ensures OrderWin(items, orderId, sum) >= 0
  {
    if items != [] {
      OrderWinNonNegative(items[..|items| - 1], orderId, sum);
    }
  }

  predicate HasItems(items: seq<OrderItem>, orderId: int) {
    exists k :: 0 <= k < |items| && items[k].orderId == orderId
  }

  /** Without items the order has no win. */
  lemma {:induction false} NoItemsNoWin(items: seq<OrderItem>, orderId: int, sum: int, now: int)
    requires !HasItems(items, orderId)
    ensures OrderWin(items, orderId, sum) == 0
    ensures SettleItems(items, orderId, sum, now) == items
  {
    if items != [] {
      var init := items[..|items| - 1];
      assert !HasItems(init, orderId) by {
        forall k | 0 <= k < |init| ensures init[k].orderId != orderId {
          assert init[k] == items[k];
        }
      }
      NoItemsNoWin(init, orderId, sum, now);
    }
  }

  /** The tables settlement reads and writes. */
  datatype Books = Books(orders: seq<Order>, items: seq<OrderItem>, users: map<int, User>)

  function BooksOf(db: Db): Books
    reads db
  {
    Books(db.orders, db.items, db.users)
  }

  /** The summary settlement logs for an order it handled. */
  datatype Details = Details(
    orderId: int,
    lotteryCode: string,
    issueCode: string,
    userId: Option<int>,
    stake: int,
    win: int,
    status: int)

  /** Settlement of one order against the drawn sum, as one transaction. */
  function SettleOrder(b: Books, orderId: int, sum: int, now: int): (r: (Books, Option<Details>))
    ensures |r.0.orders| == |b.orders|
  {
    if !(1 <= orderId <= |b.orders|) then (b, None)
    else
      var o := b.orders[orderId - 1];
      if !Settleable(o) then (b, None)
      else if o.userId !in b.users then
        (b.(orders := b.orders[orderId - 1 := o.(status := OrderVoid)]),
         Some(Details(orderId, o.lotteryCode, o.issueCode, None, o.totalAmount, 0, OrderVoid)))
      else if !HasItems(b.items, orderId) then
        (b.(orders := b.orders[orderId - 1 := o.(status := OrderVoid)]),
         Some(Details(orderId, o.lotteryCode, o.issueCode, Some(o.userId), o.totalAmount, 0, OrderVoid)))
      else
        var total := OrderWin(b.items, orderId, sum);
        var status := if total > 0 then OrderWon else OrderLost;
        var users := if total > 0 then b.users[o.userId := User(b.users[o.userId].balance + total)] else b.users;
        (Books(b.orders[orderId - 1 := o.(status := status, winAmount := total)],
               SettleItems(b.items, orderId, sum, now),
               users),
         Some(Details(orderId, o.lotteryCode, o.issueCode, Some(o.userId), o.totalAmount, total, status)))
  }

  /** A missing order, or one not in status 1 or 3, is left alone: in
      particular an order settled once is not settled, nor credited, again. */
  lemma SettleOrderSkips(b: Books, orderId: int, sum: int, now: int)
    requires !(1 <= orderId <= |b.orders|) || !Settleable(b.orders[orderId - 1])
    ensures SettleOrder(b, orderId, sum, now) == (b, None)
  {
  }

  /** Settlement moves a settleable order out of the settleable statuses, so
      a second settlement, at any time and against any sum, changes nothing. */
  lemma SettleOrderOnce(b: Books, orderId: int, sum: int, now: int, sum': int, now': int)
    ensures var b' := SettleOrder(b, orderId, sum, now).0;
      SettleOrder(b', orderId, sum', now') == (b', None)
  {
    var b' := SettleOrder(b, orderId, sum, now).0;
    if 1 <= orderId <= |b.orders| && Settleable(b.orders[orderId - 1]) {
      assert |b'.orders| == |b.orders|;
      assert !Settleable(b'.orders[orderId - 1]);
    }
  }

  /** A missing user or an order without items voids the order; no item and
      no balance changes. */
  lemma SettleOrderVoids(b: Books, orderId: int, sum: int, now: int)
    requires 1 <= orderId <= |b.orders| && Settleable(b.orders[orderId - 1])
    requires b.orders[orderId - 1].userId !in b.users || !HasItems(b.items, orderId)
    ensures var b' := SettleOrder(b, orderId, sum, now).0;
      && b'.orders == b.orders[orderId - 1 := b.orders[orderId - 1].(status := OrderVoid)]
      && b'.items == b.items && b'.users == b.users
  {
  }

  /** A settled order: status 4 when the total win is positive and 5
      otherwise, the win recorded on the order, every item of the order
      evaluated, and the user's balance raised by exactly the total win
      (unchanged when the total is 0); no other user changes. */
  lemma SettleOrderPays(b: Books, orderId: int, sum: int, now: int)
    requires 1 <= orderId <= |b.orders| && Settleable(b.orders[orderId - 1])
    requires b.orders[orderId - 1].userId in b.users && HasItems(b.items, orderId)
    ensures var (b', d) := SettleOrder(b, orderId, sum, now);
      var o := b.orders[orderId - 1];
      var total := OrderWin(b.items, orderId, sum);
      && b'.orders == b.orders[orderId - 1 := o.(status := if total > 0 then OrderWon else OrderLost, winAmount := total)]
      && b'.items == SettleItems(b.items, orderId, sum, now)
      && o.userId in b'.users
      && b'.users[o.userId].balance == b.users[o.userId].balance + (if total > 0 then total else 0)
      && (forall u :: u in b.users && u != o.userId ==> u in b'.users && b'.users[u] == b.users[u])
      && b'.users.Keys == b.users.Keys
      && d == Some(Details(orderId, o.lotteryCode, o.issueCode, Some(o.userId), o.totalAmount, total, b'.orders[orderId - 1].status))
  {
  }

  /** Settling one order touches no other order, and no item of another order. */
  lemma SettleOrderFrame(b: Books, orderId: int, sum: int, now: int)
    ensures var b' := SettleOrder(b, orderId, sum, now).0;
      && |b'.orders| == |b.orders| && |b'.items| == |b.items|
      && (forall k :: 0 <= k < |b.orders| && k != orderId - 1 ==> b'.orders[k] == b.orders[k])
      && (forall k :: 0 <= k < |b.items| && b.items[k].orderId != orderId ==> b'.items[k] == b.items[k])
  {
    var b' := SettleOrder(b, orderId, sum, now).0;
    forall k | 0 <= k < |b.items| && b.items[k].orderId != orderId
      ensures b'.items[k] == b.items[k]
    {
      SettleItemsAt(b.items, orderId, sum, now, k);
    }
  }

  /** One item of the order: an item already settled is skipped, but its
      recorded win is returned; otherwise it becomes a hit with the payout or
      a miss with 0, stamped with the settlement time. */
  method SettleItem(it: OrderItem, sum: int, now: int) returns (settled: OrderItem, win: int)
    ensures settled == EvaluateItem(it, sum, now)
    ensures win == ItemWin(it, sum) == settled.winAmount
  {
    settled := it;
    if it.resultStatus == ItemHit || it.resultStatus == ItemMiss || it.resultStatus == ItemVoided {
      win := it.winAmount;
    } else {
      if IsHit(it.selection, sum) {
        win := Payout(it.stakeAmount, it.odds);
        settled := settled.(resultStatus := ItemHit, winAmount := win);
      } else {
        win := 0;
        settled := settled.(resultStatus := ItemMiss, winAmount := 0);
      }
      settled := settled.(settledAt := Some(now));
    }
  }

  /** The item loop of one settlement: every item of the order is evaluated
      in table order and the total win accumulated; already settled items
      are skipped but their recorded wins still count. */
  method SettleOrderItems(items: seq<OrderItem>, orderId: int, sum: int, now: int) returns (settled: seq<OrderItem>, totalWin: int)
    ensures settled == SettleItems(items, orderId, sum, now)
    ensures totalWin == OrderWin(items, orderId, sum)
  {
    settled := items;
    totalWin := 0;
    var j := 0;
    while j < |settled|
      invariant 0 <= j <= |items| == |settled|
      invariant settled == SettleItems(items[..j], orderId, sum, now) + items[j..]
      invariant totalWin == OrderWin(items[..j], orderId, sum)
    {
      SettleItemsStep(items, orderId, sum, now, j);
      if settled[j].orderId == orderId {
        var it, win := SettleItem(settled[j], sum, now);
        settled := settled[j := it];
        totalWin := totalWin + win;
      }
      j := j + 1;
    }
    assert items[..j] == items;
  }


  /** A round drawn 9, 8, 7 (sum 24) settles an order holding "big" with
      10.00 at odds 1.98 and the exact sum "7" with 5.00 at odds 26.00:
      the first item wins 19.80, the second loses, the order is paid with
      19.80 and the user's balance rises by 19.80. */
  lemma SettlementScenario(balance: int, now: int)
    ensures
      var big := OrderItem(1, 1, Big, 19800, 1000, ItemUnsettled, 0, None);
      var seven := OrderItem(1, 2, "7", 260000, 500, ItemUnsettled, 0, None);
      var order := Order(5, "cs28", "12345", 1500, OrderPending, 0, None, "h5");
      SettleOrder(Books([order], [big, seven], map[5 := User(balance)]), 1, 9 + 8 + 7, now)
        == (Books([order.(status := OrderWon, winAmount := 1980)],
                  [big.(resultStatus := ItemHit, winAmount := 1980, settledAt := Some(now)),
                   seven.(resultStatus := ItemMiss, winAmount := 0, settledAt := Some(now))],
                  map[5 := User(balance + 1980)]),
            Some(Details(1, "cs28", "12345", Some(5), 1500, 1980, OrderWon)))
  {
    var big := OrderItem(1, 1, Big, 19800, 1000, ItemUnsettled, 0, None);
    var seven := OrderItem(1, 2, "7", 260000, 500, ItemUnsettled, 0, None);
    var order := Order(5, "cs28", "12345", 1500, OrderPending, 0, None, "h5");
    ScenarioItems(big, seven, now);
    SettleOnlyOrder(order, [big, seven], balance, 24, now);
  }

  /** A book holding one settleable order of its user's and that order's
      items is paid when the total win is positive. */
  lemma SettleOnlyOrder(order: Order, items: seq<OrderItem>, balance: int, sum: int, now: int)
    requires Settleable(order) && items != [] && items[0].orderId == 1
    requires OrderWin(items, 1, sum) > 0
    ensures var total := OrderWin(items, 1, sum);
      SettleOrder(Books([order], items, map[order.userId := User(balance)]), 1, sum, now)
        == (Books([order.(status := OrderWon, winAmount := total)],
                  SettleItems(items, 1, sum, now),
                  map[order.userId := User(balance + total)]),
            Some(Details(1, order.lotteryCode, order.issueCode, Some(order.userId), order.totalAmount, total, OrderWon)))
  {
    var total := OrderWin(items, 1, sum);
    var users := map[order.userId := User(balance)];
    assert HasItems(items, 1);
    assert [order][0 := order.(status := OrderWon, winAmount := total)] == [order.(status := OrderWon, winAmount := total)];
    assert users[order.userId := User(users[order.userId].balance + total)] == map[order.userId := User(balance + total)];
  }

  lemma ScenarioItems(big: OrderItem, seven: OrderItem, now: int)
    requires big == OrderItem(1, 1, Big, 19800, 1000, ItemUnsettled, 0, None)
    requires seven == OrderItem(1, 2, "7", 260000, 500, ItemUnsettled, 0, None)
    ensures OrderWin([big, seven], 1, 24) == 1980
    ensures SettleItems([big, seven], 1, 24, now)
      == [big.(resultStatus := ItemHit, winAmount := 1980, settledAt := Some(now)),
          seven.(resultStatus := ItemMiss, winAmount := 0, settledAt := Some(now))]
  {
    TwoItemsSettle(big, seven, 1, 24, now);
    ScenarioBig(big, now);
    ScenarioSeven(seven, now);
  }

  /** An order with two items: both are evaluated and their wins add up. */
  lemma TwoItemsSettle(a: OrderItem, b: OrderItem, orderId: int, sum: int, now: int)
    requires a.orderId == orderId && b.orderId == orderId
    ensures OrderWin([a, b], orderId, sum) == ItemWin(a, sum) + ItemWin(b, sum)
    ensures SettleItems([a, b], orderId, sum, now) == [EvaluateItem(a, sum, now), EvaluateItem(b, sum, now)]
  {
    var items := [a, b];
    SettleItemsStep(items, orderId, sum, now, 0);
    SettleItemsStep(items, orderId, sum, now, 1);
    assert items[..0] == [] && items[..2] == items;
  }

  lemma ScenarioBig(big: OrderItem, now: int)
    requires big == OrderItem(1, 1, Big, 19800, 1000, ItemUnsettled, 0, None)
    ensures EvaluateItem(big, 24, now) == big.(resultStatus := ItemHit, winAmount := 1980, settledAt := Some(now))
    ensures ItemWin(big, 24) == 1980
  {
    BigRule(24);
    PayoutExact(1000, 19800, 1980);
  }

  lemma ScenarioSeven(seven: OrderItem, now: int)
    requires seven == OrderItem(1, 2, "7", 260000, 500, ItemUnsettled, 0, None)
    ensures EvaluateItem(seven, 24, now) == seven.(resultStatus := ItemMiss, winAmount := 0, settledAt := Some(now))
    ensures ItemWin(seven, 24) == 0
  {
    ExactSelectionHits(7, 24);
    assert NatToString(7) == "7";
  }

  /** Settlement of one order in the store: the order row is locked, its
      user and items are read, the items are evaluated one by one while the
      total win is accumulated, then the order and the user's balance are
      written. The wallet table, where bets were debited, is not touched. */
  method SettleOneOrder(db: Db, orderId: int, sum: int, now: int) returns (details: Option<Details>)
    modifies db
    ensures (BooksOf(db), details) == SettleOrder(old(BooksOf(db)), orderId, sum, now)
    ensures db.wallets == old(db.wallets) && db.ledger == old(db.ledger)
    ensures db.issues == old(db.issues) && db.lotteries == old(db.lotteries)
  {
    if !(1 <= orderId <= |db.orders|) {
      return None;
    }
    var order := db.orders[orderId - 1];
    if order.status != OrderSubmitted && order.status != OrderPending {
      return None;
    }
    if order.userId !in db.users {
      db.orders := db.orders[orderId - 1 := order.(status := OrderVoid)];
      return Some(Details(orderId, order.lotteryCode, order.issueCode, None, order.totalAmount, 0, OrderVoid));
    }
    var user := db.users[order.userId];
    if !HasItems(db.items, orderId) {
      db.orders := db.orders[orderId - 1 := order.(status := OrderVoid)];
      return Some(Details(orderId, order.lotteryCode, order.issueCode, Some(order.userId), order.totalAmount, 0, OrderVoid));
    }

    var items, totalWin := SettleOrderItems(db.items, orderId, sum, now);
    db.items := items;

    var status := if totalWin > 0 then OrderWon else OrderLost;
    // q2 of a whole number of cents is that number of cents
    RoundHalfUpExact(totalWin, 1);
    db.orders := db.orders[orderId - 1 := order.(status := status, winAmount := RoundHalfUp(totalWin, 1))];
    if totalWin > 0 {
      db.users := db.users[order.userId := user.(balance := user.balance + totalWin)];
    }
    return Some(Details(orderId, order.lotteryCode, order.issueCode, Some(order.userId), order.totalAmount, totalWin, status));
  }

  // ------------------------------------------------------------ the batch

  /** The ids of the settleable orders, ascending. */
  function SettleableIds(orders: seq<Order>): (ids: seq<int>)
    ensures forall i :: 0 <= i < |ids| ==> 1 <= ids[i] <= |orders| && Settleable(orders[ids[i] - 1])
    ensures forall i, j :: 0 <= i < j < |ids| ==> ids[i] < ids[j]
    ensures forall id :: 1 <= id <= |orders| && Settleable(orders[id - 1]) ==> id in ids
  {
    if orders == [] then []
    else
      var prev := SettleableIds(orders[..|orders| - 1]);
      assert forall i :: 0 <= i < |prev| ==> orders[..|orders| - 1][prev[i] - 1] == orders[prev[i] - 1];
      if Settleable(orders[|orders| - 1]) then prev + [|orders|] else prev
  }

  /** One row of the batch's read phase: an order id and its round. */
  datatype Candidate = Candidate(orderId: int, key: RoundKey)

  /** The read phase: orders in status 1 or 3, by ascending id, at most
      BatchLimit of them. */
  function Candidates(orders: seq<Order>): (rows: seq<Candidate>)
    ensures |rows| <= BatchLimit
  {
    var ids := Take(SettleableIds(orders), BatchLimit);
    seq(|ids|, i requires 0 <= i < |ids| =>
      var id := ids[i];
      assert id in SettleableIds(orders);
      Candidate(id, RoundKey(orders[id - 1].lotteryCode, orders[id - 1].issueCode)))
  }

  /** Row i of the read phase is the i-th settleable order. */
  lemma CandidateIds(orders: seq<Order>)
    ensures var rows := Candidates(orders);
      && |rows| <= |SettleableIds(orders)|
      && forall i :: 0 <= i < |rows| ==> rows[i].orderId == SettleableIds(orders)[i]
  {
  }

  /** Each row the batch reads is a settleable order, with its own round. */
  lemma CandidatesAreSettleable(orders: seq<Order>)
    ensures var rows := Candidates(orders);
      forall i :: 0 <= i < |rows| ==>
        && 1 <= rows[i].orderId <= |orders| && Settleable(orders[rows[i].orderId - 1])
        && rows[i].key == RoundKey(orders[rows[i].orderId - 1].lotteryCode, orders[rows[i].orderId - 1].issueCode)
  {
    CandidateIds(orders);
  }

  /** The rows come by ascending order id. */
  lemma CandidatesAscend(orders: seq<Order>)
    ensures var rows := Candidates(orders);
      forall i, j :: 0 <= i < j < |rows| ==> rows[i].orderId < rows[j].orderId
  {
    CandidateIds(orders);
  }

  /** The batch takes the oldest settleable orders: a settleable order left
      out has a larger id than every row taken. */
  lemma CandidatesAreOldest(orders: seq<Order>)
    ensures var rows := Candidates(orders);
      forall k :: 0 <= k < |orders| && Settleable(orders[k]) && (forall i :: 0 <= i < |rows| ==> rows[i].orderId != k + 1) ==>
        forall i :: 0 <= i < |rows| ==> rows[i].orderId <= k
  {
    var all := SettleableIds(orders);
    var rows := Candidates(orders);
    CandidateIds(orders);
    forall k | 0 <= k < |orders| && Settleable(orders[k]) && (forall i :: 0 <= i < |rows| ==> rows[i].orderId != k + 1)
      ensures forall i :: 0 <= i < |rows| ==> rows[i].orderId <= k
    {
      assert orders[k + 1 - 1] == orders[k];
      assert k + 1 in all;
      var p :| 0 <= p < |all| && all[p] == k + 1;
      assert p >= |rows|;
    }
  }

  /** The write phase over the rows read: every row whose round has a sum is
      settled in turn, row i at the time clock(i) read inside its own
      transaction; rows whose round has none are skipped. */
  function SettleBatch(b: Books, rows: seq<Candidate>, resolve: RoundKey -> Option<int>, clock: nat -> int): (r: Books)
    ensures |r.orders| == |b.orders|
  {
    if rows == [] then b
    else
      var prev := SettleBatch(b, rows[..|rows| - 1], resolve, clock);
      var row := rows[|rows| - 1];
      match resolve(row.key)
      case None => prev
      case Some(sum) => SettleOrder(prev, row.orderId, sum, clock(|rows| - 1)).0
  }

  /** What a batch leaves alone: the number of orders, every order it did
      not read, and every order it read whose round has no sum yet. */
  lemma {:induction false} SettleBatchFrame(b: Books, rows: seq<Candidate>, resolve: RoundKey -> Option<int>, clock: nat -> int)
    ensures var b' := SettleBatch(b, rows, resolve, clock);
      forall k :: 0 <= k < |b.orders| && (forall i :: 0 <= i < |rows| ==> rows[i].orderId != k + 1) ==>
        b'.orders[k] == b.orders[k]
  {
    if rows != [] {
      var init := rows[..|rows| - 1];
      var row := rows[|rows| - 1];
      SettleBatchFrame(b, init, resolve, clock);
      var prev := SettleBatch(b, init, resolve, clock);
      assert forall i :: 0 <= i < |init| ==> init[i] == rows[i];
      if resolve(row.key).Some? {
        SettleOrderFrame(prev, row.orderId, resolve(row.key).value, clock(|rows| - 1));
      }
    }
  }

  /** A row whose round has no sum yet leaves its order as it is. */
  lemma {:induction false} SettleBatchWaits(b: Books, rows: seq<Candidate>, resolve: RoundKey -> Option<int>, clock: nat -> int)
    requires forall i, j :: 0 <= i < j < |rows| ==> rows[i].orderId != rows[j].orderId
    ensures var b' := SettleBatch(b, rows, resolve, clock);
      forall i :: 0 <= i < |rows| && resolve(rows[i].key).None? && 1 <= rows[i].orderId <= |b.orders| ==>
        b'.orders[rows[i].orderId - 1] == b.orders[rows[i].orderId - 1]
  {
    if rows != [] {
      var init := rows[..|rows| - 1];
      var row := rows[|rows| - 1];
      SettleBatchWaits(b, init, resolve, clock);
      SettleBatchFrame(b, init, resolve, clock);
      var prev := SettleBatch(b, init, resolve, clock);
      assert forall i :: 0 <= i < |init| ==> init[i] == rows[i];
      if resolve(row.key).Some? {
        SettleOrderFrame(prev, row.orderId, resolve(row.key).value, clock(|rows| - 1));
      }
    }
  }

  /** An order the batch read whose round has a sum is no longer settleable
      afterwards (it was settled by this batch, or it was not settleable to
      begin with). */
  lemma {:induction false} SettleBatchSettles(b: Books, rows: seq<Candidate>, resolve: RoundKey -> Option<int>, clock: nat -> int)
    requires forall i, j :: 0 <= i < j < |rows| ==> rows[i].orderId != rows[j].orderId
    ensures var b' := SettleBatch(b, rows, resolve, clock);
      forall i :: 0 <= i < |rows| && resolve(rows[i].key).Some? && 1 <= rows[i].orderId <= |b.orders| ==>
        !Settleable(b'.orders[rows[i].orderId - 1]) || !Settleable(b.orders[rows[i].orderId - 1])
  {
    if rows != [] {
      var n := |rows| - 1;
      var init := rows[..n];
      var row := rows[n];
      SettleBatchSettles(b, init, resolve, clock);
      var prev := SettleBatch(b, init, resolve, clock);
      var b' := SettleBatch(b, rows, resolve, clock);
      assert b' == if resolve(row.key).None? then prev else SettleOrder(prev, row.orderId, resolve(row.key).value, clock(n)).0;
      forall i | 0 <= i < |rows| && resolve(rows[i].key).Some? && 1 <= rows[i].orderId <= |b.orders|
        ensures !Settleable(b'.orders[rows[i].orderId - 1]) || !Settleable(b.orders[rows[i].orderId - 1])
      {
        var id := rows[i].orderId;
        if i < n {
          assert init[i] == rows[i];
          if resolve(row.key).Some? {
            SettleOrderFrame(prev, row.orderId, resolve(row.key).value, clock(n));
          }
        } else {
          var sum := resolve(row.key).value;
          SettleBatchFrame(b, init, resolve, clock);
          assert prev.orders[id - 1] == b.orders[id - 1];
          SettleOrderOnce(prev, id, sum, clock(n), sum, clock(n));
        }
      }
    }
  }

  /** The row an order ends with after the batch is what settling it
      would give in the state the earlier rows leave, at its own clock
      reading; those earlier rows never touch it. */
  lemma {:induction false} SettleBatchRow(b: Books, rows: seq<Candidate>, resolve: RoundKey -> Option<int>, clock: nat -> int, i: nat)
    requires forall i, j :: 0 <= i < j < |rows| ==> rows[i].orderId != rows[j].orderId
    requires i < |rows| && resolve(rows[i].key).Some? && 1 <= rows[i].orderId <= |b.orders|
    ensures var id, prev := rows[i].orderId, SettleBatch(b, rows[..i], resolve, clock);
      && prev.orders[id - 1] == b.orders[id - 1]
      && SettleBatch(b, rows, resolve, clock).orders[id - 1]
         == SettleOrder(prev, id, resolve(rows[i].key).value, clock(i)).0.orders[id - 1]
  {
    var n := |rows| - 1;
    var init := rows[..n];
    var id := rows[i].orderId;
    SettleBatchFrame(b, rows[..i], resolve, clock);
    if i < n {
      assert init[..i] == rows[..i];
      assert init[i] == rows[i];
      SettleBatchRow(b, init, resolve, clock, i);
      var row := rows[n];
      if resolve(row.key).Some? {
        SettleOrderFrame(SettleBatch(b, init, resolve, clock), row.orderId, resolve(row.key).value, clock(n));
      }
    } else {
      assert init == rows[..i];
    }
  }

  /** The batch over one more row. */
  lemma SettleBatchStep(b: Books, rows: seq<Candidate>, i: nat, resolve: RoundKey -> Option<int>, clock: nat -> int)
    requires i < |rows|
    ensures SettleBatch(b, rows[..i + 1], resolve, clock)
      == if resolve(rows[i].key).None? then SettleBatch(b, rows[..i], resolve, clock)
         else SettleOrder(SettleBatch(b, rows[..i], resolve, clock), rows[i].orderId, resolve(rows[i].key).value, clock(i)).0
  {
    assert rows[..i + 1][..i] == rows[..i];
  }

  /** The sum of each round the rows name, looked up once per round. */
  method ResolveRounds(rows: seq<Candidate>, resolve: RoundKey -> Option<int>) returns (pairs: map<RoundKey, Option<int>>)
    ensures forall k :: 0 <= k < |rows| ==> rows[k].key in pairs && pairs[rows[k].key] == resolve(rows[k].key)
  {
    pairs := map[];
    var i := 0;
    while i < |rows|
      invariant 0 <= i <= |rows|
      invariant forall k :: 0 <= k < i ==> rows[k].key in pairs
      invariant forall key :: key in pairs ==> pairs[key] == resolve(key)
    {
      if rows[i].key !in pairs {
        pairs := pairs[rows[i].key := resolve(rows[i].key)];
      }
      i := i + 1;
    }
  }

  /** The write phase: each row in turn, in its own transaction at its own
      clock reading, with the sums looked up in the read phase. */
  method SettleRows(db: Db, rows: seq<Candidate>, pairs: map<RoundKey, Option<int>>,
                    resolve: RoundKey -> Option<int>, clock: nat -> int)
    requires forall k :: 0 <= k < |rows| ==> rows[k].key in pairs && pairs[rows[k].key] == resolve(rows[k].key)
    modifies db
    ensures BooksOf(db) == SettleBatch(old(BooksOf(db)), rows, resolve, clock)
    ensures db.wallets == old(db.wallets) && db.ledger == old(db.ledger)
    ensures db.issues == old(db.issues) && db.lotteries == old(db.lotteries)
  {
    ghost var b0 := BooksOf(db);
    var i := 0;
    while i < |rows|
      invariant 0 <= i <= |rows|
      invariant BooksOf(db) == SettleBatch(b0, rows[..i], resolve, clock)
      invariant db.wallets == old(db.wallets) && db.ledger == old(db.ledger)
      invariant db.issues == old(db.issues) && db.lotteries == old(db.lotteries)
    {
      SettleBatchStep(b0, rows, i, resolve, clock);
      var row := rows[i];
      var sum := pairs[row.key];
      if sum.Some? {
        var _ := SettleOneOrder(db, row.orderId, sum.value, clock(i));
      }
      i := i + 1;
    }
    assert rows[..i] == rows;
  }

  /** One settlement cycle: read the candidate orders, resolve the sum of
      each distinct round once, then settle each order whose round has a
      sum, one transaction per order, in ascending id. */
  method SettleOrdersOnce(db: Db, resolve: RoundKey -> Option<int>, clock: nat -> int)
    modifies db
    ensures BooksOf(db) == SettleBatch(old(BooksOf(db)), Candidates(old(db.orders)), resolve, clock)
    ensures db.wallets == old(db.wallets) && db.ledger == old(db.ledger)
    ensures db.issues == old(db.issues) && db.lotteries == old(db.lotteries)
  {
    var rows := Candidates(db.orders);
    if |rows| == 0 {
      return;
    }

    var pairs := ResolveRounds(rows, resolve);
    SettleRows(db, rows, pairs, resolve, clock);
  }
}
