/** Start-up work: the default lottery row, and the warm-up that rebuilds a
    lottery's history list and last result in the cache from the stored
    drawn rounds. */
module Bootstrap {
  import opened Common
  import opened Store
  import IssueService

  /** The warm-up size the application passes at start-up. */
  const WarmupLimit := 200

  // ------------------------------------------------------------ the default lottery

  /** The lottery row created when the configured one is missing. */
  function DefaultLottery(name: string, periodSeconds: int): Lottery {
    Lottery(name, Some(periodSeconds), Some(3), 1, "Asia/Shanghai")
  }

  /** The lottery table once the configured lottery is ensured. */
  function WithDefaultLottery(lotteries: map<string, Lottery>, code: string, name: string, periodSeconds: int)
    : map<string, Lottery>
  {
    if code in lotteries then lotteries else lotteries[code := DefaultLottery(name, periodSeconds)]
  }

  /** Ensuring the lottery never overwrites an existing row, always leaves
      the code present with lock-ahead 3 and status 1 when it creates it,
      and a second time changes nothing. */
  lemma WithDefaultLotteryProperties(lotteries: map<string, Lottery>, code: string, name: string, periodSeconds: int)
    ensures var l := WithDefaultLottery(lotteries, code, name, periodSeconds);
      && code in l
      && (code in lotteries ==> l == lotteries)
      && (code !in lotteries ==> l[code].lockAheadSeconds == Some(3) && l[code].status == 1
                                 && l[code].periodSeconds == Some(periodSeconds))
      && (forall c :: c in lotteries ==> c in l && l[c] == lotteries[c])
      && l.Keys == lotteries.Keys + {code}
      && WithDefaultLottery(l, code, name, periodSeconds) == l
  {
  }

  /** Read the configured lottery, inserting the default row when missing. */
  method EnsureDefaultLottery(db: Db, code: string, name: string, periodSeconds: int) returns (lot: Lottery)
    modifies db
    ensures db.lotteries == WithDefaultLottery(old(db.lotteries), code, name, periodSeconds)
    ensures lot == db.lotteries[code]
    ensures db.orders == old(db.orders) && db.items == old(db.items) && db.users == old(db.users)
    ensures db.wallets == old(db.wallets) && db.ledger == old(db.ledger) && db.issues == old(db.issues)
  {
    if code in db.lotteries {
      lot := db.lotteries[code];
    } else {
      lot := DefaultLottery(name, periodSeconds);
      db.lotteries := db.lotteries[code := lot];
    }
  }

  // ------------------------------------------------------------ the warm-up query

  /** The rows the warm-up reads: the lottery's rounds with status 3 or more. */
  predicate Eligible(row: Issue, code: string) {
    row.lotteryCode == code && row.status >= IssueDrawn
  }

  /** Rows of the issue table, each one at most once. */
  predicate StoredRows(issues: map<RoundKey, Issue>, code: string, rows: seq<Issue>) {
    && (forall i :: 0 <= i < |rows| ==>
          Eligible(rows[i], code) && KeyOf(rows[i]) in issues && issues[KeyOf(rows[i])] == rows[i])
    && (forall i, j :: 0 <= i < j < |rows| ==> KeyOf(rows[i]) != KeyOf(rows[j]))
  }

  /** What the query returns as written: eligible rows by ascending open
      time, at most limit of them, and when limit cuts the result, every row
      left out opens no earlier than every row taken: the oldest rows. */
  predicate OldestDrawn(issues: map<RoundKey, Issue>, code: string, limit: nat, rows: seq<Issue>) {
    && |rows| <= limit
    && StoredRows(issues, code, rows)
    && (forall i, j :: 0 <= i < j < |rows| ==> rows[i].openTime <= rows[j].openTime)
    && (forall k :: k in issues && Eligible(issues[k], code) && issues[k] !in rows ==>
          |rows| == limit && forall i :: 0 <= i < |rows| ==> rows[i].openTime <= issues[k].openTime)
  }

  /** What the query should return: eligible rows by descending open time,
      the newest ones when limit cuts the result. */
  predicate NewestDrawn(issues: map<RoundKey, Issue>, code: string, limit: nat, rows: seq<Issue>) {
    && |rows| <= limit
    && StoredRows(issues, code, rows)
    && (forall i, j :: 0 <= i < j < |rows| ==> rows[i].openTime >= rows[j].openTime)
    && (forall k :: k in issues && Eligible(issues[k], code) && issues[k] !in rows ==>
          |rows| == limit && forall i :: 0 <= i < |rows| ==> rows[i].openTime >= issues[k].openTime)
  }

  // ------------------------------------------------------------ the history it builds

  /** The payload entries of rows, in the same order. */
  function Payloads(rows: seq<Issue>, codec: TimeCodec): (r: seq<Entry>)
    ensures |r| == |rows|
    ensures forall i :: 0 <= i < |rows| ==> r[i] == Record(HistoryPayload(rows[i], codec))
  {
    if rows == [] then [] else Payloads(rows[..|rows| - 1], codec) + [Record(HistoryPayload(rows[|rows| - 1], codec))]
  }

  lemma PayloadsCons(rows: seq<Issue>, codec: TimeCodec)
    requires rows != []
    ensures Payloads(rows, codec) == [Record(HistoryPayload(rows[0], codec))] + Payloads(rows[1..], codec)
  {
    var l, r := Payloads(rows, codec), [Record(HistoryPayload(rows[0], codec))] + Payloads(rows[1..], codec);
    assert |l| == |r|;
    forall i | 0 <= i < |l| ensures l[i] == r[i] {
      if i > 0 { assert r[i] == Payloads(rows[1..], codec)[i - 1]; }
    }
  }

  /** One push of the intended warm-up, from the rows after i to the rows from i. */
  lemma PushFront(history0: map<string, seq<Entry>>, history: map<string, seq<Entry>>, code: string,
                  rows: seq<Issue>, i: nat, codec: TimeCodec)
    requires i < |rows|
    requires history == WarmHistory(history0, code, Payloads(rows[i + 1..], codec))
    ensures history[code := [Record(HistoryPayload(rows[i], codec))] + ListAt(history, code)]
         == WarmHistory(history0, code, Payloads(rows[i..], codec))
  {
    PayloadsCons(rows[i..], codec);
    assert rows[i..][1..] == rows[i + 1..];
    WarmPush(history0, history, code, Payloads(rows[i + 1..], codec), Record(HistoryPayload(rows[i], codec)));
  }

  function Reverse<T>(s: seq<T>): (r: seq<T>)
    ensures |r| == |s|
    ensures forall i :: 0 <= i < |s| ==> r[i] == s[|s| - 1 - i]
  {
    if s == [] then [] else [s[|s| - 1]] + Reverse(s[..|s| - 1])
  }

  /** LPUSH of each row in turn: the list ends up in the reverse order of
      the rows, the last row pushed at the head. */
  function PushedList(rows: seq<Issue>, codec: TimeCodec): seq<Entry> {
    Reverse(Payloads(rows, codec))
  }

  /** The history key after the warm-up: deleted, then one push per row (a
      key with no pushes stays deleted). */
  function WarmHistory(history: map<string, seq<Entry>>, code: string, list: seq<Entry>): map<string, seq<Entry>> {
    if list == [] then history - {code} else history[code := list]
  }

  /** One push of the warm-up as written, from the rows before i to the rows
      up to and including i. */
  lemma PushBack(history0: map<string, seq<Entry>>, history: map<string, seq<Entry>>, code: string,
                 rows: seq<Issue>, i: nat, codec: TimeCodec)
    requires i < |rows|
    requires history == WarmHistory(history0, code, PushedList(rows[..i], codec))
    ensures history[code := [Record(HistoryPayload(rows[i], codec))] + ListAt(history, code)]
         == WarmHistory(history0, code, PushedList(rows[..i + 1], codec))
  {
    PushedListSnoc(rows, i, codec);
    WarmPush(history0, history, code, PushedList(rows[..i], codec), Record(HistoryPayload(rows[i], codec)));
  }

  lemma PushedListSnoc(rows: seq<Issue>, i: nat, codec: TimeCodec)
    requires i < |rows|
    ensures PushedList(rows[..i + 1], codec) == [Record(HistoryPayload(rows[i], codec))] + PushedList(rows[..i], codec)
  {
    var entry := Record(HistoryPayload(rows[i], codec));
    assert rows[..i + 1][..i] == rows[..i];
    assert Payloads(rows[..i + 1], codec) == Payloads(rows[..i], codec) + [entry];
    ReverseSnoc(Payloads(rows[..i], codec), entry);
  }

  /** An LPUSH onto the key of a warmed history. */
  lemma WarmPush(history0: map<string, seq<Entry>>, history: map<string, seq<Entry>>, code: string,
                 list: seq<Entry>, e: Entry)
    requires history == WarmHistory(history0, code, list)
    ensures history[code := [e] + ListAt(history, code)] == WarmHistory(history0, code, [e] + list)
  {
    assert ListAt(history, code) == list;
  }

  lemma ReverseSnoc<T>(s: seq<T>, x: T)
    ensures Reverse(s + [x]) == [x] + Reverse(s)
  {
    assert (s + [x])[..|s|] == s;
  }

  /** LPUSH of the payload of each row in turn onto a deleted history key;
      last is the payload pushed last, if any. */
  method PushRows(cache: Cache, code: string, rows: seq<Issue>, codec: TimeCodec) returns (last: Option<Entry>)
    modifies cache
    ensures cache.history == WarmHistory(old(cache.history), code, PushedList(rows, codec))
    ensures last == (if rows == [] then None else Some(Record(HistoryPayload(rows[|rows| - 1], codec))))
    ensures cache.lastResult == old(cache.lastResult) && cache.currentIssue == old(cache.currentIssue)
  {
    cache.history := cache.history - {code};
    last := None;
    var i := 0;
    while i < |rows|
      invariant 0 <= i <= |rows|
      invariant cache.history == WarmHistory(old(cache.history), code, PushedList(rows[..i], codec))
      invariant last == (if i == 0 then None else Some(Record(HistoryPayload(rows[i - 1], codec))))
      invariant cache.lastResult == old(cache.lastResult) && cache.currentIssue == old(cache.currentIssue)
    {
      var entry := Record(HistoryPayload(rows[i], codec));
      PushBack(old(cache.history), cache.history, code, rows, i, codec);
      cache.history := cache.history[code := [entry] + ListAt(cache.history, code)];
      last := Some(entry);
      i := i + 1;
    }
    assert rows[..i] == rows;
  }

  /** The warm-up as written: delete the history key, LPUSH the payload of
      each row the query returned, in that order, and set the last result
      to the last payload pushed, if any. */
  method WarmupRedisFromDb(db: Db, cache: Cache, code: string, limit: nat, rows: seq<Issue>, codec: TimeCodec)
    requires OldestDrawn(db.issues, code, limit, rows)
    modifies cache
    ensures cache.history == WarmHistory(old(cache.history), code, PushedList(rows, codec))
    ensures rows != [] ==> cache.lastResult == old(cache.lastResult)[code := Record(HistoryPayload(rows[|rows| - 1], codec))]
    ensures rows == [] ==> cache.lastResult == old(cache.lastResult)
    ensures cache.currentIssue == old(cache.currentIssue)
  {
    var last := PushRows(cache, code, rows, codec);
    if last.Some? {
      cache.lastResult := cache.lastResult[code := last.value];
    }
  }

  /** The head of the list built from the ascending rows is the newest of
      the rows read, and the last result is that same entry. */
  lemma PushedListHead(rows: seq<Issue>, codec: TimeCodec)
    requires rows != []
    ensures PushedList(rows, codec)[0] == Record(HistoryPayload(rows[|rows| - 1], codec))
    ensures PushedList(rows, codec)[|rows| - 1] == Record(HistoryPayload(rows[0], codec))
  {
  }

  // ------------------------------------------------------------ the counterexample

  function ExampleRound(issueCode: string, openTime: int): Issue {
    Issue("jnd28", issueCode, openTime, Some(openTime - 3), IssueDrawn, 1, 2, 3, 6, 2, 2, 0, "")
  }

  /** Two drawn rounds, opened at 100 and 200. */
  function TwoRounds(): map<RoundKey, Issue> {
    map[RoundKey("jnd28", "1") := ExampleRound("1", 100),
        RoundKey("jnd28", "2") := ExampleRound("2", 200)]
  }

  /** With two drawn rounds and a limit of one, the query as written can only
      return the older round, so the warm-up puts the round opened at 100 at
      the head of the history and in the last result, although the round
      opened at 200 is stored and drawn. */
  lemma WarmupLoadsOldest(rows: seq<Issue>, codec: TimeCodec)
    requires OldestDrawn(TwoRounds(), "jnd28", 1, rows)
    ensures rows == [ExampleRound("1", 100)]
    ensures PushedList(rows, codec)[0] == Record(HistoryPayload(ExampleRound("1", 100), codec))
    ensures Eligible(ExampleRound("2", 200), "jnd28") && ExampleRound("2", 200) !in rows
  {
    var issues := TwoRounds();
    var k1, k2 := RoundKey("jnd28", "1"), RoundKey("jnd28", "2");
    var r1, r2 := ExampleRound("1", 100), ExampleRound("2", 200);
    assert issues[k1] == r1 && issues[k2] == r2;
    if rows == [] {
      assert false;
    }
    var x := rows[0];
    assert KeyOf(x) in issues;
    assert KeyOf(x) == k1 || KeyOf(x) == k2;
    if KeyOf(x) == k2 {
      assert false;
    }
    assert x == r1;
    assert rows == [r1];
  }

  // ------------------------------------------------------------ the intended warm-up

  /** The warm-up as its comments intend: the newest rows, the newest at the
      head of the list and in the last result. The rows come newest first,
      so they are pushed from the last to the first. */
  method WarmupRedisFromDbNewest(db: Db, cache: Cache, code: string, limit: nat, rows: seq<Issue>, codec: TimeCodec)
    requires NewestDrawn(db.issues, code, limit, rows)
    modifies cache
    ensures cache.history == WarmHistory(old(cache.history), code, Payloads(rows, codec))
    ensures rows != [] ==> cache.lastResult == old(cache.lastResult)[code := Record(HistoryPayload(rows[0], codec))]
    ensures rows == [] ==> cache.lastResult == old(cache.lastResult)
    ensures cache.currentIssue == old(cache.currentIssue)
  {
    cache.history := cache.history - {code};
    var i := |rows|;
    while i > 0
      invariant 0 <= i <= |rows|
      invariant cache.history == WarmHistory(old(cache.history), code, Payloads(rows[i..], codec))
      invariant cache.lastResult == old(cache.lastResult) && cache.currentIssue == old(cache.currentIssue)
    {
      i := i - 1;
      var entry := Record(HistoryPayload(rows[i], codec));
      PushFront(old(cache.history), cache.history, code, rows, i, codec);
      cache.history := cache.history[code := [entry] + ListAt(cache.history, code)];
    }
    assert rows[0..] == rows;
    if rows != [] {
      cache.lastResult := cache.lastResult[code := Record(HistoryPayload(rows[0], codec))];
    }
  }

  /** Either warm-up leaves a history list the incremental writer can take
      over: no longer than the 200 entries it trims to, and naming no round
      twice, so the invariant of its pushes holds from the start. */
  lemma WarmupListsStartHistory(issues: map<RoundKey, Issue>, code: string, limit: nat, rows: seq<Issue>, codec: TimeCodec)
    requires StoredRows(issues, code, rows) && |rows| <= limit <= IssueService.HistoryLimit
    ensures |PushedList(rows, codec)| <= IssueService.HistoryLimit && IssueService.UniqueRounds(PushedList(rows, codec))
    ensures |Payloads(rows, codec)| <= IssueService.HistoryLimit && IssueService.UniqueRounds(Payloads(rows, codec))
  {
    var n := |rows|;
    var oldest, newest := PushedList(rows, codec), Payloads(rows, codec);
    forall i, j | 0 <= i < j < n
      ensures EntryIssueCode(oldest[i]) != EntryIssueCode(oldest[j])
      ensures EntryIssueCode(newest[i]) != EntryIssueCode(newest[j])
    {
      // distinct keys under one lottery code are distinct issue codes
      assert KeyOf(rows[n - 1 - j]) != KeyOf(rows[n - 1 - i]);
      assert KeyOf(rows[i]) != KeyOf(rows[j]);
    }
  }

  /** The intended warm-up puts the newest drawn round of the lottery at the
      head: whenever the lottery has a drawn round and the limit is at least
      one, the list is not empty and its head opens no earlier than any
      drawn round of the lottery, loaded or not. */
  lemma NewestWarmupHeadIsLatest(issues: map<RoundKey, Issue>, code: string, limit: nat, rows: seq<Issue>,
                                 codec: TimeCodec, k: RoundKey)
    requires NewestDrawn(issues, code, limit, rows) && limit >= 1
    requires k in issues && Eligible(issues[k], code)
    ensures rows != []
    ensures Payloads(rows, codec)[0] == Record(HistoryPayload(rows[0], codec))
    ensures forall k' :: k' in issues && Eligible(issues[k'], code) ==> issues[k'].openTime <= rows[0].openTime
  {
    forall k' | k' in issues && Eligible(issues[k'], code)
      ensures issues[k'].openTime <= rows[0].openTime
    {
      if issues[k'] in rows {
        var i :| 0 <= i < |rows| && rows[i] == issues[k'];
        if i > 0 {
          assert rows[0].openTime >= rows[i].openTime;
        }
      }
    }
  }

  /** On the two-round example the intended warm-up loads the round opened
      at 200. */
  lemma NewestWarmupLoadsLatest(rows: seq<Issue>, codec: TimeCodec)
    requires NewestDrawn(TwoRounds(), "jnd28", 1, rows)
    ensures rows == [ExampleRound("2", 200)]
  {
    var issues := TwoRounds();
    var k1, k2 := RoundKey("jnd28", "1"), RoundKey("jnd28", "2");
    var r1, r2 := ExampleRound("1", 100), ExampleRound("2", 200);
    assert issues[k1] == r1 && issues[k2] == r2;
    if rows == [] {
      assert false;
    }
    var x := rows[0];
    assert KeyOf(x) in issues;
    assert KeyOf(x) == k1 || KeyOf(x) == k2;
    if KeyOf(x) == k1 {
      assert false;
    }
    assert x == r2;
    assert rows == [r2];
  }
}
