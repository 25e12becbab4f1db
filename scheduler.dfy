/** The periodic jobs around the draw feed: the collector, which turns one
    feed object into a stored round, a history entry and the next round's
    current-issue hash, and the refresh, which recomputes allow_bet. */
module Scheduler {
  import opened Common
  import opened Store
  import opened IssueService

  /** Seconds between rounds when the lottery has none (or 0). */
  const DefaultPeriod := 210

  // ------------------------------------------------------------ the feed object

  /** A scalar JSON value of the feed object. */
  datatype Json = JNull | JBool(b: bool) | JInt(i: int) | JStr(s: string)

  /** Python truthiness: null, false, 0 and "" are false. */
  predicate Truthy(v: Json) {
    match v
    case JNull => false
    case JBool(b) => b
    case JInt(i) => i != 0
    case JStr(s) => s != ""
  }

  /** str() of a value. */
  function PyStr(v: Json): string {
    match v
    case JNull => "None"
    case JBool(b) => if b then "True" else "False"
    case JInt(i) => IntToString(i)
    case JStr(s) => s
  }

  /** data.get(k1) or data.get(k2) or ...: the first truthy value among the
      keys, None when there is none. */
  function FirstTruthy(data: map<string, Json>, keys: seq<string>): (r: Option<Json>)
    ensures r.Some? ==> Truthy(r.value)
    ensures r.None? <==> forall k :: k in keys && k in data ==> !Truthy(data[k])
    ensures r.Some? ==> exists i :: (0 <= i < |keys| && keys[i] in data && r.value == data[keys[i]]
                                     && forall j :: 0 <= j < i ==> keys[j] !in data || !Truthy(data[keys[j]]))
  {
    if keys == [] then None
    else if keys[0] in data && Truthy(data[keys[0]]) then Some(data[keys[0]])
    else FirstTruthy(data, keys[1..])
  }

  /** A truthy value under the first key is the one read. */
  lemma FirstTruthyHead(data: map<string, Json>, keys: seq<string>)
    requires keys != [] && keys[0] in data && Truthy(data[keys[0]])
    ensures FirstTruthy(data, keys) == Some(data[keys[0]])
  {
  }

  /** str(data.get(k1) or ... or ""). */
  function FieldText(data: map<string, Json>, keys: seq<string>): (s: string)
    ensures s == "" <==> FirstTruthy(data, keys).None?
    ensures FirstTruthy(data, keys).Some? ==> s == PyStr(FirstTruthy(data, keys).value)
  {
    match FirstTruthy(data, keys)
    case None => ""
    case Some(v) =>
      assert v.JStr? ==> v.s != "";
      PyStr(v)
  }

  const IssueKeys := ["issue", "issueCode", "expect"]
  const NumsKeys := ["code", "nums", "opencode"]
  const OpenTimeKeys := ["openTime", "open_time", "opentime", "time"]

  /** The open time of the feed object: absent means now; a string is read
      in the fixed format, or failing that as ISO text with "Z" dropped and
      "T" turned into a space; a value that is not a string, or text neither
      reading accepts, aborts the job. */
  function ParseOpenTime(v: Option<Json>, now: int, codec: TimeCodec): Option<int> {
    match v
    case None => Some(now)
    case Some(JStr(s)) =>
      if codec.parseFixed(s).Some? then codec.parseFixed(s)
      else codec.parseIso(ReplaceChar(RemoveChar(s, 'Z'), 'T', ' '))
    case Some(_) => None
  }

  /** What the collector reads from the feed object. */
  datatype Draw = Draw(issueCode: string, n1: int, n2: int, n3: int, openTime: int)

  /** The feed object read as a draw: an issue code and a numbers text must
      both be present, the numbers text must split into at least three
      integers (the first three are used), and the open time must read. */
  function ParseDraw(data: map<string, Json>, now: int, codec: TimeCodec): (r: Option<Draw>)
    ensures r.Some? ==> r.value.issueCode != "" && FieldText(data, IssueKeys) == r.value.issueCode
    ensures r.Some? ==> ParseThree(FieldText(data, NumsKeys)) == Some((r.value.n1, r.value.n2, r.value.n3))
  {
    var issueCode := FieldText(data, IssueKeys);
    var nums := FieldText(data, NumsKeys);
    if issueCode == "" || nums == "" then None
    else match ParseThree(nums)
      case None => None
      case Some((n1, n2, n3)) =>
        match ParseOpenTime(FirstTruthy(data, OpenTimeKeys), now, codec)
        case None => None
        case Some(t) => Some(Draw(issueCode, n1, n2, n3, t))
  }

  /** The feed object in the expected shape: issue code text under "issue",
      numbers text under "code", open time text under "openTime". */
  function FeedObject(issueCode: string, nums: string, openTime: string): map<string, Json> {
    map["issue" := JStr(issueCode), "code" := JStr(nums), "openTime" := JStr(openTime)]
  }

  /** A non-empty string under the first key is the text read. */
  lemma FieldTextHead(data: map<string, Json>, keys: seq<string>, s: string)
    requires keys != [] && keys[0] in data && data[keys[0]] == JStr(s) && s != ""
    ensures FieldText(data, keys) == s
  {
    FirstTruthyHead(data, keys);
  }

  lemma FeedIssueCode(issueCode: string, nums: string, openTime: string)
    requires issueCode != ""
    ensures FieldText(FeedObject(issueCode, nums, openTime), IssueKeys) == issueCode
  {
    var data := FeedObject(issueCode, nums, openTime);
    assert IssueKeys[0] == "issue" && data["issue"] == JStr(issueCode);
    FieldTextHead(data, IssueKeys, issueCode);
  }

  lemma FeedNums(issueCode: string, nums: string, openTime: string)
    requires nums != ""
    ensures FieldText(FeedObject(issueCode, nums, openTime), NumsKeys) == nums
  {
    var data := FeedObject(issueCode, nums, openTime);
    assert NumsKeys[0] == "code" && data["code"] == JStr(nums);
    FieldTextHead(data, NumsKeys, nums);
  }

  lemma FeedOpenTime(issueCode: string, nums: string, openTime: string)
    requires openTime != ""
    ensures FirstTruthy(FeedObject(issueCode, nums, openTime), OpenTimeKeys) == Some(JStr(openTime))
  {
    var data := FeedObject(issueCode, nums, openTime);
    assert OpenTimeKeys[0] == "openTime" && data["openTime"] == JStr(openTime);
    FirstTruthyHead(data, OpenTimeKeys);
  }

  /** A feed object in the expected shape, with the numbers joined by commas
      and the open time in the fixed format, reads back as exactly that
      draw. */
  lemma ParseDrawOfFeed(issueCode: string, parts: seq<string>, n1: int, n2: int, n3: int,
                        t: int, now: int, codec: TimeCodec)
    requires RoundTrips(codec) && issueCode != "" && codec.format(t) != ""
    requires |parts| >= 3
    requires parts[0] == IntToString(n1) && parts[1] == IntToString(n2) && parts[2] == IntToString(n3)
    requires forall k :: 3 <= k < |parts| ==> ',' !in parts[k]
    ensures ParseDraw(FeedObject(issueCode, Join(parts, ','), codec.format(t)), now, codec)
         == Some(Draw(issueCode, n1, n2, n3, t))
  {
    var nums := Join(parts, ',');
    var data := FeedObject(issueCode, nums, codec.format(t));
    JoinHead(parts, ',');
    assert nums != "" by { assert |parts[0]| <= |nums|; }
    FeedIssueCode(issueCode, nums, codec.format(t));
    FeedNums(issueCode, nums, codec.format(t));
    ParseThreeOfJoin(parts, n1, n2, n3);
    FeedOpenTime(issueCode, nums, codec.format(t));
    assert ParseOpenTime(FirstTruthy(data, OpenTimeKeys), now, codec) == Some(t);
    ParseDrawOfFields(data, now, codec, issueCode, nums, n1, n2, n3, t);
  }

  lemma ParseDrawOfFields(data: map<string, Json>, now: int, codec: TimeCodec,
                          issueCode: string, nums: string, n1: int, n2: int, n3: int, t: int)
    requires FieldText(data, IssueKeys) == issueCode != ""
    requires FieldText(data, NumsKeys) == nums != ""
    requires ParseThree(nums) == Some((n1, n2, n3))
    requires ParseOpenTime(FirstTruthy(data, OpenTimeKeys), now, codec) == Some(t)
    ensures ParseDraw(data, now, codec) == Some(Draw(issueCode, n1, n2, n3, t))
  {
  }

  lemma JoinHead(parts: seq<string>, sep: char)
    requires |parts| >= 1
    ensures parts[0] <= Join(parts, sep)
  {
  }

  /** Without a numbers text, or without three integers in it, no draw is read. */
  lemma ParseDrawNeedsThreeNumbers(data: map<string, Json>, now: int, codec: TimeCodec)
    requires ParseThree(FieldText(data, NumsKeys)).None?
    ensures ParseDraw(data, now, codec).None?
  {
  }

  // ------------------------------------------------------------ the next round

  /** The issue code of the next round: a numeral is incremented (and
      written back without leading zeros), any other code is kept. */
  function NextIssueCode(issueCode: string): (r: string)
    ensures !IsDigits(issueCode) ==> r == issueCode
    ensures IsDigits(issueCode) ==> IsDigits(r) && DigitsValue(r) == DigitsValue(issueCode) + 1
  {
    if IsDigits(issueCode) then
      NatToStringRoundTrip(DigitsValue(issueCode) + 1);
      NatToString(DigitsValue(issueCode) + 1)
    else issueCode
  }

  /** The code of round n + 1 follows the code of round n. */
  lemma NextIssueCodeOfNumber(n: nat)
    ensures NextIssueCode(NatToString(n)) == NatToString(n + 1)
  {
    NatToStringRoundTrip(n);
  }

  /** The next round's open and close times, and whether betting on it is
      open at time now. */
  datatype NextRound = NextRound(openTime: int, closeTime: int, allowBet: bool)

  function NextRoundAfter(lot: Lottery, openTime: int, now: int): NextRound {
    var next := openTime + OrDefault(lot.periodSeconds, DefaultPeriod);
    var close := next - OrDefault(lot.lockAheadSeconds, DefaultLockAhead);
    NextRound(next, close, now < close)
  }

  /** When the period is longer than the lock-ahead (210 and 3 by default),
      the next round closes after the round just drawn and before it opens
      itself; a positive lock-ahead alone puts the close before the open. */
  lemma NextRoundTimes(lot: Lottery, openTime: int, now: int)
    ensures var r := NextRoundAfter(lot, openTime, now);
      && (OrDefault(lot.lockAheadSeconds, DefaultLockAhead) > 0 ==> r.closeTime < r.openTime)
      && (OrDefault(lot.periodSeconds, DefaultPeriod) > OrDefault(lot.lockAheadSeconds, DefaultLockAhead) > 0 ==>
            openTime < r.closeTime < r.openTime)
      && (lot.periodSeconds.None? && lot.lockAheadSeconds.None? ==> openTime < r.closeTime < r.openTime)
  {
  }

  /** A refresh at the same time as the collector's write changes nothing:
      the hash it wrote for the next round already holds the flag the
      refresh computes. */
  lemma RefreshAfterPublishIsIdle(hash: map<string, string>, lotteryCode: string, issueCode: string,
                                  lot: Lottery, openTime: int, now: int, codec: TimeCodec)
    requires RoundTrips(codec)
    ensures var next := NextRoundAfter(lot, openTime, now);
      var h := MergeHash(hash, CurrentIssueFields(lotteryCode, issueCode, next.openTime, next.closeTime, next.allowBet, codec));
      RefreshedHash(h, lotteryCode, now, codec) == h
  {
    var next := NextRoundAfter(lot, openTime, now);
    var h := MergeHash(hash, CurrentIssueFields(lotteryCode, issueCode, next.openTime, next.closeTime, next.allowBet, codec));
    RefreshOnlyMovesAllowBet(hash, lotteryCode, issueCode, next.openTime, next.closeTime, next.allowBet, now, codec);
    assert h["allow_bet"] == AllowBetText(now < next.closeTime);
    assert h["allow_bet" := AllowBetText(now < next.closeTime)] == h;
  }

  // ------------------------------------------------------------ the jobs

  /** The parsing steps of the collector, in the order it takes them. */
  method ReadFeed(data: map<string, Json>, now: int, codec: TimeCodec) returns (draw: Option<Draw>)
    ensures draw == ParseDraw(data, now, codec)
  {
    var issueCode := FieldText(data, IssueKeys);
    var nums := FieldText(data, NumsKeys);
    var openTimeValue := FirstTruthy(data, OpenTimeKeys);
    if issueCode == "" || nums == "" {
      return None;
    }
    var three := ParseThree(nums);
    if three.None? {
      return None;
    }
    var (n1, n2, n3) := three.value;
    var openTime := ParseOpenTime(openTimeValue, now, codec);
    if openTime.None? {
      return None;
    }
    return Some(Draw(issueCode, n1, n2, n3, openTime.value));
  }

  /** The writing steps of the collector for a draw it has read: upsert the
      round row (nothing is written when the lottery is missing), publish
      its payload to the history list and last result, and write the next
      round's current-issue hash. */
  method PublishDraw(db: Db, cache: Cache, lotteryCode: string, d: Draw, rawJson: string, now: int, codec: TimeCodec)
    returns (published: bool)
    requires KeyedByRound(db.issues)
    modifies db, cache
    ensures KeyedByRound(db.issues)
    ensures published <==> lotteryCode in old(db.lotteries)
    ensures !published ==>
      && db.issues == old(db.issues)
      && cache.history == old(cache.history) && cache.lastResult == old(cache.lastResult)
      && cache.currentIssue == old(cache.currentIssue)
    ensures published ==>
      var lot := old(db.lotteries)[lotteryCode];
      var row := DrawnIssue(lot, lotteryCode, d.issueCode, d.n1, d.n2, d.n3, d.openTime, rawJson);
      var next := NextRoundAfter(lot, d.openTime, now);
      && db.issues == old(db.issues)[RoundKey(lotteryCode, d.issueCode) := row]
      && cache.history == old(cache.history)[lotteryCode :=
           PushHistory(ListAt(old(cache.history), lotteryCode), HistoryPayload(row, codec))]
      && cache.lastResult == old(cache.lastResult)[lotteryCode := Record(HistoryPayload(row, codec))]
      && cache.currentIssue == old(cache.currentIssue)[lotteryCode :=
           MergeHash(HashAt(old(cache.currentIssue), lotteryCode),
                     CurrentIssueFields(lotteryCode, NextIssueCode(d.issueCode), next.openTime,
                                        next.closeTime, next.allowBet, codec))]
    ensures db.orders == old(db.orders) && db.items == old(db.items) && db.users == old(db.users)
    ensures db.wallets == old(db.wallets) && db.ledger == old(db.ledger) && db.lotteries == old(db.lotteries)
  {
    var row := UpsertIssueFromResult(db, lotteryCode, d.issueCode, d.n1, d.n2, d.n3, d.openTime, rawJson);
    if row.None? {
      return false;
    }

    var payload := HistoryPayload(row.value, codec);
    SetRedisAfterIssue(cache, lotteryCode, payload);

    var lot := db.lotteries[lotteryCode];
    var nextOpen := row.value.openTime + OrDefault(lot.periodSeconds, DefaultPeriod);
    var closeTime := nextOpen - OrDefault(lot.lockAheadSeconds, DefaultLockAhead);
    var allowBet := now < closeTime;
    assert row.value.openTime == d.openTime;
    assert NextRoundAfter(lot, d.openTime, now) == NextRound(nextOpen, closeTime, allowBet);
    SetCurrentIssueCache(cache, lotteryCode, NextIssueCode(d.issueCode), nextOpen, closeTime, allowBet, codec);
    return true;
  }

  /** One collector run on a fetched feed object: a feed object that does
      not read as a draw ends the run with nothing written; otherwise the
      draw is published. parseNow is the clock read when the feed has no
      open time, now the one read for allow_bet. */
  method CollectorJob(db: Db, cache: Cache, lotteryCode: string, data: map<string, Json>, rawJson: string,
                      parseNow: int, now: int, codec: TimeCodec)
    returns (draw: Option<Draw>, published: bool)
    requires KeyedByRound(db.issues)
    modifies db, cache
    ensures draw == ParseDraw(data, parseNow, codec)
    ensures KeyedByRound(db.issues)
    ensures published <==> draw.Some? && lotteryCode in old(db.lotteries)
    ensures !published ==>
      && db.issues == old(db.issues)
      && cache.history == old(cache.history) && cache.lastResult == old(cache.lastResult)
      && cache.currentIssue == old(cache.currentIssue)
    ensures published ==>
      var d := draw.value;
      var lot := old(db.lotteries)[lotteryCode];
      var row := DrawnIssue(lot, lotteryCode, d.issueCode, d.n1, d.n2, d.n3, d.openTime, rawJson);
      var next := NextRoundAfter(lot, d.openTime, now);
      && db.issues == old(db.issues)[RoundKey(lotteryCode, d.issueCode) := row]
      && cache.history == old(cache.history)[lotteryCode :=
           PushHistory(ListAt(old(cache.history), lotteryCode), HistoryPayload(row, codec))]
      && cache.lastResult == old(cache.lastResult)[lotteryCode := Record(HistoryPayload(row, codec))]
      && cache.currentIssue == old(cache.currentIssue)[lotteryCode :=
           MergeHash(HashAt(old(cache.currentIssue), lotteryCode),
                     CurrentIssueFields(lotteryCode, NextIssueCode(d.issueCode), next.openTime,
                                        next.closeTime, next.allowBet, codec))]
    ensures db.orders == old(db.orders) && db.items == old(db.items) && db.users == old(db.users)
    ensures db.wallets == old(db.wallets) && db.ledger == old(db.ledger) && db.lotteries == old(db.lotteries)
  {
    draw := ReadFeed(data, parseNow, codec);
    if draw.None? {
      return draw, false;
    }
    published := PublishDraw(db, cache, lotteryCode, draw.value, rawJson, now, codec);
  }



  /** The hash after one refresh: both times must read in the fixed format
      (a missing or unreadable field leaves the hash as it is); then the
      hash is written again with allow_bet recomputed for time now. */
  function RefreshedHash(hash: map<string, string>, lotteryCode: string, now: int, codec: TimeCodec): map<string, string> {
    if hash == map[] || "close_time" !in hash || "open_time" !in hash then hash
    else
      var close := codec.parseFixed(hash["close_time"]);
      var open := codec.parseFixed(hash["open_time"]);
      if close.None? || open.None? then hash
      else
        var issueCode := if "issue_code" in hash then hash["issue_code"] else "";
        MergeHash(hash, CurrentIssueFields(lotteryCode, issueCode, open.value, close.value, now < close.value, codec))
  }

  /** A hash holding both times, readable, and the issue code is rewritten
      with the flag recomputed at time now. */
  lemma RefreshRewrites(h: map<string, string>, lotteryCode: string, issueCode: string,
                        openTime: int, closeTime: int, now: int, codec: TimeCodec)
    requires "close_time" in h && codec.parseFixed(h["close_time"]) == Some(closeTime)
    requires "open_time" in h && codec.parseFixed(h["open_time"]) == Some(openTime)
    requires "issue_code" in h && h["issue_code"] == issueCode
    ensures RefreshedHash(h, lotteryCode, now, codec)
         == MergeHash(h, CurrentIssueFields(lotteryCode, issueCode, openTime, closeTime, now < closeTime, codec))
  {
    assert h != map[] by { assert "issue_code" in h; }
  }

  /** On a hash the collector wrote, with a time format that reads back
      what it writes, a refresh changes only allow_bet, to "1" exactly when
      now is before the close time. */
  lemma RefreshOnlyMovesAllowBet(hash: map<string, string>, lotteryCode: string, issueCode: string,
                                 openTime: int, closeTime: int, allow: bool, now: int, codec: TimeCodec)
    requires RoundTrips(codec)
    ensures var h := MergeHash(hash, CurrentIssueFields(lotteryCode, issueCode, openTime, closeTime, allow, codec));
      RefreshedHash(h, lotteryCode, now, codec) == h["allow_bet" := AllowBetText(now < closeTime)]
  {
    var fields := CurrentIssueFields(lotteryCode, issueCode, openTime, closeTime, allow, codec);
    var h := MergeHash(hash, fields);
    CurrentIssueReadBack(hash, lotteryCode, issueCode, openTime, closeTime, allow, codec);
    RefreshRewrites(h, lotteryCode, issueCode, openTime, closeTime, now, codec);
    CurrentIssueFieldsFlag(lotteryCode, issueCode, openTime, closeTime, allow, now < closeTime, codec);
    MergeRewritesOne(hash, fields, "allow_bet", AllowBetText(now < closeTime));
  }

  /** A hash without both times, or with a time that does not read, is left
      as it is. */
  lemma RefreshToleratesBadHash(hash: map<string, string>, lotteryCode: string, now: int, codec: TimeCodec)
    requires "close_time" !in hash || "open_time" !in hash
      || codec.parseFixed(hash["close_time"]).None? || codec.parseFixed(hash["open_time"]).None?
    ensures RefreshedHash(hash, lotteryCode, now, codec) == hash
  {
  }

  /** One refresh of the lottery's current-issue hash at time now. */
  method RefreshCurrentIssueJob(cache: Cache, lotteryCode: string, now: int, codec: TimeCodec)
    modifies cache
    ensures cache.currentIssue == (if lotteryCode in old(cache.currentIssue)
      then old(cache.currentIssue)[lotteryCode := RefreshedHash(old(cache.currentIssue)[lotteryCode], lotteryCode, now, codec)]
      else old(cache.currentIssue))
    ensures cache.history == old(cache.history) && cache.lastResult == old(cache.lastResult)
  {
    var data := HashAt(cache.currentIssue, lotteryCode);
    if data == map[] {
      return;
    }
    if "close_time" !in data || "open_time" !in data {
      return;
    }
    var close := codec.parseFixed(data["close_time"]);
    var open := codec.parseFixed(data["open_time"]);
    if close.None? || open.None? {
      return;
    }
    var allowBet := now < close.value;
    var issueCode := if "issue_code" in data then data["issue_code"] else "";
    SetCurrentIssueCache(cache, lotteryCode, issueCode, open.value, close.value, allowBet, codec);
  }
}
