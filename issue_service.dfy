/** Ingest of a drawn round: the derived fields of the three numbers, the
    upsert of the round row, the history list and last result in the cache,
    and the current-issue hash. */
module IssueService {
  import opened Common
  import opened Store
  import Settlement

  /** The most entries the history list keeps, and the most the dedupe pass
      reads from its head. */
  const HistoryLimit := 200

  /** The longest raw_json the round row stores. */
  const RawJsonLimit := 255

  /** Lock-ahead seconds used when the lottery has none (or 0). */
  const DefaultLockAhead := 3

  // ------------------------------------------------------------ derived fields

  /** The sum and its three labels: bs 1 big / 2 small, oe 1 odd / 2 even,
      extreme 1 big / 2 small / 0 neither. */
  datatype DrawFields = DrawFields(sum: int, bs: int, oe: int, extreme: int)

  function CalcFields(n1: int, n2: int, n3: int): (f: DrawFields)
    ensures f.sum == n1 + n2 + n3
    ensures f.bs in {1, 2} && f.oe in {1, 2} && f.extreme in {0, 1, 2}
  {
    var s := n1 + n2 + n3;
    DrawFields(s,
               if s >= 14 then 1 else 2,
               if s % 2 == 1 then 1 else 2,
               if s >= 24 then 1 else if s <= 3 then 2 else 0)
  }

  /** Three numbers 0..9 give a sum 0..27. */
  lemma SumInRange(n1: int, n2: int, n3: int)
    requires 0 <= n1 <= 9 && 0 <= n2 <= 9 && 0 <= n3 <= 9
    ensures 0 <= CalcFields(n1, n2, n3).sum <= 27
  {
  }

  /** The stored big/small label agrees with the settlement hit rule for
      "big" and "small". */
  lemma BigSmallLabelAgrees(n1: int, n2: int, n3: int)
    ensures var f := CalcFields(n1, n2, n3);
      && (f.bs == 1 <==> Settlement.IsHit(Settlement.Big, f.sum))
      && (f.bs == 2 <==> Settlement.IsHit(Settlement.Small, f.sum))
  {
    Settlement.BigSmallRules(CalcFields(n1, n2, n3).sum);
  }

  /** The stored odd/even label agrees with the settlement hit rule for
      "odd" and "even" (both use a remainder in 0..1, negative sums too). */
  lemma OddEvenLabelAgrees(n1: int, n2: int, n3: int)
    ensures var f := CalcFields(n1, n2, n3);
      && (f.oe == 1 <==> Settlement.IsHit(Settlement.Odd, f.sum))
      && (f.oe == 2 <==> Settlement.IsHit(Settlement.Even, f.sum))
  {
    var f := CalcFields(n1, n2, n3);
    var odd := f.sum % 2 == 1;
    assert f.oe == (if odd then 1 else 2);
    assert f.sum % 2 == 0 <==> !odd;
    Settlement.OddEvenRules(f.sum);
  }

  /** A stored extreme label implies the settlement hit for that extreme,
      but not the other way round: settlement's extreme bands are wider. */
  lemma ExtremeLabelImpliesHit(n1: int, n2: int, n3: int)
    ensures var f := CalcFields(n1, n2, n3);
      && (f.extreme == 1 ==> Settlement.IsHit(Settlement.ExtremeBig, f.sum))
      && (f.extreme == 2 ==> Settlement.IsHit(Settlement.ExtremeSmall, f.sum))
  {
    Settlement.ExtremeRules(CalcFields(n1, n2, n3).sum);
  }

  /** The two extreme bands disagree on exactly the sums 23 and 4: stored as
      "neither", settled as a hit. */
  lemma ExtremeBandsDiverge(n1: int, n2: int, n3: int)
    ensures var f := CalcFields(n1, n2, n3);
      && (f.extreme == 0 && Settlement.IsHit(Settlement.ExtremeBig, f.sum) <==> f.sum == 23)
      && (f.extreme == 0 && Settlement.IsHit(Settlement.ExtremeSmall, f.sum) <==> f.sum == 4)
  {
    Settlement.ExtremeRules(CalcFields(n1, n2, n3).sum);
  }

  // ------------------------------------------------------------ the round row

  /** The round row the ingest writes: status drawn, the derived fields, the
      close time lock-ahead seconds before the open time, raw_json cut to
      255 characters. */
  function DrawnIssue(lot: Lottery, lotteryCode: string, issueCode: string,
                      n1: int, n2: int, n3: int, openTime: int, rawJson: string): Issue
  {
    var f := CalcFields(n1, n2, n3);
    Issue(lotteryCode, issueCode, openTime,
          Some(openTime - OrDefault(lot.lockAheadSeconds, DefaultLockAhead)),
          IssueDrawn, n1, n2, n3, f.sum, f.bs, f.oe, f.extreme,
          Take(rawJson, RawJsonLimit))
  }

  /** The row is keyed by its round, is drawn, carries the numbers and their
      derived fields, and keeps the first 255 characters of the raw text. */
  lemma DrawnIssueFields(lot: Lottery, lotteryCode: string, issueCode: string,
                         n1: int, n2: int, n3: int, openTime: int, rawJson: string)
    ensures var row := DrawnIssue(lot, lotteryCode, issueCode, n1, n2, n3, openTime, rawJson);
      && KeyOf(row) == RoundKey(lotteryCode, issueCode)
      && row.status == IssueDrawn && row.openTime == openTime
      && (row.n1, row.n2, row.n3) == (n1, n2, n3)
      && DrawFields(row.sumValue, row.bs, row.oe, row.extreme) == CalcFields(n1, n2, n3)
      && |row.rawJson| == (if |rawJson| < RawJsonLimit then |rawJson| else RawJsonLimit)
      && row.rawJson <= rawJson
  {
  }

  /** The close time precedes the open time exactly when the effective
      lock-ahead is positive; a negative stored lock-ahead puts it after. */
  lemma CloseBeforeOpen(lot: Lottery, lotteryCode: string, issueCode: string,
                        n1: int, n2: int, n3: int, openTime: int, rawJson: string)
    ensures var row := DrawnIssue(lot, lotteryCode, issueCode, n1, n2, n3, openTime, rawJson);
      && row.closeTime == Some(openTime - OrDefault(lot.lockAheadSeconds, DefaultLockAhead))
      && (row.closeTime.value < openTime <==> OrDefault(lot.lockAheadSeconds, DefaultLockAhead) > 0)
      && (lot.lockAheadSeconds.None? ==> row.closeTime.value == openTime - 3)
  {
  }

  /** Insert or update the round row. The lottery must exist (otherwise the
      lookup fails and nothing is written); an existing row of the round is
      overwritten field by field, a missing one is inserted, and both give
      the same row. */
  method UpsertIssueFromResult(db: Db, lotteryCode: string, issueCode: string,
                               n1: int, n2: int, n3: int, openTime: int, rawJson: string)
    returns (row: Option<Issue>)
    requires KeyedByRound(db.issues)
    modifies db
    ensures KeyedByRound(db.issues)
    ensures lotteryCode !in old(db.lotteries) ==> row.None? && db.issues == old(db.issues)
    ensures lotteryCode in old(db.lotteries) ==>
      && row == Some(DrawnIssue(old(db.lotteries)[lotteryCode], lotteryCode, issueCode, n1, n2, n3, openTime, rawJson))
      && db.issues == old(db.issues)[RoundKey(lotteryCode, issueCode) := row.value]
    ensures db.orders == old(db.orders) && db.items == old(db.items) && db.users == old(db.users)
    ensures db.wallets == old(db.wallets) && db.ledger == old(db.ledger) && db.lotteries == old(db.lotteries)
  {
    var f := CalcFields(n1, n2, n3);
    if lotteryCode !in db.lotteries {
      return None;
    }
    var lot := db.lotteries[lotteryCode];
    var closeTime := openTime - OrDefault(lot.lockAheadSeconds, DefaultLockAhead);
    var key := RoundKey(lotteryCode, issueCode);
    var r: Issue;
    if key in db.issues {
      r := db.issues[key];
      r := r.(n1 := n1, n2 := n2, n3 := n3);
      r := r.(sumValue := f.sum, bs := f.bs, oe := f.oe, extreme := f.extreme);
      r := r.(openTime := openTime, closeTime := Some(closeTime), status := IssueDrawn);
      r := r.(rawJson := Take(rawJson, RawJsonLimit));
    } else {
      r := Issue(lotteryCode, issueCode, openTime, Some(closeTime), IssueDrawn,
                 n1, n2, n3, f.sum, f.bs, f.oe, f.extreme, Take(rawJson, RawJsonLimit));
    }
    db.issues := db.issues[key := r];
    return Some(r);
  }

  // ------------------------------------------------------------ the history list

  /** LREM key 0 v: every entry equal to v is removed, the rest keep their order. */
  function RemoveValue(list: seq<Entry>, v: Entry): (r: seq<Entry>)
    ensures v !in r
    ensures forall e :: e in r <==> e in list && e != v
    ensures |r| <= |list|
  {
    if list == [] then []
    else (if list[0] == v then [] else [list[0]]) + RemoveValue(list[1..], v)
  }

  /** The queued LREMs run one after the other. */
  function RemoveValues(list: seq<Entry>, vs: seq<Entry>): seq<Entry>
    decreases |vs|
  {
    if vs == [] then list else RemoveValues(RemoveValue(list, vs[0]), vs[1..])
  }

  /** The entries the dedupe pass queues for removal: those that carry the
      issue code, in list order. */
  function MatchingIn(entries: seq<Entry>, issueCode: string): (r: seq<Entry>)
    ensures forall e :: e in r <==> e in entries && EntryIssueCode(e) == Some(issueCode)
  {
    if entries == [] then []
    else
      var prev := MatchingIn(entries[..|entries| - 1], issueCode);
      var last := entries[|entries| - 1];
      if EntryIssueCode(last) == Some(issueCode) then prev + [last] else prev
  }

  /** The list after the dedupe pass: the matching entries among the first
      200 are removed by value, from the whole list. */
  function Dedupe(list: seq<Entry>, issueCode: string): seq<Entry> {
    RemoveValues(list, MatchingIn(Take(list, HistoryLimit), issueCode))
  }

  /** The history list after a round is published: deduped, the new payload
      pushed at the head, trimmed to 200. */
  function PushHistory(list: seq<Entry>, p: Payload): (r: seq<Entry>)
    ensures 1 <= |r| <= HistoryLimit && r[0] == Record(p)
  {
    Take([Record(p)] + Dedupe(list, p.issueCode), HistoryLimit)
  }

  /** The entries of a list that do not carry the issue code, in order. */
  function OtherRounds(list: seq<Entry>, issueCode: string): (r: seq<Entry>)
    ensures forall e :: e in r <==> e in list && EntryIssueCode(e) != Some(issueCode)
  {
    if list == [] then []
    else (if EntryIssueCode(list[0]) == Some(issueCode) then [] else [list[0]]) + OtherRounds(list[1..], issueCode)
  }

  /** The entries of a list not among vs, in order. */
  function Without(list: seq<Entry>, vs: seq<Entry>): (r: seq<Entry>)
    ensures forall e :: e in r <==> e in list && e !in vs
  {
    if list == [] then []
    else (if list[0] in vs then [] else [list[0]]) + Without(list[1..], vs)
  }

  lemma {:induction false} RemoveValueWithout(list: seq<Entry>, vs: seq<Entry>, v: Entry)
    ensures RemoveValue(Without(list, vs), v) == Without(list, vs + [v])
  {
    if list != [] {
      RemoveValueWithout(list[1..], vs, v);
      var w := Without(list, vs);
      assert list[0] in vs + [v] <==> list[0] in vs || list[0] == v;
      var vs' := vs + [v];
      assert Without(list, vs') == (if list[0] in vs' then [] else [list[0]]) + Without(list[1..], vs');
      if list[0] !in vs {
        assert w == [list[0]] + Without(list[1..], vs);
        assert w[0] == list[0] && w[1..] == Without(list[1..], vs);
        assert RemoveValue(w, v) == (if list[0] == v then [] else [list[0]]) + RemoveValue(Without(list[1..], vs), v);
      } else {
        assert w == Without(list[1..], vs);
        assert Without(list, vs') == Without(list[1..], vs');
      }
    }
  }

  /** Removing the values one by one removes all of them at once. */
  lemma {:induction false} RemoveValuesIsWithout(list: seq<Entry>, vs: seq<Entry>, done: seq<Entry>)
    ensures RemoveValues(Without(list, done), vs) == Without(list, done + vs)
    decreases |vs|
  {
    if vs == [] {
      assert done + vs == done;
    } else {
      RemoveValueWithout(list, done, vs[0]);
      RemoveValuesIsWithout(list, vs[1..], done + [vs[0]]);
      assert done + [vs[0]] + vs[1..] == done + vs;
    }
  }

  lemma {:induction false} WithoutNothing(list: seq<Entry>)
    ensures Without(list, []) == list
  {
    if list != [] {
      WithoutNothing(list[1..]);
    }
  }

  /** Removing exactly the entries that carry the code keeps the others. */
  lemma {:induction false} WithoutMatching(list: seq<Entry>, vs: seq<Entry>, issueCode: string)
    requires forall e :: e in list ==> (e in vs <==> EntryIssueCode(e) == Some(issueCode))
    ensures Without(list, vs) == OtherRounds(list, issueCode)
  {
    if list != [] {
      WithoutMatching(list[1..], vs, issueCode);
    }
  }

  /** On a list of at most 200 entries the dedupe pass removes exactly the
      entries of the round and keeps every other entry in order. */
  lemma DedupeShortList(list: seq<Entry>, issueCode: string)
    requires |list| <= HistoryLimit
    ensures Dedupe(list, issueCode) == OtherRounds(list, issueCode)
  {
    var vs := MatchingIn(list, issueCode);
    WithoutNothing(list);
    RemoveValuesIsWithout(list, vs, []);
    assert [] + vs == vs;
    WithoutMatching(list, vs, issueCode);
  }

  /** No two entries carry the same issue code. */
  predicate UniqueRounds(list: seq<Entry>) {
    forall i, j :: 0 <= i < j < |list| && EntryIssueCode(list[i]).Some? ==>
      EntryIssueCode(list[i]) != EntryIssueCode(list[j])
  }

  lemma UniqueRoundsTail(list: seq<Entry>)
    requires list != [] && UniqueRounds(list)
    ensures UniqueRounds(list[1..])
  {
    var tail := list[1..];
    forall i, j | 0 <= i < j < |tail| && EntryIssueCode(tail[i]).Some?
      ensures EntryIssueCode(tail[i]) != EntryIssueCode(tail[j])
    {
      assert tail[i] == list[i + 1] && tail[j] == list[j + 1];
    }
  }

  lemma UniqueRoundsPrefix(list: seq<Entry>, n: nat)
    requires UniqueRounds(list)
    ensures UniqueRounds(Take(list, n))
  {
    var t := Take(list, n);
    forall i, j | 0 <= i < j < |t| && EntryIssueCode(t[i]).Some?
      ensures EntryIssueCode(t[i]) != EntryIssueCode(t[j])
    {
      assert t[i] == list[i] && t[j] == list[j];
    }
  }

  /** An entry whose round no entry of a list carries can go in front. */
  lemma UniqueRoundsCons(x: Entry, rest: seq<Entry>)
    requires UniqueRounds(rest)
    requires forall k :: 0 <= k < |rest| && EntryIssueCode(x).Some? ==> EntryIssueCode(rest[k]) != EntryIssueCode(x)
    ensures UniqueRounds([x] + rest)
  {
    var r := [x] + rest;
    forall i, j | 0 <= i < j < |r| && EntryIssueCode(r[i]).Some?
      ensures EntryIssueCode(r[i]) != EntryIssueCode(r[j])
    {
      assert r[j] == rest[j - 1];
      if i > 0 {
        assert r[i] == rest[i - 1];
      }
    }
  }

  /** Dropping the entries of one round keeps the issue codes distinct. */
  lemma {:induction false} OtherRoundsSubsequence(list: seq<Entry>, issueCode: string)
    requires UniqueRounds(list)
    ensures UniqueRounds(OtherRounds(list, issueCode))
  {
    if list != [] {
      var tail := list[1..];
      UniqueRoundsTail(list);
      OtherRoundsSubsequence(tail, issueCode);
      var rest := OtherRounds(tail, issueCode);
      if EntryIssueCode(list[0]) != Some(issueCode) {
        forall k | 0 <= k < |rest| && EntryIssueCode(list[0]).Some?
          ensures EntryIssueCode(rest[k]) != EntryIssueCode(list[0])
        {
          assert rest[k] in tail;
          var m :| 0 <= m < |tail| && tail[m] == rest[k];
          assert list[m + 1] == rest[k];
        }
        UniqueRoundsCons(list[0], rest);
      }
    }
  }

  /** The history keeps its shape: starting from at most 200 entries with
      distinct issue codes, publishing a round leaves at most 200 entries,
      the new payload first, no other entry of that round, the entries of
      the other rounds in their previous order, and distinct issue codes. */
  lemma PushHistoryKeepsRoundsUnique(list: seq<Entry>, p: Payload)
    requires |list| <= HistoryLimit && UniqueRounds(list)
    ensures var r := PushHistory(list, p);
      && 1 <= |r| <= HistoryLimit && r[0] == Record(p)
      && r[1..] == Take(OtherRounds(list, p.issueCode), HistoryLimit - 1)
      && (forall k :: 1 <= k < |r| ==> EntryIssueCode(r[k]) != Some(p.issueCode))
      && UniqueRounds(r)
  {
    DedupeShortList(list, p.issueCode);
    var rest := OtherRounds(list, p.issueCode);
    var kept := Take(rest, HistoryLimit - 1);
    var r := PushHistory(list, p);
    assert r == [Record(p)] + kept;
    forall k | 0 <= k < |kept| ensures EntryIssueCode(kept[k]) != Some(p.issueCode) {
      assert kept[k] == rest[k];
      assert rest[k] in rest;
    }
    assert UniqueRounds(kept) by {
      OtherRoundsSubsequence(list, p.issueCode);
      UniqueRoundsPrefix(rest, HistoryLimit - 1);
    }
    UniqueRoundsCons(Record(p), kept);
    assert r[1..] == kept;
  }

  /** Publishing a round in the cache: the dedupe pass reads the first 200
      entries and queues a removal by value for each one of the round, the
      queue runs, then the payload is pushed at the head, the list trimmed
      to 200 and the last result set. */
  method SetRedisAfterIssue(cache: Cache, lotteryCode: string, p: Payload)
    modifies cache
    ensures cache.history == old(cache.history)[lotteryCode := PushHistory(ListAt(old(cache.history), lotteryCode), p)]
    ensures cache.lastResult == old(cache.lastResult)[lotteryCode := Record(p)]
    ensures cache.currentIssue == old(cache.currentIssue)
  {
    var existing := Take(ListAt(cache.history, lotteryCode), HistoryLimit);
    var queued: seq<Entry> := [];
    var i := 0;
    while i < |existing|
      invariant 0 <= i <= |existing|
      invariant queued == MatchingIn(existing[..i], p.issueCode)
    {
      assert existing[..i + 1][..i] == existing[..i];
      if EntryIssueCode(existing[i]) == Some(p.issueCode) {
        queued := queued + [existing[i]];
      }
      i := i + 1;
    }
    assert existing[..i] == existing;

    var list := ListAt(cache.history, lotteryCode);
    var j := 0;
    while j < |queued|
      invariant 0 <= j <= |queued|
      invariant RemoveValues(list, queued[j..]) == Dedupe(ListAt(old(cache.history), lotteryCode), p.issueCode)
    {
      assert queued[j..][1..] == queued[j + 1..];
      list := RemoveValue(list, queued[j]);
      j := j + 1;
    }

    cache.history := cache.history[lotteryCode := Take([Record(p)] + list, HistoryLimit)];
    cache.lastResult := cache.lastResult[lotteryCode := Record(p)];
  }

  // ------------------------------------------------------------ the current issue

  /** The allow_bet field: "1" when betting is open, "0" otherwise. */
  function AllowBetText(allow: bool): (t: string)
    ensures t == "1" || t == "0"
  {
    if allow then "1" else "0"
  }

  /** The allow_bet text reads back as the flag it was written from. */
  lemma AllowBetTextRoundTrip(allow: bool)
    ensures (AllowBetText(allow) == "1") == allow
    ensures (AllowBetText(allow) == "0") == !allow
  {
  }

  /** The five fields the current-issue hash is given. */
  function CurrentIssueFields(lotteryCode: string, issueCode: string, openTime: int, closeTime: int,
                              allow: bool, codec: TimeCodec): map<string, string>
  {
    map["lottery_code" := lotteryCode, "issue_code" := issueCode,
        "open_time" := codec.format(openTime), "close_time" := codec.format(closeTime),
        "allow_bet" := AllowBetText(allow)]
  }

  /** HSET with a mapping: the given fields are written over the hash, any
      other field stays. */
  function MergeHash(hash: map<string, string>, fields: map<string, string>): (r: map<string, string>)
    ensures r.Keys == hash.Keys + fields.Keys
    ensures forall k :: k in fields ==> r[k] == fields[k]
    ensures forall k :: k in hash && k !in fields ==> r[k] == hash[k]
  {
    hash + fields
  }

  /** Writing again the fields just written, one of them changed, changes
      only that one. */
  lemma MergeRewritesOne(hash: map<string, string>, fields: map<string, string>, key: string, v: string)
    requires key in fields
    ensures MergeHash(MergeHash(hash, fields), fields[key := v]) == MergeHash(hash, fields)[key := v]
  {
  }

  /** The fields written for another flag differ in allow_bet alone. */
  lemma CurrentIssueFieldsFlag(lotteryCode: string, issueCode: string, openTime: int, closeTime: int,
                               allow: bool, allow': bool, codec: TimeCodec)
    ensures CurrentIssueFields(lotteryCode, issueCode, openTime, closeTime, allow', codec)
         == CurrentIssueFields(lotteryCode, issueCode, openTime, closeTime, allow, codec)["allow_bet" := AllowBetText(allow')]
  {
  }

  /** The hash after the write carries the round, both times and the flag. */
  lemma CurrentIssueReadBack(hash: map<string, string>, lotteryCode: string, issueCode: string,
                             openTime: int, closeTime: int, allow: bool, codec: TimeCodec)
    requires RoundTrips(codec)
    ensures var h := MergeHash(hash, CurrentIssueFields(lotteryCode, issueCode, openTime, closeTime, allow, codec));
      && h["lottery_code"] == lotteryCode && h["issue_code"] == issueCode
      && codec.parseFixed(h["open_time"]) == Some(openTime)
      && codec.parseFixed(h["close_time"]) == Some(closeTime)
      && (h["allow_bet"] == "1" <==> allow)
  {
  }

  method SetCurrentIssueCache(cache: Cache, lotteryCode: string, issueCode: string,
                              openTime: int, closeTime: int, allow: bool, codec: TimeCodec)
    modifies cache
    ensures cache.currentIssue == old(cache.currentIssue)[lotteryCode :=
      MergeHash(HashAt(old(cache.currentIssue), lotteryCode),
                CurrentIssueFields(lotteryCode, issueCode, openTime, closeTime, allow, codec))]
    ensures cache.history == old(cache.history) && cache.lastResult == old(cache.lastResult)
  {
    var fields := CurrentIssueFields(lotteryCode, issueCode, openTime, closeTime, allow, codec);
    cache.currentIssue := cache.currentIssue[lotteryCode := MergeHash(HashAt(cache.currentIssue, lotteryCode), fields)];
  }
}
