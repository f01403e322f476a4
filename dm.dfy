/**
 * The direct-message handlers of src/dm.ts. A DM is created with a fixed set
 * of members and a name built from their handles; members can list it, read
 * its details and messages, and leave it, and its owner can remove it. As in
 * the channel handlers, each handler requires only the records it looks up
 * and then uses unchecked, on the path where it does so.
 */
module DmHandlers {
  import opened DataStore
  import opened Helpers
  import opened Pagination

  datatype DmSummary = DmSummary(dmId: int, name: string)

  datatype DmDetails = DmDetails(name: string, members: seq<User>)

  // ---------------------------------------------------------------------
  // The DM name: handles sorted by the collation and joined with ", "
  // ---------------------------------------------------------------------

  /** `leq(a, b)`: `a.localeCompare(b) <= 0`; the collation itself is a parameter. */
  ghost predicate Total(leq: (string, string) -> bool) {
    forall a, b :: leq(a, b) || leq(b, a)
  }

  ghost predicate SortedByHandle(us: seq<StoredUser>, leq: (string, string) -> bool) {
    forall i :: 0 < i < |us| ==> leq(us[i - 1].handleStr, us[i].handleStr)
  }

  /** Places `u` before the first user it does not sort after, so equal handles keep their order. */
  function InsertByHandle(u: StoredUser, sorted: seq<StoredUser>, leq: (string, string) -> bool): (r: seq<StoredUser>)
    ensures multiset(r) == multiset(sorted) + multiset{u}
    ensures r[0] == u || (sorted != [] && r[0] == sorted[0])
  {
    if sorted == [] || leq(u.handleStr, sorted[0].handleStr) then [u] + sorted
    else
      assert sorted == [sorted[0]] + sorted[1..];
      [sorted[0]] + InsertByHandle(u, sorted[1..], leq)
  }

  /** `users.sort((a, b) => a.handleStr.localeCompare(b.handleStr))`, a stable sort. */
  function SortByHandle(us: seq<StoredUser>, leq: (string, string) -> bool): (r: seq<StoredUser>)
    ensures multiset(r) == multiset(us)
  {
    if us == [] then []
    else
      assert us == [us[0]] + us[1..];
      InsertByHandle(us[0], SortByHandle(us[1..], leq), leq)
  }

  lemma {:induction false} InsertByHandleSorted(u: StoredUser, sorted: seq<StoredUser>, leq: (string, string) -> bool)
    requires Total(leq)
    requires SortedByHandle(sorted, leq)
    ensures SortedByHandle(InsertByHandle(u, sorted, leq), leq)
  {
    if sorted == [] || leq(u.handleStr, sorted[0].handleStr) {
    } else {
      var tail := sorted[1..];
      InsertByHandleSorted(u, tail, leq);
      var t := InsertByHandle(u, tail, leq);
      assert leq(sorted[0].handleStr, u.handleStr);
      assert leq(sorted[0].handleStr, t[0].handleStr);
      var r := [sorted[0]] + t;
      forall i | 0 < i < |r| ensures leq(r[i - 1].handleStr, r[i].handleStr) {
        if i > 1 {
          assert r[i - 1] == t[i - 2] && r[i] == t[i - 1];
        }
      }
    }
  }

  /** Under a total collation the sorted members are in non-decreasing handle order. */
  lemma {:induction false} SortByHandleSorted(us: seq<StoredUser>, leq: (string, string) -> bool)
    requires Total(leq)
    ensures SortedByHandle(SortByHandle(us, leq), leq)
  {
    if us != [] {
      SortByHandleSorted(us[1..], leq);
      InsertByHandleSorted(us[0], SortByHandle(us[1..], leq), leq);
    }
  }

  function Handles(us: seq<StoredUser>): (hs: seq<string>)
    ensures |hs| == |us| && forall k :: 0 <= k < |us| ==> hs[k] == us[k].handleStr
  {
    seq(|us|, k requires 0 <= k < |us| => us[k].handleStr)
  }

  /** The handles joined with ", " and nothing after the last one. */
  function JoinNames(hs: seq<string>): string
    requires |hs| >= 1
  {
    if |hs| == 1 then hs[0] else hs[0] + ", " + JoinNames(hs[1..])
  }

  /** What the naming loop accumulates: every handle followed by ", ". */
  function WithSeparators(hs: seq<string>): string {
    if hs == [] then "" else hs[0] + ", " + WithSeparators(hs[1..])
  }

  lemma {:induction false} WithSeparatorsSnoc(hs: seq<string>, h: string)
    ensures WithSeparators(hs + [h]) == WithSeparators(hs) + h + ", "
  {
    if hs == [] {
      assert hs + [h] == [h];
    } else {
      WithSeparatorsSnoc(hs[1..], h);
      assert (hs + [h])[1..] == hs[1..] + [h];
    }
  }

  /** Dropping the last two characters of the accumulated name leaves the joined handles. */
  lemma {:induction false} WithSeparatorsIsJoin(hs: seq<string>)
    requires |hs| >= 1
    ensures WithSeparators(hs) == JoinNames(hs) + ", "
  {
    if |hs| > 1 {
      WithSeparatorsIsJoin(hs[1..]);
    }
  }

  predicate IsComma(c: char) { c == ',' }

  /** Cuts a name at each ',' and skips the blank after it. */
  function SplitNames(s: string): (parts: seq<string>)
    ensures |parts| >= 1
    decreases |s|
  {
    var i := FirstIndex(s, IsComma);
    if i == -1 then [s]
    else [s[..i]] + SplitNames(s[if i + 2 <= |s| then i + 2 else |s|..])
  }

  /** In `h + ", " + rest` with no ',' in `h`, the first ',' is the one after `h`. */
  lemma FirstCommaAfter(h: string, rest: string)
    requires ',' !in h
    ensures FirstIndex(h + ", " + rest, IsComma) == |h|
  {
    var s := h + ", " + rest;
    assert s[|h|] == ',';
    forall k | 0 <= k < |h| ensures !IsComma(s[k]) {
      assert s[k] == h[k];
    }
  }

  /** A DM name can be read back into the handles it was made from, since no handle holds a ','. */
  lemma {:induction false} SplitJoinNames(hs: seq<string>)
    requires |hs| >= 1
    requires forall k :: 0 <= k < |hs| ==> ',' !in hs[k]
    ensures SplitNames(JoinNames(hs)) == hs
  {
    var s := JoinNames(hs);
    if |hs| == 1 {
      forall k | 0 <= k < |s| ensures !IsComma(s[k]) {
        assert s[k] in hs[0];
      }
    } else {
      var h := hs[0];
      var rest := JoinNames(hs[1..]);
      assert s == h + ", " + rest;
      FirstCommaAfter(h, rest);
      assert s[..|h|] == h;
      assert s[|h| + 2..] == rest;
      SplitJoinNames(hs[1..]);
      assert hs == [h] + hs[1..];
    }
  }

  /** The stored record of each listed member, in list order. */
  function MemberRecords(users: seq<StoredUser>, ids: seq<int>): (rs: seq<StoredUser>)
    requires forall k :: 0 <= k < |ids| ==> UserRegistered(users, ids[k])
    ensures |rs| == |ids|
    ensures forall k :: 0 <= k < |ids| ==> rs[k] == FindUser(users, ids[k]).value && rs[k].authUserId == ids[k]
  {
    seq(|ids|, k requires 0 <= k < |ids| => FindUser(users, ids[k]).value)
  }

  /** The name a new DM gets: its members' handles in collation order, joined with ", ". */
  function DmName(users: seq<StoredUser>, members: seq<int>, leq: (string, string) -> bool): (name: string)
    requires |members| >= 1
    requires forall k :: 0 <= k < |members| ==> UserRegistered(users, members[k])
    ensures name + ", " == WithSeparators(Handles(SortByHandle(MemberRecords(users, members), leq)))
  {
    var hs := Handles(SortByHandle(MemberRecords(users, members), leq));
    WithSeparatorsIsJoin(hs);
    JoinNames(hs)
  }

  /** When no member's handle holds a ',', the DM name splits back into the handles in collation order. */
  lemma DmNameSplitsIntoHandles(users: seq<StoredUser>, members: seq<int>, leq: (string, string) -> bool)
    requires |members| >= 1
    requires forall k :: 0 <= k < |members| ==> UserRegistered(users, members[k])
    requires forall k :: 0 <= k < |members| ==> ',' !in FindUser(users, members[k]).value.handleStr
    ensures SplitNames(DmName(users, members, leq)) == Handles(SortByHandle(MemberRecords(users, members), leq))
  {
    var records := MemberRecords(users, members);
    var sorted := SortByHandle(records, leq);
    var hs := Handles(sorted);
    forall k | 0 <= k < |hs| ensures ',' !in hs[k] {
      assert sorted[k] in multiset(records);
      var j :| 0 <= j < |records| && records[j] == sorted[k];
    }
    SplitJoinNames(hs);
  }

  // ---------------------------------------------------------------------
  // Per-user DM lists: an edit applied to the first record of each listed id
  // ---------------------------------------------------------------------

  function Ids(us: seq<StoredUser>): (ids: seq<int>)
    ensures |ids| == |us| && forall k :: 0 <= k < |us| ==> ids[k] == us[k].authUserId
  {
    seq(|us|, k requires 0 <= k < |us| => us[k].authUserId)
  }

  /** `after` is `before` with `dmId` appended to the DM list of the first record of each id in `ids`. */
  ghost predicate DmAddedFor(before: seq<StoredUser>, after: seq<StoredUser>, ids: seq<int>, dmId: int) {
    |after| == |before| &&
    forall i :: 0 <= i < |before| ==>
      after[i] == if IsFirstUser(before, i) && before[i].authUserId in ids
                  then before[i].(dms := before[i].dms + [dmId]) else before[i]
  }

  /** `after` is `before` with `dmId` filtered out of the DM list of the first record of each id in `ids`. */
  ghost predicate DmDroppedFor(before: seq<StoredUser>, after: seq<StoredUser>, ids: seq<int>, dmId: int) {
    |after| == |before| &&
    forall i :: 0 <= i < |before| ==>
      after[i] == if IsFirstUser(before, i) && before[i].authUserId in ids
                  then before[i].(dms := Without(before[i].dms, dmId)) else before[i]
  }

  /** After DmAddedFor, looking up each listed user finds their old record with `dmId` appended. */
  lemma {:induction false} DmAddedForFindUser(before: seq<StoredUser>, after: seq<StoredUser>, ids: seq<int>, dmId: int, id: int)
    requires DmAddedFor(before, after, ids, dmId)
    requires id in ids && UserRegistered(before, id)
    ensures UserRegistered(after, id)
    ensures FindUser(after, id).value == FindUser(before, id).value.(dms := FindUser(before, id).value.dms + [dmId])
  {
    forall k | 0 <= k < |before| ensures after[k].authUserId == before[k].authUserId {
    }
    FirstIndexSameMatches(before, after, (u: StoredUser) => u.authUserId == id);
  }

  /** After DmDroppedFor, no listed user's record lists `dmId` any more. */
  lemma {:induction false} DmDroppedForFindUser(before: seq<StoredUser>, after: seq<StoredUser>, ids: seq<int>, dmId: int, id: int)
    requires DmDroppedFor(before, after, ids, dmId)
    requires id in ids && UserRegistered(before, id)
    ensures UserRegistered(after, id)
    ensures FindUser(after, id).value == FindUser(before, id).value.(dms := Without(FindUser(before, id).value.dms, dmId))
    ensures dmId !in FindUser(after, id).value.dms
  {
    forall k | 0 <= k < |before| ensures after[k].authUserId == before[k].authUserId {
    }
    FirstIndexSameMatches(before, after, (u: StoredUser) => u.authUserId == id);
  }

  /** One step of the naming loop keeps DmAddedFor when the next id is registered and not yet done. */
  lemma AddDmStep(before: seq<StoredUser>, current: seq<StoredUser>, done: seq<int>, dmId: int, id: int)
    requires DmAddedFor(before, current, done, dmId)
    requires UserRegistered(before, id) && id !in done
    ensures UserRegistered(current, id) && UserIndex(current, id) == UserIndex(before, id)
    ensures var ui := UserIndex(current, id);
            DmAddedFor(before, current[ui := current[ui].(dms := current[ui].dms + [dmId])], done + [id], dmId)
  {
    forall k | 0 <= k < |before| ensures current[k].authUserId == before[k].authUserId {
    }
    FirstIndexSameMatches(before, current, (u: StoredUser) => u.authUserId == id);
    var ui := UserIndex(before, id);
    var next := current[ui := current[ui].(dms := current[ui].dms + [dmId])];
    forall i | 0 <= i < |before|
      ensures next[i] == if IsFirstUser(before, i) && before[i].authUserId in done + [id]
                         then before[i].(dms := before[i].dms + [dmId]) else before[i]
    {
      if i != ui && IsFirstUser(before, i) {
        assert before[i].authUserId != id;
      }
    }
  }

  /** One step of the removal loop keeps DmDroppedFor, whether or not the id was seen before. */
  lemma DropDmStep(before: seq<StoredUser>, current: seq<StoredUser>, done: seq<int>, dmId: int, id: int)
    requires DmDroppedFor(before, current, done, dmId)
    requires UserRegistered(before, id)
    ensures UserRegistered(current, id) && UserIndex(current, id) == UserIndex(before, id)
    ensures var ui := UserIndex(current, id);
            DmDroppedFor(before, current[ui := current[ui].(dms := Without(current[ui].dms, dmId))], done + [id], dmId)
  {
    forall k | 0 <= k < |before| ensures current[k].authUserId == before[k].authUserId {
    }
    FirstIndexSameMatches(before, current, (u: StoredUser) => u.authUserId == id);
    var ui := UserIndex(before, id);
    WithoutIdempotent(before[ui].dms, dmId);
    var next := current[ui := current[ui].(dms := Without(current[ui].dms, dmId))];
    forall i | 0 <= i < |before|
      ensures next[i] == if IsFirstUser(before, i) && before[i].authUserId in done + [id]
                         then before[i].(dms := Without(before[i].dms, dmId)) else before[i]
    {
      if i != ui && IsFirstUser(before, i) {
        assert before[i].authUserId != id;
      }
    }
  }

  /** Only which ids are listed matters, not their order. */
  lemma DmAddedForSameIds(before: seq<StoredUser>, after: seq<StoredUser>, ids: seq<int>, ids2: seq<int>, dmId: int)
    requires DmAddedFor(before, after, ids, dmId)
    requires forall x :: x in ids <==> x in ids2
    ensures DmAddedFor(before, after, ids2, dmId)
  {
  }

  // ---------------------------------------------------------------------
  // Store-wide filters of dmRemoveV2
  // ---------------------------------------------------------------------

  /** Concatenation with a non-empty left part starts with its head, followed by the rest. */
  lemma ConsConcat<T>(a: seq<T>, b: seq<T>)
    requires a != []
    ensures a + b != [] && (a + b)[0] == a[0] && (a + b)[1..] == a[1..] + b
  {
  }

  /** `data.dms.filter((dm) => dm.dmId !== dmId)` */
  function DmsWithout(dms: seq<Dm>, dmId: int): (r: seq<Dm>)
    ensures forall d :: d in r <==> d in dms && d.dmId != dmId
    ensures !DmExists(r, dmId)
  {
    if dms == [] then []
    else (if dms[0].dmId == dmId then [] else [dms[0]]) + DmsWithout(dms[1..], dmId)
  }

  /** The filter keeps every other DM as often as it occurred and drops the removed ones entirely. */
  lemma {:induction false} DmsWithoutCounts(s: seq<Dm>, dmId: int)
    ensures forall x :: multiset(DmsWithout(s, dmId))[x] == if x.dmId == dmId then 0 else multiset(s)[x]
  {
    if s != [] {
      DmsWithoutCounts(s[1..], dmId);
      assert s == [s[0]] + s[1..];
    }
  }

  /** Concatenation is associative. */
  lemma ConcatAssoc<T>(h: seq<T>, x: seq<T>, y: seq<T>)
    ensures h + (x + y) == (h + x) + y
  {
  }

  /** One unfolding of the filter on a concatenation with a non-empty left part. */
  lemma DmsWithoutStep(a: seq<Dm>, b: seq<Dm>, dmId: int)
    requires a != []
    ensures DmsWithout(a + b, dmId) == (if a[0].dmId == dmId then [] else [a[0]]) + DmsWithout(a[1..] + b, dmId)
  {
    ConsConcat(a, b);
  }

  /** The filter distributes over concatenation, so the kept DMs stay in store order. */
  lemma {:induction false} DmsWithoutConcat(a: seq<Dm>, b: seq<Dm>, dmId: int)
    ensures DmsWithout(a + b, dmId) == DmsWithout(a, dmId) + DmsWithout(b, dmId)
  {
    if a == [] {
      assert a + b == b;
    } else {
      var head := if a[0].dmId == dmId then [] else [a[0]];
      var x, y := DmsWithout(a[1..], dmId), DmsWithout(b, dmId);
      DmsWithoutConcat(a[1..], b, dmId);
      DmsWithoutStep(a, b, dmId);
      assert DmsWithout(a, dmId) == head + x;
      ConcatAssoc(head, x, y);
    }
  }

  /** `data.messages.filter((m) => !ids.includes(m.messageId))` */
  function MessagesWithout(messages: seq<StoredMessage>, ids: seq<int>): (r: seq<StoredMessage>)
    ensures forall m :: m in r <==> m in messages && m.messageId !in ids
    ensures forall id :: id in ids ==> !MessageStored(r, id)
  {
    if messages == [] then []
    else (if messages[0].messageId in ids then [] else [messages[0]]) + MessagesWithout(messages[1..], ids)
  }

  /** The filter keeps every other message as often as it occurred and drops the removed ones entirely. */
  lemma {:induction false} MessagesWithoutCounts(s: seq<StoredMessage>, ids: seq<int>)
    ensures forall x :: multiset(MessagesWithout(s, ids))[x] == if x.messageId in ids then 0 else multiset(s)[x]
  {
    if s != [] {
      MessagesWithoutCounts(s[1..], ids);
      assert s == [s[0]] + s[1..];
    }
  }

  /** One unfolding of the filter on a concatenation with a non-empty left part. */
  lemma MessagesWithoutStep(a: seq<StoredMessage>, b: seq<StoredMessage>, ids: seq<int>)
    requires a != []
    ensures MessagesWithout(a + b, ids) == (if a[0].messageId in ids then [] else [a[0]]) + MessagesWithout(a[1..] + b, ids)
  {
    ConsConcat(a, b);
  }

  /** The filter distributes over concatenation, so the kept messages stay in store order. */
  lemma {:induction false} MessagesWithoutConcat(a: seq<StoredMessage>, b: seq<StoredMessage>, ids: seq<int>)
    ensures MessagesWithout(a + b, ids) == MessagesWithout(a, ids) + MessagesWithout(b, ids)
  {
    if a == [] {
      assert a + b == b;
    } else {
      var head := if a[0].messageId in ids then [] else [a[0]];
      var x, y := MessagesWithout(a[1..], ids), MessagesWithout(b, ids);
      MessagesWithoutConcat(a[1..], b, ids);
      MessagesWithoutStep(a, b, ids);
      assert MessagesWithout(a, ids) == head + x;
      ConcatAssoc(head, x, y);
    }
  }

  /** Every owner of every DM is also one of its members. */
  predicate DmOwnersAreMembers(dms: seq<Dm>) {
    forall k, u :: 0 <= k < |dms| && u in dms[k].ownerMembers ==> u in dms[k].allMembers
  }

  // ---------------------------------------------------------------------
  // The loops of dmCreateV2
  // ---------------------------------------------------------------------

  /** `for (const uId of uIds) users.push(findUser(uId))` */
  method CollectMembers(users: seq<StoredUser>, ids: seq<int>) returns (records: seq<StoredUser>)
    requires forall k :: 0 <= k < |ids| ==> UserRegistered(users, ids[k])
    ensures records == MemberRecords(users, ids)
  {
    records := [];
    for k := 0 to |ids|
      invariant |records| == k
      invariant forall j :: 0 <= j < k ==> records[j] == FindUser(users, ids[j]).value
    {
      records := records + [users[UserIndex(users, ids[k])]];
    }
  }

  /** Distinct members have distinct records. */
  lemma RecordsDistinct(users: seq<StoredUser>, members: seq<int>)
    requires forall k :: 0 <= k < |members| ==> UserRegistered(users, members[k])
    requires !HasDuplicate(members)
    ensures !HasDuplicate(MemberRecords(users, members))
  {
    var records := MemberRecords(users, members);
    forall a, b | 0 <= a < b < |records| ensures records[a] != records[b] {
      assert records[a].authUserId == members[a] && records[b].authUserId == members[b];
    }
  }

  /** Every sorted record is the record found for its own id, and the sorted records list exactly the members. */
  lemma SortedRecords(users: seq<StoredUser>, members: seq<int>, sorted: seq<StoredUser>)
    requires forall k :: 0 <= k < |members| ==> UserRegistered(users, members[k])
    requires multiset(sorted) == multiset(MemberRecords(users, members))
    ensures forall k :: 0 <= k < |sorted| ==> UserRegistered(users, sorted[k].authUserId) &&
                                              sorted[k] == FindUser(users, sorted[k].authUserId).value
    ensures forall x :: x in Ids(sorted) <==> x in members
  {
    var records := MemberRecords(users, members);
    forall k | 0 <= k < |sorted|
      ensures UserRegistered(users, sorted[k].authUserId) && sorted[k] == FindUser(users, sorted[k].authUserId).value
    {
      assert sorted[k] in multiset(records);
      var j :| 0 <= j < |records| && records[j] == sorted[k];
    }
    forall x ensures x in Ids(sorted) <==> x in members {
      if x in members {
        var j :| 0 <= j < |members| && members[j] == x;
        assert records[j] in multiset(sorted);
        var k :| 0 <= k < |sorted| && sorted[k] == records[j];
        assert Ids(sorted)[k] == x;
      }
      if x in Ids(sorted) {
        var k :| 0 <= k < |sorted| && Ids(sorted)[k] == x;
        assert sorted[k] in multiset(records);
        var j :| 0 <= j < |records| && records[j] == sorted[k];
        assert members[j] == x;
      }
    }
  }

  /** Distinct records, each found by its own id, carry distinct ids. */
  lemma DistinctRecordsDistinctIds(users: seq<StoredUser>, sorted: seq<StoredUser>)
    requires !HasDuplicate(sorted)
    requires forall k :: 0 <= k < |sorted| ==> UserRegistered(users, sorted[k].authUserId) &&
                                               sorted[k] == FindUser(users, sorted[k].authUserId).value
    ensures forall a, b :: 0 <= a < b < |sorted| ==> sorted[a].authUserId != sorted[b].authUserId
  {
    forall a, b | 0 <= a < b < |sorted| ensures sorted[a].authUserId != sorted[b].authUserId {
      assert sorted[a] != sorted[b];
    }
  }

  lemma PrefixSnoc(us: seq<StoredUser>, k: nat)
    requires k < |us|
    ensures Handles(us[..k + 1]) == Handles(us[..k]) + [us[k].handleStr]
    ensures Ids(us[..k + 1]) == Ids(us[..k]) + [us[k].authUserId]
    ensures us[k].authUserId !in Ids(us[..k]) <==> forall j :: 0 <= j < k ==> us[j].authUserId != us[k].authUserId
  {
  }

  /**
   * The naming loop: each sorted member's handle is appended followed by ", ",
   * and `dmId` is pushed onto that member's DM list.
   */
  method NameAndAddDm(data: Data, sorted: seq<StoredUser>, dmId: int) returns (dmName: string)
    requires forall a, b :: 0 <= a < b < |sorted| ==> sorted[a].authUserId != sorted[b].authUserId
    requires forall k :: 0 <= k < |sorted| ==> UserRegistered(data.users, sorted[k].authUserId)
    modifies data`users
    ensures dmName == WithSeparators(Handles(sorted))
    ensures DmAddedFor(old(data.users), data.users, Ids(sorted), dmId)
  {
    dmName := "";
    ghost var before := data.users;
    for k := 0 to |sorted|
      invariant dmName == WithSeparators(Handles(sorted[..k]))
      invariant DmAddedFor(before, data.users, Ids(sorted[..k]), dmId)
    {
      var user := sorted[k];
      PrefixSnoc(sorted, k);
      WithSeparatorsSnoc(Handles(sorted[..k]), user.handleStr);
      dmName := dmName + user.handleStr + ", ";
      AddDmStep(before, data.users, Ids(sorted[..k]), dmId, user.authUserId);
      var ui := UserIndex(data.users, user.authUserId);
      data.users := data.users[ui := data.users[ui].(dms := data.users[ui].dms + [dmId])];
    }
    assert sorted[..|sorted|] == sorted;
  }

  /** The loop of `dmRemoveV2` that filters `dmId` out of each member's DM list. */
  method DropDmFromMembers(data: Data, members: seq<int>, dmId: int)
    requires forall k :: 0 <= k < |members| ==> UserRegistered(data.users, members[k])
    modifies data`users
    ensures DmDroppedFor(old(data.users), data.users, members, dmId)
  {
    ghost var before := data.users;
    for k := 0 to |members|
      invariant DmDroppedFor(before, data.users, members[..k], dmId)
    {
      var uId := members[k];
      assert members[..k + 1] == members[..k] + [uId];
      DropDmStep(before, data.users, members[..k], dmId, uId);
      var ui := UserIndex(data.users, uId);
      data.users := data.users[ui := data.users[ui].(dms := Without(data.users[ui].dms, dmId))];
    }
    assert members[..|members|] == members;
  }

  /**
   * The success path of `dmCreateV2` once the members are known to be
   * registered and distinct: collect their records, sort them by handle, build
   * the name while adding `dmId` to each member's list, and store the DM.
   */
  method AddDm(data: Data, members: seq<int>, dmId: int, leq: (string, string) -> bool)
    requires |members| >= 1
    requires forall k :: 0 <= k < |members| ==> UserRegistered(data.users, members[k])
    requires !HasDuplicate(members)
    modifies data`users, data`dms
    ensures data.dms == old(data.dms) + [Dm(dmId, DmName(old(data.users), members, leq), [members[0]], members, [])]
    ensures DmAddedFor(old(data.users), data.users, members, dmId)
  {
    var users := CollectMembers(data.users, members);
    var sorted := SortByHandle(users, leq);
    RecordsDistinct(data.users, members);
    PermutationKeepsDuplicates(users, sorted);
    SortedRecords(data.users, members, sorted);
    DistinctRecordsDistinctIds(data.users, sorted);
    var dmName := NameAndAddDm(data, sorted, dmId);
    DmAddedForSameIds(old(data.users), data.users, Ids(sorted), members, dmId);
    WithSeparatorsIsJoin(Handles(sorted));
    var name := dmName[..|dmName| - 2];
    data.dms := data.dms + [Dm(dmId, name, [members[0]], members, [])];
  }

  // ---------------------------------------------------------------------
  // Handlers
  // ---------------------------------------------------------------------

  /**
   * `dmCreateV2`: an unknown token is forbidden; an unregistered id in `uIds`
   * is a bad request, and so is a repeated id once the creator is put in
   * front, including the creator listing themselves. On success the new DM
   * (with the fresh `dmId` the caller supplies) is appended with the creator as
   * its only owner, the creator followed by `uIds` as its members, no messages,
   * and the members' handles in collation order as its name; `dmId` is appended
   * to every member's DM list.
   */
  method DmCreateV2(data: Data, token: string, uIds: seq<int>, dmId: int, leq: (string, string) -> bool)
    returns (r: Result<int>)
    requires (token in data.tokens && (forall x :: x in uIds ==> UserRegistered(data.users, x)) &&
              !HasDuplicate([data.tokens[token]] + uIds)) ==> UserRegistered(data.users, data.tokens[token])
    requires !DmExists(data.dms, dmId)
    modifies data`users, data`dms
    ensures token !in old(data.tokens) ==> r == Forbidden
    ensures token in old(data.tokens) ==>
              (r == BadRequest <==> (exists x :: x in uIds && !UserRegistered(old(data.users), x)) ||
                                    HasDuplicate([old(data.tokens)[token]] + uIds))
    ensures r.Ok? <==> token in old(data.tokens) && (forall x :: x in uIds ==> UserRegistered(old(data.users), x)) &&
                       !HasDuplicate([old(data.tokens)[token]] + uIds)
    ensures !r.Ok? ==> data.users == old(data.users) && data.dms == old(data.dms)
    ensures r.Ok? ==>
              var members := [old(data.tokens)[token]] + uIds;
              (forall k :: 0 <= k < |members| ==> UserRegistered(old(data.users), members[k])) &&
              r.value == dmId &&
              data.dms == old(data.dms) + [Dm(dmId, DmName(old(data.users), members, leq), [members[0]], members, [])] &&
              DmAddedFor(old(data.users), data.users, members, dmId)
    ensures DmOwnersAreMembers(old(data.dms)) ==> DmOwnersAreMembers(data.dms)
  {
    if token !in data.tokens {
      return Forbidden;
    }
    var valid := IsUIdsValid(uIds, data.users);
    if !valid {
      return BadRequest;
    }
    var authUserId := data.tokens[token];
    var members := [authUserId] + uIds;
    var duplicate := IsDuplicate(members);
    if duplicate {
      return BadRequest;
    }
    assert forall k :: 0 <= k < |members| ==> UserRegistered(data.users, members[k]) by {
      forall k | 0 <= k < |members| ensures UserRegistered(data.users, members[k]) {
        if k > 0 {
          assert members[k] == uIds[k - 1] && uIds[k - 1] in uIds;
        }
      }
    }
    AddDm(data, members, dmId, leq);
    return Ok(dmId);
  }

  /**
   * `dmListV2`: an unknown token is forbidden; otherwise one `{dmId, name}` per
   * id on the caller's DM list, in that order, with the name of the first DM
   * with that id.
   */
  method DmListV2(data: Data, token: string) returns (r: Result<seq<DmSummary>>)
    requires token in data.tokens ==> UserRegistered(data.users, data.tokens[token])
    requires (token in data.tokens && UserRegistered(data.users, data.tokens[token])) ==>
               var dms := FindUser(data.users, data.tokens[token]).value.dms;
               forall k :: 0 <= k < |dms| ==> DmExists(data.dms, dms[k])
    ensures r == Forbidden <==> token !in data.tokens
    ensures !r.BadRequest?
    ensures r.Ok? ==>
              var u := FindUser(data.users, data.tokens[token]).value;
              |r.value| == |u.dms| &&
              (forall k :: 0 <= k < |u.dms| ==> DmExists(data.dms, u.dms[k])) &&
              forall k :: 0 <= k < |u.dms| ==> r.value[k] == DmSummary(u.dms[k], FindDm(data.dms, u.dms[k]).value.name)
  {
    if token !in data.tokens {
      return Forbidden;
    }
    var authUserId := data.tokens[token];
    var authUser := data.users[UserIndex(data.users, authUserId)];
    assert authUser in data.users;
    var dmList: seq<DmSummary> := [];
    for k := 0 to |authUser.dms|
      invariant |dmList| == k
      invariant forall j :: 0 <= j < k ==> DmExists(data.dms, authUser.dms[j]) &&
                                           dmList[j] == DmSummary(authUser.dms[j], FindDm(data.dms, authUser.dms[j]).value.name)
    {
      var dmId := authUser.dms[k];
      assert dmId in authUser.dms;
      dmList := dmList + [DmSummary(dmId, data.dms[DmIndex(data.dms, dmId)].name)];
    }
    return Ok(dmList);
  }

  /**
   * `dmRemoveV2`: an unknown token is forbidden, an unknown DM a bad request,
   * and a caller who is not a member, or a member who is not an owner,
   * forbidden. On success the DM id is filtered out of the DM list of every
   * member, every DM with that id is dropped, and every stored message whose id
   * the DM listed is deleted; all other DMs and messages stay, in order.
   */
  method DmRemoveV2(data: Data, token: string, dmId: int) returns (r: Result<()>)
    requires (token in data.tokens && DmExists(data.dms, dmId) &&
              IsDmMember(data.dms, data.tokens[token], dmId) && IsDmOwner(data.dms, data.tokens[token], dmId)) ==>
               AllRegistered(data.users, FindDm(data.dms, dmId).value.allMembers)
    modifies data`users, data`dms, data`messages
    ensures token !in old(data.tokens) ==> r == Forbidden
    ensures token in old(data.tokens) && !DmExists(old(data.dms), dmId) ==> r == BadRequest
    ensures (token in old(data.tokens) && DmExists(old(data.dms), dmId) &&
             (!IsDmMember(old(data.dms), old(data.tokens)[token], dmId) ||
              !IsDmOwner(old(data.dms), old(data.tokens)[token], dmId))) ==> r == Forbidden
    ensures r.Ok? <==> token in old(data.tokens) && DmExists(old(data.dms), dmId) &&
                       IsDmMember(old(data.dms), old(data.tokens)[token], dmId) &&
                       IsDmOwner(old(data.dms), old(data.tokens)[token], dmId)
    ensures !r.Ok? ==> data.users == old(data.users) && data.dms == old(data.dms) && data.messages == old(data.messages)
    ensures r.Ok? ==>
              var dm := FindDm(old(data.dms), dmId).value;
              DmDroppedFor(old(data.users), data.users, dm.allMembers, dmId) &&
              data.dms == DmsWithout(old(data.dms), dmId) &&
              data.messages == MessagesWithout(old(data.messages), dm.messages)
    ensures DmOwnersAreMembers(old(data.dms)) ==> DmOwnersAreMembers(data.dms)
  {
    if token !in data.tokens {
      return Forbidden;
    }
    var valid := IsDmValid(data.dms, dmId);
    if !valid {
      return BadRequest;
    }
    var authUserId := data.tokens[token];
    if !IsDmMember(data.dms, authUserId, dmId) {
      return Forbidden;
    } else if !IsDmOwner(data.dms, authUserId, dmId) {
      return Forbidden;
    }
    var dm := data.dms[DmIndex(data.dms, dmId)];
    DropDmFromMembers(data, dm.allMembers, dmId);
    data.dms := DmsWithout(data.dms, dmId);
    data.messages := MessagesWithout(data.messages, dm.messages);
    return Ok(());
  }

  /**
   * `dmDetailsV2`: an unknown token is forbidden, an unknown DM a bad request,
   * a caller who is not a member forbidden; otherwise the DM's name and the
   * profiles of its members, in member order.
   */
  method DmDetailsV2(data: Data, token: string, dmId: int) returns (r: Result<DmDetails>)
    requires (token in data.tokens && DmExists(data.dms, dmId) && IsDmMember(data.dms, data.tokens[token], dmId)) ==>
               AllRegistered(data.users, FindDm(data.dms, dmId).value.allMembers)
    ensures token !in data.tokens ==> r == Forbidden
    ensures token in data.tokens && !DmExists(data.dms, dmId) ==> r == BadRequest
    ensures (token in data.tokens && DmExists(data.dms, dmId) &&
             !IsDmMember(data.dms, data.tokens[token], dmId)) ==> r == Forbidden
    ensures r.Ok? <==> token in data.tokens && DmExists(data.dms, dmId) && IsDmMember(data.dms, data.tokens[token], dmId)
    ensures r.Ok? ==>
              var d := FindDm(data.dms, dmId).value;
              r.value.name == d.name &&
              (forall k :: 0 <= k < |d.allMembers| ==> UserRegistered(data.users, d.allMembers[k])) &&
              ProfilesOf(data.users, d.allMembers, r.value.members)
  {
    if token !in data.tokens {
      return Forbidden;
    }
    var valid := IsDmValid(data.dms, dmId);
    if !valid {
      return BadRequest;
    }
    var authUserId := data.tokens[token];
    if !IsDmMember(data.dms, authUserId, dmId) {
      return Forbidden;
    }
    var di := DmIndex(data.dms, dmId);
    var dm := data.dms[di];
    var members := UserProfiles(data.users, dm.allMembers);
    return Ok(DmDetails(dm.name, members));
  }

  /**
   * `dmLeaveV2`: an unknown token is forbidden, an unknown DM a bad request, a
   * caller who is not a member forbidden. On success the DM id is filtered out
   * of the caller's DM list and the caller out of the DM's members and owners;
   * the DM stays, under its old name, even with no members left.
   */
  method DmLeaveV2(data: Data, token: string, dmId: int) returns (r: Result<()>)
    requires (token in data.tokens && DmExists(data.dms, dmId) && IsDmMember(data.dms, data.tokens[token], dmId)) ==>
               UserRegistered(data.users, data.tokens[token])
    modifies data`users, data`dms
    ensures token !in old(data.tokens) ==> r == Forbidden
    ensures token in old(data.tokens) && !DmExists(old(data.dms), dmId) ==> r == BadRequest
    ensures (token in old(data.tokens) && DmExists(old(data.dms), dmId) &&
             !IsDmMember(old(data.dms), old(data.tokens)[token], dmId)) ==> r == Forbidden
    ensures r.Ok? <==> token in old(data.tokens) && DmExists(old(data.dms), dmId) &&
                       IsDmMember(old(data.dms), old(data.tokens)[token], dmId)
    ensures !r.Ok? ==> data.users == old(data.users) && data.dms == old(data.dms)
    ensures r.Ok? ==>
              var auth := old(data.tokens)[token];
              var ui := UserIndex(old(data.users), auth);
              var di := DmIndex(old(data.dms), dmId);
              var u := old(data.users)[ui];
              var d := old(data.dms)[di];
              data.users == old(data.users)[ui := u.(dms := Without(u.dms, dmId))] &&
              data.dms == old(data.dms)[di := d.(allMembers := Without(d.allMembers, auth),
                                                ownerMembers := Without(d.ownerMembers, auth))] &&
              DmExists(data.dms, dmId) && FindDm(data.dms, dmId).value.name == d.name &&
              auth !in FindDm(data.dms, dmId).value.allMembers &&
              UserRegistered(data.users, auth) && dmId !in FindUser(data.users, auth).value.dms
    ensures DmOwnersAreMembers(old(data.dms)) ==> DmOwnersAreMembers(data.dms)
  {
    if token !in data.tokens {
      return Forbidden;
    }
    var valid := IsDmValid(data.dms, dmId);
    if !valid {
      return BadRequest;
    }
    var authUserId := data.tokens[token];
    if !IsDmMember(data.dms, authUserId, dmId) {
      return Forbidden;
    }
    var ui := UserIndex(data.users, authUserId);
    var user := data.users[ui];
    data.users := data.users[ui := user.(dms := Without(user.dms, dmId))];
    var di := DmIndex(data.dms, dmId);
    var dm := data.dms[di];
    dm := dm.(allMembers := Without(dm.allMembers, authUserId));
    dm := dm.(ownerMembers := Without(dm.ownerMembers, authUserId));
    data.dms := data.dms[di := dm];
    FirstIndexSameMatches(old(data.users), data.users, (u: StoredUser) => u.authUserId == authUserId);
    FirstIndexSameMatches(old(data.dms), data.dms, (d: Dm) => d.dmId == dmId);
    return Ok(());
  }

  /**
   * `dmMessagesV2`: after the token, DM and membership checks, the page of the
   * DM's message ids that starts at `start`, by the same window as channels.
   */
  method DmMessagesV2(data: Data, token: string, dmId: int, start: nat) returns (r: Result<PaginatedMessages>)
    requires (token in data.tokens && DmExists(data.dms, dmId) && IsDmMember(data.dms, data.tokens[token], dmId) &&
              start <= |FindDm(data.dms, dmId).value.messages|) ==>
               AllStored(data.messages, PageIds(FindDm(data.dms, dmId).value.messages, start))
    ensures token !in data.tokens ==> r == Forbidden
    ensures token in data.tokens && !DmExists(data.dms, dmId) ==> r == BadRequest
    ensures (token in data.tokens && DmExists(data.dms, dmId) &&
             !IsDmMember(data.dms, data.tokens[token], dmId)) ==> r == Forbidden
    ensures token in data.tokens && DmExists(data.dms, dmId) && IsDmMember(data.dms, data.tokens[token], dmId) ==>
              var ids := FindDm(data.dms, dmId).value.messages;
              (r == BadRequest <==> |ids| < start) &&
              (r.Ok? <==> start <= |ids|) &&
              (r.Ok? ==> r.value.start == start && r.value.end == PageWindow(|ids|, start).end &&
                         PageShows(data.messages, data.tokens[token], PageIds(ids, start), r.value.messages))
  {
    if token !in data.tokens {
      return Forbidden;
    }
    var valid := IsDmValid(data.dms, dmId);
    if !valid {
      return BadRequest;
    }
    var authUserId := data.tokens[token];
    var dm := data.dms[DmIndex(data.dms, dmId)];
    if !IsDmMember(data.dms, authUserId, dmId) {
      return Forbidden;
    }
    r := ListPage(data.messages, authUserId, dm.messages, start);
  }
}
