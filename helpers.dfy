/**
 * The predicate and lookup layer of src/helperFunctions/helperFunctions.ts:
 * existence scans, membership and ownership tests, lookups by id, duplicate
 * detection, the name-length check, handle-string generation and the
 * projection of reactions for one viewer. Every helper takes the part of the
 * store it reads as a parameter instead of fetching the live store itself.
 */
module Helpers {
  import opened DataStore

  /** Longest base handle, before a numeric suffix is added. */
  const MAX_HANDLE_BASE := 20

  /** Outcome of a handler: a value, or one of the two HTTP error classes, 400 and 403. */
  datatype Result<T> = Ok(value: T) | BadRequest | Forbidden

  // ---------------------------------------------------------------------
  // Lookups by id (Array.prototype.findIndex / find)
  // ---------------------------------------------------------------------

  /** Index of the first element satisfying `p`, or -1 when there is none. */
  function FirstIndex<T>(s: seq<T>, p: T -> bool): (i: int)
    ensures -1 <= i < |s|
    ensures i == -1 ==> forall k :: 0 <= k < |s| ==> !p(s[k])
    ensures 0 <= i ==> p(s[i]) && forall k :: 0 <= k < i ==> !p(s[k])
  {
    if |s| == 0 then -1
    else if p(s[0]) then 0
    else
      var j := FirstIndex(s[1..], p);
      if j == -1 then -1 else j + 1
  }

  predicate UserRegistered(users: seq<StoredUser>, id: int) {
    exists k :: 0 <= k < |users| && users[k].authUserId == id
  }

  predicate ChannelExists(channels: seq<Channel>, id: int) {
    exists k :: 0 <= k < |channels| && channels[k].channelId == id
  }

  predicate DmExists(dms: seq<Dm>, id: int) {
    exists k :: 0 <= k < |dms| && dms[k].dmId == id
  }

  predicate MessageStored(messages: seq<StoredMessage>, id: int) {
    exists k :: 0 <= k < |messages| && messages[k].messageId == id
  }

  function UserIndex(users: seq<StoredUser>, id: int): (i: int)
    ensures -1 <= i < |users|
    ensures i == -1 <==> !UserRegistered(users, id)
    ensures 0 <= i ==> users[i].authUserId == id && forall k :: 0 <= k < i ==> users[k].authUserId != id
  {
    FirstIndex(users, (u: StoredUser) => u.authUserId == id)
  }

  function ChannelIndex(channels: seq<Channel>, id: int): (i: int)
    ensures -1 <= i < |channels|
    ensures i == -1 <==> !ChannelExists(channels, id)
    ensures 0 <= i ==> channels[i].channelId == id && forall k :: 0 <= k < i ==> channels[k].channelId != id
  {
    FirstIndex(channels, (c: Channel) => c.channelId == id)
  }

  function DmIndex(dms: seq<Dm>, id: int): (i: int)
    ensures -1 <= i < |dms|
    ensures i == -1 <==> !DmExists(dms, id)
    ensures 0 <= i ==> dms[i].dmId == id && forall k :: 0 <= k < i ==> dms[k].dmId != id
  {
    FirstIndex(dms, (d: Dm) => d.dmId == id)
  }

  function MessageIndex(messages: seq<StoredMessage>, id: int): (i: int)
    ensures -1 <= i < |messages|
    ensures i == -1 <==> !MessageStored(messages, id)
    ensures 0 <= i ==> messages[i].messageId == id && forall k :: 0 <= k < i ==> messages[k].messageId != id
  {
    FirstIndex(messages, (m: StoredMessage) => m.messageId == id)
  }

  /** `findUser`: the first user with this id, or nothing. */
  function FindUser(users: seq<StoredUser>, id: int): (r: Option<StoredUser>)
    ensures r.Some? <==> UserRegistered(users, id)
    ensures r.Some? ==> r.value.authUserId == id && r.value == users[UserIndex(users, id)]
  {
    var i := UserIndex(users, id);
    if i == -1 then None else Some(users[i])
  }

  /** `findChannel`: the first channel with this id, or nothing. */
  function FindChannel(channels: seq<Channel>, id: int): (r: Option<Channel>)
    ensures r.Some? <==> ChannelExists(channels, id)
    ensures r.Some? ==> r.value.channelId == id && r.value == channels[ChannelIndex(channels, id)]
  {
    var i := ChannelIndex(channels, id);
    if i == -1 then None else Some(channels[i])
  }

  /** `findDm`: the first DM with this id, or nothing. */
  function FindDm(dms: seq<Dm>, id: int): (r: Option<Dm>)
    ensures r.Some? <==> DmExists(dms, id)
    ensures r.Some? ==> r.value.dmId == id && r.value == dms[DmIndex(dms, id)]
  {
    var i := DmIndex(dms, id);
    if i == -1 then None else Some(dms[i])
  }

  /** `findStoredMessageFromId`: the first stored message with this id, or nothing. */
  function FindStoredMessageFromId(messages: seq<StoredMessage>, id: int): (r: Option<StoredMessage>)
    ensures r.Some? <==> MessageStored(messages, id)
    ensures r.Some? ==> r.value.messageId == id && r.value == messages[MessageIndex(messages, id)]
  {
    var i := MessageIndex(messages, id);
    if i == -1 then None else Some(messages[i])
  }

  /** Two lists on which `p` holds at the same positions have the same first match. */
  lemma FirstIndexSameMatches<T>(a: seq<T>, b: seq<T>, p: T -> bool)
    requires |a| == |b|
    requires forall k :: 0 <= k < |a| ==> p(a[k]) == p(b[k])
    ensures FirstIndex(a, p) == FirstIndex(b, p)
  {
    var i := FirstIndex(a, p);
    if i == -1 {
      forall k | 0 <= k < |b| ensures !p(b[k]) {
        assert !p(a[k]);
      }
    } else {
      assert p(b[i]);
      forall k | 0 <= k < i ensures !p(b[k]) {
        assert !p(a[k]);
      }
    }
  }

  /** The first user record carrying its id; later records with the same id are shadowed. */
  ghost predicate IsFirstUser(users: seq<StoredUser>, i: int)
    requires 0 <= i < |users|
  {
    forall k :: 0 <= k < i ==> users[k].authUserId != users[i].authUserId
  }

  // ---------------------------------------------------------------------
  // Records a handler looks up and then dereferences without a check: when
  // one is missing the source crashes, so each handler requires the ones it
  // reaches on the path it takes
  // ---------------------------------------------------------------------

  /** Every listed id is a registered user. */
  predicate AllRegistered(users: seq<StoredUser>, ids: seq<int>) {
    forall k :: 0 <= k < |ids| ==> UserRegistered(users, ids[k])
  }

  /** Every listed id names a stored message. */
  predicate AllStored(messages: seq<StoredMessage>, ids: seq<int>) {
    forall k :: 0 <= k < |ids| ==> MessageStored(messages, ids[k])
  }

  // ---------------------------------------------------------------------
  // Membership and ownership
  // ---------------------------------------------------------------------

  /** `isMember`: is the user on the member list of the first channel with this id? */
  function IsMember(channels: seq<Channel>, uId: int, channelId: int): (r: bool)
    requires ChannelExists(channels, channelId)
    ensures r <==> uId in FindChannel(channels, channelId).value.allMembers
  {
    uId in channels[ChannelIndex(channels, channelId)].allMembers
  }

  /** `isOwner`: is the user on the owner list of the channel? */
  function IsOwner(channels: seq<Channel>, uId: int, channelId: int): (r: bool)
    requires ChannelExists(channels, channelId)
    ensures r <==> exists k :: 0 <= k < |channels| && channels[k].channelId == channelId &&
                              uId in channels[k].ownerMembers &&
                              forall j :: 0 <= j < k ==> channels[j].channelId != channelId
  {
    var c := FindChannel(channels, channelId).value;
    uId in c.ownerMembers
  }

  /** `isDmMember`: is the user on the member list of the DM? */
  function IsDmMember(dms: seq<Dm>, uId: int, dmId: int): (r: bool)
    requires DmExists(dms, dmId)
    ensures r <==> exists k :: 0 <= k < |dms| && dms[k].dmId == dmId &&
                              uId in dms[k].allMembers &&
                              forall j :: 0 <= j < k ==> dms[j].dmId != dmId
  {
    uId in FindDm(dms, dmId).value.allMembers
  }

  /** `isDmOwner`: is the user on the owner list of the DM? */
  function IsDmOwner(dms: seq<Dm>, uId: int, dmId: int): (r: bool)
    requires DmExists(dms, dmId)
    ensures r <==> exists k :: 0 <= k < |dms| && dms[k].dmId == dmId &&
                              uId in dms[k].ownerMembers &&
                              forall j :: 0 <= j < k ==> dms[j].dmId != dmId
  {
    uId in FindDm(dms, dmId).value.ownerMembers
  }

  /** `isReactIdValid`: is this one of the store's reaction kinds? */
  function IsReactIdValid(reactIds: seq<int>, reactId: int): (r: bool)
    ensures r <==> exists k :: 0 <= k < |reactIds| && reactIds[k] == reactId
  {
    reactId in reactIds
  }

  // ---------------------------------------------------------------------
  // Removing an id from a list (Array.prototype.filter with x !== v)
  // ---------------------------------------------------------------------

  /** The list with every occurrence of `v` dropped and everything else kept in order. */
  function Without(s: seq<int>, v: int): (r: seq<int>)
    ensures forall x :: x in r <==> x in s && x != v
    ensures |r| <= |s|
  {
    if s == [] then [] else (if s[0] == v then [] else [s[0]]) + Without(s[1..], v)
  }

  /** Filtering keeps every other value as often as it occurred and drops `v` entirely. */
  lemma {:induction false} WithoutCounts(s: seq<int>, v: int)
    ensures multiset(Without(s, v)) == multiset(s)[v := 0]
  {
    if s != [] {
      WithoutCounts(s[1..], v);
      assert s == [s[0]] + s[1..];
    }
  }

  /** Filtering a concatenation filters each part: relative order is kept. */
  lemma {:induction false} WithoutConcat(a: seq<int>, b: seq<int>, v: int)
    ensures Without(a + b, v) == Without(a, v) + Without(b, v)
  {
    if a == [] {
      assert a + b == b;
    } else {
      WithoutConcat(a[1..], b, v);
      var head := if a[0] == v then [] else [a[0]];
      calc {
        Without(a + b, v);
        { assert (a + b)[0] == a[0] && (a + b)[1..] == a[1..] + b; }
        head + Without(a[1..] + b, v);
        head + (Without(a[1..], v) + Without(b, v));
        (head + Without(a[1..], v)) + Without(b, v);
      }
    }
  }

  /** Filtering out a value that is not there changes nothing. */
  lemma {:induction false} WithoutAbsent(s: seq<int>, v: int)
    requires v !in s
    ensures Without(s, v) == s
  {
    if s != [] {
      WithoutAbsent(s[1..], v);
    }
  }

  /** Filtering twice is filtering once. */
  lemma WithoutIdempotent(s: seq<int>, v: int)
    ensures Without(Without(s, v), v) == Without(s, v)
  {
    WithoutAbsent(Without(s, v), v);
  }

  // ---------------------------------------------------------------------
  // Existence and availability scans
  // ---------------------------------------------------------------------

  /** `isAuthUserIdValid`: removed users still count as registered. */
  method IsAuthUserIdValid(users: seq<StoredUser>, authUserId: int) returns (valid: bool)
    ensures valid <==> UserRegistered(users, authUserId)
  {
    for k := 0 to |users|
      invariant forall j :: 0 <= j < k ==> users[j].authUserId != authUserId
    {
      if users[k].authUserId == authUserId {
        return true;
      }
    }
    return false;
  }

  /** `isChannelValid` */
  method IsChannelValid(channels: seq<Channel>, channelId: int) returns (valid: bool)
    ensures valid <==> ChannelExists(channels, channelId)
  {
    for k := 0 to |channels|
      invariant forall j :: 0 <= j < k ==> channels[j].channelId != channelId
    {
      if channels[k].channelId == channelId {
        return true;
      }
    }
    return false;
  }

  /** `isDmValid` */
  method IsDmValid(dms: seq<Dm>, dmId: int) returns (valid: bool)
    ensures valid <==> DmExists(dms, dmId)
  {
    for k := 0 to |dms|
      invariant forall j :: 0 <= j < k ==> dms[j].dmId != dmId
    {
      if dms[k].dmId == dmId {
        return true;
      }
    }
    return false;
  }

  /** `isMessageValid`: a message counts only once it has been sent. */
  method IsMessageValid(messages: seq<StoredMessage>, messageId: int) returns (valid: bool)
    ensures valid <==> exists k :: 0 <= k < |messages| && messages[k].messageId == messageId && messages[k].isSent
  {
    for k := 0 to |messages|
      invariant forall j :: 0 <= j < k ==> !(messages[j].messageId == messageId && messages[j].isSent)
    {
      if messages[k].messageId == messageId && messages[k].isSent {
        return true;
      }
    }
    return false;
  }

  /** Some user who has not been removed holds this email. */
  predicate EmailTaken(users: seq<StoredUser>, email: string) {
    exists k :: 0 <= k < |users| && users[k].email == email && !users[k].isRemoved
  }

  /** Some user who has not been removed holds this handle. */
  predicate HandleTaken(users: seq<StoredUser>, handle: string) {
    exists k :: 0 <= k < |users| && users[k].handleStr == handle && !users[k].isRemoved
  }

  /** `isAvaliableEmail` */
  method IsAvaliableEmail(email: string, users: seq<StoredUser>) returns (available: bool)
    ensures available <==> !EmailTaken(users, email)
  {
    for k := 0 to |users|
      invariant forall j :: 0 <= j < k ==> !(users[j].email == email && !users[j].isRemoved)
    {
      if users[k].email == email && !users[k].isRemoved {
        return false;
      }
    }
    return true;
  }

  /** `isAvaliableHandleString` */
  method IsAvaliableHandleString(handle: string, users: seq<StoredUser>) returns (available: bool)
    ensures available <==> !HandleTaken(users, handle)
  {
    for k := 0 to |users|
      invariant forall j :: 0 <= j < k ==> !(users[j].handleStr == handle && !users[j].isRemoved)
    {
      if users[k].handleStr == handle && !users[k].isRemoved {
        return false;
      }
    }
    return true;
  }

  /** `isUIdsValid`: every listed id is a registered user. */
  method IsUIdsValid(uIds: seq<int>, users: seq<StoredUser>) returns (valid: bool)
    ensures valid <==> forall x :: x in uIds ==> UserRegistered(users, x)
  {
    for k := 0 to |uIds|
      invariant forall j :: 0 <= j < k ==> UserRegistered(users, uIds[j])
    {
      var ok := IsAuthUserIdValid(users, uIds[k]);
      if !ok {
        return false;
      }
    }
    return true;
  }

  // ---------------------------------------------------------------------
  // Duplicates
  // ---------------------------------------------------------------------

  /** Some value occurs at two different positions. */
  ghost predicate HasDuplicate<T>(xs: seq<T>) {
    exists i, j :: 0 <= i < j < |xs| && xs[i] == xs[j]
  }

  /** `isDuplicate`: the nested scan over all pairs i < j. */
  method IsDuplicate(uIds: seq<int>) returns (duplicate: bool)
    ensures duplicate <==> HasDuplicate(uIds)
  {
    for i := 0 to |uIds|
      invariant forall a, b :: 0 <= a < i && a < b < |uIds| ==> uIds[a] != uIds[b]
    {
      for j := i + 1 to |uIds|
        invariant forall b :: i < b < j ==> uIds[i] != uIds[b]
      {
        if uIds[i] == uIds[j] {
          return true;
        }
      }
    }
    return false;
  }

  /** A list is duplicate-free exactly when no value occurs in it twice. */
  lemma {:induction false} DuplicateFreeIffCountsAtMostOne<T>(xs: seq<T>)
    ensures !HasDuplicate(xs) <==> forall x :: multiset(xs)[x] <= 1
  {
    if xs == [] {
    } else {
      var t := xs[1..];
      DuplicateFreeIffCountsAtMostOne(t);
      assert xs == [xs[0]] + t;
      assert multiset(xs) == multiset{xs[0]} + multiset(t);
      if HasDuplicate(xs) {
        var i, j :| 0 <= i < j < |xs| && xs[i] == xs[j];
        if i == 0 {
          assert xs[j] in t by { assert t[j - 1] == xs[j]; }
          assert multiset(xs)[xs[0]] >= 2;
        } else {
          assert t[i - 1] == t[j - 1];
          assert HasDuplicate(t);
          var x :| multiset(t)[x] > 1;
          assert multiset(xs)[x] > 1;
        }
      } else {
        forall a, b | 0 <= a < b < |t| ensures t[a] != t[b] {
          assert t[a] == xs[a + 1] && t[b] == xs[b + 1];
        }
        forall b | 0 <= b < |t| ensures t[b] != xs[0] {
          assert t[b] == xs[b + 1];
        }
        forall x ensures multiset(xs)[x] <= 1 {
          if x == xs[0] {
            assert multiset(t)[x] == 0;
          }
        }
      }
    }
  }

  /** Reordering a list neither creates nor removes duplicates. */
  lemma PermutationKeepsDuplicates<T>(a: seq<T>, b: seq<T>)
    requires multiset(a) == multiset(b)
    ensures HasDuplicate(a) <==> HasDuplicate(b)
  {
    DuplicateFreeIffCountsAtMostOne(a);
    DuplicateFreeIffCountsAtMostOne(b);
  }

  // ---------------------------------------------------------------------
  // Names and handle strings
  // ---------------------------------------------------------------------

  /** `nameInRange`: a first or last name has 1 to 50 characters. */
  function NameInRange(name: string): (r: bool)
    ensures r <==> 1 <= |name| <= 50
  {
    !(|name| < 1 || |name| > 50)
  }

  predicate IsAsciiUpper(c: char) { 'A' <= c <= 'Z' }

  predicate IsAsciiAlnum(c: char) { '0' <= c <= '9' || 'a' <= c <= 'z' || 'A' <= c <= 'Z' }

  predicate IsHandleChar(c: char) { '0' <= c <= '9' || 'a' <= c <= 'z' }

  function LowerChar(c: char): (r: char)
    ensures !IsAsciiUpper(r)
    ensures IsAsciiUpper(c) ==> 'a' <= r <= 'z' && r as int == c as int + 32
    ensures IsAsciiAlnum(c) <==> IsAsciiAlnum(r)
    ensures !IsAsciiUpper(c) ==> r == c
  {
    if IsAsciiUpper(c) then (c as int - 'A' as int + 'a' as int) as char else c
  }

  /** `toLowerCase`, on the ASCII letters. */
  function LowerAscii(s: string): (r: string)
    ensures |r| == |s|
    ensures forall k :: 0 <= k < |r| ==> r[k] == LowerChar(s[k])
  {
    seq(|s|, k requires 0 <= k < |s| => LowerChar(s[k]))
  }

  /** `replace(/[^0-9a-z]/gi, '')`: keep ASCII letters and digits, in order. */
  function KeepAlnum(s: string): (r: string)
    ensures |r| <= |s|
    ensures forall k :: 0 <= k < |r| ==> IsAsciiAlnum(r[k])
    ensures forall k :: 0 <= k < |s| && IsAsciiAlnum(s[k]) ==> s[k] in r
    ensures (forall k :: 0 <= k < |s| ==> !IsAsciiUpper(s[k])) ==> forall k :: 0 <= k < |r| ==> !IsAsciiUpper(r[k])
    ensures (forall k :: 0 <= k < |s| ==> IsAsciiAlnum(s[k])) ==> r == s
  {
    if s == [] then []
    else (if IsAsciiAlnum(s[0]) then [s[0]] else []) + KeepAlnum(s[1..])
  }

  /** A single character is kept exactly when it is an ASCII letter or digit. */
  lemma KeepAlnumChar(c: char)
    ensures KeepAlnum([c]) == if IsAsciiAlnum(c) then [c] else []
  {
    assert [c][1..] == [];
  }

  /**
   * Stripping works piece by piece: with KeepAlnumChar this pins the result
   * down as the letters and digits of the input, in order and with repeats.
   */
  lemma {:induction false} KeepAlnumConcat(a: string, b: string)
    ensures KeepAlnum(a + b) == KeepAlnum(a) + KeepAlnum(b)
  {
    if a == [] {
      assert a + b == b;
    } else {
      assert (a + b)[0] == a[0] && (a + b)[1..] == a[1..] + b;
      KeepAlnumConcat(a[1..], b);
    }
  }

  /**
   * The handle a user would get if nobody held it: both names lower-cased and
   * joined, everything but ASCII letters and digits dropped, cut to 20 characters.
   */
  function HandleBase(nameFirst: string, nameLast: string): (h: string)
    ensures |h| <= MAX_HANDLE_BASE
    ensures forall k :: 0 <= k < |h| ==> IsHandleChar(h[k])
    ensures var full := KeepAlnum(LowerAscii(nameFirst) + LowerAscii(nameLast));
            h <= full && (|full| <= MAX_HANDLE_BASE ==> h == full) && (|full| > MAX_HANDLE_BASE ==> |h| == MAX_HANDLE_BASE)
  {
    var joined := LowerAscii(nameFirst) + LowerAscii(nameLast);
    var stripped := KeepAlnum(joined);
    if |stripped| > MAX_HANDLE_BASE then stripped[..MAX_HANDLE_BASE] else stripped
  }

  function DigitChar(d: nat): (c: char)
    requires d < 10
    ensures '0' <= c <= '9'
  {
    ('0' as int + d) as char
  }

  /** `Number.prototype.toString()` on a natural number: its decimal numeral. */
  function NatToString(n: nat): (s: string)
    ensures 1 <= |s|
    ensures forall k :: 0 <= k < |s| ==> '0' <= s[k] <= '9'
    ensures s[0] == '0' <==> n == 0
  {
    if n < 10 then [DigitChar(n)] else NatToString(n / 10) + [DigitChar(n % 10)]
  }

  /** The number a string of decimal digits denotes, read from the left. */
  function NumeralValue(s: string): nat
    requires forall k :: 0 <= k < |s| ==> '0' <= s[k] <= '9'
  {
    if s == [] then 0 else 10 * NumeralValue(s[..|s| - 1]) + (s[|s| - 1] as int - '0' as int)
  }

  /** The numeral of n denotes n. */
  lemma {:induction false} NatToStringValue(n: nat)
    ensures NumeralValue(NatToString(n)) == n
  {
    var s := NatToString(n);
    if n < 10 {
      assert s[..0] == [];
    } else {
      assert s[..|s| - 1] == NatToString(n / 10);
      NatToStringValue(n / 10);
    }
  }

  /** Different numbers have different numerals, so numbered handles never repeat. */
  lemma NatToStringInjective(m: nat, n: nat)
    ensures NatToString(m) == NatToString(n) ==> m == n
  {
    NatToStringValue(m);
    NatToStringValue(n);
  }

  function Pow10(e: nat): (p: nat)
    ensures 1 <= p
  {
    if e == 0 then 1 else 10 * Pow10(e - 1)
  }

  /** A number of at least 10^e takes more than e digits. */
  lemma {:induction false} NumeralLength(n: nat, e: nat)
    ensures n >= Pow10(e) ==> |NatToString(n)| > e
  {
    if e > 0 && n >= Pow10(e) {
      assert n >= 10 * Pow10(e - 1);
      assert n / 10 >= Pow10(e - 1);
      NumeralLength(n / 10, e - 1);
    }
  }

  /** The longest handle held by a user who has not been removed. */
  function MaxHandleLength(users: seq<StoredUser>): (m: nat)
    ensures forall k :: 0 <= k < |users| && !users[k].isRemoved ==> |users[k].handleStr| <= m
  {
    if users == [] then 0
    else
      var rest := MaxHandleLength(users[1..]);
      if !users[0].isRemoved && |users[0].handleStr| > rest then |users[0].handleStr| else rest
  }

  /** A numbered candidate that somebody holds has a suffix below 10^(longest held handle). */
  lemma TakenSuffixBounded(users: seq<StoredUser>, base: string, n: nat)
    ensures HandleTaken(users, base + NatToString(n)) ==> n < Pow10(MaxHandleLength(users))
  {
    NumeralLength(n, MaxHandleLength(users));
    if HandleTaken(users, base + NatToString(n)) {
      var j :| 0 <= j < |users| && users[j].handleStr == base + NatToString(n) && !users[j].isRemoved;
    }
  }

  /** `handle` is `base` followed by the smallest number n >= 0 for which nobody holds it. */
  ghost predicate SmallestFreeNumbering(users: seq<StoredUser>, base: string, handle: string) {
    exists n: nat :: handle == base + NatToString(n) &&
      forall k: nat :: k < n ==> HandleTaken(users, base + NatToString(k))
  }

  /**
   * The `while` loop of `generateHandleStr`, entered when `base` is taken: try
   * `base + "0"`, `base + "1"`, ... until one is free.
   */
  method NumberHandle(users: seq<StoredUser>, base: string) returns (handle: string)
    requires HandleTaken(users, base)
    ensures !HandleTaken(users, handle)
    ensures SmallestFreeNumbering(users, base, handle)
  {
    var numberCat: nat := 0;
    var candidate := base;
    ghost var bound := Pow10(MaxHandleLength(users)) + 1;
    var free := false;
    while !free
      invariant free <==> !HandleTaken(users, candidate)
      invariant numberCat <= bound
      invariant numberCat == 0 ==> candidate == base
      invariant numberCat > 0 ==> candidate == base + NatToString(numberCat - 1)
      invariant forall k: nat :: k + 1 < numberCat ==> HandleTaken(users, base + NatToString(k))
      decreases bound - numberCat
    {
      if numberCat > 0 {
        TakenSuffixBounded(users, base, numberCat - 1);
        assert HandleTaken(users, base + NatToString(numberCat - 1));
      }
      ghost var takenBelow := numberCat;
      assert forall k: nat :: k + 1 < takenBelow + 1 ==> HandleTaken(users, base + NatToString(k));
      candidate := base + NatToString(numberCat);
      numberCat := numberCat + 1;
      free := IsAvaliableHandleString(candidate, users);
    }
    ghost var n: nat := numberCat - 1;
    assert candidate == base + NatToString(n);
    return candidate;
  }

  /**
   * `generateHandleStr`: the base handle when it is free; otherwise the base
   * followed by the smallest number n >= 0 that makes it free. The result is
   * never held by a user who has not been removed.
   */
  method GenerateHandleStr(users: seq<StoredUser>, nameFirst: string, nameLast: string) returns (handle: string)
    ensures !HandleTaken(users, handle)
    ensures !HandleTaken(users, HandleBase(nameFirst, nameLast)) ==> handle == HandleBase(nameFirst, nameLast)
    ensures HandleTaken(users, HandleBase(nameFirst, nameLast)) ==>
              SmallestFreeNumbering(users, HandleBase(nameFirst, nameLast), handle)
  {
    var handleString := HandleBase(nameFirst, nameLast);
    var free := IsAvaliableHandleString(handleString, users);
    if !free {
      handle := NumberHandle(users, handleString);
      return;
    }
    return handleString;
  }

  // ---------------------------------------------------------------------
  // Messages as a viewer sees them
  // ---------------------------------------------------------------------

  /** `shown` lists the reactions of `reacts`, in order, each marked for the viewer `uId`. */
  ghost predicate ReactsShownTo(uId: int, reacts: seq<React>, shown: seq<ReactReturn>) {
    |shown| == |reacts| &&
    forall k :: 0 <= k < |shown| ==>
      shown[k].reactId == reacts[k].reactId &&
      shown[k].uIds == reacts[k].uIds &&
      (shown[k].isThisUserReacted <==> uId in reacts[k].uIds)
  }

  /** `shown` is the stored message `m` as the viewer `uId` sees it. */
  ghost predicate MessageShownTo(uId: int, m: StoredMessage, shown: Message) {
    shown.messageId == m.messageId && shown.uId == m.uId && shown.message == m.message &&
    shown.timeSent == m.timeSent && shown.isPinned == m.isPinned &&
    ReactsShownTo(uId, m.reacts, shown.reacts)
  }

  /** `getReacts` */
  method GetReacts(uId: int, message: StoredMessage) returns (reactsReturn: seq<ReactReturn>)
    ensures ReactsShownTo(uId, message.reacts, reactsReturn)
  {
    reactsReturn := [];
    for k := 0 to |message.reacts|
      invariant ReactsShownTo(uId, message.reacts[..k], reactsReturn)
    {
      var react := message.reacts[k];
      var isThisUserReacted := false;
      if uId in react.uIds {
        isThisUserReacted := true;
      }
      reactsReturn := reactsReturn + [ReactReturn(react.reactId, react.uIds, isThisUserReacted)];
    }
    assert message.reacts[..|message.reacts|] == message.reacts;
  }

  /** `findMessageFromId`: the first stored message with this id, as the viewer sees it. */
  method FindMessageFromId(messages: seq<StoredMessage>, uId: int, messageId: int) returns (shown: Message)
    requires MessageStored(messages, messageId)
    ensures MessageShownTo(uId, FindStoredMessageFromId(messages, messageId).value, shown)
    ensures shown.messageId == messageId
  {
    var message := messages[MessageIndex(messages, messageId)];
    var reacts := GetReacts(uId, message);
    shown := Message(message.messageId, message.uId, message.message, message.timeSent, reacts, message.isPinned);
  }

  // ---------------------------------------------------------------------
  // Public profiles (the lookup loop channel.ts and dm.ts both write out)
  // ---------------------------------------------------------------------

  /** The public profile of a stored user. */
  function Profile(u: StoredUser): User {
    User(u.authUserId, u.email, u.nameFirst, u.nameLast, u.handleStr, u.profileImgUrl)
  }

  /** `profiles` lists, in order, the profile of the first user with each id. */
  ghost predicate ProfilesOf(users: seq<StoredUser>, ids: seq<int>, profiles: seq<User>)
    requires forall k :: 0 <= k < |ids| ==> UserRegistered(users, ids[k])
  {
    |profiles| == |ids| &&
    forall k :: 0 <= k < |profiles| ==> profiles[k] == Profile(FindUser(users, ids[k]).value)
  }

  /** The loop that looks up each listed user and keeps their public profile. */
  method UserProfiles(users: seq<StoredUser>, ids: seq<int>) returns (profiles: seq<User>)
    requires forall k :: 0 <= k < |ids| ==> UserRegistered(users, ids[k])
    ensures ProfilesOf(users, ids, profiles)
    ensures forall k :: 0 <= k < |profiles| ==> profiles[k].uId == ids[k]
  {
    profiles := [];
    for k := 0 to |ids|
      invariant |profiles| == k
      invariant forall j :: 0 <= j < k ==> profiles[j] == Profile(FindUser(users, ids[j]).value)
    {
      var currentUser := users[UserIndex(users, ids[k])];
      profiles := profiles + [Profile(currentUser)];
    }
  }
}
