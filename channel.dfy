/**
 * The channel handlers of src/channel.ts. Each one resolves the caller's
 * token, checks the channel and the caller's standing in it in a fixed order,
 * and either fails with one of the two error classes, leaving the store as it
 * was, or changes the first channel (and user) record with the given id in place.
 * A handler that looks up a record and uses it unchecked crashes when it is
 * missing; each handler requires exactly those records, on the path where it
 * reads them, and nothing else about the store.
 */
module ChannelHandlers {
  import opened DataStore
  import opened Helpers
  import opened Pagination

  datatype ChannelDetails = ChannelDetails(
    name: string,
    isPublic: bool,
    ownerMembers: seq<User>,
    allMembers: seq<User>)

  /** Every owner of every channel is also one of its members. */
  predicate OwnersAreMembers(channels: seq<Channel>) {
    forall k, u :: 0 <= k < |channels| && u in channels[k].ownerMembers ==> u in channels[k].allMembers
  }

  // ---------------------------------------------------------------------
  // The records join, invite and leave rewrite
  // ---------------------------------------------------------------------

  /** `findChannel(channelId).allMembers.push(uId)` */
  function AddMember(channels: seq<Channel>, channelId: int, uId: int): (after: seq<Channel>)
    requires ChannelExists(channels, channelId)
    ensures |after| == |channels|
    ensures forall k :: 0 <= k < |channels| ==> after[k].channelId == channels[k].channelId
    ensures ChannelIndex(after, channelId) == ChannelIndex(channels, channelId)
    ensures var ci := ChannelIndex(channels, channelId);
            after[ci].allMembers == channels[ci].allMembers + [uId] &&
            after[ci].(allMembers := channels[ci].allMembers) == channels[ci] &&
            forall k :: 0 <= k < |channels| && k != ci ==> after[k] == channels[k]
  {
    var ci := ChannelIndex(channels, channelId);
    var after := channels[ci := channels[ci].(allMembers := channels[ci].allMembers + [uId])];
    FirstIndexSameMatches(channels, after, (c: Channel) => c.channelId == channelId);
    after
  }

  /** Filters `uId` out of both member lists of the first channel with `channelId`. */
  function DropMember(channels: seq<Channel>, channelId: int, uId: int): (after: seq<Channel>)
    requires ChannelExists(channels, channelId)
    ensures |after| == |channels|
    ensures forall k :: 0 <= k < |channels| ==> after[k].channelId == channels[k].channelId
    ensures ChannelIndex(after, channelId) == ChannelIndex(channels, channelId)
    ensures var ci := ChannelIndex(channels, channelId);
            uId !in after[ci].allMembers && uId !in after[ci].ownerMembers &&
            after[ci].allMembers == Without(channels[ci].allMembers, uId) &&
            after[ci].ownerMembers == Without(channels[ci].ownerMembers, uId) &&
            after[ci].(allMembers := channels[ci].allMembers, ownerMembers := channels[ci].ownerMembers) == channels[ci] &&
            forall k :: 0 <= k < |channels| && k != ci ==> after[k] == channels[k]
  {
    var ci := ChannelIndex(channels, channelId);
    var c := channels[ci];
    var after := channels[ci := c.(allMembers := Without(c.allMembers, uId), ownerMembers := Without(c.ownerMembers, uId))];
    FirstIndexSameMatches(channels, after, (c: Channel) => c.channelId == channelId);
    after
  }

  /** `findUser(uId).channels.push(channelId)` */
  function AddChannel(users: seq<StoredUser>, uId: int, channelId: int): (after: seq<StoredUser>)
    requires UserRegistered(users, uId)
    ensures |after| == |users|
    ensures forall k :: 0 <= k < |users| ==> after[k].authUserId == users[k].authUserId
    ensures UserIndex(after, uId) == UserIndex(users, uId)
    ensures var ui := UserIndex(users, uId);
            after[ui].channels == users[ui].channels + [channelId] &&
            after[ui].(channels := users[ui].channels) == users[ui] &&
            forall k :: 0 <= k < |users| && k != ui ==> after[k] == users[k]
  {
    var ui := UserIndex(users, uId);
    var after := users[ui := users[ui].(channels := users[ui].channels + [channelId])];
    FirstIndexSameMatches(users, after, (u: StoredUser) => u.authUserId == uId);
    after
  }

  /** Filters `channelId` out of the channel list of the first user with `uId`. */
  function DropChannel(users: seq<StoredUser>, uId: int, channelId: int): (after: seq<StoredUser>)
    requires UserRegistered(users, uId)
    ensures |after| == |users|
    ensures forall k :: 0 <= k < |users| ==> after[k].authUserId == users[k].authUserId
    ensures UserIndex(after, uId) == UserIndex(users, uId)
    ensures var ui := UserIndex(users, uId);
            channelId !in after[ui].channels &&
            after[ui] == users[ui].(channels := Without(users[ui].channels, channelId)) &&
            forall k :: 0 <= k < |users| && k != ui ==> after[k] == users[k]
  {
    var ui := UserIndex(users, uId);
    var after := users[ui := users[ui].(channels := Without(users[ui].channels, channelId))];
    FirstIndexSameMatches(users, after, (u: StoredUser) => u.authUserId == uId);
    after
  }

  // ---------------------------------------------------------------------
  // A user's channel list against the channels' member lists
  // ---------------------------------------------------------------------

  ghost predicate UniqueIds(users: seq<StoredUser>, channels: seq<Channel>) {
    (forall i, j :: 0 <= i < j < |users| ==> users[i].authUserId != users[j].authUserId) &&
    (forall i, j :: 0 <= i < j < |channels| ==> channels[i].channelId != channels[j].channelId)
  }

  /** A channel is on a user's channel list exactly when the user is on the channel's member list. */
  ghost predicate ChannelListsAgree(users: seq<StoredUser>, channels: seq<Channel>) {
    forall i, k :: 0 <= i < |users| && 0 <= k < |channels| ==>
      (channels[k].channelId in users[i].channels <==> users[i].authUserId in channels[k].allMembers)
  }

  /**
   * Recording a membership on both sides, as join does for the caller, keeps
   * the lists in agreement; so does invite once it records the channel on the
   * invitee's list rather than the inviter's.
   */
  lemma {:induction false} AddMembershipKeepsListsAgree(users: seq<StoredUser>, channels: seq<Channel>, uId: int, channelId: int)
    requires UserRegistered(users, uId) && ChannelExists(channels, channelId)
    requires UniqueIds(users, channels) && ChannelListsAgree(users, channels)
    ensures UniqueIds(AddChannel(users, uId, channelId), AddMember(channels, channelId, uId))
    ensures ChannelListsAgree(AddChannel(users, uId, channelId), AddMember(channels, channelId, uId))
  {
    var us := AddChannel(users, uId, channelId);
    var cs := AddMember(channels, channelId, uId);
    var ui := UserIndex(users, uId);
    var ci := ChannelIndex(channels, channelId);
    forall i, k | 0 <= i < |us| && 0 <= k < |cs|
      ensures cs[k].channelId in us[i].channels <==> us[i].authUserId in cs[k].allMembers
    {
      if i != ui {
        assert us[i] == users[i];
        if k != ci {
          assert cs[k] == channels[k];
        } else {
          assert users[i].authUserId != uId;
        }
      } else if k != ci {
        assert cs[k] == channels[k];
        assert channels[k].channelId != channelId;
      }
    }
  }

  /**
   * Removing a membership on both sides keeps the lists in agreement: what
   * leave does once the filtered channel list is stored back on the user.
   */
  lemma {:induction false} DropMembershipKeepsListsAgree(users: seq<StoredUser>, channels: seq<Channel>, uId: int, channelId: int)
    requires UserRegistered(users, uId) && ChannelExists(channels, channelId)
    requires UniqueIds(users, channels) && ChannelListsAgree(users, channels)
    ensures UniqueIds(DropChannel(users, uId, channelId), DropMember(channels, channelId, uId))
    ensures ChannelListsAgree(DropChannel(users, uId, channelId), DropMember(channels, channelId, uId))
  {
    var us := DropChannel(users, uId, channelId);
    var cs := DropMember(channels, channelId, uId);
    var ui := UserIndex(users, uId);
    var ci := ChannelIndex(channels, channelId);
    forall i, k | 0 <= i < |us| && 0 <= k < |cs|
      ensures cs[k].channelId in us[i].channels <==> us[i].authUserId in cs[k].allMembers
    {
      if i != ui {
        assert us[i] == users[i];
        if k != ci {
          assert cs[k] == channels[k];
        } else {
          assert users[i].authUserId != uId;
          assert cs[k].allMembers == Without(channels[k].allMembers, uId);
        }
      } else if k != ci {
        assert cs[k] == channels[k];
        assert channels[k].channelId != channelId;
        assert us[i].channels == Without(users[i].channels, channelId);
      }
    }
  }

  function SampleUser(uId: int, channels: seq<int>): StoredUser {
    StoredUser(uId, "", "", "", "", "", 2, channels, [], "", [], false, [])
  }

  function SampleChannel(channelId: int, members: seq<int>): Channel {
    Channel(channelId, "", true, members, members, [], Standup(None, false, None, []))
  }

  /**
   * As written, invite breaks the agreement: user 1, the only member of
   * channel 7, invites user 2; the channel lists user 2 as a member, but 7 is
   * pushed onto user 1's list and never onto user 2's.
   */
  lemma InviteAsWrittenBreaksListsAgree()
    ensures var users := [SampleUser(1, [7]), SampleUser(2, [])];
            var channels := [SampleChannel(7, [1])];
            users[0].authUserId == 1 && UserRegistered(users, 1) &&
            channels[0].channelId == 7 && ChannelExists(channels, 7) &&
            UniqueIds(users, channels) && ChannelListsAgree(users, channels) &&
            !ChannelListsAgree(AddChannel(users, 1, 7), AddMember(channels, 7, 2))
  {
    var users := [SampleUser(1, [7]), SampleUser(2, [])];
    var channels := [SampleChannel(7, [1])];
    assert UserIndex(users, 1) == 0;
    assert ChannelIndex(channels, 7) == 0;
    var us := AddChannel(users, 1, 7);
    var cs := AddMember(channels, 7, 2);
    assert us[1] == users[1];
    assert cs[0].allMembers == [1, 2];
    assert 7 !in us[1].channels && us[1].authUserId in cs[0].allMembers;
  }

  /**
   * As written, leave breaks the agreement: when user 1 leaves channel 7 the
   * channel no longer lists them, but their own list still holds 7.
   */
  lemma LeaveAsWrittenBreaksListsAgree()
    ensures var users := [SampleUser(1, [7])];
            var channels := [SampleChannel(7, [1])];
            channels[0].channelId == 7 && ChannelExists(channels, 7) &&
            UniqueIds(users, channels) && ChannelListsAgree(users, channels) &&
            !ChannelListsAgree(users, DropMember(channels, 7, 1))
  {
    var users := [SampleUser(1, [7])];
    var channels := [SampleChannel(7, [1])];
    assert ChannelIndex(channels, 7) == 0;
    var cs := DropMember(channels, 7, 1);
    assert 7 in users[0].channels && 1 !in cs[0].allMembers;
  }

  /**
   * `channelDetailsV3`: an unknown token is forbidden, an unknown channel a bad
   * request, a caller who is not a member forbidden; otherwise the channel's
   * name, visibility and the profiles of its owners and members, in list order.
   */
  method ChannelDetailsV3(data: Data, token: string, channelId: int) returns (r: Result<ChannelDetails>)
    requires (token in data.tokens && ChannelExists(data.channels, channelId) &&
              IsMember(data.channels, data.tokens[token], channelId)) ==>
               AllRegistered(data.users, FindChannel(data.channels, channelId).value.ownerMembers) &&
               AllRegistered(data.users, FindChannel(data.channels, channelId).value.allMembers)
    ensures token !in data.tokens ==> r == Forbidden
    ensures token in data.tokens && !ChannelExists(data.channels, channelId) ==> r == BadRequest
    ensures (token in data.tokens && ChannelExists(data.channels, channelId) &&
             !IsMember(data.channels, data.tokens[token], channelId)) ==> r == Forbidden
    ensures r.Ok? <==> token in data.tokens && ChannelExists(data.channels, channelId) &&
                       IsMember(data.channels, data.tokens[token], channelId)
    ensures r.Ok? ==>
              var c := FindChannel(data.channels, channelId).value;
              r.value.name == c.channelName && r.value.isPublic == c.isPublic &&
              (forall k :: 0 <= k < |c.ownerMembers| ==> UserRegistered(data.users, c.ownerMembers[k])) &&
              (forall k :: 0 <= k < |c.allMembers| ==> UserRegistered(data.users, c.allMembers[k])) &&
              ProfilesOf(data.users, c.ownerMembers, r.value.ownerMembers) &&
              ProfilesOf(data.users, c.allMembers, r.value.allMembers)
  {
    if token !in data.tokens {
      return Forbidden;
    }
    var valid := IsChannelValid(data.channels, channelId);
    if !valid {
      return BadRequest;
    }
    var authUserId := data.tokens[token];
    if !IsMember(data.channels, authUserId, channelId) {
      return Forbidden;
    }
    var ci := ChannelIndex(data.channels, channelId);
    var newChannel := data.channels[ci];
    var ownerMembers := UserProfiles(data.users, newChannel.ownerMembers);
    var allMembers := UserProfiles(data.users, newChannel.allMembers);
    return Ok(ChannelDetails(newChannel.channelName, newChannel.isPublic, ownerMembers, allMembers));
  }

  /**
   * `channelJoinV3`: a caller who is already a member is a bad request; a caller
   * without global permission 1 may not join a private channel. On success the
   * caller is appended to the channel's members and the channel to the caller's
   * channel list; the owners do not change.
   */
  method ChannelJoinV3(data: Data, token: string, channelId: int) returns (r: Result<()>)
    requires (token in data.tokens && ChannelExists(data.channels, channelId) &&
              !IsMember(data.channels, data.tokens[token], channelId)) ==> UserRegistered(data.users, data.tokens[token])
    modifies data`channels, data`users
    ensures token !in old(data.tokens) ==> r == Forbidden
    ensures token in old(data.tokens) && !ChannelExists(old(data.channels), channelId) ==> r == BadRequest
    ensures (token in old(data.tokens) && ChannelExists(old(data.channels), channelId) &&
             IsMember(old(data.channels), old(data.tokens)[token], channelId)) ==> r == BadRequest
    ensures (token in old(data.tokens) && ChannelExists(old(data.channels), channelId) &&
             !IsMember(old(data.channels), old(data.tokens)[token], channelId) &&
             !FindChannel(old(data.channels), channelId).value.isPublic &&
             FindUser(old(data.users), old(data.tokens)[token]).value.permissionId != 1) ==> r == Forbidden
    ensures r.Ok? <==> token in old(data.tokens) && ChannelExists(old(data.channels), channelId) &&
                       !IsMember(old(data.channels), old(data.tokens)[token], channelId) &&
                       (FindChannel(old(data.channels), channelId).value.isPublic ||
                        FindUser(old(data.users), old(data.tokens)[token]).value.permissionId == 1)
    ensures !r.Ok? ==> data.channels == old(data.channels) && data.users == old(data.users)
    ensures r.Ok? ==>
              var auth := old(data.tokens)[token];
              data.channels == AddMember(old(data.channels), channelId, auth) &&
              data.users == AddChannel(old(data.users), auth, channelId)
    ensures OwnersAreMembers(old(data.channels)) ==> OwnersAreMembers(data.channels)
    ensures UniqueIds(old(data.users), old(data.channels)) && ChannelListsAgree(old(data.users), old(data.channels)) ==>
              UniqueIds(data.users, data.channels) && ChannelListsAgree(data.users, data.channels)
  {
    if token !in data.tokens {
      return Forbidden;
    }
    var valid := IsChannelValid(data.channels, channelId);
    if !valid {
      return BadRequest;
    }
    var authUserId := data.tokens[token];
    if IsMember(data.channels, authUserId, channelId) {
      return BadRequest;
    }
    var ui := UserIndex(data.users, authUserId);
    var ci := ChannelIndex(data.channels, channelId);
    var newUser := data.users[ui];
    var newChannel := data.channels[ci];
    if !newChannel.isPublic && newUser.permissionId != 1 {
      return Forbidden;
    }
    if UniqueIds(data.users, data.channels) && ChannelListsAgree(data.users, data.channels) {
      AddMembershipKeepsListsAgree(data.users, data.channels, authUserId, channelId);
    }
    data.channels := data.channels[ci := newChannel.(allMembers := newChannel.allMembers + [authUserId])];
    data.users := data.users[ui := newUser.(channels := newUser.channels + [channelId])];
    return Ok(());
  }

  /**
   * `channelInviteV3`: an unknown channel, an unregistered invitee and an
   * invitee who is already a member are bad requests, all checked before a
   * caller who is not a member is forbidden. On success the invitee is
   * appended to the members exactly once, and the channel id is appended to
   * the channel list of the INVITING user.
   */
  method ChannelInviteV3(data: Data, token: string, channelId: int, uId: int) returns (r: Result<()>)
    requires (token in data.tokens && ChannelExists(data.channels, channelId) &&
              UserRegistered(data.users, uId) && !IsMember(data.channels, uId, channelId) &&
              IsMember(data.channels, data.tokens[token], channelId)) ==> UserRegistered(data.users, data.tokens[token])
    modifies data`channels, data`users
    ensures token !in old(data.tokens) ==> r == Forbidden
    ensures token in old(data.tokens) && !ChannelExists(old(data.channels), channelId) ==> r == BadRequest
    ensures (token in old(data.tokens) && ChannelExists(old(data.channels), channelId) &&
             (!UserRegistered(old(data.users), uId) || IsMember(old(data.channels), uId, channelId))) ==> r == BadRequest
    ensures (token in old(data.tokens) && ChannelExists(old(data.channels), channelId) &&
             UserRegistered(old(data.users), uId) && !IsMember(old(data.channels), uId, channelId) &&
             !IsMember(old(data.channels), old(data.tokens)[token], channelId)) ==> r == Forbidden
    ensures r.Ok? <==> token in old(data.tokens) && ChannelExists(old(data.channels), channelId) &&
                       UserRegistered(old(data.users), uId) && !IsMember(old(data.channels), uId, channelId) &&
                       IsMember(old(data.channels), old(data.tokens)[token], channelId)
    ensures !r.Ok? ==> data.channels == old(data.channels) && data.users == old(data.users)
    ensures r.Ok? ==>
              data.channels == AddMember(old(data.channels), channelId, uId) &&
              data.users == AddChannel(old(data.users), old(data.tokens)[token], channelId) &&
              multiset(FindChannel(data.channels, channelId).value.allMembers)[uId] == 1
    ensures OwnersAreMembers(old(data.channels)) ==> OwnersAreMembers(data.channels)
  {
    if token !in data.tokens {
      return Forbidden;
    }
    var valid := IsChannelValid(data.channels, channelId);
    if !valid {
      return BadRequest;
    }
    var registered := IsAuthUserIdValid(data.users, uId);
    if !registered {
      return BadRequest;
    }
    if IsMember(data.channels, uId, channelId) {
      return BadRequest;
    }
    var authUserId := data.tokens[token];
    if !IsMember(data.channels, authUserId, channelId) {
      return Forbidden;
    }
    var ui := UserIndex(data.users, authUserId);
    var ci := ChannelIndex(data.channels, channelId);
    var newUser := data.users[ui];
    var newChannel := data.channels[ci];
    data.users := data.users[ui := newUser.(channels := newUser.channels + [channelId])];
    data.channels := data.channels[ci := newChannel.(allMembers := newChannel.allMembers + [uId])];
    assert multiset(newChannel.allMembers)[uId] == 0;
    return Ok(());
  }

  /**
   * `channelMessagesV3`: after the token, channel and membership checks, the
   * page of the channel's message ids that starts at `start`.
   */
  method ChannelMessagesV3(data: Data, token: string, channelId: int, start: nat)
    returns (r: Result<PaginatedMessages>)
    requires (token in data.tokens && ChannelExists(data.channels, channelId) &&
              IsMember(data.channels, data.tokens[token], channelId) &&
              start <= |FindChannel(data.channels, channelId).value.messages|) ==>
               AllStored(data.messages, PageIds(FindChannel(data.channels, channelId).value.messages, start))
    ensures token !in data.tokens ==> r == Forbidden
    ensures token in data.tokens && !ChannelExists(data.channels, channelId) ==> r == BadRequest
    ensures (token in data.tokens && ChannelExists(data.channels, channelId) &&
             !IsMember(data.channels, data.tokens[token], channelId)) ==> r == Forbidden
    ensures token in data.tokens && ChannelExists(data.channels, channelId) &&
            IsMember(data.channels, data.tokens[token], channelId) ==>
              var ids := FindChannel(data.channels, channelId).value.messages;
              (r == BadRequest <==> |ids| < start) &&
              (r.Ok? <==> start <= |ids|) &&
              (r.Ok? ==> r.value.start == start && r.value.end == PageWindow(|ids|, start).end &&
                         PageShows(data.messages, data.tokens[token], PageIds(ids, start), r.value.messages))
  {
    if token !in data.tokens {
      return Forbidden;
    }
    var valid := IsChannelValid(data.channels, channelId);
    if !valid {
      return BadRequest;
    }
    var authUserId := data.tokens[token];
    if !IsMember(data.channels, authUserId, channelId) {
      return Forbidden;
    }
    var newChannel := data.channels[ChannelIndex(data.channels, channelId)];
    r := ListPage(data.messages, authUserId, newChannel.messages, start);
  }

  /**
   * `channelLeaveV2`: the caller who started the channel's standup may not leave
   * (bad request). Otherwise the caller is filtered out of the channel's members
   * and owners; the channel and its messages stay, even with no owner or member
   * left. The filtered channel list of the user is computed and thrown away, so
   * the user's own channel list does not change.
   */
  method ChannelLeaveV2(data: Data, token: string, channelId: int) returns (r: Result<()>)
    requires (token in data.tokens && ChannelExists(data.channels, channelId) &&
              IsMember(data.channels, data.tokens[token], channelId) &&
              FindChannel(data.channels, channelId).value.standUp.starter != Some(data.tokens[token])) ==> UserRegistered(data.users, data.tokens[token])
    modifies data`channels
    ensures token !in old(data.tokens) ==> r == Forbidden
    ensures token in old(data.tokens) && !ChannelExists(old(data.channels), channelId) ==> r == BadRequest
    ensures (token in old(data.tokens) && ChannelExists(old(data.channels), channelId) &&
             !IsMember(old(data.channels), old(data.tokens)[token], channelId)) ==> r == Forbidden
    ensures token in old(data.tokens) && ChannelExists(old(data.channels), channelId) &&
            IsMember(old(data.channels), old(data.tokens)[token], channelId) ==>
              (r == BadRequest <==> FindChannel(old(data.channels), channelId).value.standUp.starter == Some(old(data.tokens)[token]))
    ensures r.Ok? <==> token in old(data.tokens) && ChannelExists(old(data.channels), channelId) &&
                       IsMember(old(data.channels), old(data.tokens)[token], channelId) &&
                       FindChannel(old(data.channels), channelId).value.standUp.starter != Some(old(data.tokens)[token])
    ensures !r.Ok? ==> data.channels == old(data.channels)
    ensures r.Ok? ==>
              var auth := old(data.tokens)[token];
              data.channels == DropMember(old(data.channels), channelId, auth) &&
              auth !in FindChannel(data.channels, channelId).value.allMembers &&
              auth !in FindChannel(data.channels, channelId).value.ownerMembers
    ensures OwnersAreMembers(old(data.channels)) ==> OwnersAreMembers(data.channels)
  {
    if token !in data.tokens {
      return Forbidden;
    }
    var valid := IsChannelValid(data.channels, channelId);
    if !valid {
      return BadRequest;
    }
    var authUserId := data.tokens[token];
    if !IsMember(data.channels, authUserId, channelId) {
      return Forbidden;
    }
    var ci := ChannelIndex(data.channels, channelId);
    var channel := data.channels[ci];
    if channel.standUp.starter == Some(authUserId) {
      return BadRequest;
    }
    channel := channel.(allMembers := Without(channel.allMembers, authUserId));
    channel := channel.(ownerMembers := Without(channel.ownerMembers, authUserId));
    data.channels := data.channels[ci := channel];
    var user := data.users[UserIndex(data.users, authUserId)];
    var discarded := Without(user.channels, channelId);
    return Ok(());
  }

  /**
   * `channelAddOwnerV2`: an unregistered uId, a uId that is not a member and a
   * uId that is already an owner are bad requests. The caller is forbidden
   * unless they are an owner of the channel AND hold global permission 1. On
   * success uId is appended to the owners; the members do not change.
   */
  method ChannelAddOwnerV2(data: Data, token: string, channelId: int, uId: int) returns (r: Result<()>)
    requires (token in data.tokens && ChannelExists(data.channels, channelId) &&
              UserRegistered(data.users, uId) && IsMember(data.channels, uId, channelId) &&
              !IsOwner(data.channels, uId, channelId) && IsOwner(data.channels, data.tokens[token], channelId)) ==> UserRegistered(data.users, data.tokens[token])
    modifies data`channels
    ensures token !in old(data.tokens) ==> r == Forbidden
    ensures token in old(data.tokens) && !ChannelExists(old(data.channels), channelId) ==> r == BadRequest
    ensures (token in old(data.tokens) && ChannelExists(old(data.channels), channelId) &&
             (!UserRegistered(old(data.users), uId) || !IsMember(old(data.channels), uId, channelId) ||
              IsOwner(old(data.channels), uId, channelId))) ==> r == BadRequest
    ensures token in old(data.tokens) && ChannelExists(old(data.channels), channelId) &&
            UserRegistered(old(data.users), uId) && IsMember(old(data.channels), uId, channelId) &&
            !IsOwner(old(data.channels), uId, channelId) ==>
              (r == Forbidden <==> !IsOwner(old(data.channels), old(data.tokens)[token], channelId) ||
                                   FindUser(old(data.users), old(data.tokens)[token]).value.permissionId != 1)
    ensures r.Ok? <==> token in old(data.tokens) && ChannelExists(old(data.channels), channelId) &&
                       UserRegistered(old(data.users), uId) && IsMember(old(data.channels), uId, channelId) &&
                       !IsOwner(old(data.channels), uId, channelId) &&
                       IsOwner(old(data.channels), old(data.tokens)[token], channelId) &&
                       FindUser(old(data.users), old(data.tokens)[token]).value.permissionId == 1
    ensures !r.Ok? ==> data.channels == old(data.channels)
    ensures r.Ok? ==>
              var ci := ChannelIndex(old(data.channels), channelId);
              var c := old(data.channels)[ci];
              data.channels == old(data.channels)[ci := c.(ownerMembers := c.ownerMembers + [uId])]
    ensures OwnersAreMembers(old(data.channels)) ==> OwnersAreMembers(data.channels)
  {
    if token !in data.tokens {
      return Forbidden;
    }
    var valid := IsChannelValid(data.channels, channelId);
    if !valid {
      return BadRequest;
    }
    var registered := IsAuthUserIdValid(data.users, uId);
    if !registered {
      return BadRequest;
    }
    if !IsMember(data.channels, uId, channelId) {
      return BadRequest;
    }
    if IsOwner(data.channels, uId, channelId) {
      return BadRequest;
    }
    var authUserId := data.tokens[token];
    var authUser := FindUser(data.users, authUserId);
    if !IsOwner(data.channels, authUserId, channelId) || authUser.value.permissionId != 1 {
      return Forbidden;
    }
    var ci := ChannelIndex(data.channels, channelId);
    var channel := data.channels[ci];
    data.channels := data.channels[ci := channel.(ownerMembers := channel.ownerMembers + [uId])];
    return Ok(());
  }

  /**
   * `channelRemoveOwnerV2`: an unregistered uId and a uId that is not an owner
   * are bad requests; then the caller is forbidden unless they are an owner AND
   * hold global permission 1; then removing the only owner is a bad request. On
   * success uId is filtered out of the owners, the other owners keep their
   * order, and the members do not change.
   */
  method ChannelRemoveOwnerV2(data: Data, token: string, channelId: int, uId: int) returns (r: Result<()>)
    requires (token in data.tokens && ChannelExists(data.channels, channelId) &&
              UserRegistered(data.users, uId) && IsOwner(data.channels, uId, channelId) && IsOwner(data.channels, data.tokens[token], channelId)) ==> UserRegistered(data.users, data.tokens[token])
    modifies data`channels
    ensures token !in old(data.tokens) ==> r == Forbidden
    ensures token in old(data.tokens) && !ChannelExists(old(data.channels), channelId) ==> r == BadRequest
    ensures (token in old(data.tokens) && ChannelExists(old(data.channels), channelId) &&
             (!UserRegistered(old(data.users), uId) || !IsOwner(old(data.channels), uId, channelId))) ==> r == BadRequest
    ensures (token in old(data.tokens) && ChannelExists(old(data.channels), channelId) &&
             UserRegistered(old(data.users), uId) && IsOwner(old(data.channels), uId, channelId) &&
             (!IsOwner(old(data.channels), old(data.tokens)[token], channelId) ||
              FindUser(old(data.users), old(data.tokens)[token]).value.permissionId != 1)) ==> r == Forbidden
    ensures (token in old(data.tokens) && ChannelExists(old(data.channels), channelId) &&
             UserRegistered(old(data.users), uId) && IsOwner(old(data.channels), uId, channelId) &&
             IsOwner(old(data.channels), old(data.tokens)[token], channelId) &&
             FindUser(old(data.users), old(data.tokens)[token]).value.permissionId == 1 &&
             |FindChannel(old(data.channels), channelId).value.ownerMembers| == 1) ==> r == BadRequest
    ensures r.Ok? <==> token in old(data.tokens) && ChannelExists(old(data.channels), channelId) &&
                       UserRegistered(old(data.users), uId) && IsOwner(old(data.channels), uId, channelId) &&
                       IsOwner(old(data.channels), old(data.tokens)[token], channelId) &&
                       FindUser(old(data.users), old(data.tokens)[token]).value.permissionId == 1 &&
                       |FindChannel(old(data.channels), channelId).value.ownerMembers| != 1
    ensures !r.Ok? ==> data.channels == old(data.channels)
    ensures r.Ok? ==>
              var ci := ChannelIndex(old(data.channels), channelId);
              var c := old(data.channels)[ci];
              data.channels == old(data.channels)[ci := c.(ownerMembers := Without(c.ownerMembers, uId))]
    ensures OwnersAreMembers(old(data.channels)) ==> OwnersAreMembers(data.channels)
  {
    if token !in data.tokens {
      return Forbidden;
    }
    var valid := IsChannelValid(data.channels, channelId);
    if !valid {
      return BadRequest;
    }
    var registered := IsAuthUserIdValid(data.users, uId);
    if !registered {
      return BadRequest;
    }
    if !IsOwner(data.channels, uId, channelId) {
      return BadRequest;
    }
    var authUserId := data.tokens[token];
    var authUser := FindUser(data.users, authUserId);
    if !IsOwner(data.channels, authUserId, channelId) || authUser.value.permissionId != 1 {
      return Forbidden;
    }
    var ci := ChannelIndex(data.channels, channelId);
    var channel := data.channels[ci];
    if |channel.ownerMembers| == 1 {
      return BadRequest;
    }
    data.channels := data.channels[ci := channel.(ownerMembers := Without(channel.ownerMembers, uId))];
    return Ok(());
  }
}
