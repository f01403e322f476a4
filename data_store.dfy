/**
 * The in-memory store of the messaging backend: the record types of
 * src/dataStore.ts and the single mutable `Data` object that every handler
 * reads and changes in place.
 */
module DataStore {

  datatype Option<T> = None | Some(value: T)

  /** One kind of reaction on a message and the users who gave it. */
  datatype React = React(reactId: int, uIds: seq<int>)

  /** A reaction as shown to one viewer. */
  datatype ReactReturn = ReactReturn(reactId: int, uIds: seq<int>, isThisUserReacted: bool)

  /** A message as kept in the store. */
  datatype StoredMessage = StoredMessage(
    messageId: int,
    uId: int,
    message: string,
    timeSent: int,
    isChannelMessage: bool,
    dmOrChannelId: int,
    reacts: seq<React>,
    isPinned: bool,
    taggedUsers: seq<int>,
    isSent: bool)

  /** A message as returned by the listing handlers. */
  datatype Message = Message(
    messageId: int,
    uId: int,
    message: string,
    timeSent: int,
    reacts: seq<ReactReturn>,
    isPinned: bool)

  datatype StandupMessage = StandupMessage(sender: string, message: string)

  /** Standup state of a channel; `starter` and `finishingTime` are nullable in the store. */
  datatype Standup = Standup(
    starter: Option<int>,
    isActive: bool,
    finishingTime: Option<int>,
    messages: seq<StandupMessage>)

  datatype Channel = Channel(
    channelId: int,
    channelName: string,
    isPublic: bool,
    ownerMembers: seq<int>,
    allMembers: seq<int>,
    messages: seq<int>,
    standUp: Standup)

  datatype Notification = Notification(channelId: int, dmId: int, notificationMessage: string)

  datatype StoredUser = StoredUser(
    authUserId: int,
    email: string,
    password: string,
    nameFirst: string,
    nameLast: string,
    handleStr: string,
    permissionId: int,
    channels: seq<int>,
    dms: seq<int>,
    profileImgUrl: string,
    messages: seq<int>,
    isRemoved: bool,
    notifications: seq<Notification>)

  /** The public profile of a user. */
  datatype User = User(
    uId: int,
    email: string,
    nameFirst: string,
    nameLast: string,
    handleStr: string,
    profileImgUrl: string)

  datatype Dm = Dm(
    dmId: int,
    name: string,
    ownerMembers: seq<int>,
    allMembers: seq<int>,
    messages: seq<int>)

  datatype ResetCode = ResetCode(resetCode: string, authUserId: int, valid: bool)

  datatype PaginatedMessages = PaginatedMessages(messages: seq<Message>, start: int, end: int)

  /**
   * The whole store. Session tokens are kept as a map from the token a client
   * presents to the user id it stands for; how tokens are hashed is not modelled.
   */
  class Data {
    var users: seq<StoredUser>
    var channels: seq<Channel>
    var messages: seq<StoredMessage>
    var dms: seq<Dm>
    var tokens: map<string, int>
    var reactIds: seq<int>
    var resetCodes: seq<ResetCode>
    var globalOwners: seq<int>

    /** The store as the server starts: everything empty, and the one reaction kind 1. */
    constructor Initial()
      ensures users == [] && channels == [] && messages == [] && dms == []
      ensures tokens == map[] && resetCodes == [] && globalOwners == []
      ensures reactIds == [1]
    {
      users := [];
      channels := [];
      messages := [];
      dms := [];
      tokens := map[];
      resetCodes := [];
      reactIds := [1];
      globalOwners := [];
    }
  }

  /** The module-level variable that holds the live store. */
  class Store {
    var data: Data

    constructor ()
      ensures fresh(data)
      ensures data.users == [] && data.channels == [] && data.messages == [] && data.dms == []
      ensures data.tokens == map[] && data.resetCodes == [] && data.globalOwners == []
      ensures data.reactIds == [1]
    {
      data := new Data.Initial();
    }

    /** Hands out the live store itself, not a copy. */
    method GetData() returns (d: Data)
      ensures d == data
    {
      d := data;
    }

    /** Replaces the store wholesale. */
    method SetData(newData: Data)
      modifies this
      ensures data == newData
    {
      data := newData;
    }
  }

  /** After SetData(d), GetData returns that very object. */
  method SetThenGet(store: Store, d: Data) returns (got: Data)
    modifies store
    ensures store.data == d && got == d
  {
    store.SetData(d);
    got := store.GetData();
  }

  /**
   * An edit made through the object GetData returned is seen by the next
   * GetData without any SetData, because both name the same live store.
   */
  method EditThroughGetData(store: Store, c: Channel) returns (seen: seq<Channel>)
    modifies store.data
    ensures store.data.channels == old(store.data.channels) + [c]
    ensures seen == store.data.channels
  {
    var d := store.GetData();
    d.channels := d.channels + [c];
    var again := store.GetData();
    seen := again.channels;
  }
}
