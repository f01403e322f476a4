/**
 * `clearV1` (src/other.ts): empties the channel and user lists of the live
 * store in place and leaves everything else as it was.
 */
module Other {
  import opened DataStore

  /**
   * Truncates the channels and the users of the store GetData hands out, then
   * stores that same object back. Messages, DMs, tokens, reaction ids, reset
   * codes and global owners are kept.
   */
  method ClearV1(store: Store) returns (r: ())
    modifies store, store.data
    ensures store.data == old(store.data)
    ensures store.data.channels == [] && store.data.users == []
    ensures store.data.messages == old(store.data.messages) && store.data.dms == old(store.data.dms)
    ensures store.data.tokens == old(store.data.tokens) && store.data.reactIds == old(store.data.reactIds)
    ensures store.data.resetCodes == old(store.data.resetCodes) && store.data.globalOwners == old(store.data.globalOwners)
  {
    var data := store.GetData();
    data.channels := [];
    data.users := [];
    store.SetData(data);
    return ();
  }

  /** Everything the store holds, as one value. */
  datatype Contents = Contents(
    users: seq<StoredUser>, channels: seq<Channel>, messages: seq<StoredMessage>, dms: seq<Dm>,
    tokens: map<string, int>, reactIds: seq<int>, resetCodes: seq<ResetCode>, globalOwners: seq<int>)

  function ContentsOf(d: Data): Contents
    reads d
  {
    Contents(d.users, d.channels, d.messages, d.dms, d.tokens, d.reactIds, d.resetCodes, d.globalOwners)
  }

  /**
   * Clearing is idempotent: after a first clear, whose result is `once`, a
   * second clear leaves the store exactly as the first one left it.
   */
  method ClearTwice(store: Store) returns (once: Contents)
    modifies store, store.data
    ensures once == ContentsOf(old(store.data)).(channels := [], users := [])
    ensures store.data == old(store.data) && ContentsOf(store.data) == once
  {
    var _ := ClearV1(store);
    once := ContentsOf(store.data);
    var _ := ClearV1(store);
  }
}
