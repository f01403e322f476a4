# Teams-Stimulus channels and DMs, modelled in Dafny

This project models the core of the Teams-Stimulus messaging backend. The
backend keeps one in-memory store of users, channels, direct messages (DMs),
messages and session tokens. Its HTTP handlers read and change that store in
place.

The model covers these handlers:

- the channel handlers: details, join, invite, paged messages, leave, add owner and remove owner;
- the DM handlers: create, list, remove, details, leave and paged messages;
- the helper layer they share: existence scans, membership and ownership tests, lookups by id, duplicate detection, name checks, handle-string generation, and reactions as one viewer sees them;
- the store itself, with `getData`/`setData`;
- `clearV1`.

Files:

- `data_store.dfy` (module `DataStore`) holds the record types and the mutable store. The store is a class `Data` whose fields the handlers reassign, and a `Store` holds the live object that `getData` returns.
- `helpers.dfy` (module `Helpers`) holds the helper layer and the `Result` type. A handler either returns a value or fails with one of two error classes: 400 (`BadRequest`) or 403 (`Forbidden`).
- `pagination.dfy` (module `Pagination`) holds the 50-message window that channel and DM listing share.
- `channel.dfy` (module `ChannelHandlers`) and `dm.dfy` (module `DmHandlers`) hold the handlers. Each is a module-level method that takes the store `data: Data` as a parameter. It states every error case in the order the code checks them, and the whole new state on success.
- `other.dfy` (module `Other`) holds `clearV1`.

Properties proved, beyond each handler's own contract:

- owners stay a subset of members under every channel and DM mutation;
- following the pagination cursors lists every message id exactly once;
- the DM name is the sorted handles joined with ", " and can be split back into them;
- the generated handle is the smallest free numbering of the base handle;
- filtering preserves order and counts;
- a user's channel list agrees with the channels' member lists. Join keeps this agreement. Invite and leave as written break it (see Findings).

The source's comments and its owner checks disagree. The comments on the
add-owner and remove-owner checks (src/channel.ts:378 and src/channel.ts:436)
describe refusing a caller who is neither a channel owner nor a global owner.
The checks themselves (src/channel.ts:379 and src/channel.ts:437) refuse a
caller who lacks either: only a channel owner who also holds global
permission 1 may act. The model follows the checks.

## Model

| member | source | states |
|---|---|---|
| DataStore.Data.Initial | src/dataStore.ts:124-133 | the store starts with no users, channels, messages, DMs, tokens, reset codes or global owners, and with reaction kinds exactly [1] |
| DataStore.Store.constructor | src/dataStore.ts:124-133 | the module-level store starts as a fresh, empty store |
| DataStore.Store.GetData | src/dataStore.ts:152-154 | getData hands out the live store object itself |
| DataStore.Store.SetData | src/dataStore.ts:160-162 | setData replaces the live store with the given object |
| DataStore.SetThenGet | src/dataStore.ts:152-162 | after setData(d), getData returns d |
| DataStore.EditThroughGetData | src/dataStore.ts:137-154 | an edit made through the object getData returned is seen by the next getData without setData |
| Helpers.FirstIndex | src/helperFunctions/helperFunctions.ts:205-207 | findIndex: the first position satisfying the test, or -1 exactly when none does |
| Helpers.FindUser | src/helperFunctions/helperFunctions.ts:270-273 | a user is found exactly when one is registered with the id; it is the first record with that id |
| Helpers.FindChannel | src/helperFunctions/helperFunctions.ts:284-287 | a channel is found exactly when one exists with the id; it is the first with that id |
| Helpers.FindDm | src/helperFunctions/helperFunctions.ts:298-301 | a DM is found exactly when one exists with the id; it is the first with that id |
| Helpers.FindStoredMessageFromId | src/helperFunctions/helperFunctions.ts:405-412 | a message is found exactly when one is stored with the id; it is the first with that id |
| Helpers.IsMember | src/helperFunctions/helperFunctions.ts:203-210 | true iff the user is on the member list of the first channel with the id |
| Helpers.IsOwner | src/helperFunctions/helperFunctions.ts:242-245 | true iff the user is on the owner list of the first channel with the id |
| Helpers.IsDmMember | src/helperFunctions/helperFunctions.ts:393-396 | true iff the user is on the member list of the first DM with the id |
| Helpers.IsDmOwner | src/helperFunctions/helperFunctions.ts:257-260 | true iff the user is on the owner list of the first DM with the id |
| Helpers.IsReactIdValid | src/helperFunctions/helperFunctions.ts:415-418 | true iff the id is one of the store's reaction kinds |
| Helpers.Without | src/channel.ts:318-320 | filtering by `x !== v` keeps exactly the values other than v and never lengthens the list |
| Helpers.WithoutCounts | src/channel.ts:318-320 | filtering drops every copy of v and keeps every other value as often as it occurred |
| Helpers.WithoutConcat | src/channel.ts:318-320 | filtering a concatenation filters each part, so the order of what is kept does not change |
| Helpers.WithoutAbsent | src/channel.ts:318-320 | filtering out a value that is not in the list leaves the list unchanged |
| Helpers.WithoutIdempotent | src/dm.ts:148-151 | filtering the same value twice, as the removal loop does for a repeated member, equals filtering once |
| Helpers.IsAuthUserIdValid | src/helperFunctions/helperFunctions.ts:126-135 | true iff some stored user has the id; removed users count |
| Helpers.IsChannelValid | src/helperFunctions/helperFunctions.ts:164-173 | true iff some channel has the id |
| Helpers.IsDmValid | src/helperFunctions/helperFunctions.ts:183-191 | true iff some DM has the id |
| Helpers.IsMessageValid | src/helperFunctions/helperFunctions.ts:221-230 | true iff some message with the id has been sent |
| Helpers.IsAvaliableEmail | src/helperFunctions/helperFunctions.ts:64-71 | false iff a user who has not been removed holds exactly that email |
| Helpers.IsAvaliableHandleString | src/helperFunctions/helperFunctions.ts:107-116 | false iff a user who has not been removed holds exactly that handle |
| Helpers.IsUIdsValid | src/helperFunctions/helperFunctions.ts:366-373 | true iff every listed id is a registered user |
| Helpers.IsDuplicate | src/helperFunctions/helperFunctions.ts:384-391 | true iff two positions i < j hold the same id |
| Helpers.DuplicateFreeIffCountsAtMostOne | src/helperFunctions/helperFunctions.ts:384-391 | a list has no duplicate iff every value occurs in it at most once |
| Helpers.PermutationKeepsDuplicates | src/dm.ts:51-56 | reordering a list, as the handle sort does, neither creates nor removes duplicates |
| Helpers.NameInRange | src/helperFunctions/helperFunctions.ts:59-61 | true iff the name has 1 to 50 characters |
| Helpers.LowerChar | src/helperFunctions/helperFunctions.ts:85 | lower-casing maps each ASCII capital to its own small letter (code + 32), leaves every other character as it is, and yields no capital |
| Helpers.LowerAscii | src/helperFunctions/helperFunctions.ts:85 | toLowerCase keeps the length and lower-cases character by character |
| Helpers.KeepAlnum | src/helperFunctions/helperFunctions.ts:87 | the regex replace keeps only ASCII letters and digits, never lengthens the string, and returns a string of letters and digits unchanged |
| Helpers.KeepAlnumChar | src/helperFunctions/helperFunctions.ts:87 | one character is kept exactly when it is an ASCII letter or digit |
| Helpers.KeepAlnumConcat | src/helperFunctions/helperFunctions.ts:87 | stripping a concatenation strips each part, so the result is the input's letters and digits in order, repeats included |
| Helpers.HandleBase | src/helperFunctions/helperFunctions.ts:85-91 | the base handle is the lower-cased joined names with all but [0-9a-z] dropped; it is cut to 20 characters exactly when it was longer |
| Helpers.NatToString | src/helperFunctions/helperFunctions.ts:97 | the decimal numeral of a number is non-empty, made of digits, and starts with 0 only for 0 itself, so it has no leading zero |
| Helpers.NatToStringValue | src/helperFunctions/helperFunctions.ts:97 | the digits `toString()` yields, read in base 10, denote the number itself |
| Helpers.NatToStringInjective | src/helperFunctions/helperFunctions.ts:97 | different numbers give different numerals, so the numbered candidates the loop tries are all different |
| Helpers.TakenSuffixBounded | src/helperFunctions/helperFunctions.ts:96-99 | only finitely many numbered candidates are held, so the collision loop ends |
| Helpers.NumberHandle | src/helperFunctions/helperFunctions.ts:93-100 | when the base is held, the result is the base followed by the smallest n >= 0 that makes it free, and nobody holds it |
| Helpers.GenerateHandleStr | src/helperFunctions/helperFunctions.ts:81-104 | the result is the base handle when that is free, and otherwise its smallest free numbering; it is never held by a user who has not been removed |
| Helpers.GetReacts | src/helperFunctions/helperFunctions.ts:340-355 | one entry per reaction in order, with the same reactId and uIds; isThisUserReacted iff the viewer is among the uIds |
| Helpers.FindMessageFromId | src/helperFunctions/helperFunctions.ts:324-338 | the first stored message with the id, with its fields copied and its reactions shown to the viewer |
| Helpers.UserProfiles | src/channel.ts:56-79 | the public profile of the first user with each listed id, in list order |
| Pagination.PageWindow | src/channel.ts:248-259 | at most 50 ids from start; end is -1 iff no more than 50 were left, otherwise start + 50, still inside the list |
| Pagination.AllPagesCoverRest | src/channel.ts:241-274 | following each returned end until -1 lists every id from start exactly once, in stored order |
| Pagination.RequestCountIsCeiling | src/channel.ts:253-259 | a client needs one request per started block of 50 remaining ids, and at least one |
| Pagination.ListPage | src/channel.ts:241-274 | a start past the end is a bad request; otherwise the page is the window's ids in order, each shown to the viewer, with start echoed and the window's end |
| ChannelHandlers.AddMember | src/channel.ts:192 | the push appends the user to the first channel with the id; that channel's name, visibility, owners, messages and standup are unchanged, as are every other channel and every channel id |
| ChannelHandlers.AddChannel | src/channel.ts:135 | the push appends the channel to the first user with the id; that user's other fields are unchanged, as are every other user and every user id |
| ChannelHandlers.DropMember | src/channel.ts:318-323 | after the two filters the user is on neither list of the first channel with the id, the other members and owners stay as `Without` keeps them, the channel's other fields and messages are unchanged, and no other channel changes |
| ChannelHandlers.DropChannel | src/channel.ts:327 | the filter, once stored back, leaves the channel off the user's list, keeps the user's other channel ids as `Without` does and every other field; no other user changes |
| ChannelHandlers.AddMembershipKeepsListsAgree | src/channel.ts:134-135 | recording a membership on both the channel and the user keeps channel lists and member lists in agreement |
| ChannelHandlers.DropMembershipKeepsListsAgree | src/channel.ts:317-327 | removing a membership on both sides keeps channel lists and member lists in agreement |
| ChannelHandlers.InviteAsWrittenBreaksListsAgree | src/channel.ts:190-192 | the invite as written leaves a member whose own channel list lacks the channel |
| ChannelHandlers.LeaveAsWrittenBreaksListsAgree | src/channel.ts:324-327 | the leave as written leaves a non-member whose own channel list still holds the channel |
| ChannelHandlers.ChannelDetailsV3 | src/channel.ts:32-87 | forbidden for an unknown token, bad request for an unknown channel, forbidden for a non-member; otherwise the name, visibility and profiles of owners and members in list order; requires only that the addressed channel's owners and members are registered, once a member asks |
| ChannelHandlers.ChannelJoinV3 | src/channel.ts:105-140 | a member joining is a bad request; a private channel is forbidden to a caller without permission 1; on success the caller and the channel are pushed on both sides, owners unchanged, owners still members, lists still agree; requires only that the caller's own record exists once a non-member joins |
| ChannelHandlers.ChannelInviteV3 | src/channel.ts:159-198 | bad-request checks on the channel and invitee come before the forbidden non-member check; on success the invitee is a member exactly once and the channel is pushed onto the inviter's list; requires only that the inviter's own record exists on the success path |
| ChannelHandlers.ChannelMessagesV3 | src/channel.ts:220-275 | after the token, channel and membership checks, a member's request is a bad request exactly when start is past the message count and succeeds otherwise, with the channel's page from start as the paging window states; requires only that the ids on the requested page name stored messages |
| ChannelHandlers.ChannelLeaveV2 | src/channel.ts:292-332 | the standup starter cannot leave; on success the caller is off the members and owners; the channel stays and the user records do not change; requires only that the caller's own record exists on the success path |
| ChannelHandlers.ChannelAddOwnerV2 | src/channel.ts:352-393 | bad request for an unregistered, non-member or already-owner uId; forbidden unless the caller is an owner with permission 1; on success uId is appended to the owners only; requires only that the caller's own record exists when the permission check reads it |
| ChannelHandlers.ChannelRemoveOwnerV2 | src/channel.ts:414-456 | bad request for an unregistered or non-owner uId; then the same forbidden check; then bad request for the sole owner; on success only uId leaves the owners, order kept; requires only that the caller's own record exists when the permission check reads it |
| DmHandlers.InsertByHandle | src/dm.ts:56 | inserting into the sorted list adds exactly that user |
| DmHandlers.SortByHandle | src/dm.ts:56 | the sort is a permutation of the members |
| DmHandlers.InsertByHandleSorted | src/dm.ts:56 | under a total collation, insertion keeps the list in handle order |
| DmHandlers.SortByHandleSorted | src/dm.ts:56 | under a total collation, the sorted members are in non-decreasing handle order |
| DmHandlers.WithSeparatorsSnoc | src/dm.ts:59-60 | each loop step appends the handle followed by ", " |
| DmHandlers.WithSeparatorsIsJoin | src/dm.ts:57-65 | dropping the last two characters of the accumulated name gives the handles joined by ", " with nothing after the last |
| DmHandlers.SplitJoinNames | src/dm.ts:59-65 | since handles hold no comma, the DM name splits back into exactly the sorted handles |
| DmHandlers.DmName | src/dm.ts:56-65 | the stored name plus ", " is exactly what the naming loop accumulates over the members sorted by handle |
| DmHandlers.DmNameSplitsIntoHandles | src/dm.ts:56-65 | when no member's handle holds a comma, the name splits back into the members' handles in collation order |
| DmHandlers.MemberRecords | src/dm.ts:51-54 | the record found for each listed member, in list order |
| DmHandlers.CollectMembers | src/dm.ts:51-54 | the lookup loop yields the member records in list order |
| DmHandlers.DmAddedForFindUser | src/dm.ts:59-62 | after creation, looking up any member finds their old record with the new DM id appended |
| DmHandlers.DmDroppedForFindUser | src/dm.ts:148-151 | after removal, looking up any member finds their old record with the DM id filtered out |
| DmHandlers.DmsWithout | src/dm.ts:153 | exactly the DMs with another id remain, and none with the removed id |
| DmHandlers.DmsWithoutCounts | src/dm.ts:153 | each kept DM occurs as often as before and the removed one not at all |
| DmHandlers.DmsWithoutConcat | src/dm.ts:153 | the filter distributes over concatenation, so the kept DMs stay in store order |
| DmHandlers.MessagesWithout | src/dm.ts:155-157 | exactly the messages whose ids the DM did not list remain |
| DmHandlers.MessagesWithoutCounts | src/dm.ts:155-157 | each kept message occurs as often as before and the removed ones not at all |
| DmHandlers.MessagesWithoutConcat | src/dm.ts:155-157 | the filter distributes over concatenation, so the kept messages stay in store order |
| DmHandlers.NameAndAddDm | src/dm.ts:57-62 | the loop builds every sorted handle followed by ", " and pushes the DM id onto each sorted member's list |
| DmHandlers.DropDmFromMembers | src/dm.ts:148-151 | the loop filters the DM id out of the list of every listed member and changes nothing else |
| DmHandlers.AddDm | src/dm.ts:49-69 | the new DM is appended with the creator as sole owner, the given members, no messages, and the sorted joined handles as its name; every member's list gets the id |
| DmHandlers.DmCreateV2 | src/dm.ts:33-79 | forbidden for an unknown token; bad request iff an id is unregistered or the creator plus uIds repeat an id; on success the DM as AddDm states, with owners still members; requires only that the creator's own record exists once the ids pass the checks |
| DmHandlers.DmListV2 | src/dm.ts:90-106 | forbidden iff the token is unknown; otherwise one id and name per entry of the caller's DM list, in order; requires only the caller's own record and the DMs on its list |
| DmHandlers.DmRemoveV2 | src/dm.ts:122-160 | bad request for an unknown DM; forbidden for a non-member or non-owner; on success the DM is gone from the store and from every member's list, its messages are deleted, everything else stays in order, and owners are still members; requires only that the members of the removed DM are registered |
| DmHandlers.DmDetailsV2 | src/dm.ts:176-209 | forbidden for an unknown token or non-member, bad request for an unknown DM; otherwise the name and member profiles in order; requires only that the members of the addressed DM are registered |
| DmHandlers.DmLeaveV2 | src/dm.ts:226-256 | on success the caller is off the members, owners and their own DM list; the DM stays under its old name; owners still members; requires only that the caller's own record exists on the success path |
| DmHandlers.DmMessagesV2 | src/dm.ts:275-321 | after the token, DM and membership checks, a member's request is a bad request exactly when start is past the message count and succeeds otherwise, with the DM's page from start by the same window as channels; requires only that the ids on the requested page name stored messages |
| Other.ClearV1 | src/other.ts:12-18 | channels and users become empty, in the same live store object; every other part of the store is kept |
| Other.ClearTwice | src/other.ts:12-18 | clearing twice leaves the store exactly as clearing once does |

## Left out

- Token hashing: `getHashOf` and the SHA-256 comparison in `isTokenValid` are not modelled. A token is a key of a map from token to user id, so `isTokenValid` and `findUserFromToken` become map membership and lookup.
- `createUniqueId` uses the clock and a random number. `DmHandlers.DmCreateV2` takes the new DM id as a parameter and requires that no DM has it yet.
- `getTimeNow` (clock), `storeData` (file persistence) and `configureImgSize` (asynchronous image I/O) are not modelled.
- `addNotification` lives in a file that is not part of this model. Its calls in invite and DM creation are left out.
- `HTTPError` becomes the `BadRequest` and `Forbidden` results. A crash from dereferencing a missing record is not a result. Each handler requires only the records it reads unchecked, on the path where it reads them: the caller's own user record (for a token whose user has been cleared), the members of the addressed channel or DM, the DMs on the caller's list, or the messages of the requested page. A negative `start` is ruled out by its type.
- DmHandlers.DmName: `localeCompare` is a parameter `leq`. Sortedness is proved only for a total `leq`; the locale's collation itself is not modelled.
- DmHandlers.DmCreateV2: the caller's `uIds` array is changed in place by `unshift` and becomes the DM's member list. The model uses a fresh sequence, so that aliasing is not captured.
- Helpers.LowerAscii: lower-cases ASCII letters only. Non-ASCII characters whose lower case is an ASCII letter (such as the Kelvin sign) are dropped rather than kept.
- Helpers.NameInRange: counts characters, where JavaScript counts UTF-16 code units.
- Standups: only the `standUp.starter` check in leave is modelled. Timing and standup messages are not.
- The test files and the stale `src/users.ts` / `src/users.js` lookups are not modelled.

## Findings

| source | as written | input that shows it | evidently intended | confidence | as-written member | corrected member |
|---|---|---|---|---|---|---|
| src/channel.ts:191 | invite pushes the channel id onto the INVITER's channel list | user 1, the only member of channel 7, invites user 2: channel 7 lists user 2, but user 2's channel list stays empty | push it onto the invitee's list, as join does for the caller | not executed | ChannelHandlers.InviteAsWrittenBreaksListsAgree | ChannelHandlers.AddMembershipKeepsListsAgree |
| src/channel.ts:327 | leave computes the filtered channel list and discards it | user 1 leaves channel 7: the channel no longer lists them, but their own list still holds 7 | store the filtered list back on the user | not executed | ChannelHandlers.LeaveAsWrittenBreaksListsAgree | ChannelHandlers.DropMembershipKeepsListsAgree |
