/**
 * The fixed-window pagination that channel and DM message listing share
 * (src/channel.ts:241-274 and src/dm.ts:293-320 hold the same code): a request
 * names a start index into a container's ordered message ids and receives at
 * most 50 messages, with `end` either the next start or -1 when the list is
 * exhausted.
 */
module Pagination {
  import opened DataStore
  import opened Helpers

  const PAGE_SIZE := 50

  /** How many ids one page holds and the cursor it reports. */
  datatype Window = Window(length: nat, end: int)

  /**
   * The window for a list of `count` ids read from `start`: what is left, up to
   * 50 ids; `end` is -1 exactly when no more than 50 were left, and otherwise the
   * start of the next page, which is still inside the list.
   */
  function PageWindow(count: nat, start: nat): (w: Window)
    requires start <= count
    ensures w.length == if count - start <= PAGE_SIZE then count - start else PAGE_SIZE
    ensures start + w.length <= count
    ensures w.end == -1 <==> count - start <= PAGE_SIZE
    ensures w.end != -1 ==> w.end == start + PAGE_SIZE && w.end < count
  {
    if count - start <= PAGE_SIZE then Window(count - start, -1)
    else Window(PAGE_SIZE, start + PAGE_SIZE)
  }

  /** The ids one page lists, in stored order. */
  function PageIds(ids: seq<int>, start: nat): (page: seq<int>)
    requires start <= |ids|
  {
    ids[start..start + PageWindow(|ids|, start).length]
  }

  /** Everything a client collects by requesting `start` and then each `end` it is given, until -1. */
  function AllPages(ids: seq<int>, start: nat): seq<int>
    requires start <= |ids|
    decreases |ids| - start
  {
    var w := PageWindow(|ids|, start);
    if w.end == -1 then PageIds(ids, start) else PageIds(ids, start) + AllPages(ids, w.end)
  }

  /** Following the cursors from `start` lists every remaining id exactly once, in order. */
  lemma {:induction false} AllPagesCoverRest(ids: seq<int>, start: nat)
    requires start <= |ids|
    ensures AllPages(ids, start) == ids[start..]
    decreases |ids| - start
  {
    var w := PageWindow(|ids|, start);
    if w.end != -1 {
      AllPagesCoverRest(ids, w.end);
      assert ids[start..] == ids[start..w.end] + ids[w.end..];
    }
  }

  /** Number of requests a client makes from `start` until it is given -1. */
  function RequestCount(ids: seq<int>, start: nat): nat
    requires start <= |ids|
    decreases |ids| - start
  {
    var w := PageWindow(|ids|, start);
    if w.end == -1 then 1 else 1 + RequestCount(ids, w.end)
  }

  /** A list of N ids read from `start` takes one request per started block of 50, and at least one. */
  lemma {:induction false} RequestCountIsCeiling(ids: seq<int>, start: nat)
    requires start <= |ids|
    ensures RequestCount(ids, start) == if |ids| == start then 1 else (|ids| - start + PAGE_SIZE - 1) / PAGE_SIZE
    decreases |ids| - start
  {
    var w := PageWindow(|ids|, start);
    if w.end != -1 {
      RequestCountIsCeiling(ids, w.end);
    }
  }

  /** `page` holds, in order, the messages with the given ids as the viewer `uId` sees them. */
  ghost predicate PageShows(messages: seq<StoredMessage>, uId: int, ids: seq<int>, page: seq<Message>)
    requires forall k :: 0 <= k < |ids| ==> MessageStored(messages, ids[k])
  {
    |page| == |ids| &&
    forall k :: 0 <= k < |page| ==>
      page[k].messageId == ids[k] &&
      MessageShownTo(uId, FindStoredMessageFromId(messages, ids[k]).value, page[k])
  }

  /**
   * The listing step both handlers run once the caller is known to be a member:
   * a start past the end of the list is a bad request; a start equal to its
   * length gives an empty page with end -1; otherwise the page holds the ids of
   * the window, in stored order, and `start` is echoed back.
   */
  method ListPage(messages: seq<StoredMessage>, uId: int, ids: seq<int>, start: nat)
    returns (r: Result<PaginatedMessages>)
    requires start <= |ids| ==> forall k :: 0 <= k < |PageIds(ids, start)| ==> MessageStored(messages, PageIds(ids, start)[k])
    ensures r == BadRequest <==> |ids| < start
    ensures r.Forbidden? == false
    ensures r.Ok? ==> r.value.start == start && r.value.end == PageWindow(|ids|, start).end
    ensures r.Ok? ==> PageShows(messages, uId, PageIds(ids, start), r.value.messages)
  {
    if |ids| < start {
      return BadRequest;
    }
    var end: int;
    var lengthOfMessage: nat;
    if |ids| - start <= PAGE_SIZE {
      lengthOfMessage := |ids| - start;
      end := -1;
    } else {
      lengthOfMessage := PAGE_SIZE;
      end := start + PAGE_SIZE;
    }
    ghost var pageIds := PageIds(ids, start);
    assert pageIds == ids[start..start + lengthOfMessage];
    var paginatedMessages: seq<Message> := [];
    for i := start to start + lengthOfMessage
      invariant |paginatedMessages| == i - start
      invariant forall k :: 0 <= k < i - start ==>
        paginatedMessages[k].messageId == pageIds[k] &&
        MessageShownTo(uId, FindStoredMessageFromId(messages, pageIds[k]).value, paginatedMessages[k])
    {
      assert ids[i] == pageIds[i - start];
      var shown := FindMessageFromId(messages, uId, ids[i]);
      paginatedMessages := paginatedMessages + [shown];
    }
    return Ok(PaginatedMessages(paginatedMessages, start, end));
  }
}
