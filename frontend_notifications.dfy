/**
 * The notification bell of the web client: the list of notifications, the
 * unread badge, marking as read, notifications pushed by the hub, and the
 * pages fetched while scrolling.
 *
 * The component's state is a class whose fields the handlers reassign;
 * the updaters and the unread count are functions. The server calls are
 * the oracles `fetch` (a page number to the reply) and the success flags
 * of the mark-as-read calls.
 */
module NotificationCenterView {
  import opened Common
  import opened Listing

  datatype Notification = Notification(id: string, title: string, message: string, isRead: bool)

  /** Notifications per fetched page. */
  const PageSize := 20

  /** How close to the bottom of the list, in pixels, a scroll fetches the next page. */
  const ScrollThreshold := 50

  predicate IsUnread(n: Notification)
  {
    !n.isRead
  }

  /** `unreadCount`. */
  function UnreadCount(ns: seq<Notification>): nat
  {
    CountWhere(ns, IsUnread)
  }

  // ------------------------------------------------------------ marking as read

  function ReadIfId(n: Notification, id: string): Notification
  {
    if n.id == id then n.(isRead := true) else n
  }

  /** The `handleMarkAsRead` updater. */
  function MarkRead(ns: seq<Notification>, id: string): (r: seq<Notification>)
    ensures |r| == |ns|
    ensures forall i :: 0 <= i < |ns| ==> r[i] == ReadIfId(ns[i], id)
  {
    seq(|ns|, i requires 0 <= i < |ns| => ReadIfId(ns[i], id))
  }

  function UnreadOther(id: string): Notification -> bool
  {
    (n: Notification) => !n.isRead && n.id != id
  }

  /**
   * Marking one id as read changes only the notifications with that id;
   * afterwards the unread ones are exactly those unread before with
   * another id, so the badge never grows.
   */
  lemma {:induction false} MarkReadCount(ns: seq<Notification>, id: string)
    ensures UnreadCount(MarkRead(ns, id)) == CountWhere(ns, UnreadOther(id))
    ensures UnreadCount(MarkRead(ns, id)) <= UnreadCount(ns)
    decreases |ns|
  {
    if |ns| > 0 {
      MarkReadCount(ns[1..], id);
      assert MarkRead(ns, id)[1..] == MarkRead(ns[1..], id);
    }
  }

  /** The `handleMarkAllAsRead` updater. */
  function MarkAllRead(ns: seq<Notification>): (r: seq<Notification>)
    ensures |r| == |ns|
    ensures forall i :: 0 <= i < |ns| ==> r[i] == ns[i].(isRead := true)
  {
    seq(|ns|, i requires 0 <= i < |ns| => ns[i].(isRead := true))
  }

  /** After marking all, the badge is empty and the same notifications remain, in order. */
  lemma MarkAllReadClears(ns: seq<Notification>)
    ensures UnreadCount(MarkAllRead(ns)) == 0
    ensures forall i :: 0 <= i < |ns| ==> MarkAllRead(ns)[i].id == ns[i].id
  {
    var r := MarkAllRead(ns);
    FilterNone(r, IsUnread);
    CountWhereIsFilterLength(r, IsUnread);
  }

  // ------------------------------------------------------------ receiving and paging

  /** A notification pushed by the hub goes first; an unread one adds to the badge. */
  lemma ReceivedCount(ns: seq<Notification>, n: Notification)
    ensures UnreadCount([n] + ns) == UnreadCount(ns) + (if n.isRead then 0 else 1)
  {
    CountWhereAppend([n], ns, IsUnread);
    assert [n][1..] == [];
  }

  /**
   * What the unread-notifications call gives: a paged body (whose items,
   * page and more-flag may each be missing), a bare array, or an error.
   */
  datatype FetchReply =
    | Paged(items: Option<seq<Notification>>, page: Option<int>, hasMore: Option<bool>)
    | Bare(elements: seq<Notification>)
    | Failed

  /** The items of a reply: the page's items, the bare array, or nothing. */
  function ReplyItems(reply: FetchReply): seq<Notification>
    requires !reply.Failed?
  {
    match reply
    case Paged(items, _, _) => if items.Some? then items.value else []
    case Bare(elements) => elements
  }

  /** A fetched page is appended to the list, or replaces it when it is not an append. */
  function Merged(ns: seq<Notification>, items: seq<Notification>, append: bool): seq<Notification>
  {
    if append then ns + items else items
  }

  /** An appended page keeps the earlier notifications in front and adds its unread ones to the badge. */
  lemma AppendedCount(ns: seq<Notification>, items: seq<Notification>)
    ensures Merged(ns, items, true)[..|ns|] == ns
    ensures UnreadCount(Merged(ns, items, true)) == UnreadCount(ns) + UnreadCount(items)
  {
    CountWhereAppend(ns, items, IsUnread);
  }

  /**
   * `handleNotificationScroll`: the next page is fetched only with the list
   * present, no fetch under way, more to come, and the view within the
   * threshold of the bottom.
   */
  predicate ShouldFetchMore(present: bool, isLoadingMore: bool, hasMore: bool, scrollTop: int, clientHeight: int, scrollHeight: int)
  {
    present && !isLoadingMore && hasMore && scrollTop + clientHeight >= scrollHeight - ScrollThreshold
  }

  /** The component's state. */
  class NotificationCenter {
    var notifications: seq<Notification>
    var hasMore: bool
    var page: int
    var isLoadingMore: bool

    constructor ()
      ensures notifications == [] && !hasMore && page == 1 && !isLoadingMore
    {
      notifications := [];
      hasMore := false;
      page := 1;
      isLoadingMore := false;
    }

    /**
     * `fetchNotifications(p, append)`: without a user nothing happens; a
     * failed call changes nothing but the loading flag; otherwise the items
     * are merged, the page is the reply's or `p`, and more is expected only
     * when the reply says so.
     */
    method FetchNotifications(hasUser: bool, p: int, append: bool, fetch: int -> FetchReply)
      modifies this
      ensures !hasUser ==> notifications == old(notifications) && hasMore == old(hasMore) && page == old(page) &&
                           isLoadingMore == old(isLoadingMore)
      ensures hasUser && fetch(p).Failed? ==>
                notifications == old(notifications) && hasMore == old(hasMore) && page == old(page) && !isLoadingMore
      ensures hasUser && !fetch(p).Failed? ==>
                notifications == Merged(old(notifications), ReplyItems(fetch(p)), append) && !isLoadingMore &&
                page == (if fetch(p).Paged? && fetch(p).page.Some? then fetch(p).page.value else p) &&
                hasMore == (fetch(p).Paged? && fetch(p).hasMore == Some(true))
    {
      if !hasUser {
        return;
      }
      if append {
        isLoadingMore := true;
      }
      var reply := fetch(p);
      if !reply.Failed? {
        notifications := Merged(notifications, ReplyItems(reply), append);
        page := if reply.Paged? && reply.page.Some? then reply.page.value else p;
        hasMore := reply.Paged? && reply.hasMore == Some(true);
      }
      isLoadingMore := false;
    }

    /** A scroll event: the next page is appended when `ShouldFetchMore` holds, else nothing changes. */
    method OnScroll(hasUser: bool, present: bool, scrollTop: int, clientHeight: int, scrollHeight: int, fetch: int -> FetchReply)
      returns (fetched: bool)
      modifies this
      ensures fetched <==> ShouldFetchMore(present, old(isLoadingMore), old(hasMore), scrollTop, clientHeight, scrollHeight)
      ensures !fetched ==> notifications == old(notifications) && page == old(page) && hasMore == old(hasMore) &&
                           isLoadingMore == old(isLoadingMore)
      ensures fetched && hasUser && !fetch(old(page) + 1).Failed? ==>
                notifications == old(notifications) + ReplyItems(fetch(old(page) + 1))
    {
      fetched := ShouldFetchMore(present, isLoadingMore, hasMore, scrollTop, clientHeight, scrollHeight);
      if fetched {
        FetchNotifications(hasUser, page + 1, true, fetch);
      }
    }

    method OnReceive(n: Notification)
      modifies this
      ensures notifications == [n] + old(notifications)
      ensures UnreadCount(notifications) == UnreadCount(old(notifications)) + (if n.isRead then 0 else 1)
      ensures hasMore == old(hasMore) && page == old(page) && isLoadingMore == old(isLoadingMore)
    {
      ReceivedCount(notifications, n);
      notifications := [n] + notifications;
    }

    /** `handleMarkAsRead`: the list changes only when the server call succeeded. */
    method MarkAsRead(id: string, succeeded: bool)
      modifies this
      ensures notifications == (if succeeded then MarkRead(old(notifications), id) else old(notifications))
      ensures UnreadCount(notifications) <= UnreadCount(old(notifications))
      ensures hasMore == old(hasMore) && page == old(page) && isLoadingMore == old(isLoadingMore)
    {
      if succeeded {
        MarkReadCount(notifications, id);
        notifications := MarkRead(notifications, id);
      }
    }

    /** `handleMarkAllAsRead`: after a successful call nothing is unread. */
    method MarkAllAsRead(succeeded: bool)
      modifies this
      ensures notifications == (if succeeded then MarkAllRead(old(notifications)) else old(notifications))
      ensures succeeded ==> UnreadCount(notifications) == 0
      ensures hasMore == old(hasMore) && page == old(page) && isLoadingMore == old(isLoadingMore)
    {
      if succeeded {
        MarkAllReadClears(notifications);
        notifications := MarkAllRead(notifications);
      }
    }
  }
}
