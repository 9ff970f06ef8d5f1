/** A user's notifications page: the list is read with a try/catch failover over the two
    origins, a new notification is posted the same way, a successful post marks the list's
    query stale, and every unread item is drawn with an extra class. */
module Message {
  import opened Net

  /** A notification as the backend stores it and the form builds it. */
  datatype Notification = Notification(userId: string, content: string, timestamp: string, status: string)

  /** The query's state as the page reads it: `isLoading`, `error`, or the `data`. */
  datatype Query = Loading | Failed(message: string) | Loaded(data: seq<Notification>)

  const UNREAD := "Unread"

  const NOTIFICATIONS_PATH := "/api/notifications"
  const POST_URLS := [LOCAL_ORIGIN + NOTIFICATIONS_PATH, PRODUCTION_ORIGIN + NOTIFICATIONS_PATH]

  function UserPath(userId: string): string
  {
    NOTIFICATIONS_PATH + "/user/" + userId
  }

  /** The two GETs of `fetchNotifications`, primary origin first. */
  function ListGets(userId: string): (r: seq<Request<Notification>>)
    ensures |r| == 2 && r[0].Get? && r[1].Get?
  {
    [Get(LOCAL_ORIGIN + UserPath(userId)), Get(PRODUCTION_ORIGIN + UserPath(userId))]
  }

  /** The query key of the list, which a successful post invalidates. */
  function QueryKey(userId: string): seq<string>
  {
    ["notifications", userId]
  }

  /** The record `handleSubmit` hands the mutation: the route's user, the text of the form's
      first field, the current time, and the status "Unread". */
  function Draft(userId: string, content: string, timestamp: string): (n: Notification)
    ensures n.userId == userId && n.content == content && n.timestamp == timestamp
    ensures n.status == UNREAD
  {
    Notification(userId, content, timestamp, UNREAD)
  }

  datatype MessageState = MessageState(query: Query, draft: string, requests: seq<Request<Notification>>,
                                       invalidated: seq<seq<string>>)

  function Initial(): MessageState
  {
    MessageState(Loading, "", [], [])
  }

  /** `fetchNotifications` settling: the list, or the error of the failover request. */
  function Listed(s: MessageState, userId: string, net: seq<Outcome<seq<Notification>>>): MessageState
    requires |net| >= 2
  {
    var sent := s.(requests := s.requests + Tried(ListGets(userId), net));
    match Fallback(net)
    case Got(_, data) => sent.(query := Loaded(data))
    case Threw(message) => sent.(query := Failed(message))
  }

  /** Typing into the text area. */
  function Typed(s: MessageState, text: string): MessageState
  {
    s.(draft := text)
  }

  /** `handleSubmit` and the mutation: the record built from the draft is posted with the
      try/catch failover, a resolved post invalidates the list's key, and the text area is
      emptied at once, whatever the post's outcome. */
  function Submitted(s: MessageState, userId: string, timestamp: string, net: seq<Outcome<()>>): MessageState
    requires |net| >= 2
  {
    var record := Draft(userId, s.draft, timestamp);
    var sent := s.(requests := s.requests + Tried(Posts(POST_URLS, record), net), draft := "");
    if Fallback(net).Got? then sent.(invalidated := sent.invalidated + [QueryKey(userId)]) else sent
  }

  /** The list is asked of the local origin first and of production only when that is not ok;
      it is shown exactly when one of them answered ok, with the data of the first ok answer,
      and otherwise the error carries the failover request's message. */
  lemma FetchInOrder(s: MessageState, userId: string, net: seq<Outcome<seq<Notification>>>)
    requires |net| >= 2
    ensures var r := Listed(s, userId, net);
            && r.requests == s.requests + (if net[0].IsOk() then ListGets(userId)[..1] else ListGets(userId))
            && (net[0].IsOk() ==> r.query == Loaded(net[0].data))
            && (!net[0].IsOk() && net[1].IsOk() ==> r.query == Loaded(net[1].data))
            && (!net[0].IsOk() && !net[1].IsOk() ==> r.query == Failed(AxiosMessage(net[1])))
            && r.draft == s.draft && r.invalidated == s.invalidated
  {
    FallbackAttempts(net);
  }

  /** The posted record carries the route's user, the typed text and the status "Unread"; it
      goes to the local origin first and to production only when that is not ok; the list's
      key is invalidated exactly when one of them answered ok; the text area is empty after. */
  lemma SubmitPostsDraft(s: MessageState, userId: string, timestamp: string, net: seq<Outcome<()>>)
    requires |net| >= 2
    ensures var r := Submitted(s, userId, timestamp, net);
            var record := Notification(userId, s.draft, timestamp, UNREAD);
            && r.requests == s.requests +
                 (if net[0].IsOk() then [Post(POST_URLS[0], record)] else [Post(POST_URLS[0], record), Post(POST_URLS[1], record)])
            && (net[0].IsOk() || net[1].IsOk() <==> r.invalidated == s.invalidated + [QueryKey(userId)])
            && (!net[0].IsOk() && !net[1].IsOk() ==> r.invalidated == s.invalidated)
            && r.draft == "" && r.query == s.query
  {
    TwoPosts(POST_URLS, Draft(userId, s.draft, timestamp), net);
  }

  /** The class of a list item: "item", followed by "unread" for an unread notification. */
  function ItemClass(n: Notification): string
  {
    "item " + if n.status == UNREAD then "unread" else ""
  }

  /** An item is drawn as unread exactly when its status is "Unread", and every item keeps the base class. */
  lemma UnreadClassIffUnread(n: Notification)
    ensures |ItemClass(n)| >= 5 && ItemClass(n)[..5] == "item "
    ensures ItemClass(n)[5..] == "unread" <==> n.status == UNREAD
    ensures ItemClass(n)[5..] == "" <==> n.status != UNREAD
  {
    var c := ItemClass(n);
    assert c[5..] == if n.status == UNREAD then "unread" else "";
  }

  /** One drawn item: its text, class and raw timestamp. */
  datatype Item = Item(content: string, className: string, timestamp: string)

  /** What the list area shows. */
  datatype View = LoadingText | ErrorText | Items(items: seq<Item>)

  function Render(q: Query): (v: View)
  {
    match q
    case Loading => LoadingText
    case Failed(_) => ErrorText
    case Loaded(data) => Items(seq(|data|, i requires 0 <= i < |data| => Item(data[i].content, ItemClass(data[i]), data[i].timestamp)))
  }

  /** A loaded list is drawn item for item, in order, each with its text and its class; a
      pending or failed query draws no item. */
  lemma RenderOneItemPerNotification(q: Query)
    ensures q.Loaded? <==> Render(q).Items?
    ensures q.Loaded? ==> |Render(q).items| == |q.data|
    ensures q.Loaded? ==> forall i :: 0 <= i < |q.data| ==>
              Render(q).items[i].content == q.data[i].content && Render(q).items[i].className == ItemClass(q.data[i])
  {
  }

  /** The page component: the query's state, the text area, and the requests and invalidations it caused. */
  class MessagePage {
    var query: Query
    var draft: string
    var requests: seq<Request<Notification>>
    var invalidated: seq<seq<string>>

    function State(): MessageState
      reads this
    {
      MessageState(query, draft, requests, invalidated)
    }

    constructor ()
      ensures State() == Initial()
    {
      query, draft := Loading, "";
      requests, invalidated := [], [];
    }

    /** `fetchNotifications`, run for the query. */
    method FetchNotifications(userId: string, net: seq<Outcome<seq<Notification>>>)
      requires |net| >= 2
      modifies this`query, this`requests
      ensures State() == Listed(old(State()), userId, net)
    {
      FallbackAttempts(net);
      var gets := ListGets(userId);
      requests := requests + [gets[0]];
      if net[0].IsOk() {
        query := Loaded(net[0].data);
        return;
      }
      requests := requests + [gets[1]];
      if net[1].IsOk() {
        query := Loaded(net[1].data);
        return;
      }
      query := Failed(AxiosMessage(net[1]));
    }

    method Type(text: string)
      modifies this`draft
      ensures State() == Typed(old(State()), text)
    {
      draft := text;
    }

    method HandleSubmit(userId: string, timestamp: string, net: seq<Outcome<()>>)
      requires |net| >= 2
      modifies this`draft, this`requests, this`invalidated
      ensures State() == Submitted(old(State()), userId, timestamp, net)
    {
      TwoPosts(POST_URLS, Draft(userId, draft, timestamp), net);
      var record := Draft(userId, draft, timestamp);
      draft := "";
      requests := requests + [Post(POST_URLS[0], record)];
      if !net[0].IsOk() {
        requests := requests + [Post(POST_URLS[1], record)];
      }
      if net[0].IsOk() || net[1].IsOk() {
        invalidated := invalidated + [QueryKey(userId)];
      }
    }
  }
}
