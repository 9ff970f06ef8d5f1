/** The product page where a buyer places a bid: loads the product and its bids
    through a primary/failover GET, checks the bid form, posts it with the same
    fallback, then reloads the bids and resets the form. */
module GigDescription {
  import opened Text
  import opened Js
  import opened Net

  const PRIMARY_API_URL := LOCAL_ORIGIN
  const FAILOVER_API_URL := PRODUCTION_ORIGIN

  const BID_URLS := [PRIMARY_API_URL + "/api/bids", FAILOVER_API_URL + "/api/bids"]

  const PHONE_ALERT := "Please enter a valid phone number"
  const AMOUNT_ALERT := "Bid amount must be greater than zero"
  const QUANTITY_ALERT := "Quantity must be at least 1"
  const CREATED_ALERT := "Bid created successfully!"
  const FAILED_ALERT := "Failed to create bid. Please try again."

  datatype Product = Product(name: string, description: string, startBidPrice: real, quantity: int,
                             quality: string, contentType: string, image: string)

  /** The bid form; `handleChange` stores the two amounts as numbers. */
  datatype Bid = Bid(productId: string, userId: string, bidAmount: Number, quantity: Number)

  /** The `name` of the input an edit comes from. */
  datatype BidField = ProductIdField | UserIdField | BidAmountField | QuantityField

  /** The form's initial and post-success value; an absent route id reads as "". */
  function DefaultBid(routeId: string): Bid
  {
    Bid(routeId, "", Finite(0.0), Finite(1.0))
  }

  /** The alert of the first check in `handleSubmit` that the bid fails, in the order
      phone number, amount, quantity; None when it passes all three. The phone number's
      length is JavaScript's, in UTF-16 code units. */
  function BidCheck(b: Bid): (alert: Option<string>)
    ensures alert.None? <==> Utf16Length(b.userId) >= 10 && !b.bidAmount.AtMostZero() && !b.quantity.AtMostZero()
    ensures alert == Some(PHONE_ALERT) <==> Utf16Length(b.userId) < 10
    ensures alert == Some(AMOUNT_ALERT) <==> Utf16Length(b.userId) >= 10 && b.bidAmount.AtMostZero()
    ensures alert == Some(QUANTITY_ALERT) <==>
              Utf16Length(b.userId) >= 10 && !b.bidAmount.AtMostZero() && b.quantity.AtMostZero()
  {
    if b.userId == "" || Utf16Length(b.userId) < 10 then Some(PHONE_ALERT)
    else if b.bidAmount.AtMostZero() then Some(AMOUNT_ALERT)
    else if b.quantity.AtMostZero() then Some(QUANTITY_ALERT)
    else None
  }

  /** `handleChange`: the named field takes the typed text, converted with `Number` for the two amounts. */
  function Edited(b: Bid, name: BidField, value: string): Bid
  {
    match name
    case ProductIdField => b.(productId := value)
    case UserIdField => b.(userId := value)
    case BidAmountField => b.(bidAmount := ToNumber(value))
    case QuantityField => b.(quantity := ToNumber(value))
  }

  /** A typed whole number is stored as that number. */
  lemma TypedAmountIsItsNumber(b: Bid, i: int)
    ensures Edited(b, BidAmountField, IntToString(i)).bidAmount == Finite(i as real)
    ensures Edited(b, QuantityField, IntToString(i)).quantity == Finite(i as real)
  {
    ToNumberOfPrinted(i);
  }

  /** Clearing the amount input stores 0, not an empty value, so a bid with a valid phone
      number is then refused with the amount alert. */
  lemma ClearedAmountIsRejected(b: Bid, value: string)
    requires Utf16Length(b.userId) >= 10 && Blank(value)
    ensures Edited(b, BidAmountField, value).bidAmount == Finite(0.0)
    ensures BidCheck(Edited(b, BidAmountField, value)) == Some(AMOUNT_ALERT)
  {
  }

  /** The page's state: loading flag, error banner, product, bid form, bid list,
      and the logs of requests sent and of what the user was shown. */
  datatype PageState = PageState(isLoading: bool, error: Option<string>, product: Option<Product>,
                                 bid: Bid, bids: seq<Bid>,
                                 requests: seq<Request<Bid>>, events: seq<Event>)

  function Initial(routeId: string): PageState
  {
    PageState(false, None, None, DefaultBid(routeId), [], [], [])
  }

  function ProductPath(routeId: string): string { "/api/products/" + routeId }

  function BidsPath(routeId: string): string { "/api/bids/product/" + routeId }

  /** The two GETs `fetchWithFailover` may issue for one path. */
  function FailoverGets(path: string): seq<Request<Bid>>
  {
    [Get(PRIMARY_API_URL + path), Get(FAILOVER_API_URL + path)]
  }

  /** The two POSTs of a bid submission. */
  function BidPosts(body: Bid): seq<Request<Bid>>
  {
    Posts(BID_URLS, body)
  }

  /** `handleSubmit`: `posts` answers the bid POSTs, `gets` the reload GETs. */
  function Submitted(s: PageState, routeId: string, posts: seq<Outcome<()>>, gets: seq<Outcome<seq<Bid>>>): PageState
    requires |posts| >= 2 && |gets| >= 2
  {
    match BidCheck(s.bid)
    case Some(alert) => s.(events := s.events + [Alert(alert)])
    case None =>
      var sent := s.(requests := s.requests + Tried(BidPosts(s.bid.(productId := routeId)), posts));
      match Fallback(posts)
      case Threw(_) => sent.(events := sent.events + [Alert(FAILED_ALERT)])
      case Got(status, _) =>
        if status == 200 || status == 201 then
          var created := sent.(requests := sent.requests + Tried(FailoverGets(BidsPath(routeId)), gets),
                               events := sent.events + [Alert(CREATED_ALERT)]);
          match Fallback(gets)
          case Threw(_) => created.(events := created.events + [Alert(FAILED_ALERT)])
          case Got(_, data) => created.(bids := data, bid := DefaultBid(routeId))
        else sent
  }

  /** The mount effect with a route id: `fetchProduct`, then `fetchBids`, run one after the other. */
  function Mounted(s: PageState, routeId: string, productNet: seq<Outcome<Product>>,
                 bidsNet: seq<Outcome<seq<Bid>>>): PageState
    requires |productNet| >= 2 && |bidsNet| >= 2
  {
    if routeId == "" then s
    else
      var loading := s.(isLoading := true, error := None,
                        requests := s.requests + Tried(FailoverGets(ProductPath(routeId)), productNet));
      var loaded := match Fallback(productNet)
        case Got(_, p) => loading.(product := Some(p), isLoading := false)
        case Threw(m) => loading.(error := Some(m), isLoading := false);
      var reading := loaded.(requests := loaded.requests + Tried(FailoverGets(BidsPath(routeId)), bidsNet));
      match Fallback(bidsNet)
      case Got(_, data) => reading.(bids := data)
      case Threw(_) => reading
  }

  /** A bid failing a check is reported by one alert and changes nothing else: no request, same form, same bids. */
  lemma RejectedBidSendsNothing(s: PageState, routeId: string, posts: seq<Outcome<()>>, gets: seq<Outcome<seq<Bid>>>)
    requires |posts| >= 2 && |gets| >= 2
    requires BidCheck(s.bid).Some?
    ensures Submitted(s, routeId, posts, gets) == s.(events := s.events + [Alert(BidCheck(s.bid).value)])
  {
  }

  /** The phone check is a length check only: an 11-character id passes, a 9-character one does not. */
  lemma PhoneCheckIsOnlyALowerBound()
    ensures BidCheck(Bid("P1", "07111111112", Finite(1.0), Finite(1.0))) == None
    ensures BidCheck(Bid("P1", "071111111", Finite(1.0), Finite(1.0))) == Some(PHONE_ALERT)
  {
    Utf16LengthOfBmp("07111111112");
    Utf16LengthOfBmp("071111111");
  }

  /** The length is counted in code units, not characters: five emoji outside the Basic
      Multilingual Plane make an id of length 10, which passes the phone check. */
  lemma AstralPhoneIdPasses()
    ensures var id := "\U{1F600}\U{1F600}\U{1F600}\U{1F600}\U{1F600}";
            |id| == 5 && Utf16Length(id) == 10 && BidCheck(Bid("P1", id, Finite(1.0), Finite(1.0))) == None
  {
    var id := "\U{1F600}\U{1F600}\U{1F600}\U{1F600}\U{1F600}";
    assert id[1..][1..][1..][1..][1..] == "";
  }

  /** Nothing compares the bid with the product: an amount under the starting price and a
      quantity over the stock still go out as the first POST. */
  lemma BoundsAreNotChecked(s: PageState, routeId: string, p: Product,
                            posts: seq<Outcome<()>>, gets: seq<Outcome<seq<Bid>>>)
    requires |posts| >= 2 && |gets| >= 2
    requires s.product == Some(p) && p.startBidPrice > 1.0 && p.quantity >= 0
    requires s.bid == Bid(routeId, "0711111111", Finite(1.0), Finite((p.quantity + 1) as real))
    ensures s.bid.bidAmount.value < p.startBidPrice && s.bid.quantity.value > p.quantity as real
    ensures |Submitted(s, routeId, posts, gets).requests| > |s.requests|
    ensures Submitted(s, routeId, posts, gets).requests[|s.requests|] == Post(PRIMARY_API_URL + "/api/bids", s.bid)
  {
    Utf16LengthOfBmp("0711111111");
    FallbackAttempts(posts);
  }

  /** A bid that passes the checks is posted first to the primary origin and, only when that
      rejects, to the failover origin, both times with the form's fields and the route's product id.
      What follows is the reload of the route's bids, in failover order, after a 200 or 201
      answer, and nothing otherwise. */
  lemma PostedBody(s: PageState, routeId: string, posts: seq<Outcome<()>>, gets: seq<Outcome<seq<Bid>>>)
    requires |posts| >= 2 && |gets| >= 2
    requires BidCheck(s.bid).None?
    ensures var r := Submitted(s, routeId, posts, gets);
            var body := s.bid.(productId := routeId);
            var sent := if posts[0].IsOk() then [Post(BID_URLS[0], body)]
                        else [Post(BID_URLS[0], body), Post(BID_URLS[1], body)];
            && |r.requests| >= |s.requests| + |sent|
            && r.requests[..|s.requests| + |sent|] == s.requests + sent
            && (forall i :: |s.requests| + |sent| <= i < |r.requests| ==> r.requests[i].Get?)
            && r.requests[|s.requests| + |sent|..] ==
                 if Fallback(posts).Got? && Fallback(posts).status in {200, 201}
                 then Tried(FailoverGets(BidsPath(routeId)), gets) else []
  {
    var body := s.bid.(productId := routeId);
    TwoPosts(BID_URLS, body, posts);
    FallbackAttempts(gets);
    var mid := s.requests + Tried(BidPosts(body), posts);
    assert Submitted(s, routeId, posts, gets).requests[..|mid|] == mid;
  }

  /** A 200 or 201 answer followed by a successful reload replaces the bids with the reloaded
      list and resets the form to its defaults. */
  lemma CreatedReloadsAndResets(s: PageState, routeId: string, posts: seq<Outcome<()>>, gets: seq<Outcome<seq<Bid>>>)
    requires |posts| >= 2 && |gets| >= 2
    requires BidCheck(s.bid).None?
    requires Fallback(posts).Got? && Fallback(posts).status in {200, 201}
    requires Fallback(gets).Got?
    ensures var r := Submitted(s, routeId, posts, gets);
            r.bids == Fallback(gets).data && r.bid == DefaultBid(routeId) &&
            r.events == s.events + [Alert(CREATED_ALERT)]
  {
  }

  /** Any other 2xx status changes nothing the user can see. */
  lemma OtherStatusChangesNothing(s: PageState, routeId: string, posts: seq<Outcome<()>>, gets: seq<Outcome<seq<Bid>>>)
    requires |posts| >= 2 && |gets| >= 2
    requires BidCheck(s.bid).None?
    requires Fallback(posts).Got? && Fallback(posts).status !in {200, 201}
    ensures var r := Submitted(s, routeId, posts, gets);
            r.bids == s.bids && r.bid == s.bid && r.events == s.events
  {
  }

  /** When both POSTs fail, or the reload fails, the failure alert is the last thing shown and
      neither the bids nor the form change. */
  lemma FailureKeepsFormAndBids(s: PageState, routeId: string, posts: seq<Outcome<()>>, gets: seq<Outcome<seq<Bid>>>)
    requires |posts| >= 2 && |gets| >= 2
    requires BidCheck(s.bid).None?
    requires Fallback(posts).Threw? || (Fallback(posts).status in {200, 201} && Fallback(gets).Threw?)
    ensures var r := Submitted(s, routeId, posts, gets);
            r.bids == s.bids && r.bid == s.bid &&
            |r.events| > 0 && r.events[|r.events| - 1] == Alert(FAILED_ALERT)
  {
  }

  /** Mounting with a route id ends with the loading flag down, and with the product or an error. */
  lemma MountSettles(s: PageState, routeId: string, productNet: seq<Outcome<Product>>, bidsNet: seq<Outcome<seq<Bid>>>)
    requires |productNet| >= 2 && |bidsNet| >= 2
    requires routeId != ""
    ensures var r := Mounted(s, routeId, productNet, bidsNet);
            && !r.isLoading
            && (r.error.None? <==> FirstOk(productNet[..2]) < 2)
            && (r.error.None? ==> r.product == Some(productNet[FirstOk(productNet[..2])].data))
            && (r.bids == if FirstOk(bidsNet[..2]) < 2 then bidsNet[FirstOk(bidsNet[..2])].data else s.bids)
  {
  }

  /** What the page draws: the loading text, the error banner, the product with the bid
      form, or "Product not found.". */
  datatype View = LoadingText | ErrorBanner(message: string) | ProductView(product: Product, bid: Bid) | NotFound

  /** The two early returns and the `product ?` choice; an error shows when it is truthy. */
  function Render(s: PageState): View
  {
    if s.isLoading then LoadingText
    else if s.error.Some? && s.error.value != "" then ErrorBanner(s.error.value)
    else if s.product.Some? then ProductView(s.product.value, s.bid)
    else NotFound
  }

  /** Before the mount effect has run the page reads "Product not found."; once mounting with
      a route id has settled it shows the product and the form when a product read was ok, and
      the failover request's error otherwise, never the loading text or "Product not found.". */
  lemma MountedShowsProductOrError(s: PageState, routeId: string, productNet: seq<Outcome<Product>>,
                                   bidsNet: seq<Outcome<seq<Bid>>>)
    requires |productNet| >= 2 && |bidsNet| >= 2
    requires routeId != ""
    ensures Render(Initial(routeId)) == NotFound
    ensures var r := Mounted(s, routeId, productNet, bidsNet);
            var k := FirstOk(productNet[..2]);
            && (k < 2 ==> Render(r) == ProductView(productNet[k].data, r.bid))
            && (k == 2 ==> Render(r) == ErrorBanner(AxiosMessage(productNet[1])))
  {
  }

  /** The page component with its state hooks as fields. */
  class GigDescriptionPage {
    const routeId: string
    var isLoading: bool
    var error: Option<string>
    var product: Option<Product>
    var bid: Bid
    var bids: seq<Bid>
    var requests: seq<Request<Bid>>
    var events: seq<Event>

    function State(): PageState
      reads this
    {
      PageState(isLoading, error, product, bid, bids, requests, events)
    }

    constructor (routeId: string)
      ensures this.routeId == routeId && State() == Initial(routeId)
    {
      this.routeId := routeId;
      isLoading, error, product := false, None, None;
      bid, bids := DefaultBid(routeId), [];
      requests, events := [], [];
    }

    /** `fetchWithFailover(path)`: GET on the primary origin, and on the failover origin
        with the same path only when the first rejects. */
    method FetchWithFailover<T>(path: string, net: seq<Outcome<T>>) returns (r: Fetched<T>)
      requires |net| >= 2
      modifies this`requests
      ensures requests == old(requests) + Tried(FailoverGets(path), net)
      ensures r == Fallback(net)
    {
      FallbackAttempts(net);
      requests := requests + [Get(PRIMARY_API_URL + path)];
      if net[0].IsOk() {
        return Got(net[0].status, net[0].data);
      }
      requests := requests + [Get(FAILOVER_API_URL + path)];
      if net[1].IsOk() {
        r := Got(net[1].status, net[1].data);
      } else {
        r := Threw(AxiosMessage(net[1]));
      }
    }

    /** The `.catch` chain of `handleSubmit`: POST the bid to the primary origin, and to the
        failover origin only when the first rejects. */
    method PostWithFailover(body: Bid, net: seq<Outcome<()>>) returns (r: Fetched<()>)
      requires |net| >= 2
      modifies this`requests
      ensures requests == old(requests) + Tried(BidPosts(body), net)
      ensures r == Fallback(net)
    {
      TwoPosts(BID_URLS, body, net);
      requests := requests + [Post(BID_URLS[0], body)];
      if net[0].IsOk() {
        return Got(net[0].status, net[0].data);
      }
      requests := requests + [Post(BID_URLS[1], body)];
      if net[1].IsOk() {
        r := Got(net[1].status, net[1].data);
      } else {
        r := Threw(AxiosMessage(net[1]));
      }
    }

    method Mount(productNet: seq<Outcome<Product>>, bidsNet: seq<Outcome<seq<Bid>>>)
      requires |productNet| >= 2 && |bidsNet| >= 2
      modifies this
      ensures State() == Mounted(old(State()), routeId, productNet, bidsNet)
    {
      if routeId == "" {
        return;
      }
      isLoading := true;
      error := None;
      var p := FetchWithFailover(ProductPath(routeId), productNet);
      match p {
        case Got(_, data) => product := Some(data);
        case Threw(m) => error := Some(m);
      }
      isLoading := false;
      var b := FetchWithFailover(BidsPath(routeId), bidsNet);
      if b.Got? {
        bids := b.data;
      }
    }

    /** `handleChange`: only the named field changes; the two amounts are converted with `Number`. */
    method HandleChange(name: BidField, value: string)
      modifies this`bid
      ensures bid == Edited(old(bid), name, value)
    {
      match name {
        case ProductIdField => bid := bid.(productId := value);
        case UserIdField => bid := bid.(userId := value);
        case BidAmountField => bid := bid.(bidAmount := ToNumber(value));
        case QuantityField => bid := bid.(quantity := ToNumber(value));
      }
    }

    method HandleSubmit(posts: seq<Outcome<()>>, gets: seq<Outcome<seq<Bid>>>)
      requires |posts| >= 2 && |gets| >= 2
      modifies this
      ensures State() == Submitted(old(State()), routeId, posts, gets)
    {
      if bid.userId == "" || Utf16Length(bid.userId) < 10 {
        events := events + [Alert(PHONE_ALERT)];
        return;
      }
      if bid.bidAmount.AtMostZero() {
        events := events + [Alert(AMOUNT_ALERT)];
        return;
      }
      if bid.quantity.AtMostZero() {
        events := events + [Alert(QUANTITY_ALERT)];
        return;
      }
      var body := bid.(productId := routeId);
      var posted := PostWithFailover(body, posts);
      if posted.Threw? {
        events := events + [Alert(FAILED_ALERT)];
        return;
      }
      var status := posted.status;
      if status == 200 || status == 201 {
        events := events + [Alert(CREATED_ALERT)];
        var reloaded := FetchWithFailover(BidsPath(routeId), gets);
        if reloaded.Threw? {
          events := events + [Alert(FAILED_ALERT)];
          return;
        }
        bids := reloaded.data;
        bid := DefaultBid(routeId);
      }
    }
  }
}
