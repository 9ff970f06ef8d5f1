/** The "create a new bid" form: a four-field bid edited input by input and posted, as it
    stands and without any check, to each backend origin in turn until one answers ok. */
module Gig {
  import opened Js
  import opened Net

  /** The inputs of the form, named as their `name` attributes spell them. */
  datatype BidField = ProductId | UserId | BidAmount | Quantity

  /** The bid record. The two amounts start as numbers and hold the typed text once edited. */
  datatype Bid = Bid(productId: Value, userId: Value, bidAmount: Value, quantity: Value)
  {
    function Get(f: BidField): Value
    {
      match f
      case ProductId => productId
      case UserId => userId
      case BidAmount => bidAmount
      case Quantity => quantity
    }
  }

  const CREATED_ALERT := "Bid created successfully!"
  const FAILED_ALERT := "Failed to create bid on all servers. Please try again later."

  const API_URLS := [LOCAL_ORIGIN + "/api/bids", PRODUCTION_ORIGIN + "/api/bids"]

  /** Empty ids, an amount of 0 and a quantity of 1. */
  function InitialBid(): (b: Bid)
    ensures b.Get(ProductId) == Str("") && b.Get(UserId) == Str("")
    ensures b.Get(BidAmount) == Num(Finite(0.0)) && b.Get(Quantity) == Num(Finite(1.0))
  {
    Bid(Str(""), Str(""), Num(Finite(0.0)), Num(Finite(1.0)))
  }

  datatype GigState = GigState(bid: Bid, requests: seq<Request<Bid>>, events: seq<Event>)

  function Initial(): GigState
  {
    GigState(InitialBid(), [], [])
  }

  /** `handleChange`: `{ ...bid, [name]: value }`. */
  function Changed(s: GigState, name: BidField, value: string): GigState
  {
    var b := s.bid;
    var nb := match name
      case ProductId => b.(productId := Str(value))
      case UserId => b.(userId := Str(value))
      case BidAmount => b.(bidAmount := Str(value))
      case Quantity => b.(quantity := Str(value));
    s.(bid := nb)
  }

  /** `handleSubmit`: the bid is posted to each URL in order until one answers ok; an ok
      answer alerts and goes to the home page, otherwise the failure alert follows both attempts. */
  function Submitted(s: GigState, net: seq<Outcome<()>>): GigState
    requires |net| >= |API_URLS|
  {
    var sent := s.(requests := s.requests + Tried(Posts(API_URLS, s.bid), net));
    if FirstOk(net[..|API_URLS|]) < |API_URLS| then sent.(events := sent.events + [Alert(CREATED_ALERT), Navigate("/")])
    else sent.(events := sent.events + [Alert(FAILED_ALERT)])
  }

  /** Editing an input sets that field to the typed text and leaves the other three, the
      requests and the events as they were. */
  lemma ChangeTouchesOnlyItsField(s: GigState, name: BidField, value: string)
    ensures var r := Changed(s, name, value);
            && r.bid.Get(name) == Str(value)
            && (forall f :: f != name ==> r.bid.Get(f) == s.bid.Get(f))
            && r.requests == s.requests && r.events == s.events
  {
  }

  /** The form is not checked: whatever the bid holds (blank ids, a zero or negative amount,
      text that is no number) is posted, unchanged, to the local origin first. */
  lemma NoValidation(s: GigState, net: seq<Outcome<()>>)
    requires |net| >= |API_URLS|
    ensures var r := Submitted(s, net);
            && |r.requests| > |s.requests|
            && r.requests[|s.requests|] == Post(API_URLS[0], s.bid)
            && r.bid == s.bid
  {
    TwoPosts(API_URLS, s.bid, net);
  }

  /** The local origin first and production only when that is not ok, with the same bid each
      time; success is reported exactly when one of them answered ok. */
  lemma SubmitInOrder(s: GigState, net: seq<Outcome<()>>)
    requires |net| >= |API_URLS|
    ensures var r := Submitted(s, net);
            var sent := if net[0].IsOk() then [Post(API_URLS[0], s.bid)] else [Post(API_URLS[0], s.bid), Post(API_URLS[1], s.bid)];
            && r.requests == s.requests + sent
            && (net[0].IsOk() || net[1].IsOk() ==> r.events == s.events + [Alert(CREATED_ALERT), Navigate("/")])
            && (!net[0].IsOk() && !net[1].IsOk() ==> r.events == s.events + [Alert(FAILED_ALERT)])
  {
    TwoPosts(API_URLS, s.bid, net);
  }

  /** An amount never edited is sent as the number it started as, not as text. */
  lemma UntouchedAmountsStayNumbers(name: BidField, value: string, net: seq<Outcome<()>>)
    requires name == ProductId || name == UserId
    requires |net| >= |API_URLS|
    ensures var r := Submitted(Changed(Initial(), name, value), net);
            && r.requests[0].body.bidAmount == Num(Finite(0.0))
            && r.requests[0].body.quantity == Num(Finite(1.0))
  {
    NoValidation(Changed(Initial(), name, value), net);
  }

  /** The page component with its state hooks as fields. */
  class GigPage {
    var bid: Bid
    var requests: seq<Request<Bid>>
    var events: seq<Event>

    function State(): GigState
      reads this
    {
      GigState(bid, requests, events)
    }

    constructor ()
      ensures State() == Initial()
    {
      bid := InitialBid();
      requests, events := [], [];
    }

    method HandleChange(name: BidField, value: string)
      modifies this`bid
      ensures State() == Changed(old(State()), name, value)
    {
      match name
      case ProductId => bid := bid.(productId := Str(value));
      case UserId => bid := bid.(userId := Str(value));
      case BidAmount => bid := bid.(bidAmount := Str(value));
      case Quantity => bid := bid.(quantity := Str(value));
    }

    method HandleSubmit(net: seq<Outcome<()>>)
      requires |net| >= |API_URLS|
      modifies this`requests, this`events
      ensures State() == Submitted(old(State()), net)
    {
      var sent, ok := PostInTurn(API_URLS, bid, net);
      requests := requests + sent;
      if ok {
        events := events + [Alert(CREATED_ALERT), Navigate("/")];
        return;
      }
      events := events + [Alert(FAILED_ALERT)];
    }
  }
}
