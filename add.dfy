/** The farmer's "add product" form: a product record edited field by field, a
    validator that collects one message per failing field, and a submission that
    posts the form to each backend origin in turn until one answers ok. */
module Add {
  import opened Text
  import opened Js
  import opened Net

  /** The fields of the product record, as the inputs' `name` attributes spell them. */
  datatype Field =
    | ProductId | Name | Category | Description | Quantity | Quality | Location
    | StartBidPrice | BuyNowPrice | Size | Status | ProductQuantity | UserId

  /** The product record: field to value. Inputs write strings; the initial numbers
      stay numbers until their field is edited. */
  type Product = map<Field, Value>

  /** The picked image file, carried through to the request without inspection. */
  datatype ImageFile = ImageFile(name: string)

  /** What one POST carries: the product (sent as JSON), the image when one is picked,
      and the `Authorization` header. */
  datatype Submission = Submission(product: Product, image: Option<ImageFile>, authorization: string)

  const PRODUCT_ID_REQUIRED := "Product ID is required."
  const NAME_REQUIRED := "Product Name is required."
  const CATEGORY_REQUIRED := "Category is required."
  const START_PRICE_INVALID := "Start Bid Price must be greater than 0."
  const BUY_NOW_PRICE_INVALID := "Buy Now Price must be greater than 0."

  const CREATED_ALERT := "Product created successfully!"
  const FAILED_ALERT := "Failed to create product on all servers. Please try again later."

  const API_URLS := [LOCAL_ORIGIN + "/api/products", PRODUCTION_ORIGIN + "/api/products"]

  /** The five fields `validate` looks at. */
  const CHECKED_FIELDS := {ProductId, Name, Category, StartBidPrice, BuyNowPrice}

  function InitialProduct(): (p: Product)
    ensures WellFormed(p)
  {
    map[ProductId := Str(""), Name := Str(""), Category := Str(""), Description := Str(""),
        Quantity := Num(Finite(0.0)), Quality := Str(""), Location := Str(""),
        StartBidPrice := Num(Finite(0.0)), BuyNowPrice := Num(Finite(0.0)), Size := Str(""),
        Status := Str(""), ProductQuantity := Num(Finite(0.0)), UserId := Str("")]
  }

  /** The checked fields are present, and the two that `validate` trims hold text. */
  predicate WellFormed(p: Product)
  {
    && ProductId in p && p[ProductId].Str?
    && Name in p && p[Name].Str?
    && Category in p && StartBidPrice in p && BuyNowPrice in p
  }

  /** Which of the five checks of `validate` the form fails. */
  datatype Verdict = Verdict(idMissing: bool, nameMissing: bool, categoryMissing: bool,
                             startPriceInvalid: bool, buyNowPriceInvalid: bool)

  /** The five checks: product id and name all whitespace, no category, and each price
      failing `!price || price <= 0`. */
  function Checks(p: Product): Verdict
    requires WellFormed(p)
  {
    Verdict(Blank(p[ProductId].s), Blank(p[Name].s), !p[Category].Truthy(),
            !PassesPositiveCheck(p[StartBidPrice]), !PassesPositiveCheck(p[BuyNowPrice]))
  }

  /** The message `validate` records for field `f`, or None when `f` passes its check. */
  function FieldError(v: Verdict, f: Field): (m: Option<string>)
    ensures m.Some? ==> f in CHECKED_FIELDS
  {
    match f
    case ProductId => if v.idMissing then Some(PRODUCT_ID_REQUIRED) else None
    case Name => if v.nameMissing then Some(NAME_REQUIRED) else None
    case Category => if v.categoryMissing then Some(CATEGORY_REQUIRED) else None
    case StartBidPrice => if v.startPriceInvalid then Some(START_PRICE_INVALID) else None
    case BuyNowPrice => if v.buyNowPriceInvalid then Some(BUY_NOW_PRICE_INVALID) else None
    case _ => None
  }

  /** The order in which `validate` runs its checks. */
  const CHECK_ORDER := [ProductId, Name, Category, StartBidPrice, BuyNowPrice]

  /** The error map after running the checks of `fields` in order, starting from `{}`. */
  function ErrorsAfter(v: Verdict, fields: seq<Field>): (errors: map<Field, string>)
  {
    if fields == [] then map[]
    else
      var before := ErrorsAfter(v, fields[..|fields| - 1]);
      var f := fields[|fields| - 1];
      if FieldError(v, f).Some? then before[f := FieldError(v, f).value] else before
  }

  /** One `if (check fails) newErrors.field = message` step. */
  function Note(errors: map<Field, string>, v: Verdict, f: Field): map<Field, string>
  {
    if FieldError(v, f).Some? then errors[f := FieldError(v, f).value] else errors
  }

  /** The fold over the check order, written out step by step. */
  lemma ErrorsUnrolled(v: Verdict)
    ensures ErrorsAfter(v, CHECK_ORDER) ==
              Note(Note(Note(Note(Note(map[], v, ProductId), v, Name), v, Category), v, StartBidPrice), v, BuyNowPrice)
  {
    var c1 := [ProductId];
    var c2 := c1 + [Name];
    var c3 := c2 + [Category];
    var c4 := c3 + [StartBidPrice];
    var c5 := c4 + [BuyNowPrice];
    assert c1[..0] == [] && c2[..1] == c1 && c3[..2] == c2 && c4[..3] == c3 && c5[..4] == c4;
    assert ErrorsAfter(v, c1) == Note(map[], v, ProductId);
    assert ErrorsAfter(v, c2) == Note(ErrorsAfter(v, c1), v, Name);
    assert ErrorsAfter(v, c3) == Note(ErrorsAfter(v, c2), v, Category);
    assert ErrorsAfter(v, c4) == Note(ErrorsAfter(v, c3), v, StartBidPrice);
    assert ErrorsAfter(v, c5) == Note(ErrorsAfter(v, c4), v, BuyNowPrice);
    assert c5 == CHECK_ORDER;
  }

  /** What `validate()` returns. */
  function Errors(p: Product): (errors: map<Field, string>)
    requires WellFormed(p)
  {
    ErrorsAfter(Checks(p), CHECK_ORDER)
  }

  /** After running the checks of `fields`, a field has an entry exactly when it is one of
      them and fails, and the entry is that check's message: the order does not matter. */
  lemma {:induction false} ErrorsAfterMeaning(v: Verdict, fields: seq<Field>)
    ensures forall f :: f in ErrorsAfter(v, fields) <==> f in fields && FieldError(v, f).Some?
    ensures forall f :: f in ErrorsAfter(v, fields) ==> ErrorsAfter(v, fields)[f] == FieldError(v, f).value
  {
    if fields != [] {
      var init := fields[..|fields| - 1];
      ErrorsAfterMeaning(v, init);
      assert fields == init + [fields[|fields| - 1]];
    }
  }

  /** Each failing field gets the message of its own check, and a passing field no entry. */
  lemma EntryPerFailingField(p: Product)
    requires WellFormed(p)
    ensures Errors(p).Keys <= CHECKED_FIELDS
    ensures forall f :: f in Errors(p) <==> FieldError(Checks(p), f).Some?
    ensures forall f :: f in Errors(p) ==> Errors(p)[f] == FieldError(Checks(p), f).value
  {
    ErrorsAfterMeaning(Checks(p), CHECK_ORDER);
    forall f | FieldError(Checks(p), f).Some? ensures f in CHECK_ORDER {
      assert f in CHECKED_FIELDS;
    }
  }

  /** A price the check accepts: a positive number, or text that is not a number at all. */
  predicate PriceAccepted(v: Value)
  {
    (v.ToNumeric().Finite? && v.ToNumeric().value > 0.0) || (v.Str? && v.ToNumeric().NaN?)
  }

  /** The error map is empty exactly when no check fails. */
  lemma NoErrorsIffAllPass(p: Product)
    requires WellFormed(p)
    ensures var v := Checks(p);
            Errors(p) == map[] <==>
              !v.idMissing && !v.nameMissing && !v.categoryMissing && !v.startPriceInvalid && !v.buyNowPriceInvalid
  {
    EntryPerFailingField(p);
    var errors := Errors(p);
    if errors == map[] {
      assert ProductId !in errors && Name !in errors && Category !in errors;
      assert StartBidPrice !in errors && BuyNowPrice !in errors;
    } else {
      var k :| k in errors;
      assert FieldError(Checks(p), k).Some?;
    }
  }

  /** The form is valid exactly when product id and name have non-space text, a category
      is chosen, and both prices are accepted. */
  lemma ValidIffNoErrors(p: Product)
    requires WellFormed(p)
    ensures Errors(p) == map[] <==>
              && !Blank(p[ProductId].s) && !Blank(p[Name].s) && p[Category].Truthy()
              && PriceAccepted(p[StartBidPrice]) && PriceAccepted(p[BuyNowPrice])
  {
    PositiveCheckMeaning(p[StartBidPrice]);
    PositiveCheckMeaning(p[BuyNowPrice]);
    NoErrorsIffAllPass(p);
  }

  /** The untouched form fails on all five checked fields. */
  lemma InitialFormFailsEveryCheck()
    ensures Errors(InitialProduct()).Keys == CHECKED_FIELDS
  {
    var p := InitialProduct();
    assert p[ProductId] == Str("") && p[Name] == Str("") && p[Category] == Str("");
    assert p[StartBidPrice] == Num(Finite(0.0)) && p[BuyNowPrice] == Num(Finite(0.0));
    assert Checks(p) == Verdict(true, true, true, true, true);
    EntryPerFailingField(p);
    forall f | f in CHECKED_FIELDS ensures f in Errors(p) {
      assert FieldError(Checks(p), f).Some?;
    }
  }

  /** The `!price || price <= 0` test lets through text that is not a number: `Number`
      makes it NaN, and NaN is not `<= 0`. */
  lemma NonNumericPricePasses()
    ensures PassesPositiveCheck(Str("abc"))
  {
    assert Trim("abc") == "abc" by { TrimUntouched("abc"); }
    assert Split("abc", '.') == ["abc"] by { SplitWithoutSeparator("abc", '.'); }
  }

  /** The page's state: the form, the picked image, the error map and the logs. */
  datatype AddState = AddState(product: Product, image: Option<ImageFile>, errors: map<Field, string>,
                               requests: seq<Request<Submission>>, events: seq<Event>)

  function Initial(): (s: AddState)
    ensures WellFormed(s.product)
  {
    AddState(InitialProduct(), None, map[], [], [])
  }

  /** The mount effect: the stored user's id goes into the form when a user is stored. */
  function Mounted(s: AddState, stored: Option<UserData>): AddState
  {
    if stored.Some? then s.(product := s.product[UserId := Str(stored.value.userId)]) else s
  }

  /** `handleChange`: the named field takes the typed text, and that field's error is blanked when one is shown. */
  function Changed(s: AddState, name: Field, value: string): AddState
  {
    var errors := if name in s.errors && s.errors[name] != "" then s.errors[name := ""] else s.errors;
    s.(product := s.product[name := Str(value)], errors := errors)
  }

  /** The header value: the stored token, or the text "null" when no user is stored. */
  function Authorization(stored: Option<UserData>): string
  {
    "Bearer " + if stored.Some? then stored.value.token else "null"
  }

  /** `handleSubmit`: a failing form only stores its errors; a valid one is posted to each
      URL in order until one answers ok. */
  function Submitted(s: AddState, stored: Option<UserData>, net: seq<Outcome<()>>): AddState
    requires WellFormed(s.product) && |net| >= |API_URLS|
  {
    var errors := Errors(s.product);
    if |errors| > 0 then s.(errors := errors)
    else
      var body := Submission(s.product, s.image, Authorization(stored));
      var sent := s.(requests := s.requests + Tried(Posts(API_URLS, body), net));
      if FirstOk(net[..|API_URLS|]) < |API_URLS| then sent.(events := sent.events + [Alert(CREATED_ALERT), Navigate("/gigs")])
      else sent.(events := sent.events + [Alert(FAILED_ALERT)])
  }

  /** Mounting copies the stored user's id and nothing else; with no stored user the form stays as it is. */
  lemma MountCopiesUserId(s: AddState, stored: Option<UserData>)
    ensures var r := Mounted(s, stored);
            && (stored.Some? ==> UserId in r.product && r.product[UserId] == Str(stored.value.userId))
            && (stored.None? ==> r == s)
            && (forall k :: k in s.product && k != UserId ==> k in r.product && r.product[k] == s.product[k])
            && r.errors == s.errors && r.requests == s.requests && r.events == s.events
  {
  }

  /** Editing a field changes that field only; afterwards its error is not shown (absent or
      blank), every other error is as before, and the form stays well formed. */
  lemma ChangeTouchesOnlyItsField(s: AddState, name: Field, value: string)
    ensures var r := Changed(s, name, value);
            && r.product.Keys == s.product.Keys + {name}
            && r.product[name] == Str(value)
            && (forall k :: k in s.product && k != name ==> r.product[k] == s.product[k])
            && (name !in r.errors || r.errors[name] == "")
            && (name in s.errors <==> name in r.errors)
            && (forall k :: k in s.errors && k != name ==> k in r.errors && r.errors[k] == s.errors[k])
            && (WellFormed(s.product) ==> WellFormed(r.product))
  {
  }

  /** A failing form is reported through the error map only: nothing is sent and nothing is shown. */
  lemma RejectedFormSendsNothing(s: AddState, stored: Option<UserData>, net: seq<Outcome<()>>)
    requires WellFormed(s.product) && |net| >= |API_URLS|
    requires Errors(s.product) != map[]
    ensures var r := Submitted(s, stored, net);
            r.errors == Errors(s.product) && r.requests == s.requests && r.events == s.events &&
            r.product == s.product
  {
  }

  /** A valid form goes first to the local origin and then, only when that is not ok, to
      production, with the same body and header each time; success is reported exactly when
      one of them answered ok, and the failure alert only after both were tried. */
  lemma SubmitInOrder(s: AddState, stored: Option<UserData>, net: seq<Outcome<()>>)
    requires WellFormed(s.product) && |net| >= |API_URLS|
    requires Errors(s.product) == map[]
    ensures var r := Submitted(s, stored, net);
            var body := Submission(s.product, s.image, Authorization(stored));
            var sent := if net[0].IsOk() then [Post(API_URLS[0], body)] else [Post(API_URLS[0], body), Post(API_URLS[1], body)];
            && r.requests == s.requests + sent
            && (net[0].IsOk() || net[1].IsOk() ==> r.events == s.events + [Alert(CREATED_ALERT), Navigate("/gigs")])
            && (!net[0].IsOk() && !net[1].IsOk() ==> r.events == s.events + [Alert(FAILED_ALERT)])
            && r.errors == s.errors
  {
    TwoPosts(API_URLS, Submission(s.product, s.image, Authorization(stored)), net);
  }

  /** Every attempt carries the same form and the same header, request i going to URL i;
      with no stored user the header is the text "Bearer null" (see `Authorization`). */
  lemma SameBodyEveryAttempt(s: AddState, stored: Option<UserData>, net: seq<Outcome<()>>)
    requires WellFormed(s.product) && |net| >= |API_URLS|
    requires Errors(s.product) == map[]
    ensures var r := Submitted(s, stored, net);
            var body := Submission(s.product, s.image, Authorization(stored));
            forall i :: |s.requests| <= i < |r.requests| ==> i - |s.requests| < |API_URLS| && r.requests[i] == Post(API_URLS[i - |s.requests|], body)
  {
    var body := Submission(s.product, s.image, Authorization(stored));
    TwoPosts(API_URLS, body, net);
    var r := Submitted(s, stored, net);
    assert r.requests == s.requests + Tried(Posts(API_URLS, body), net);
  }

  /** Typing non-space text into the product id field clears that check in the next validation. */
  lemma TypedIdPassesItsCheck(s: AddState, value: string)
    requires WellFormed(s.product) && !Blank(value)
    ensures WellFormed(Changed(s, ProductId, value).product)
    ensures ProductId !in Errors(Changed(s, ProductId, value).product)
  {
    EntryPerFailingField(Changed(s, ProductId, value).product);
  }

  /** The page component with its state hooks as fields. */
  class AddPage {
    var product: Product
    var image: Option<ImageFile>
    var errors: map<Field, string>
    var requests: seq<Request<Submission>>
    var events: seq<Event>

    function State(): AddState
      reads this
    {
      AddState(product, image, errors, requests, events)
    }

    predicate Valid()
      reads this
    {
      WellFormed(product)
    }

    constructor ()
      ensures Valid() && State() == Initial()
    {
      product := InitialProduct();
      image, errors := None, map[];
      requests, events := [], [];
    }

    method Mount(stored: Option<UserData>)
      requires Valid()
      modifies this`product
      ensures Valid() && State() == Mounted(old(State()), stored)
    {
      if stored.Some? {
        product := product[UserId := Str(stored.value.userId)];
      }
    }

    /** `validate()`: fills a fresh error map one check at a time, trimming the two text
        fields and comparing the two prices with `<= 0`. */
    method Validate() returns (newErrors: map<Field, string>)
      requires Valid()
      ensures newErrors == Errors(product)
    {
      var p := product;
      ghost var verdict := Checks(p);
      newErrors := map[];
      TrimEmptyIffBlank(p[ProductId].s);
      if Trim(p[ProductId].s) == "" {
        newErrors := newErrors[ProductId := PRODUCT_ID_REQUIRED];
      }
      assert newErrors == Note(map[], verdict, ProductId);
      ghost var afterId := newErrors;
      TrimEmptyIffBlank(p[Name].s);
      if Trim(p[Name].s) == "" {
        newErrors := newErrors[Name := NAME_REQUIRED];
      }
      assert newErrors == Note(afterId, verdict, Name);
      ghost var afterName := newErrors;
      if !p[Category].Truthy() {
        newErrors := newErrors[Category := CATEGORY_REQUIRED];
      }
      assert newErrors == Note(afterName, verdict, Category);
      ghost var afterCategory := newErrors;
      var start := p[StartBidPrice];
      if !start.Truthy() || start.ToNumeric().AtMostZero() {
        newErrors := newErrors[StartBidPrice := START_PRICE_INVALID];
      }
      assert newErrors == Note(afterCategory, verdict, StartBidPrice);
      ghost var afterStart := newErrors;
      var buy := p[BuyNowPrice];
      if !buy.Truthy() || buy.ToNumeric().AtMostZero() {
        newErrors := newErrors[BuyNowPrice := BUY_NOW_PRICE_INVALID];
      }
      assert newErrors == Note(afterStart, verdict, BuyNowPrice);
      ErrorsUnrolled(verdict);
    }

    method HandleChange(name: Field, value: string)
      requires Valid()
      modifies this`product, this`errors
      ensures Valid() && State() == Changed(old(State()), name, value)
    {
      product := product[name := Str(value)];
      if name in errors && errors[name] != "" {
        errors := errors[name := ""];
      }
    }

    /** `handleImageChange`: the first picked file, or none. */
    method HandleImageChange(files: seq<ImageFile>)
      modifies this`image
      ensures image == if files == [] then None else Some(files[0])
    {
      image := if files == [] then None else Some(files[0]);
    }

    method HandleSubmit(stored: Option<UserData>, net: seq<Outcome<()>>)
      requires Valid() && |net| >= |API_URLS|
      modifies this`errors, this`requests, this`events
      ensures Valid() && State() == Submitted(old(State()), stored, net)
    {
      var formErrors := Validate();
      if |formErrors| > 0 {
        errors := formErrors;
        return;
      }
      var body := Submission(product, image, Authorization(stored));
      var sent, ok := PostInTurn(API_URLS, body, net);
      requests := requests + sent;
      if ok {
        events := events + [Alert(CREATED_ALERT), Navigate("/gigs")];
        return;
      }
      events := events + [Alert(FAILED_ALERT)];
    }
  }
}
