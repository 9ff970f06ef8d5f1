# Agribitsystem storefront pages, modelled in Dafny

The Agribitsystem frontend is a React storefront for an agricultural bidding system.
Farmers list products, buyers bid on them, and users sign up, sign in and read
notifications. Every page talks to the same REST backend through two origins: a local
development server (`http://localhost:8080`) and a hosted production server. Each page
carries its own copy of a failover policy: try the local origin, and try production only
when the local request fails.

This project models seven pages: their state and their event handlers. What a page draws is
modelled where it depends on that state: the bid summary's spinner, error or table; the product
page's loading text, error banner, product or "Product not found."; the notification list; the
sign-in button and error paragraph; and the sign-up error paragraph.
It proves what each handler sends, in which order, and what the user then sees.

- `text.dfy` (`Text`): the string operations the pages rely on. Decimal printing of
  integers (template literals), `trim`, `join`, and a `Split` used as the inverse of `join`.
- `js.dfy` (`Js`): the JavaScript value semantics the forms rely on. `Number(text)` on
  decimal text, truthiness, and the loose comparison `value <= 0` on a string or a number.
- `net.dfy` (`Net`): shared pieces.
  - A request's outcome (`Response` with status, data and the body's `message`, or
    `NetworkError`).
  - The logs of requests sent and of events shown (alerts, navigations, downloads).
  - The in-order failover (`FirstOk`, `Attempts`, `Tried`).
  - The axios `try`/`catch` pair (`Fallback`).
  - The `for (const url of urls)` loop of the form pages (`PostInTurn`).
- `orders.dfy` (`Orders`): the bid summary of a product.
  - Bid list and maximum-total bid, local origin first, both read again on production
    when anything fails.
  - Spinner, error or table.
  - CSV export.
- `gig_description.dfy` (`GigDescription`): the product page where a buyer bids.
  - Loading the product and its bids through `fetchWithFailover`.
  - The three bid checks.
  - The POST with `.catch` failover, then the reload and the form reset.
- `add.dfy` (`Add`): the farmer's product form.
  - Field edits.
  - The five-check validator and its error map.
  - The image pick.
  - The product posted to each origin in turn with the stored token.
- `gig.dfy` (`Gig`): the plain "create a bid" form, posted without any check.
- `register.dfy` (`Register`): the sign-up form with the try/catch pair.
- `message.dfy` (`Message`): a user's notifications.
  - The list query.
  - The posted notification record.
  - Invalidation of the list's query key.
  - The "unread" item class.
- `login.dfy` (`Login`): sign-in.
  - The loop over the origins.
  - Routing by role.
  - Which error message is left on screen.

Each page has the same shape:
- a datatype holding a snapshot of its state;
- pure functions giving the state after each handler (`Submitted`, `Mounted`, `Changed`, ...);
- a `class` whose fields are the component's state hooks. Its methods do the source's
  work step by step and are proved to produce exactly the state the function describes;
- lemmas stating what the source promises about those functions.

The network and the browser are inputs, not modelled:
- A handler that makes requests takes one sequence of outcomes per request site.
  Outcome `i` answers the `i`-th origin tried.
- Local storage is an `Option<UserData>` parameter.
- The clock is a timestamp parameter.
- `alert`, `navigate` and the CSV download are events appended to a log.

Behaviour of the code worth noting:

- Bid checks on the product page (`GigDescription.BidCheck`). The phone-number check only
  requires a `length` of at least 10, counted in UTF-16 code units; it does not demand
  exactly ten digits (`AstralPhoneIdPasses`). Nothing compares
  the amount with the starting price, or the quantity with the stock
  (`PhoneCheckIsOnlyALowerBound`, `BoundsAreNotChecked`).
- The "create a bid" form (`Gig`) sends the bid with no check at all (`Gig.NoValidation`).
- Order of reads on the bid summary (`Orders`). The two reads run one after the other, not
  in parallel. The maximum-total read is made only after an ok bid-list read on the same
  origin, and any failure on the local origin restarts both reads on production
  (`Orders.RequestOrder`).
- Server errors on sign-in. An error response does not end the attempt at once: the loop
  goes on to the next origin, and the message left on screen is the last error response's
  (`Login.LastServerMessageWins`).
- Unknown role on sign-in. An ok answer whose role has no page is not rejected before it is
  stored. It is stored first, then the page shows a generic error
  (`Login.UnknownRoleKeepsStoredUser`).

## Model

| member | source | states |
|---|---|---|
| Text.IntToString | src/pages/orders/Orders.tsx:81 | A printed integer is never empty and ends in a digit; it starts with '-' exactly when the integer is negative, and is digits otherwise |
| Text.DecimalRoundTrip | src/pages/orders/Orders.tsx:81 | Reading back the digits printed for a natural number gives that number |
| Text.TrimStart | src/pages/add/Add.jsx:48-49 | Defines `trimStart`: the text with its leading whitespace dropped; never longer than the text |
| Text.TrimEnd | src/pages/add/Add.jsx:48-49 | Defines `trimEnd`: the text with its trailing whitespace dropped; never longer than the text |
| Text.Trim | src/pages/add/Add.jsx:48-49 | Defines `trim` as `trimStart` then `trimEnd`; never longer than the text |
| Text.TrimStartDropsSpaces | src/pages/add/Add.jsx:48-49 | `trimStart` keeps a suffix of the text, drops only whitespace, and its result does not start with whitespace |
| Text.TrimEndDropsSpaces | src/pages/add/Add.jsx:48-49 | `trimEnd` keeps a prefix of the text, drops only whitespace, and its result does not end with whitespace |
| Text.TrimEmptyIffBlank | src/pages/add/Add.jsx:48-49 | `!s.trim()` holds exactly when the text is all whitespace; otherwise the trimmed text starts and ends with a non-space |
| Text.TrimUntouched | src/pages/add/Add.jsx:48-49 | Text that starts and ends with a non-space is left as it is by `trim` |
| Text.Join | src/pages/orders/Orders.tsx:78-83 | Defines `Array.prototype.join`: the parts with one separator between each two |
| Text.SplitJoin | src/pages/orders/Orders.tsx:78-83 | Joined parts that hold no separator split back into exactly those parts |
| Text.Utf16Length | src/pages/GigDescription/GigDescription.tsx:90 | `length` counts UTF-16 code units: at least one and at most two per character |
| Text.Utf16LengthOfBmp | src/pages/GigDescription/GigDescription.tsx:90 | Text of Basic Multilingual Plane characters has exactly one code unit per character |
| Js.Number.AtMostZero | src/pages/GigDescription/GigDescription.tsx:95 | Defines `n <= 0` on a number: false for NaN |
| Js.Number.Truthy | src/pages/add/Add.jsx:51-54 | Defines the truthiness of a number: zero and NaN are falsy |
| Js.Value.Truthy | src/pages/add/Add.jsx:50-54 | Defines the truthiness of a form value: the empty string, zero and NaN are falsy |
| Js.Value.ToNumeric | src/pages/add/Add.jsx:51-54 | Defines the number a form value stands for in `value <= 0`: `Number` of text, the number itself otherwise |
| Js.PassesPositiveCheck | src/pages/add/Add.jsx:51-54 | Defines passing `!v \|\| v <= 0`: the value is truthy and not at most zero |
| Js.Unsigned | src/pages/GigDescription/GigDescription.tsx:83 | The value of unsigned decimal text, when it is a number, is never negative |
| Js.ToNumber | src/pages/GigDescription/GigDescription.tsx:83 | `Number` of blank text is 0 |
| Js.ToNumberOfPrinted | src/pages/GigDescription/GigDescription.tsx:83 | `Number` of a printed integer is that integer |
| Js.PriceWithCents | src/pages/GigDescription/GigDescription.tsx:83 | `Number("12.5")` is 12.5 |
| Js.NegativeFraction | src/pages/GigDescription/GigDescription.tsx:83 | `Number("-.5")` is -0.5 |
| Js.TwoPoints | src/pages/GigDescription/GigDescription.tsx:83 | `Number("1.2.3")` is NaN |
| Js.PointAlone | src/pages/GigDescription/GigDescription.tsx:83 | `Number(".")` is NaN |
| Js.PositiveCheckMeaning | src/pages/add/Add.jsx:51-54 | `!v \|\| v <= 0` is false exactly for a positive number and for non-empty text that is not a number |
| Net.FirstOk | src/pages/add/Add.jsx:81-101 | The index of the first ok outcome: all before it are not ok, and it is ok unless it is past the end |
| Net.Attempts | src/pages/add/Add.jsx:81-101 | The number of candidates tried: at least one, at most all; every candidate before the last one tried was not ok; stopping early means the last one tried was ok; the last one tried is ok exactly when some candidate is, and it is then the first ok one |
| Net.Tried | src/pages/add/Add.jsx:81-101 | The requests of the in-order failover are the candidates' prefix of length `Attempts` |
| Net.Posts | src/pages/add/Add.jsx:81-89 | The same body goes to each URL, request i to URL i |
| Net.AxiosMessage | src/pages/GigDescription/GigDescription.tsx:10-17 | Defines the message of the error axios rejects with: the status code for a response, "Network Error" without one |
| Net.Fallback | src/pages/GigDescription/GigDescription.tsx:10-17 | The try/catch pair resolves exactly when one of the two outcomes is ok, with the first ok answer's status and data; otherwise it throws the second request's error |
| Net.FallbackAttempts | src/pages/GigDescription/GigDescription.tsx:10-17 | The failover origin is asked exactly when the primary is not ok |
| Net.TriedStep | src/pages/add/Add.jsx:81-101 | The first candidate is always tried; an ok answer stops there, any other hands over to the remaining candidates |
| Net.TwoPosts | src/pages/add/Add.jsx:76-104 | Over two URLs, the second is posted to exactly when the first is not ok, and success means one of them was ok |
| Net.PostInTurn | src/pages/add/Add.jsx:81-104 | The loop sends exactly the failover's requests and reports success exactly when some URL answered ok, stated both through `FirstOk` and as an existence over the outcomes |
| Orders.CsvFields | src/pages/orders/Orders.tsx:80-81 | A bid gives six CSV columns |
| Orders.CsvRow | src/pages/orders/Orders.tsx:81 | Defines one CSV line: the six columns joined by commas, nothing quoted |
| Orders.CsvRows | src/pages/orders/Orders.tsx:80-82 | One row per bid, in the order the bids are held |
| Orders.CsvText | src/pages/orders/Orders.tsx:78-83 | Defines the downloaded text: the header, then one row per bid, joined by newlines |
| Orders.CsvFileName | src/pages/orders/Orders.tsx:90 | Defines the download name `bids_<id>.csv` |
| Orders.PrintedIntFreeOf | src/pages/orders/Orders.tsx:81 | A printed amount holds no comma and no newline |
| Orders.HeaderFreeOfNewline | src/pages/orders/Orders.tsx:79 | The header is one line |
| Orders.RowColumns | src/pages/orders/Orders.tsx:81 | A row whose text columns hold no comma splits back into exactly the bid's six columns |
| Orders.RowFreeOfNewline | src/pages/orders/Orders.tsx:81 | A row whose text columns hold no newline is one line |
| Orders.CsvLines | src/pages/orders/Orders.tsx:78-83 | The CSV text is the header line followed by one line per bid, in order: `|bids| + 1` lines |
| Orders.CommaShiftsColumns | src/pages/orders/Orders.tsx:81 | Without quoting, two different bids can give the same row |
| Orders.OneBidText | src/pages/orders/Orders.tsx:78-83 | The CSV of a single bid is the header, a newline and that bid's row |
| Orders.SingleBidExport | src/pages/orders/Orders.tsx:78-83 | The bid `1, P1, 0711111111, 100, 2, 200` exports as the header followed by `1,P1,0711111111,100,2,200` |
| Orders.FetchError | src/pages/orders/Orders.tsx:34-63 | Defines the message of a failed `fetch` step: the page's own text for a non-ok response, the browser's text when there is no response |
| Orders.Backup | src/pages/orders/Orders.tsx:46-64 | Defines the catch block: both reads again on production, and the first failure there becomes the error |
| Orders.Loaded | src/pages/orders/Orders.tsx:30-68 | Defines `fetchBidsAndMaxBid`: the local reads, the backup on any local failure, loading ended |
| Orders.Mounted | src/pages/orders/Orders.tsx:29-73 | Defines the mount effect: `Loaded` when the product id is truthy, no change otherwise |
| Orders.Render | src/pages/orders/Orders.tsx:97-115 | The spinner while loading; otherwise the error when there is a non-empty one; otherwise the table of the held bids |
| Orders.ExportDisabled | src/pages/orders/Orders.tsx:123 | Defines the export button's disabled state: no bids held |
| Orders.ExportClicked | src/pages/orders/Orders.tsx:76-124 | Defines the export click: a download of the held bids' CSV when the table shows an enabled button, nothing otherwise |
| Orders.RequestOrder | src/pages/orders/Orders.tsx:29-68 | Each max-total read follows an ok bid-list read on the same origin; the production reads happen exactly when a local read failed |
| Orders.ErrorOnlyWhenBackupFails | src/pages/orders/Orders.tsx:29-68 | Loading always ends; the error is set exactly when both origins fail; without an error, bids and maximum come from one origin |
| Orders.NoPartialTable | src/pages/orders/Orders.tsx:46-113 | After a fetch, the error banner shows exactly when both origins failed |
| Orders.NoProductIdKeepsSpinner | src/pages/orders/Orders.tsx:70-105 | With no product id nothing is requested and the spinner stays |
| Orders.ExportOnlyWithBids | src/pages/orders/Orders.tsx:76-124 | A click downloads `bids_<id>.csv` with the CSV of the held bids exactly when the table shows at least one bid; otherwise nothing happens |
| Orders.OrdersPage.constructor | src/pages/orders/Orders.tsx:22-27 | The initial state: no bids, no maximum, loading, no error |
| Orders.OrdersPage.Mount | src/pages/orders/Orders.tsx:29-73 | The mount effect fetches only when there is a product id |
| Orders.OrdersPage.FetchBidsAndMaxBid | src/pages/orders/Orders.tsx:30-68 | The nested try/catch sequence of reads produces exactly the state `Loaded` describes |
| Orders.OrdersPage.ClickExport | src/pages/orders/Orders.tsx:76-124 | The export click produces exactly the state `ExportClicked` describes |
| GigDescription.BidCheck | src/pages/GigDescription/GigDescription.tsx:90-103 | The bid passes exactly when the phone id has a `length` (UTF-16 code units) of at least 10, the amount is not `<= 0` and the quantity is not `<= 0`; each alert is named by the first check that fails |
| GigDescription.Edited | src/pages/GigDescription/GigDescription.tsx:79-85 | Defines `handleChange`: the named field takes the typed text, the two amounts through `Number` |
| GigDescription.TypedAmountIsItsNumber | src/pages/GigDescription/GigDescription.tsx:79-85 | A typed whole number is stored as that number in the amount and quantity fields |
| GigDescription.ClearedAmountIsRejected | src/pages/GigDescription/GigDescription.tsx:79-98 | A cleared amount input stores 0, so the bid is refused with the amount alert |
| GigDescription.Submitted | src/pages/GigDescription/GigDescription.tsx:87-129 | Defines `handleSubmit`: the checks, the POST with failover, then the reload and reset after 200 or 201 |
| GigDescription.Mounted | src/pages/GigDescription/GigDescription.tsx:50-77 | Defines the mount effect with a route id: the product read, then the bids read, each with failover |
| GigDescription.RejectedBidSendsNothing | src/pages/GigDescription/GigDescription.tsx:90-103 | A bid failing a check only raises that check's alert: no request is sent and nothing else changes |
| GigDescription.PhoneCheckIsOnlyALowerBound | src/pages/GigDescription/GigDescription.tsx:90-93 | An 11-character id passes the phone check and a 9-character one does not |
| GigDescription.AstralPhoneIdPasses | src/pages/GigDescription/GigDescription.tsx:90-93 | Five emoji outside the Basic Multilingual Plane have a `length` of 10 and pass the phone check |
| GigDescription.BoundsAreNotChecked | src/pages/GigDescription/GigDescription.tsx:90-112 | A bid below the starting price of the product on screen, for more than its stock, is still posted |
| GigDescription.PostedBody | src/pages/GigDescription/GigDescription.tsx:105-117 | The bid, with the route's product id, goes to the primary origin, and to the failover origin only when the primary is not ok; then the route's bids are reloaded in failover order after a 200 or 201 answer, and nothing else is sent |
| GigDescription.CreatedReloadsAndResets | src/pages/GigDescription/GigDescription.tsx:114-124 | A 200 or 201 answer followed by a successful reload replaces the bids, resets the form and shows the success alert |
| GigDescription.OtherStatusChangesNothing | src/pages/GigDescription/GigDescription.tsx:114 | Any other 2xx status changes neither the bids, the form nor the events |
| GigDescription.FailureKeepsFormAndBids | src/pages/GigDescription/GigDescription.tsx:105-128 | When both POSTs fail, or the reload fails, the failure alert comes last, and the bids and the form are kept |
| GigDescription.MountSettles | src/pages/GigDescription/GigDescription.tsx:50-77 | With a route id, mounting ends not loading. The product is set when a read was ok; otherwise the error is set. The bids are replaced only by an ok read |
| GigDescription.Render | src/pages/GigDescription/GigDescription.tsx:131-204 | Defines the drawn view: loading text, else a truthy error, else the product and form, else "Product not found." |
| GigDescription.MountedShowsProductOrError | src/pages/GigDescription/GigDescription.tsx:131-204 | Before mounting the page reads "Product not found."; after mounting with a route id it shows the product and the form when a product read was ok, and the failover request's error otherwise |
| GigDescription.GigDescriptionPage.constructor | src/pages/GigDescription/GigDescription.tsx:37-47 | The initial page state for the route's product id |
| GigDescription.GigDescriptionPage.FetchWithFailover | src/pages/GigDescription/GigDescription.tsx:10-17 | GET on the primary origin, then on the failover origin only when the first rejects; the result is `Fallback` |
| GigDescription.GigDescriptionPage.PostWithFailover | src/pages/GigDescription/GigDescription.tsx:106-112 | The POST and its `.catch` failover send the failover requests, and the result is `Fallback` |
| GigDescription.GigDescriptionPage.Mount | src/pages/GigDescription/GigDescription.tsx:50-77 | The mount effect produces exactly the state `Mounted` describes |
| GigDescription.GigDescriptionPage.HandleChange | src/pages/GigDescription/GigDescription.tsx:79-85 | Only the named field changes; the two amounts go through `Number` |
| GigDescription.GigDescriptionPage.HandleSubmit | src/pages/GigDescription/GigDescription.tsx:87-129 | The submit handler produces exactly the state `Submitted` describes |
| Add.InitialProduct | src/pages/add/Add.jsx:6-20 | The initial form holds every field `validate` reads |
| Add.Checks | src/pages/add/Add.jsx:46-56 | Defines which of the five `validate` checks the form fails |
| Add.FieldError | src/pages/add/Add.jsx:46-55 | Only the five checked fields can get a message |
| Add.Errors | src/pages/add/Add.jsx:46-56 | Defines what `validate()` returns: the five checks folded in source order |
| Add.ErrorsUnrolled | src/pages/add/Add.jsx:46-55 | The error map is built by the five `if` steps, in the source's order |
| Add.ErrorsAfterMeaning | src/pages/add/Add.jsx:46-55 | After a run of checks, a field has an entry exactly when it was checked and failed, and the entry is its check's message |
| Add.EntryPerFailingField | src/pages/add/Add.jsx:46-55 | Each failing field gets its own check's message, a passing field gets no entry, and no other key appears |
| Add.NoErrorsIffAllPass | src/pages/add/Add.jsx:46-61 | The map is empty exactly when no check fails |
| Add.ValidIffNoErrors | src/pages/add/Add.jsx:46-55 | The form is valid exactly when product id and name have non-space text, a category is set, and both prices pass the positive check |
| Add.InitialFormFailsEveryCheck | src/pages/add/Add.jsx:6-55 | The untouched form fails all five checks |
| Add.NonNumericPricePasses | src/pages/add/Add.jsx:51-54 | Price text that is not a number passes the "greater than 0" check |
| Add.Initial | src/pages/add/Add.jsx:6-23 | The initial page state is well formed |
| Add.Mounted | src/pages/add/Add.jsx:26-32 | Defines the mount effect: the stored user's id goes into the form when a user is stored |
| Add.Changed | src/pages/add/Add.jsx:34-40 | Defines `handleChange`: the field takes the text, and its shown error is blanked |
| Add.Authorization | src/pages/add/Add.jsx:72-86 | Defines the header value: `Bearer` and the stored token, or the text "null" with no stored user |
| Add.Submitted | src/pages/add/Add.jsx:58-105 | Defines `handleSubmit`: a failing form stores its errors; a valid one is posted to each URL in turn |
| Add.MountCopiesUserId | src/pages/add/Add.jsx:26-32 | Mounting copies the stored user's id into the form and changes nothing else; with no stored user nothing changes |
| Add.ChangeTouchesOnlyItsField | src/pages/add/Add.jsx:34-40 | An edit sets only its field. Afterwards that field's error is absent or blank, and the other errors are unchanged |
| Add.RejectedFormSendsNothing | src/pages/add/Add.jsx:60-64 | A failing form only stores its errors: no request is sent and no event is shown |
| Add.SubmitInOrder | src/pages/add/Add.jsx:66-104 | A valid form goes to the local origin and to production only when that is not ok. Success alerts and goes to `/gigs` exactly when one answer was ok; otherwise the failure alert is shown |
| Add.SameBodyEveryAttempt | src/pages/add/Add.jsx:66-89 | Every attempt carries the same form, image and header, request i to URL i |
| Add.TypedIdPassesItsCheck | src/pages/add/Add.jsx:34-48 | Typing non-space text into the product id clears that check |
| Add.AddPage.constructor | src/pages/add/Add.jsx:6-23 | The initial page state |
| Add.AddPage.Mount | src/pages/add/Add.jsx:26-32 | The mount effect produces exactly the state `Mounted` describes |
| Add.AddPage.Validate | src/pages/add/Add.jsx:46-56 | `validate()` returns exactly `Errors(product)` |
| Add.AddPage.HandleChange | src/pages/add/Add.jsx:34-40 | The edit produces exactly the state `Changed` describes |
| Add.AddPage.HandleImageChange | src/pages/add/Add.jsx:42-44 | The image is the first picked file, or none |
| Add.AddPage.HandleSubmit | src/pages/add/Add.jsx:58-105 | The submit handler produces exactly the state `Submitted` describes |
| Gig.InitialBid | src/pages/gig/Gig.jsx:6-11 | Empty ids, an amount of 0 and a quantity of 1 |
| Gig.Changed | src/pages/gig/Gig.jsx:15-18 | Defines `handleChange`: `{ ...bid, [name]: value }` |
| Gig.Submitted | src/pages/gig/Gig.jsx:20-51 | Defines `handleSubmit`: the bid posted to each URL until one is ok, then the success or failure alert |
| Gig.ChangeTouchesOnlyItsField | src/pages/gig/Gig.jsx:15-18 | An edit sets its field to the typed text and leaves the other three fields and the logs unchanged |
| Gig.NoValidation | src/pages/gig/Gig.jsx:20-35 | Whatever the bid holds, it is posted unchanged to the local origin first |
| Gig.SubmitInOrder | src/pages/gig/Gig.jsx:20-51 | The local origin first, production only when that is not ok, the same bid both times. Success alerts and goes to `/` exactly when one answer was ok; otherwise the failure alert is shown |
| Gig.UntouchedAmountsStayNumbers | src/pages/gig/Gig.jsx:6-35 | When only an id was edited, the amount and the quantity are sent as the numbers they started as |
| Gig.GigPage.constructor | src/pages/gig/Gig.jsx:6-11 | The initial page state |
| Gig.GigPage.HandleChange | src/pages/gig/Gig.jsx:15-18 | The edit produces exactly the state `Changed` describes |
| Gig.GigPage.HandleSubmit | src/pages/gig/Gig.jsx:20-51 | The submit handler's loop produces exactly the state `Submitted` describes |
| Register.Initial | src/pages/register/Register.tsx:7-16 | Every field empty and no error |
| Register.Changed | src/pages/register/Register.tsx:19-21 | Defines `handleChange`: `{ ...user, [name]: value }` |
| Register.Submitted | src/pages/register/Register.tsx:23-38 | Defines `handleSubmit`: the nested try/catch, `/login` on a resolved post, the fixed error otherwise |
| Register.ChangeTouchesOnlyItsField | src/pages/register/Register.tsx:19-21 | An edit sets its field and leaves the other five fields, the error and the logs unchanged |
| Register.SameUserBothTimes | src/pages/register/Register.tsx:25-32 | The same user record goes to the local origin, and to production only when that is not ok |
| Register.OutcomeOfSubmit | src/pages/register/Register.tsx:25-37 | The page goes to `/login` exactly when one answer was ok; it shows the fixed error exactly when both failed; the form is kept |
| Register.StaleErrorSurvivesSuccess | src/pages/register/Register.tsx:25-37 | A later success does not clear the error left by an earlier double failure |
| Register.ErrorParagraph | src/pages/register/Register.tsx:100 | Defines the error paragraph: drawn when the error is truthy |
| Register.FailureParagraphIffBothFail | src/pages/register/Register.tsx:23-38 | From a page with no error, a submit draws the failure paragraph exactly when both origins failed, and none otherwise |
| Register.RegisterPage.constructor | src/pages/register/Register.tsx:7-16 | The initial page state |
| Register.RegisterPage.HandleChange | src/pages/register/Register.tsx:19-21 | The edit produces exactly the state `Changed` describes |
| Register.RegisterPage.HandleSubmit | src/pages/register/Register.tsx:23-38 | The nested try/catch produces exactly the state `Submitted` describes |
| Message.ListGets | src/pages/message/Message.jsx:12-23 | The list is read with two GETs |
| Message.Draft | src/pages/message/Message.jsx:44-51 | The record holds the route's user, the typed text, the time and the status "Unread" |
| Message.Listed | src/pages/message/Message.jsx:12-28 | Defines the query settling: the list from the try/catch pair, or its error |
| Message.Typed | src/pages/message/Message.jsx:82 | Defines typing into the text area |
| Message.Submitted | src/pages/message/Message.jsx:30-53 | Defines `handleSubmit` with the mutation: the draft posted with failover, the key invalidated on success, the text area emptied |
| Message.FetchInOrder | src/pages/message/Message.jsx:12-28 | Local origin first, production only when that is not ok. The list is shown exactly when one answered ok, with the first ok data; otherwise the error carries the failover request's message |
| Message.SubmitPostsDraft | src/pages/message/Message.jsx:30-53 | The record is posted locally first, and to production only when that is not ok. The list's key `["notifications", userId]` is invalidated exactly when one answer was ok. The text area is emptied |
| Message.ItemClass | src/pages/message/Message.jsx:69 | Defines an item's class: "item ", then "unread" for an unread notification |
| Message.UnreadClassIffUnread | src/pages/message/Message.jsx:69 | Every item has the base class `item`, and the suffix is `unread` exactly when the status is "Unread" |
| Message.Render | src/pages/message/Message.jsx:61-79 | Defines the list area: the loading text, the error text, or one item per notification |
| Message.RenderOneItemPerNotification | src/pages/message/Message.jsx:61-79 | A loaded list is drawn item for item, in order, with its text and class; a pending or failed query draws no item |
| Message.MessagePage.constructor | src/pages/message/Message.jsx:7-28 | The initial page state: the query loading, an empty text area |
| Message.MessagePage.FetchNotifications | src/pages/message/Message.jsx:12-23 | `fetchNotifications` produces exactly the state `Listed` describes |
| Message.MessagePage.Type | src/pages/message/Message.jsx:82 | Typing sets the text area |
| Message.MessagePage.HandleSubmit | src/pages/message/Message.jsx:30-53 | The submit and mutation produce exactly the state `Submitted` describes |
| Login.RouteFor | src/pages/login/Login.tsx:39-52 | Farmer goes to `/add`, Buyer to `/gigs` and Admin to `/admin`; every other role has no page |
| Login.ResponseError | src/pages/login/Login.tsx:55-56 | Defines an error response's message: the body's `message`, or "Invalid credentials." |
| Login.EmailTyped | src/pages/login/Login.tsx:78 | Defines the email input's change |
| Login.PasswordTyped | src/pages/login/Login.tsx:87 | Defines the password input's change |
| Login.Sent | src/pages/login/Login.tsx:17-33 | One login request with the current credentials is logged, and nothing else changes |
| Login.Accepted | src/pages/login/Login.tsx:34-61 | An ok answer is stored. A known role opens its page and loading stays on; an unknown role shows the unexpected error and loading ends |
| Login.Rejected | src/pages/login/Login.tsx:54-58 | A rejected request changes only the error: the server's message (or "Invalid credentials.") for an error response, nothing for a failure without one |
| Login.Attempt | src/pages/login/Login.tsx:31-65 | Defines the rest of the `for` loop from one URL on, and the loading flag cleared on leaving it |
| Login.Submitted | src/pages/login/Login.tsx:21-66 | Defines `handleSubmit`: loading on, error cleared, then the loop over the two URLs |
| Login.AttemptRequests | src/pages/login/Login.tsx:26-33 | The loop's requests are the in-order failover: the same credentials to each URL, up to the first ok answer |
| Login.RoutedIffOkWithKnownRole | src/pages/login/Login.tsx:31-65 | A page opens exactly when the first ok answer has a known role; that answer is then stored and loading stays on. Otherwise nothing navigates and loading ends; with no ok answer nothing is stored |
| Login.UnknownRoleKeepsStoredUser | src/pages/login/Login.tsx:36-61 | An unknown role is still stored. The unexpected error shows, loading ends, and no other origin is tried |
| Login.LastServerError | src/pages/login/Login.tsx:55-56 | Read from the back: there is a message exactly when some outcome was an error response |
| Login.LastServerErrorFront | src/pages/login/Login.tsx:55-56 | Reading from the back agrees with reading from the front |
| Login.LastServerMessageWins | src/pages/login/Login.tsx:31-64 | With no ok answer, the error shown is the last error response's message; a failure without a response keeps what was shown |
| Login.BothFailing | src/pages/login/Login.tsx:21-65 | With both origins failing, loading ends and nothing navigates. The error is the second response's message, else the first's, else none |
| Login.SubmitButton | src/pages/login/Login.tsx:90-92 | Defines the submit button: disabled and "Logging in..." while loading, "Login" otherwise |
| Login.ErrorParagraph | src/pages/login/Login.tsx:93 | Defines the error paragraph: drawn when the error is truthy |
| Login.ErrorsAreNeverBlank | src/pages/login/Login.tsx:26-65 | Every error message the loop sets is non-empty, so the error paragraph always draws the error held |
| Login.ViewAfterSubmit | src/pages/login/Login.tsx:21-94 | After a submit the button stays disabled as "Logging in..." exactly when the first ok answer had a known role; otherwise it reads "Login" and is enabled. The error paragraph shows the error held |
| Login.LoginPage.constructor | src/pages/login/Login.tsx:9-12 | The initial page state |
| Login.LoginPage.SetUserEmail | src/pages/login/Login.tsx:78 | The email input sets the email |
| Login.LoginPage.SetPassword | src/pages/login/Login.tsx:87 | The password input sets the password |
| Login.LoginPage.HandleSubmit | src/pages/login/Login.tsx:21-66 | The handler's `for` loop produces exactly the state `Submitted` describes |

## Left out

- HTTP, JSON and the browser are not modelled. Each request is an outcome taken from an input sequence. `alert`, `navigate` and the CSV download (Blob, object URL, link click) are events in a log. Logging to the console is left out.
- Local storage is a parameter holding the stored user. `setCurrentUser` on sign-in is the same stored value.
- The clock (`new Date().toISOString()`) is a parameter, and `toLocaleString` rendering is left out.
- The `react-query` cache, retries and refetching are left out. The model keeps only the state the page reads (loading, error, data) and the list of invalidated keys.
- The two fetches of the product page's mount effect are modelled one after the other. In the source they interleave across `await` points, and the model does not capture that interleaving.
- An absent route parameter (`undefined`) is modelled as the empty string.
- `Js.ToNumber` covers decimal text only. Exponents, a leading '+', `Infinity`, hexadecimal, binary ("0b101") and octal ("0o17") text, whitespace other than space, tab, newline and carriage return around a number (`Number("5\u00a0")` is 5), and rounding to double precision are left out. Such text reads as NaN, where JavaScript gives a number. The consequence is in the checks: "0e0" typed as an amount on the product page passes `GigDescription.BidCheck` in the model, where JavaScript reads 0 and refuses the bid. Likewise "-1e3" passes the price check of `Add.Errors`, where JavaScript rejects it. `Text.IsSpace` knows space, tab, newline and carriage return, not the other Unicode whitespace JavaScript's `trim` removes.
- Bid amounts on the bid summary page are integers. Printing fractional numbers in the CSV is left out.
- Product records hold the fields the page reads; other fields the backend sends are left out.
- Add.SameBodyEveryAttempt: does not spell out that with no stored user the header is the text "Bearer null". `Add.Authorization` defines it that way, and the model uses it in every request.
- The form markup (labels, `required`, `min`, `max`, `pattern`) is left out, so the model does not capture the browser's own input checks.
- The rest of the drawing is left out: the product's fields and image, the text shown in the bid inputs (`bid.bidAmount || ''`), and the markup of the Add, Gig, Register and Login forms. `GigDescription.Render` names the product and bid it draws, not their text.
- The repository's `vite.config.js` and the styling are not part of this model.
