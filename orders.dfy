/** The bid summary of one product: reads the bid list and the server's
    maximum-total bid from the local origin, restarts both reads on the production
    origin when anything on the local one fails, shows a spinner, an error or the
    table, and exports the held bids as CSV. */
module Orders {
  import opened Text
  import opened Net

  const LOCAL_BIDS := LOCAL_ORIGIN + "/api/bids/product/"
  const LOCAL_MAX := LOCAL_ORIGIN + "/api/bids/max-total/"
  const BACKUP_BIDS := PRODUCTION_ORIGIN + "/api/bids/product/"
  const BACKUP_MAX := PRODUCTION_ORIGIN + "/api/bids/max-total/"

  const BACKUP_BIDS_FAILED := "Failed to fetch bids for the product from the backup API"
  const BACKUP_MAX_FAILED := "Failed to fetch max total amount bid for the product from the backup API"
  /** The message of the error `fetch` rejects with when there is no response. The text
      depends on the browser: this is Chromium's, and Firefox and Safari use other wording. */
  const FETCH_NETWORK_MESSAGE := "Failed to fetch"

  const CSV_COLUMNS := ["Bid ID", "Product ID", "User Phone Number", "Bid Amount", "Quantity", "Total Amount"]
  const CSV_HEADER := Join(CSV_COLUMNS, ',')

  datatype Bid = Bid(id: string, productId: string, userId: string, bidAmount: int, quantity: int, totalAmount: int)

  datatype MaxTotalAmountBid = MaxTotalAmountBid(productId: string, userId: string, totalAmount: int)

  /** The six columns of a bid, in CSV order. */
  function CsvFields(b: Bid): (fields: seq<string>)
    ensures |fields| == 6
  {
    [b.id, b.productId, b.userId, IntToString(b.bidAmount), IntToString(b.quantity), IntToString(b.totalAmount)]
  }

  /** One CSV line: the columns joined by commas, nothing quoted or escaped. */
  function CsvRow(b: Bid): string
  {
    Join(CsvFields(b), ',')
  }

  function CsvRows(bids: seq<Bid>): (rows: seq<string>)
    ensures |rows| == |bids| && forall i :: 0 <= i < |bids| ==> rows[i] == CsvRow(bids[i])
  {
    if bids == [] then [] else [CsvRow(bids[0])] + CsvRows(bids[1..])
  }

  /** The text `exportToCSV` downloads: the header line, then one line per bid, joined by newlines. */
  function CsvText(bids: seq<Bid>): string
  {
    Join([CSV_HEADER] + CsvRows(bids), '\n')
  }

  function CsvFileName(productId: string): string
  {
    "bids_" + productId + ".csv"
  }

  /** The text columns of a bid carry no `c`. */
  predicate FreeOf(b: Bid, c: char)
  {
    c !in b.id && c !in b.productId && c !in b.userId
  }

  lemma PrintedIntFreeOf(i: int, c: char)
    requires c == ',' || c == '\n'
    ensures c !in IntToString(i)
  {
    var s := IntToString(i);
    forall k | 0 <= k < |s| ensures s[k] != c {
      if i < 0 && k > 0 {
        assert s[k] == s[1..][k - 1];
      }
    }
  }

  /** Six columns joined by commas, spelled out. */
  lemma JoinSix(a: string, b: string, c: string, d: string, e: string, f: string)
    ensures Join([a, b, c, d, e, f], ',') == a + "," + b + "," + c + "," + d + "," + e + "," + f
  {
    var p := [a, b, c, d, e, f];
    assert p[5..] == [f];
    assert p[4..][1..] == p[5..];
    assert p[3..][1..] == p[4..];
    assert p[2..][1..] == p[3..];
    assert p[1..][1..] == p[2..];
    assert Join(p[4..], ',') == e + "," + f;
    assert Join(p[3..], ',') == d + "," + e + "," + f;
    assert Join(p[2..], ',') == c + "," + d + "," + e + "," + f;
    assert Join(p[1..], ',') == b + "," + c + "," + d + "," + e + "," + f;
  }

  lemma HeaderFreeOfNewline()
    ensures '\n' !in CSV_HEADER
  {
    assert '\n' !in CSV_COLUMNS[0];
    assert '\n' !in CSV_COLUMNS[1];
    assert '\n' !in CSV_COLUMNS[2];
    assert '\n' !in CSV_COLUMNS[3];
    assert '\n' !in CSV_COLUMNS[4];
    assert '\n' !in CSV_COLUMNS[5];
    JoinFreeOf(CSV_COLUMNS, ',', '\n');
  }

  /** With no comma in its text columns, a row splits back into exactly its six columns. */
  lemma RowColumns(b: Bid)
    requires FreeOf(b, ',')
    ensures Split(CsvRow(b), ',') == CsvFields(b)
  {
    PrintedIntFreeOf(b.bidAmount, ',');
    PrintedIntFreeOf(b.quantity, ',');
    PrintedIntFreeOf(b.totalAmount, ',');
    SplitJoin(CsvFields(b), ',');
  }

  lemma RowFreeOfNewline(b: Bid)
    requires FreeOf(b, '\n')
    ensures '\n' !in CsvRow(b)
  {
    PrintedIntFreeOf(b.bidAmount, '\n');
    PrintedIntFreeOf(b.quantity, '\n');
    PrintedIntFreeOf(b.totalAmount, '\n');
    JoinFreeOf(CsvFields(b), ',', '\n');
  }

  /** With no newline in any text column, the CSV text has |bids| + 1 lines: the header,
      then each bid's row in the order the bids are held. */
  lemma CsvLines(bids: seq<Bid>)
    requires forall i :: 0 <= i < |bids| ==> FreeOf(bids[i], '\n')
    ensures Split(CsvText(bids), '\n') == [CSV_HEADER] + CsvRows(bids)
    ensures |Split(CsvText(bids), '\n')| == |bids| + 1
  {
    var rows := CsvRows(bids);
    var lines := [CSV_HEADER] + rows;
    forall i | 0 <= i < |lines| ensures '\n' !in lines[i] {
      if i == 0 {
        HeaderFreeOfNewline();
      } else {
        assert lines[i] == rows[i - 1] == CsvRow(bids[i - 1]);
        RowFreeOfNewline(bids[i - 1]);
      }
    }
    SplitJoin(lines, '\n');
  }

  lemma {:induction false} JoinFreeOf(parts: seq<string>, sep: char, c: char)
    requires c != sep
    requires forall i :: 0 <= i < |parts| ==> c !in parts[i]
    ensures c !in Join(parts, sep)
  {
    if |parts| > 1 {
      JoinFreeOf(parts[1..], sep, c);
    }
  }

  /** Without quoting, a comma inside a column shifts the columns: two different bids give the same row. */
  lemma CommaShiftsColumns()
    ensures var b1 := Bid("1", "P1,07", "x", 2, 3, 6);
            var b2 := Bid("1", "P1", "07,x", 2, 3, 6);
            b1 != b2 && CsvRow(b1) == CsvRow(b2)
  {
    var b1 := Bid("1", "P1,07", "x", 2, 3, 6);
    var b2 := Bid("1", "P1", "07,x", 2, 3, 6);
    JoinSix("1", "P1,07", "x", "2", "3", "6");
    JoinSix("1", "P1", "07,x", "2", "3", "6");
  }

  lemma JoinTwo(a: string, c: string, sep: char)
    ensures Join([a, c], sep) == a + [sep] + c
  {
    assert [a, c][1..] == [c];
  }

  /** The text of a single bid is the header line followed by that bid's row. */
  lemma OneBidText(b: Bid)
    ensures CsvText([b]) == CSV_HEADER + "\n" + CsvRow(b)
  {
    assert CsvRows([b]) == [CsvRow(b)];
    assert [CSV_HEADER] + CsvRows([b]) == [CSV_HEADER, CsvRow(b)];
    JoinTwo(CSV_HEADER, CsvRow(b), '\n');
  }

  lemma HundredAndTwoHundred()
    ensures IntToString(100) == "100" && IntToString(200) == "200" && IntToString(2) == "2"
  {
    assert DigitChar(0) == '0' && DigitChar(1) == '1' && DigitChar(2) == '2';
    assert Decimal(1) == "1";
    assert Decimal(10) == "10";
    assert Decimal(2) == "2";
    assert Decimal(20) == "20";
  }

  /** One bid gives the header and one row. */
  lemma SingleBidExport()
    ensures CsvText([Bid("1", "P1", "0711111111", 100, 2, 200)]) ==
            CSV_HEADER + "\n" + ("1" + "," + "P1" + "," + "0711111111" + "," + "100" + "," + "2" + "," + "200")
  {
    var b := Bid("1", "P1", "0711111111", 100, 2, 200);
    HundredAndTwoHundred();
    assert CsvFields(b) == ["1", "P1", "0711111111", "100", "2", "200"];
    JoinSix("1", "P1", "0711111111", "100", "2", "200");
    OneBidText(b);
  }

  /** The component's state: the bids, the max-total bid, the two flags, and the logs. */
  datatype OrdersState = OrdersState(bids: seq<Bid>, maxBid: Option<MaxTotalAmountBid>, loading: bool,
                                     error: Option<string>, requests: seq<Request<()>>, events: seq<Event>)

  function Initial(): OrdersState
  {
    OrdersState([], None, true, None, [], [])
  }

  /** The message of the error thrown for a failed `fetch` step. */
  function FetchError<T>(o: Outcome<T>, notOkMessage: string): string
  {
    if o.NetworkError? then FETCH_NETWORK_MESSAGE else notOkMessage
  }

  /** The catch block: both reads again on the production origin; the first failure there
      becomes the error. `b` and `m` answer the two backup reads. */
  function Backup(s: OrdersState, productId: string, b: Outcome<seq<Bid>>, m: Outcome<MaxTotalAmountBid>): OrdersState
  {
    var asked := s.(requests := s.requests + [Get(BACKUP_BIDS + productId)]);
    if !b.IsOk() then asked.(error := Some(FetchError(b, BACKUP_BIDS_FAILED)), loading := false)
    else
      var listed := asked.(bids := b.data, requests := asked.requests + [Get(BACKUP_MAX + productId)]);
      if !m.IsOk() then listed.(error := Some(FetchError(m, BACKUP_MAX_FAILED)), loading := false)
      else listed.(maxBid := Some(m.data), loading := false)
  }

  /** `fetchBidsAndMaxBid`: `bidsNet` answers the two bid-list reads (local, production),
      `maxNet` the two max-total reads. */
  function Loaded(s: OrdersState, productId: string, bidsNet: seq<Outcome<seq<Bid>>>,
                   maxNet: seq<Outcome<MaxTotalAmountBid>>): OrdersState
    requires |bidsNet| >= 2 && |maxNet| >= 2
  {
    var asked := s.(requests := s.requests + [Get(LOCAL_BIDS + productId)]);
    if !bidsNet[0].IsOk() then Backup(asked, productId, bidsNet[1], maxNet[1])
    else
      var listed := asked.(bids := bidsNet[0].data, requests := asked.requests + [Get(LOCAL_MAX + productId)]);
      if !maxNet[0].IsOk() then Backup(listed, productId, bidsNet[1], maxNet[1])
      else listed.(maxBid := Some(maxNet[0].data), loading := false)
  }

  /** The mount effect: fetch only when the route has a product id. */
  function Mounted(s: OrdersState, productId: string, bidsNet: seq<Outcome<seq<Bid>>>,
                   maxNet: seq<Outcome<MaxTotalAmountBid>>): OrdersState
    requires |bidsNet| >= 2 && |maxNet| >= 2
  {
    if productId == "" then s else Loaded(s, productId, bidsNet, maxNet)
  }

  /** What the component renders. */
  datatype Screen = Spinner | ErrorBanner(message: string) | Table(bids: seq<Bid>, maxBid: Option<MaxTotalAmountBid>)

  /** The spinner while loading, else the error when there is one, else the table. */
  function Render(s: OrdersState): (screen: Screen)
    ensures s.loading ==> screen == Spinner
    ensures !s.loading && s.error.Some? && s.error.value != "" ==> screen == ErrorBanner(s.error.value)
    ensures screen.Table? ==> !s.loading && (s.error.None? || s.error.value == "") && screen.bids == s.bids
  {
    if s.loading then Spinner
    else if s.error.Some? && s.error.value != "" then ErrorBanner(s.error.value)
    else Table(s.bids, s.maxBid)
  }

  /** Whether the export button is disabled. */
  function ExportDisabled(s: OrdersState): bool
  {
    |s.bids| == 0
  }

  /** A click on the export button: only the table has one, and a disabled button does nothing. */
  function ExportClicked(s: OrdersState, productId: string): OrdersState
  {
    if Render(s).Table? && !ExportDisabled(s)
    then s.(events := s.events + [Download(CsvFileName(productId), CsvText(s.bids))])
    else s
  }

  /** Each max-total read follows the bid-list read on the same origin, and only when that read
      was ok; the production reads happen exactly when a local read failed. */
  lemma RequestOrder(s: OrdersState, productId: string, bidsNet: seq<Outcome<seq<Bid>>>,
                     maxNet: seq<Outcome<MaxTotalAmountBid>>)
    requires |bidsNet| >= 2 && |maxNet| >= 2
    ensures var r := Loaded(s, productId, bidsNet, maxNet);
            var primaryOk := bidsNet[0].IsOk() && maxNet[0].IsOk();
            r.requests == s.requests
              + [Get(LOCAL_BIDS + productId)]
              + (if bidsNet[0].IsOk() then [Get(LOCAL_MAX + productId)] else [])
              + (if primaryOk then []
                 else [Get(BACKUP_BIDS + productId)] + (if bidsNet[1].IsOk() then [Get(BACKUP_MAX + productId)] else []))
  {
  }

  /** The error is set exactly when the production sequence fails too, the loading flag always
      drops, and without an error the bids and maximum come from one origin. */
  lemma ErrorOnlyWhenBackupFails(s: OrdersState, productId: string, bidsNet: seq<Outcome<seq<Bid>>>,
                                 maxNet: seq<Outcome<MaxTotalAmountBid>>)
    requires |bidsNet| >= 2 && |maxNet| >= 2
    requires s.error.None?
    ensures var r := Loaded(s, productId, bidsNet, maxNet);
            var primaryOk := bidsNet[0].IsOk() && maxNet[0].IsOk();
            var backupOk := bidsNet[1].IsOk() && maxNet[1].IsOk();
            && !r.loading
            && (r.error.Some? <==> !primaryOk && !backupOk)
            && (primaryOk ==> r.bids == bidsNet[0].data && r.maxBid == Some(maxNet[0].data))
            && (!primaryOk && backupOk ==> r.bids == bidsNet[1].data && r.maxBid == Some(maxNet[1].data))
  {
  }

  /** After a fetch the page shows either the error or a table from one origin, never a mix:
      whenever any read on both origins fails, the error banner is shown. */
  lemma NoPartialTable(s: OrdersState, productId: string, bidsNet: seq<Outcome<seq<Bid>>>,
                       maxNet: seq<Outcome<MaxTotalAmountBid>>)
    requires |bidsNet| >= 2 && |maxNet| >= 2
    requires s.error.None?
    ensures var r := Loaded(s, productId, bidsNet, maxNet);
            var primaryOk := bidsNet[0].IsOk() && maxNet[0].IsOk();
            var backupOk := bidsNet[1].IsOk() && maxNet[1].IsOk();
            Render(r).ErrorBanner? <==> !primaryOk && !backupOk
  {
    ErrorOnlyWhenBackupFails(s, productId, bidsNet, maxNet);
  }

  /** With no product id nothing is requested and the spinner stays. */
  lemma NoProductIdKeepsSpinner(bidsNet: seq<Outcome<seq<Bid>>>, maxNet: seq<Outcome<MaxTotalAmountBid>>)
    requires |bidsNet| >= 2 && |maxNet| >= 2
    ensures Mounted(Initial(), "", bidsNet, maxNet).requests == []
    ensures Render(Mounted(Initial(), "", bidsNet, maxNet)) == Spinner
  {
  }

  /** A click downloads `bids_<productId>.csv` holding the CSV of the held bids exactly when the
      table is shown with at least one bid; otherwise nothing happens. */
  lemma ExportOnlyWithBids(s: OrdersState, productId: string)
    ensures var r := ExportClicked(s, productId);
            (r != s <==> Render(s).Table? && |s.bids| > 0)
            && (r != s ==> r.events == s.events + [Download("bids_" + productId + ".csv", CsvText(s.bids))])
  {
  }

  /** The component with its state hooks as fields. */
  class OrdersPage {
    const productId: string
    var bids: seq<Bid>
    var maxBid: Option<MaxTotalAmountBid>
    var loading: bool
    var error: Option<string>
    var requests: seq<Request<()>>
    var events: seq<Event>

    function State(): OrdersState
      reads this
    {
      OrdersState(bids, maxBid, loading, error, requests, events)
    }

    constructor (productId: string)
      ensures this.productId == productId && State() == Initial()
    {
      this.productId := productId;
      bids, maxBid, loading, error := [], None, true, None;
      requests, events := [], [];
    }

    method Mount(bidsNet: seq<Outcome<seq<Bid>>>, maxNet: seq<Outcome<MaxTotalAmountBid>>)
      requires |bidsNet| >= 2 && |maxNet| >= 2
      modifies this
      ensures State() == Mounted(old(State()), productId, bidsNet, maxNet)
    {
      if productId != "" {
        FetchBidsAndMaxBid(bidsNet, maxNet);
      }
    }

    method FetchBidsAndMaxBid(bidsNet: seq<Outcome<seq<Bid>>>, maxNet: seq<Outcome<MaxTotalAmountBid>>)
      requires |bidsNet| >= 2 && |maxNet| >= 2
      modifies this
      ensures State() == Loaded(old(State()), productId, bidsNet, maxNet)
    {
      requests := requests + [Get(LOCAL_BIDS + productId)];
      if bidsNet[0].IsOk() {
        bids := bidsNet[0].data;
        requests := requests + [Get(LOCAL_MAX + productId)];
        if maxNet[0].IsOk() {
          maxBid := Some(maxNet[0].data);
          loading := false;
          return;
        }
      }
      requests := requests + [Get(BACKUP_BIDS + productId)];
      if !bidsNet[1].IsOk() {
        error := Some(FetchError(bidsNet[1], BACKUP_BIDS_FAILED));
      } else {
        bids := bidsNet[1].data;
        requests := requests + [Get(BACKUP_MAX + productId)];
        if !maxNet[1].IsOk() {
          error := Some(FetchError(maxNet[1], BACKUP_MAX_FAILED));
        } else {
          maxBid := Some(maxNet[1].data);
        }
      }
      loading := false;
    }

    /** The export button's click handler, reached only when the button is shown and enabled. */
    method ClickExport()
      modifies this`events
      ensures State() == ExportClicked(old(State()), productId)
    {
      if Render(State()).Table? && |bids| != 0 {
        events := events + [Download(CsvFileName(productId), CsvText(bids))];
      }
    }
  }
}
