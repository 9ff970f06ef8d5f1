/** What every page shares: the outcome of one HTTP request, the log of requests a
    page issues and of what it shows the user, the two backend origins, and the
    failover policy the pages implement in several copies: try candidate origins in
    order, stop at the first ok answer. */
module Net {
  import opened Text

  datatype Option<T> = None | Some(value: T)

  /** How one request ended, as the page observes it: an HTTP response (with the body's
      `message` field, or "" when it has none) or a failure with no response at all. */
  datatype Outcome<T> =
    | Response(status: nat, data: T, serverMessage: string)
    | NetworkError
  {
    /** `response.ok`: a 2xx status. `fetch` resolves on every response; axios resolves
        exactly on these and rejects on every other outcome. */
    predicate IsOk() { Response? && 200 <= status <= 299 }
  }

  /** One request a page sent: the full URL and, for a POST, the body. */
  datatype Request<B> = Get(url: string) | Post(url: string, body: B)

  /** What the user sees happen: an `alert`, a `navigate`, a file download. */
  datatype Event = Alert(text: string) | Navigate(path: string) | Download(fileName: string, content: string)

  /** The session record the login answer carries and local storage keeps. */
  datatype UserData = UserData(userId: string, token: string, role: string)

  const LOCAL_ORIGIN := "http://localhost:8080"
  const PRODUCTION_ORIGIN := "https://agribitsystembackend-production.up.railway.app"

  /** The message axios gives a network failure. */
  const AXIOS_NETWORK_MESSAGE := "Network Error"

  /** The index of the first ok outcome, or the length when none is ok. */
  function FirstOk<T>(outcomes: seq<Outcome<T>>): (k: nat)
    ensures k <= |outcomes|
    ensures forall i :: 0 <= i < k ==> !outcomes[i].IsOk()
    ensures k < |outcomes| ==> outcomes[k].IsOk()
  {
    if |outcomes| == 0 then 0
    else if outcomes[0].IsOk() then 0
    else 1 + FirstOk(outcomes[1..])
  }

  /** How many candidates an in-order failover tries when candidate i answers outcomes[i]:
      up to and including the first ok one, or all of them. Candidates are tried in list
      order, none twice and never more than there are; the last one tried is ok exactly when
      some candidate is, and then it is the first ok one. */
  function Attempts<T>(outcomes: seq<Outcome<T>>): (n: nat)
    ensures n <= |outcomes|
    ensures |outcomes| >= 1 ==> n >= 1
    ensures forall i :: 0 <= i < n - 1 ==> !outcomes[i].IsOk()
    ensures n < |outcomes| ==> outcomes[n - 1].IsOk()
    ensures n == |outcomes| ==> n == 0 || outcomes[n - 1].IsOk() || forall i :: 0 <= i < n ==> !outcomes[i].IsOk()
    ensures n >= 1 ==> (outcomes[n - 1].IsOk() <==> exists i :: 0 <= i < |outcomes| && outcomes[i].IsOk())
    ensures n >= 1 && outcomes[n - 1].IsOk() ==> n - 1 == FirstOk(outcomes)
  {
    var k := FirstOk(outcomes);
    if k < |outcomes| then k + 1 else |outcomes|
  }

  /** The requests an in-order failover issues over `candidates`: a prefix of them, in order. */
  function Tried<B, T>(candidates: seq<Request<B>>, net: seq<Outcome<T>>): (r: seq<Request<B>>)
    requires |net| >= |candidates|
    ensures |r| == Attempts(net[..|candidates|]) && r == candidates[..|r|]
  {
    candidates[..Attempts(net[..|candidates|])]
  }

  function Posts<B>(urls: seq<string>, body: B): (r: seq<Request<B>>)
    ensures |r| == |urls| && forall i :: 0 <= i < |urls| ==> r[i] == Post(urls[i], body)
  {
    seq(|urls|, i requires 0 <= i < |urls| => Post(urls[i], body))
  }

  /** The message of the error axios rejects with. */
  function AxiosMessage<T>(o: Outcome<T>): string
  {
    if o.Response? then "Request failed with status code " + Decimal(o.status) else AXIOS_NETWORK_MESSAGE
  }

  /** How an awaited request settled: with a response, or by throwing an error with a message. */
  datatype Fetched<T> = Got(status: nat, data: T) | Threw(message: string)

  /** `try { return await axios(primary) } catch { return await axios(failover) }`:
      the second request is made only when the first rejects, and its error is the one thrown. */
  function Fallback<T>(net: seq<Outcome<T>>): (r: Fetched<T>)
    requires |net| >= 2
    ensures r.Got? <==> FirstOk(net[..2]) < 2
    ensures r.Got? ==> net[FirstOk(net[..2])] == Response(r.status, r.data, net[FirstOk(net[..2])].serverMessage)
    ensures r.Threw? ==> r.message == AxiosMessage(net[1])
  {
    assert FirstOk(net[..2][1..]) == FirstOk(net[1..2]);
    if net[0].IsOk() then Got(net[0].status, net[0].data)
    else if net[1].IsOk() then Got(net[1].status, net[1].data)
    else Threw(AxiosMessage(net[1]))
  }

  /** The try/catch pair is the two-candidate case of the in-order policy: the failover
      origin is requested exactly when the primary is not ok. */
  lemma FallbackAttempts<T>(net: seq<Outcome<T>>)
    requires |net| >= 2
    ensures Attempts(net[..2]) == if net[0].IsOk() then 1 else 2
  {
    assert net[..2][1..] == net[1..2];
  }

  /** One step of the failover: the first candidate is always tried; an ok answer ends the
      attempts there, any other outcome hands over to the remaining candidates. */
  lemma TriedStep<B, T>(candidates: seq<Request<B>>, net: seq<Outcome<T>>)
    requires 1 <= |candidates| <= |net|
    ensures net[0].IsOk() ==> Tried(candidates, net) == [candidates[0]]
    ensures !net[0].IsOk() ==> Tried(candidates, net) == [candidates[0]] + Tried(candidates[1..], net[1..])
  {
    var n := |candidates|;
    assert net[1..][..n - 1] == net[..n][1..];
    if !net[0].IsOk() {
      var k := Attempts(net[1..][..n - 1]);
      assert Attempts(net[..n]) == k + 1;
      assert candidates[..k + 1] == [candidates[0]] + candidates[1..][..k];
    }
  }

  /** Posting one body to two URLs in order: the second URL is tried only when the first is
      not ok, and some attempt succeeds exactly when one of the two is ok. */
  lemma TwoPosts<B, T>(urls: seq<string>, body: B, net: seq<Outcome<T>>)
    requires |urls| == 2 && |net| >= 2
    ensures Tried(Posts(urls, body), net) ==
              if net[0].IsOk() then [Post(urls[0], body)] else [Post(urls[0], body), Post(urls[1], body)]
    ensures FirstOk(net[..2]) < 2 <==> net[0].IsOk() || net[1].IsOk()
  {
    FallbackAttempts(net);
    assert net[..2][1..] == net[1..2];
  }

  /** The `for (const url of urls)` loop of the form pages: POST the same body to each URL
      in turn and stop at the first ok answer; a non-ok answer or a thrown error moves on.
      Returns the requests sent and whether one was ok. */
  method PostInTurn<B, T>(urls: seq<string>, body: B, net: seq<Outcome<T>>) returns (sent: seq<Request<B>>, ok: bool)
    requires |net| >= |urls|
    ensures sent == Tried(Posts(urls, body), net)
    ensures ok <==> FirstOk(net[..|urls|]) < |urls|
    ensures ok <==> exists i :: 0 <= i < |urls| && net[i].IsOk()
  {
    sent := [];
    ghost var candidates := Posts(urls, body);
    for i := 0 to |urls|
      invariant sent == candidates[..i]
      invariant forall j :: 0 <= j < i ==> !net[j].IsOk()
    {
      sent := sent + [Post(urls[i], body)];
      assert candidates[..i + 1] == candidates[..i] + [candidates[i]];
      if net[i].IsOk() {
        assert FirstOk(net[..|urls|]) == i;
        return sent, true;
      }
    }
    assert FirstOk(net[..|urls|]) == |urls|;
    assert candidates[..|urls|] == candidates;
    ok := false;
  }
}
