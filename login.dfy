/** The sign-in form: the credentials are posted to each origin in turn. The first ok answer
    is stored as the current user and routes by role; an error response records its message
    and moves on; a failure without a response moves on silently. */
module Login {
  import opened Net

  /** The body of every login request. */
  datatype Credentials = Credentials(userEmail: string, password: string)

  const LOGIN_URLS := [LOCAL_ORIGIN + "/user/login", PRODUCTION_ORIGIN + "/user/login"]

  const INVALID_CREDENTIALS := "Invalid credentials."
  const UNEXPECTED_ERROR := "An unexpected error occurred."

  const FARMER := "Farmer"
  const BUYER := "Buyer"
  const ADMIN := "Admin"

  /** The `switch` on the answer's role: the page each known role lands on. */
  function RouteFor(role: string): (path: Option<string>)
    ensures path.Some? <==> role == FARMER || role == BUYER || role == ADMIN
    ensures role == FARMER ==> path == Some("/add")
    ensures role == BUYER ==> path == Some("/gigs")
    ensures role == ADMIN ==> path == Some("/admin")
  {
    if role == FARMER then Some("/add")
    else if role == BUYER then Some("/gigs")
    else if role == ADMIN then Some("/admin")
    else None
  }

  /** The message an error response leaves: the body's `message`, or the fixed text when it has none. */
  function ResponseError<T>(o: Outcome<T>): string
    requires o.Response?
  {
    if o.serverMessage != "" then o.serverMessage else INVALID_CREDENTIALS
  }

  datatype LoginState = LoginState(userEmail: string, password: string, error: Option<string>,
                                   isLoading: bool, stored: Option<UserData>,
                                   requests: seq<Request<Credentials>>, events: seq<Event>)
  {
    function Body(): Credentials { Credentials(userEmail, password) }
  }

  function Initial(): LoginState
  {
    LoginState("", "", None, false, None, [], [])
  }

  function EmailTyped(s: LoginState, text: string): LoginState
  {
    s.(userEmail := text)
  }

  function PasswordTyped(s: LoginState, text: string): LoginState
  {
    s.(password := text)
  }

  /** The request to `url` has been sent with the current credentials. */
  function Sent(s: LoginState, url: string): (r: LoginState)
    ensures r.requests == s.requests + [Post(url, s.Body())]
    ensures r.(requests := s.requests) == s
  {
    s.(requests := s.requests + [Post(url, s.Body())])
  }

  /** The `try` block after an ok answer: the user is stored, then the role's page is opened
      and the handler returns with `isLoading` still set; a role with no page throws, and
      the `catch` shows the unexpected-error message and leaves the loop, which clears
      `isLoading`. */
  function Accepted(s: LoginState, user: UserData): (r: LoginState)
    ensures r.requests == s.requests && r.stored == Some(user) && r.Body() == s.Body()
    ensures RouteFor(user.role).Some? ==>
              r.events == s.events + [Navigate(RouteFor(user.role).value)] && r.isLoading == s.isLoading && r.error == s.error
    ensures RouteFor(user.role).None? ==> r.events == s.events && !r.isLoading && r.error == Some(UNEXPECTED_ERROR)
  {
    var kept := s.(stored := Some(user));
    match RouteFor(user.role)
    case Some(path) => kept.(events := kept.events + [Navigate(path)])
    case None => kept.(error := Some(UNEXPECTED_ERROR), isLoading := false)
  }

  /** The `catch` block for a rejected request: an error response shows its message, a
      failure without a response shows nothing new; the loop goes on either way. */
  function Rejected(s: LoginState, o: Outcome<UserData>): (r: LoginState)
    requires !o.IsOk()
    ensures r.(error := s.error) == s
    ensures o.Response? ==> r.error == Some(ResponseError(o))
    ensures o.NetworkError? ==> r.error == s.error
  {
    if o.Response? then s.(error := Some(ResponseError(o))) else s
  }

  /** The rest of the `for` loop from the URL `urls[0]` on, answered by `net`; leaving the
      loop clears `isLoading`. */
  function Attempt(s: LoginState, urls: seq<string>, net: seq<Outcome<UserData>>): LoginState
    requires |net| >= |urls|
    decreases |urls|
  {
    if urls == [] then s.(isLoading := false)
    else if net[0].IsOk() then Accepted(Sent(s, urls[0]), net[0].data)
    else Attempt(Rejected(Sent(s, urls[0]), net[0]), urls[1..], net[1..])
  }

  /** `handleSubmit`: loading on, error cleared, then the loop over the two origins. */
  function Submitted(s: LoginState, net: seq<Outcome<UserData>>): LoginState
    requires |net| >= |LOGIN_URLS|
  {
    Attempt(s.(isLoading := true, error := None), LOGIN_URLS, net)
  }

  /** The loop's requests are the in-order failover over the URLs: the same credentials to
      each, up to and including the first ok answer, or to all when none is ok. */
  lemma {:induction false} AttemptRequests(s: LoginState, urls: seq<string>, net: seq<Outcome<UserData>>)
    requires |net| >= |urls|
    ensures Attempt(s, urls, net).requests == s.requests + Tried(Posts(urls, s.Body()), net)
    ensures Attempt(s, urls, net).Body() == s.Body()
    decreases |urls|
  {
    if urls != [] {
      var posts := Posts(urls, s.Body());
      TriedStep(posts, net);
      if !net[0].IsOk() {
        var next := Rejected(Sent(s, urls[0]), net[0]);
        AttemptRequests(next, urls[1..], net[1..]);
        assert Posts(urls[1..], s.Body()) == posts[1..];
      }
    }
  }

  /** The user lands on a page exactly when some origin answered ok with a known role, at the
      first ok answer; then that answer is stored and the page stays loading. Otherwise
      nothing navigates and loading ends. */
  lemma {:induction false} RoutedIffOkWithKnownRole(s: LoginState, urls: seq<string>, net: seq<Outcome<UserData>>)
    requires |net| >= |urls|
    ensures var r := Attempt(s, urls, net);
            var k := FirstOk(net[..|urls|]);
            && (k < |urls| && RouteFor(net[k].data.role).Some? ==>
                  r.events == s.events + [Navigate(RouteFor(net[k].data.role).value)] &&
                  r.stored == Some(net[k].data) && r.isLoading == s.isLoading)
            && (k == |urls| || RouteFor(net[k].data.role).None? ==> r.events == s.events && !r.isLoading)
            && (k == |urls| ==> r.stored == s.stored)
    decreases |urls|
  {
    if urls != [] && !net[0].IsOk() {
      var next := Rejected(Sent(s, urls[0]), net[0]);
      RoutedIffOkWithKnownRole(next, urls[1..], net[1..]);
      assert net[1..][..|urls| - 1] == net[..|urls|][1..];
      assert FirstOk(net[..|urls|]) == 1 + FirstOk(net[1..][..|urls| - 1]);
    } else if urls != [] {
      assert FirstOk(net[..|urls|]) == 0;
    }
  }

  /** An ok answer whose role has no route still becomes the stored user (it is not rolled
      back); the page shows the unexpected-error message and stops loading without trying
      the remaining origins. */
  lemma UnknownRoleKeepsStoredUser(s: LoginState, net: seq<Outcome<UserData>>)
    requires |net| >= |LOGIN_URLS|
    requires net[0].IsOk() && RouteFor(net[0].data.role).None?
    ensures var r := Submitted(s, net);
            && r.stored == Some(net[0].data)
            && r.error == Some(UNEXPECTED_ERROR)
            && !r.isLoading && r.events == s.events
            && r.requests == s.requests + [Post(LOGIN_URLS[0], s.Body())]
  {
  }

  /** The message of the last error response among `outcomes`, read from the back. */
  function LastServerError<T>(outcomes: seq<Outcome<T>>): (m: Option<string>)
    ensures m.Some? <==> exists i :: 0 <= i < |outcomes| && outcomes[i].Response?
  {
    if outcomes == [] then None
    else
      var last := outcomes[|outcomes| - 1];
      if last.Response? then Some(ResponseError(last))
      else
        var m := LastServerError(outcomes[..|outcomes| - 1]);
        assert forall i :: 0 <= i < |outcomes| - 1 ==> outcomes[..|outcomes| - 1][i] == outcomes[i];
        m
  }

  /** Reading from the back agrees with reading from the front: the last error response of
      `[o] + rest` is the last in `rest`, or `o`'s own when `rest` has none. */
  lemma {:induction false} LastServerErrorFront<T>(outcomes: seq<Outcome<T>>)
    requires |outcomes| >= 1
    ensures LastServerError(outcomes) ==
              match LastServerError(outcomes[1..])
              case Some(m) => Some(m)
              case None => if outcomes[0].Response? then Some(ResponseError(outcomes[0])) else None
    decreases |outcomes|
  {
    var n := |outcomes|;
    if n > 1 && !outcomes[n - 1].Response? {
      LastServerErrorFront(outcomes[..n - 1]);
      assert outcomes[..n - 1][1..] == outcomes[1..][..n - 2];
    }
  }

  /** When no origin answers ok, the message shown is the last error response's: a later
      response overwrites an earlier one, a failure without response keeps what is shown. */
  lemma {:induction false} LastServerMessageWins(s: LoginState, urls: seq<string>, net: seq<Outcome<UserData>>)
    requires |net| >= |urls|
    requires forall i :: 0 <= i < |urls| ==> !net[i].IsOk()
    ensures Attempt(s, urls, net).error ==
              match LastServerError(net[..|urls|])
              case Some(m) => Some(m)
              case None => s.error
    decreases |urls|
  {
    if urls != [] {
      var next := Rejected(Sent(s, urls[0]), net[0]);
      LastServerMessageWins(next, urls[1..], net[1..]);
      assert net[1..][..|urls| - 1] == net[..|urls|][1..];
      LastServerErrorFront(net[..|urls|]);
    }
  }

  /** A submit starts from a cleared error; with both origins failing, the page stops
      loading, navigates nowhere, and shows the second error response's message, else the
      first one's, else nothing. */
  lemma BothFailing(s: LoginState, net: seq<Outcome<UserData>>)
    requires |net| >= |LOGIN_URLS|
    requires !net[0].IsOk() && !net[1].IsOk()
    ensures var r := Submitted(s, net);
            && !r.isLoading && r.events == s.events && r.stored == s.stored
            && r.error == (if net[1].Response? then Some(ResponseError(net[1]))
                           else if net[0].Response? then Some(ResponseError(net[0])) else None)
  {
    var start := s.(isLoading := true, error := None);
    LastServerMessageWins(start, LOGIN_URLS, net);
    RoutedIffOkWithKnownRole(start, LOGIN_URLS, net);
    assert net[..2][..1] == net[..1];
  }

  /** The submit button: its caption and whether it is disabled. */
  datatype Button = Button(caption: string, disabled: bool)

  function SubmitButton(s: LoginState): Button
  {
    if s.isLoading then Button("Logging in...", true) else Button("Login", false)
  }

  /** The error paragraph under the form, drawn when the error is truthy. */
  function ErrorParagraph(s: LoginState): Option<string>
  {
    if s.error.Some? && s.error.value != "" then s.error else None
  }

  /** Every message the loop can set is non-empty, so an error the page holds is always drawn. */
  lemma {:induction false} ErrorsAreNeverBlank(s: LoginState, urls: seq<string>, net: seq<Outcome<UserData>>)
    requires |net| >= |urls|
    requires s.error.None? || s.error.value != ""
    ensures var r := Attempt(s, urls, net);
            r.error.None? || r.error.value != ""
    decreases |urls|
  {
    if urls != [] && !net[0].IsOk() {
      ErrorsAreNeverBlank(Rejected(Sent(s, urls[0]), net[0]), urls[1..], net[1..]);
    }
  }

  /** After a submit the button stays disabled, reading "Logging in...", exactly when the
      first ok answer had a known role and the page navigated away; otherwise it is enabled
      again. The error paragraph shows exactly the error the page holds. */
  lemma ViewAfterSubmit(s: LoginState, net: seq<Outcome<UserData>>)
    requires |net| >= |LOGIN_URLS|
    ensures var r := Submitted(s, net);
            var k := FirstOk(net[..2]);
            && (SubmitButton(r) == Button("Logging in...", true) <==> k < 2 && RouteFor(net[k].data.role).Some?)
            && (SubmitButton(r) == Button("Login", false) <==> k == 2 || RouteFor(net[k].data.role).None?)
            && ErrorParagraph(r) == r.error
  {
    var start := s.(isLoading := true, error := None);
    RoutedIffOkWithKnownRole(start, LOGIN_URLS, net);
    ErrorsAreNeverBlank(start, LOGIN_URLS, net);
  }

  /** The page component with its state hooks, the stored user and the request log as fields. */
  class LoginPage {
    var userEmail: string
    var password: string
    var error: Option<string>
    var isLoading: bool
    var stored: Option<UserData>
    var requests: seq<Request<Credentials>>
    var events: seq<Event>

    function State(): LoginState
      reads this
    {
      LoginState(userEmail, password, error, isLoading, stored, requests, events)
    }

    constructor ()
      ensures State() == Initial()
    {
      userEmail, password, error, isLoading := "", "", None, false;
      stored, requests, events := None, [], [];
    }

    method SetUserEmail(text: string)
      modifies this`userEmail
      ensures State() == EmailTyped(old(State()), text)
    {
      userEmail := text;
    }

    method SetPassword(text: string)
      modifies this`password
      ensures State() == PasswordTyped(old(State()), text)
    {
      password := text;
    }

    method HandleSubmit(net: seq<Outcome<UserData>>)
      requires |net| >= |LOGIN_URLS|
      modifies this`error, this`isLoading, this`stored, this`requests, this`events
      ensures State() == Submitted(old(State()), net)
    {
      isLoading := true;
      error := None;
      var urls := LOGIN_URLS;
      ghost var goal := Attempt(State(), urls, net);
      for i := 0 to |urls|
        invariant Attempt(State(), urls[i..], net[i..]) == goal
        invariant userEmail == old(userEmail) && password == old(password)
      {
        assert urls[i..][1..] == urls[i + 1..] && net[i..][1..] == net[i + 1..];
        requests := requests + [Post(urls[i], Credentials(userEmail, password))];
        var o := net[i];
        if o.IsOk() {
          stored := Some(o.data);
          match RouteFor(o.data.role)
          case Some(path) =>
            events := events + [Navigate(path)];
            return;
          case None =>
            error := Some(UNEXPECTED_ERROR);
            break;
        } else if o.Response? {
          error := Some(ResponseError(o));
        }
      }
      isLoading := false;
    }
  }
}
