/** The sign-up form: six text fields posted with axios to the primary origin and, only when
    that request rejects, to production; success goes to the login page and a double failure
    shows one fixed error. */
module Register {
  import opened Net

  /** The inputs of the form, named as their `name` attributes spell them. */
  datatype UserField = Name | UserEmail | Password | PhoneNumber | UserRole | Location

  /** The record the form edits and posts. */
  datatype User = User(name: string, userEmail: string, password: string, phoneNumber: string,
                       userRole: string, location: string)
  {
    function Get(f: UserField): string
    {
      match f
      case Name => name
      case UserEmail => userEmail
      case Password => password
      case PhoneNumber => phoneNumber
      case UserRole => userRole
      case Location => location
    }
  }

  const REGISTRATION_FAILED := "Registration failed. Please try again."

  const REGISTER_URLS := [LOCAL_ORIGIN + "/user/register", PRODUCTION_ORIGIN + "/user/register"]

  datatype RegisterState = RegisterState(user: User, error: Option<string>,
                                         requests: seq<Request<User>>, events: seq<Event>)

  /** Every field empty and no error shown. */
  function Initial(): (s: RegisterState)
    ensures forall f :: s.user.Get(f) == ""
    ensures s.error == None
  {
    RegisterState(User("", "", "", "", "", ""), None, [], [])
  }

  /** `handleChange`: `{ ...user, [name]: value }`. */
  function Changed(s: RegisterState, name: UserField, value: string): RegisterState
  {
    var u := s.user;
    var nu := match name
      case Name => u.(name := value)
      case UserEmail => u.(userEmail := value)
      case Password => u.(password := value)
      case PhoneNumber => u.(phoneNumber := value)
      case UserRole => u.(userRole := value)
      case Location => u.(location := value);
    s.(user := nu)
  }

  /** `handleSubmit`: the nested try/catch pair over the two origins. A resolved request goes
      to the login page; when both reject, the fixed message is shown. */
  function Submitted(s: RegisterState, net: seq<Outcome<()>>): RegisterState
    requires |net| >= 2
  {
    var sent := s.(requests := s.requests + Tried(Posts(REGISTER_URLS, s.user), net));
    match Fallback(net)
    case Got(_, _) => sent.(events := sent.events + [Navigate("/login")])
    case Threw(_) => sent.(error := Some(REGISTRATION_FAILED))
  }

  /** Editing an input sets that field and leaves the rest of the page as it was. */
  lemma ChangeTouchesOnlyItsField(s: RegisterState, name: UserField, value: string)
    ensures var r := Changed(s, name, value);
            && r.user.Get(name) == value
            && (forall f :: f != name ==> r.user.Get(f) == s.user.Get(f))
            && r.error == s.error && r.requests == s.requests && r.events == s.events
  {
  }

  /** The same user record goes first to the local origin and, only when that is not ok, to
      production; nothing is validated before sending. */
  lemma SameUserBothTimes(s: RegisterState, net: seq<Outcome<()>>)
    requires |net| >= 2
    ensures var r := Submitted(s, net);
            r.requests == s.requests +
              if net[0].IsOk() then [Post(REGISTER_URLS[0], s.user)]
              else [Post(REGISTER_URLS[0], s.user), Post(REGISTER_URLS[1], s.user)]
  {
    TwoPosts(REGISTER_URLS, s.user, net);
  }

  /** The page navigates to the login page exactly when one of the two origins answered ok,
      and shows the error exactly when neither did; the form is kept either way. */
  lemma OutcomeOfSubmit(s: RegisterState, net: seq<Outcome<()>>)
    requires |net| >= 2
    ensures var r := Submitted(s, net);
            && (net[0].IsOk() || net[1].IsOk() ==> r.events == s.events + [Navigate("/login")] && r.error == s.error)
            && (!net[0].IsOk() && !net[1].IsOk() ==> r.events == s.events && r.error == Some(REGISTRATION_FAILED))
            && r.user == s.user
  {
    TwoPosts(REGISTER_URLS, s.user, net);
  }

  /** A success never clears the message left by an earlier double failure. */
  lemma StaleErrorSurvivesSuccess(s: RegisterState, failing: seq<Outcome<()>>, ok: seq<Outcome<()>>)
    requires |failing| >= 2 && |ok| >= 2
    requires !failing[0].IsOk() && !failing[1].IsOk() && ok[0].IsOk()
    ensures var r := Submitted(Submitted(s, failing), ok);
            r.error == Some(REGISTRATION_FAILED) && r.events[|r.events| - 1] == Navigate("/login")
  {
    OutcomeOfSubmit(s, failing);
    OutcomeOfSubmit(Submitted(s, failing), ok);
  }

  /** The error paragraph under the form, drawn when the error is truthy. */
  function ErrorParagraph(s: RegisterState): Option<string>
  {
    if s.error.Some? && s.error.value != "" then s.error else None
  }

  /** From a page showing no error, a submit draws the failure paragraph exactly when both
      origins failed, and no paragraph otherwise. */
  lemma FailureParagraphIffBothFail(s: RegisterState, net: seq<Outcome<()>>)
    requires |net| >= 2
    requires s.error == None
    ensures ErrorParagraph(Submitted(s, net)) == Some(REGISTRATION_FAILED) <==> !net[0].IsOk() && !net[1].IsOk()
    ensures ErrorParagraph(Submitted(s, net)).None? <==> net[0].IsOk() || net[1].IsOk()
  {
    OutcomeOfSubmit(s, net);
  }

  /** The page component with its state hooks as fields. */
  class RegisterPage {
    var user: User
    var error: Option<string>
    var requests: seq<Request<User>>
    var events: seq<Event>

    function State(): RegisterState
      reads this
    {
      RegisterState(user, error, requests, events)
    }

    constructor ()
      ensures State() == Initial()
    {
      user := User("", "", "", "", "", "");
      error, requests, events := None, [], [];
    }

    method HandleChange(name: UserField, value: string)
      modifies this`user
      ensures State() == Changed(old(State()), name, value)
    {
      match name
      case Name => user := user.(name := value);
      case UserEmail => user := user.(userEmail := value);
      case Password => user := user.(password := value);
      case PhoneNumber => user := user.(phoneNumber := value);
      case UserRole => user := user.(userRole := value);
      case Location => user := user.(location := value);
    }

    method HandleSubmit(net: seq<Outcome<()>>)
      requires |net| >= 2
      modifies this`error, this`requests, this`events
      ensures State() == Submitted(old(State()), net)
    {
      TwoPosts(REGISTER_URLS, user, net);
      requests := requests + [Post(REGISTER_URLS[0], user)];
      if net[0].IsOk() {
        events := events + [Navigate("/login")];
        return;
      }
      requests := requests + [Post(REGISTER_URLS[1], user)];
      if net[1].IsOk() {
        events := events + [Navigate("/login")];
        return;
      }
      error := Some(REGISTRATION_FAILED);
    }
  }
}
