/** The session provider of src/context/AuthContext.jsx: the in-memory token, the token
    persisted in durable storage under the key "authToken", the user profile and the loading
    flag, and the transitions `login`, `googleLogin`, `logout` and the identity effect. */
module Auth {
  import opened Common

  /** The user record set from the identity endpoint or the Google exchange. */
  datatype Profile = Profile(id: int, username: string, email: string)

  /** A snapshot of the provider's state. */
  datatype Session = Session(stored: Option<string>, token: Option<string>, user: Option<Profile>, loading: bool)

  /** JavaScript truthiness of a token: absent and "" are falsy. */
  predicate HasToken(t: Option<string>) {
    t.Some? && t.value != ""
  }

  /** What `localStorage.setItem` stores for a JSON field that may be absent: the value
      converted to a string, so an absent field is stored as the text "undefined". */
  function StoredText(field: Option<string>): (s: string)
    ensures field.Some? ==> s == field.value
    ensures field.None? ==> s == "undefined"
  {
    match field
    case Some(v) => v
    case None => "undefined"
  }

  /** The settled `GET /api/user/`: its status is not checked, so an error body is a body too
      (`null` is `Parsed(None)`). */
  type IdentityReply = Settled<Option<Profile>>

  /** The parsed body of a 2xx response from `POST /api/login/`. */
  datatype LoginBody = LoginBody(token: Option<string>)

  /** The body of `POST /api/auth/google/`; `success` is its truthiness. */
  datatype GoogleBody = GoogleBody(success: bool, token: Option<string>, user: Option<Profile>, hasBankAccount: Option<bool>)

  /** The settled `POST /api/auth/google/`: its status is not checked, only its body. */
  type GoogleReply = Settled<GoogleBody>

  /** The object `googleLogin` resolves to. On failure `user` and `has_bank_account` are
      undefined. */
  datatype GoogleOutcome = GoogleOutcome(success: bool, user: Option<Profile>, hasBankAccount: Option<bool>)

  /** The state after `logout`, and after the first three statements of `login` and
      `googleLogin`: storage entry removed, token and user null, loading untouched. */
  function LoggedOut(s: Session): (r: Session)
    ensures r.stored.None? && r.token.None? && r.user.None?
    ensures r.loading == s.loading
  {
    Session(None, None, None, s.loading)
  }

  /** Logging out twice leaves the same state as logging out once. */
  lemma LogoutIdempotent(s: Session)
    ensures LoggedOut(LoggedOut(s)) == LoggedOut(s)
  {
  }

  /** The state decision of `googleLogin`: it succeeds exactly when the body has a truthy
      `success` and a truthy `token`. */
  function GoogleOutcomeOf(reply: GoogleReply): (o: GoogleOutcome)
    ensures o.success <==> reply.Parsed? && reply.body.success && HasToken(reply.body.token)
    ensures o.success ==> o.user == reply.body.user && o.hasBankAccount == reply.body.hasBankAccount
    ensures !o.success ==> o.user.None? && o.hasBankAccount.None?
  {
    if reply.Parsed? && reply.body.success && HasToken(reply.body.token) then
      GoogleOutcome(true, reply.body.user, reply.body.hasBankAccount)
    else
      GoogleOutcome(false, None, None)
  }

  /** The session invariant kept at every step: an in-memory token is always the persisted one. */
  predicate TokenPersisted(s: Session) {
    s.token.Some? ==> s.stored == s.token
  }

  class AuthProvider {
    var stored: Option<string>
    var token: Option<string>
    var user: Option<Profile>
    var loading: bool

    function Snapshot(): Session
      reads this
    {
      Session(stored, token, user, loading)
    }

    ghost predicate Valid()
      reads this
    {
      TokenPersisted(Snapshot())
    }

    /** Mounting the provider: the in-memory token starts as the persisted one, `user` null,
        `loading` true. */
    constructor (persisted: Option<string>)
      ensures Valid()
      ensures stored == persisted && token == persisted
      ensures user.None? && loading
    {
      stored := persisted;
      token := persisted;
      user := None;
      loading := true;
    }

    /** The identity effect, up to its request: with a truthy token it sets `loading` and
        issues `GET /api/user/` (returned as `fetching`); without one it clears `user` and
        `loading` and issues nothing. */
    method StartIdentityEffect() returns (fetching: bool)
      requires Valid()
      modifies this
      ensures Valid()
      ensures fetching <==> HasToken(token)
      ensures stored == old(stored) && token == old(token)
      ensures fetching ==> loading && user == old(user)
      ensures !fetching ==> !loading && user.None?
    {
      if token.Some? && token.value != "" {
        loading := true;
        fetching := true;
      } else {
        user := None;
        loading := false;
        fetching := false;
      }
    }

    /** The identity effect, once its request settles: the body becomes `user`, a failure
        clears `user`, and `loading` ends false either way. The token is left as it is. */
    method FinishIdentityFetch(reply: IdentityReply)
      requires Valid()
      modifies this
      ensures Valid()
      ensures !loading
      ensures user == (if reply.Parsed? then reply.body else None)
      ensures stored == old(stored) && token == old(token)
    {
      if reply.Parsed? {
        user := reply.body;
      } else {
        user := None;
      }
      loading := false;
    }

    /** `logout`: clears storage, token and user; no request. */
    method Logout()
      requires Valid()
      modifies this
      ensures Valid()
      ensures Snapshot() == LoggedOut(old(Snapshot()))
    {
      stored := None;
      token := None;
      user := None;
    }

    /** `login(username, password)`. `credentials` is the settled `POST /api/login/` (a 2xx body
        whose JSON fails to parse is `Thrown`); `identity` is the settled `GET /api/user/` that
        follows it, and is not consulted when the first request fails. The ghost `trace` holds
        the state after each group of synchronous statements. */
    method Login(credentials: Fetch<LoginBody>, identity: IdentityReply) returns (ok: bool, ghost trace: seq<Session>)
      requires Valid()
      modifies this
      ensures Valid()
      ensures ok <==> credentials.Ok? && identity.Parsed?
      ensures !credentials.Ok? ==> Snapshot() == LoggedOut(old(Snapshot()))
      ensures credentials.Ok? ==>
                stored == Some(StoredText(credentials.payload.token)) &&
                token == credentials.payload.token
      ensures user == (if ok then identity.body else None)
      ensures loading == old(loading)
      ensures |trace| > 0 && trace[0] == LoggedOut(old(Snapshot())) && trace[|trace| - 1] == Snapshot()
      ensures forall k :: 0 <= k < |trace| ==> TokenPersisted(trace[k])
    {
      stored := None;
      token := None;
      user := None;
      trace := [Snapshot()];
      if !credentials.Ok? {
        return false, trace;
      }
      var t := credentials.payload.token;
      stored := Some(StoredText(t));
      token := t;
      trace := trace + [Snapshot()];
      match identity
      case Failed =>
        ok := false;
      case Parsed(u) =>
        user := u;
        trace := trace + [Snapshot()];
        ok := true;
    }

    /** `googleLogin(credential)`. `reply` is the settled `POST /api/auth/google/`; its status
        is not checked, only the fields of its body. */
    method GoogleLogin(reply: GoogleReply) returns (outcome: GoogleOutcome, ghost trace: seq<Session>)
      requires Valid()
      modifies this
      ensures Valid()
      ensures outcome == GoogleOutcomeOf(reply)
      ensures !outcome.success ==> Snapshot() == LoggedOut(old(Snapshot()))
      ensures outcome.success ==> stored == reply.body.token && token == reply.body.token && user == reply.body.user
      ensures loading == old(loading)
      ensures |trace| > 0 && trace[0] == LoggedOut(old(Snapshot())) && trace[|trace| - 1] == Snapshot()
      ensures forall k :: 0 <= k < |trace| ==> TokenPersisted(trace[k])
    {
      stored := None;
      token := None;
      user := None;
      trace := [Snapshot()];
      if reply.Failed? || !reply.body.success || reply.body.token.None? || reply.body.token.value == "" {
        return GoogleOutcome(false, None, None), trace;
      }
      stored := reply.body.token;
      token := reply.body.token;
      trace := trace + [Snapshot()];
      if reply.body.user.Some? {
        user := reply.body.user;
        trace := trace + [Snapshot()];
      }
      outcome := GoogleOutcome(true, reply.body.user, reply.body.hasBankAccount);
    }
  }
}
