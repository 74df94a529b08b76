/**
 * `AuthState`: the session kept in local storage and mirrored in the store,
 * logout, and the client-credentials login.
 */
module AuthState {
  import opened Common

  /** The token response the login stores as the session. */
  datatype Session = Session(idToken: Option<string>)

  datatype IdentityContext = IdentityContext(pmsId: string, practice: string)

  /**
   * The login body. Its `grant_type` is that of the client credentials
   * grant (section 4.4 of RFC 6749), but it is sent as JSON.
   */
  datatype LoginPayload = LoginPayload(
    grantType: string,
    clientId: string,
    clientSecret: string,
    identityContext: IdentityContext)

  const ClientCredentials := "client_credentials"

  function Payload(clientId: string, clientSecret: string): (r: LoginPayload)
    ensures r.grantType == ClientCredentials
    ensures r.clientId == clientId && r.clientSecret == clientSecret
    ensures r.identityContext == IdentityContext("drjohn@somepractice.com", "Some Practice")
  {
    LoginPayload(ClientCredentials, clientId, clientSecret, IdentityContext("drjohn@somepractice.com", "Some Practice"))
  }

  /**
   * The store. `stored` is the "session" key of local storage; `loading`
   * is never declared, so it is absent until the first login or update.
   */
  class AuthStore {
    var stored: Option<Session>
    var isAuthenticated: bool
    var session: Option<Session>
    var error: Option<Error>
    var errorMessage: Option<string>
    var authenticating: bool
    var loading: Option<bool>

    /** The store mirrors local storage, and is authenticated exactly when it has a session. */
    predicate Valid()
      reads this
    {
      isAuthenticated == session.Some? && session == stored
    }

    /** The initial state, read from local storage. */
    constructor(storedSession: Option<Session>)
      ensures Valid()
      ensures stored == storedSession && session == storedSession
      ensures isAuthenticated <==> storedSession.Some?
      ensures error.None? && errorMessage.None? && !authenticating && loading.None?
    {
      stored := storedSession;
      isAuthenticated := storedSession.Some?;
      session := storedSession;
      error, errorMessage := None, None;
      authenticating := false;
      loading := None;
    }

    /** `updateSession`: storage and store take the session, and loading ends. */
    method UpdateSession(s: Option<Session>)
      modifies this`stored, this`isAuthenticated, this`session, this`loading
      ensures Valid()
      ensures stored == s && session == s
      ensures isAuthenticated <==> s.Some?
      ensures loading == Some(false)
    {
      stored := s;
      isAuthenticated := s.Some?;
      session := s;
      loading := Some(false);
    }

    /** `handleLogout`: no session, not authenticated. */
    method HandleLogout()
      modifies this`stored, this`isAuthenticated, this`session, this`loading
      ensures Valid()
      ensures session.None? && stored.None? && !isAuthenticated
      ensures loading == Some(false)
    {
      UpdateSession(None);
    }

    /** `handleLogin` up to its `await`: loading, with the last error cleared. */
    method HandleLoginStart()
      modifies this`loading, this`error, this`errorMessage
      ensures loading == Some(true) && error.None? && errorMessage.None?
    {
      loading := Some(true);
      error := None;
      errorMessage := None;
    }

    /**
     * `handleLogin` after its `await`: a 200 answer becomes the session;
     * anything else records the error and its message and drops the
     * session.
     */
    method HandleLoginSettle(response: Response<Option<Session>>)
      modifies this
      ensures Valid()
      ensures loading == Some(false)
      ensures ExpectStatus(response, 200).Ok? ==>
        session == response.data && error == old(error) && errorMessage == old(errorMessage)
      ensures ExpectStatus(response, 200).Err? ==>
        var e := ExpectStatus(response, 200).error;
        && session.None? && !isAuthenticated
        && error == Some(e) && errorMessage == Some(Message(e))
      ensures authenticating == old(authenticating)
    {
      match ExpectStatus(response, 200) {
        case Ok(data) =>
          UpdateSession(data);
        case Err(e) =>
          errorMessage := Some(Message(e));
          error := Some(e);
          UpdateSession(None);
      }
    }

    /** A whole `handleLogin`: authenticated exactly when the answer is a 200 holding a session. */
    method HandleLogin(response: Response<Option<Session>>)
      modifies this
      ensures Valid()
      ensures isAuthenticated <==> response.Response? && response.status == 200 && response.data.Some?
      ensures loading == Some(false)
      ensures error.None? <==> response.Response? && response.status == 200
      ensures ExpectStatus(response, 200).Ok? ==> session == response.data && error.None? && errorMessage.None?
      ensures ExpectStatus(response, 200).Err? ==>
        var e := ExpectStatus(response, 200).error;
        session.None? && error == Some(e) && errorMessage == Some(Message(e))
      ensures authenticating == old(authenticating)
    {
      HandleLoginStart();
      HandleLoginSettle(response);
    }
  }
}
