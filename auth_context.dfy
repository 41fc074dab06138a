/**
 * The client's authentication session: the bearer token (kept in browser
 * storage and in state), the signed-in user, the loading flag, the last
 * error, and the Authorization header every API call carries. Server
 * answers and the token decoder are inputs.
 */
module AuthContext {
  import opened Wrappers
  import opened JsValues
  import opened JsStrings

  /** The signed-in user as the client knows it. */
  datatype User = User(id: string, name: Field, email: Field)

  /** The decoded middle part of a token, when it decodes to a JSON object. */
  datatype Payload = Payload(id: Field)

  /**
   * Base64-decoding and JSON-parsing the middle part of a token: `None` when
   * either throws or the JSON is `null`.
   */
  type Decoder = string -> Option<Payload>

  /** What the register or login endpoint returns on success. */
  datatype AuthData = AuthData(id: string, name: string, email: string, token: string)

  /** The server's answer: the account data, or a failure with the message it carried, if any. */
  datatype ServerAnswer = Accepted(data: AuthData) | Refused(message: Field)

  const REGISTRATION_FAILED := "Registration failed"
  const LOGIN_FAILED := "Login failed"
  const BEARER := "Bearer "

  /**
   * The user id a stored token yields on startup: the token must split into
   * exactly three `.`-separated parts and its middle part must decode to a
   * payload with a truthy `id`.
   */
  function TokenUserId(token: string, decode: Decoder): (r: Option<string>)
    ensures r.Some? ==> Count(token, '.') == 2 && r.value != ""
    ensures Count(token, '.') != 2 ==> r == None
    ensures Count(token, '.') == 2 ==>
      (r.Some? <==> decode(Split(token, '.')[1]).Some? && Truthy(decode(Split(token, '.')[1]).value.id))
  {
    var parts := Split(token, '.');
    if |parts| != 3 then None
    else
      match decode(parts[1])
      case None => None
      case Some(p) => if Truthy(p.id) then Some(p.id.value) else None
  }

  /**
   * A token `header.payload.signature` whose three parts hold no dot and whose
   * payload decodes to a truthy id yields exactly that id.
   */
  lemma WellFormedTokenYieldsId(header: string, payload: string, signature: string, decode: Decoder, id: string)
    requires '.' !in header && '.' !in payload && '.' !in signature
    requires decode(payload) == Some(Payload(Some(id))) && id != ""
    ensures TokenUserId(header + "." + payload + "." + signature, decode) == Some(id)
  {
    var parts := [header, payload, signature];
    SplitJoin(parts, '.');
    assert parts[1..] == [payload, signature] && parts[1..][1..] == [signature];
    assert Join([signature], '.') == signature;
    assert Join([payload, signature], '.') == payload + "." + signature;
    assert Join(parts, '.') == header + "." + payload + "." + signature;
  }

  /** The message a failed register or login leaves: the server's, or else the fallback. */
  function FailureMessage(answer: Field, fallback: string): (m: string)
    ensures fallback != "" ==> m != ""
    ensures Truthy(answer) ==> m == answer.value
    ensures !Truthy(answer) ==> m == fallback
  {
    OrElse(answer, fallback)
  }

  class AuthSession {
    var user: Option<User>
    var token: Option<string>
    var loading: bool
    var error: Option<string>
    /** The "token" entry of browser storage. */
    var storedToken: Option<string>
    /** The Authorization header sent by default with every API call. */
    var authHeader: Option<string>

    /** The provider's initial state: the token is whatever storage holds. */
    constructor (stored: Option<string>)
      ensures token == stored && storedToken == stored
      ensures user == None && loading && error == None && authHeader == None
    {
      token := stored;
      storedToken := stored;
      user := None;
      loading := true;
      error := None;
      authHeader := None;
    }

    /** The header agrees with the token: present exactly for a truthy token, as "Bearer <token>". */
    ghost predicate HeaderInSync()
      reads this
    {
      authHeader == (if Truthy(token) then Some(BEARER + token.value) else None)
    }

    /** The effect run whenever the token changes. */
    method SyncAuthHeader()
      modifies this
      ensures HeaderInSync()
      ensures token == old(token) && user == old(user) && loading == old(loading)
      ensures error == old(error) && storedToken == old(storedToken)
    {
      if Truthy(token) {
        authHeader := Some(BEARER + token.value);
      } else {
        authHeader := None;
      }
    }

    /**
     * The startup check run whenever the token changes. Without a truthy
     * token it only ends loading. A token of the wrong shape, or whose
     * payload has no id, is thrown away from storage and state together with
     * the user. A good token signs in a user known only by id.
     */
    method LoadUser(decode: Decoder)
      modifies this
      ensures !loading
      ensures error == old(error) && authHeader == old(authHeader)
      ensures !Truthy(old(token)) ==>
        token == old(token) && user == old(user) && storedToken == old(storedToken)
      ensures Truthy(old(token)) && TokenUserId(old(token).value, decode).None? ==>
        token == None && user == None && storedToken == None
      ensures Truthy(old(token)) && TokenUserId(old(token).value, decode).Some? ==>
        token == old(token) && storedToken == old(storedToken) &&
        user == Some(User(TokenUserId(old(token).value, decode).value, None, None))
    {
      if !Truthy(token) {
        loading := false;
        return;
      }
      var id := TokenUserId(token.value, decode);
      if id.None? {
        storedToken := None;
        token := None;
        user := None;
        loading := false;
        return;
      }
      user := Some(User(id.value, None, None));
      loading := false;
    }

    /**
     * The state a register or login call leaves: on acceptance the token is
     * in storage and state, the full user is signed in and the error is
     * cleared; on refusal only the error changes, to the server's message or
     * `fallback`. Loading and the header are untouched either way.
     */
    twostate predicate Authenticated(answer: ServerAnswer, fallback: string, new result: Option<AuthData>)
      reads this
    {
      && loading == old(loading) && authHeader == old(authHeader)
      && (answer.Accepted? ==>
        var d := answer.data;
        && result == Some(d) && error == None
        && storedToken == Some(d.token) && token == Some(d.token)
        && user == Some(User(d.id, Some(d.name), Some(d.email))))
      && (answer.Refused? ==>
        && result == None && error == Some(FailureMessage(answer.message, fallback))
        && storedToken == old(storedToken) && token == old(token) && user == old(user))
    }

    /**
     * The body shared by register and login: the error is cleared first; an
     * accepted answer stores its token in storage and state and signs in its
     * user; a refused one sets the error and is rethrown (`result == None`).
     */
    method Authenticate(answer: ServerAnswer, fallback: string) returns (result: Option<AuthData>)
      modifies this
      ensures Authenticated(answer, fallback, result)
    {
      error := None;
      if answer.Refused? {
        error := Some(FailureMessage(answer.message, fallback));
        return None;
      }
      var d := answer.data;
      storedToken := Some(d.token);
      token := Some(d.token);
      user := Some(User(d.id, Some(d.name), Some(d.email)));
      result := Some(d);
    }

    method Register(answer: ServerAnswer) returns (result: Option<AuthData>)
      modifies this
      ensures Authenticated(answer, REGISTRATION_FAILED, result)
    {
      result := Authenticate(answer, REGISTRATION_FAILED);
    }

    method Login(answer: ServerAnswer) returns (result: Option<AuthData>)
      modifies this
      ensures Authenticated(answer, LOGIN_FAILED, result)
    {
      result := Authenticate(answer, LOGIN_FAILED);
    }

    /** Logout: storage, token and user are cleared. */
    method Logout()
      modifies this
      ensures storedToken == None && token == None && user == None
      ensures loading == old(loading) && error == old(error) && authHeader == old(authHeader)
    {
      storedToken := None;
      token := None;
      user := None;
    }
  }

  /**
   * A sign-in followed by the effects its token change triggers: with a
   * well-formed token the startup check replaces the user by one known only
   * by id, so the name and email the server returned are lost.
   */
  method LoginThenEffects(session: AuthSession, data: AuthData, decode: Decoder)
    requires Truthy(Some(data.token)) && TokenUserId(data.token, decode).Some?
    requires session.token != Some(data.token)
    modifies session
    ensures session.HeaderInSync() && session.authHeader == Some(BEARER + data.token)
    ensures session.user == Some(User(TokenUserId(data.token, decode).value, None, None))
  {
    var result := session.Login(Accepted(data));
    session.SyncAuthHeader();
    session.LoadUser(decode);
  }
}
