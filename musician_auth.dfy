/** Session login and logout for the musician portal
    (orchestra/contrib/musician/auth.py): the API token and username are
    kept in the Django session. */
module MusicianAuth {
  import opened Wrappers
  import opened PyValues

  const TokenKey := "_auth_token"
  const UsernameKey := "_auth_username"

  /** A Django session: its data, its key (None once flushed, until a new
      one is issued) and the CSRF token the request carries. */
  class Session {
    var data: map<string, Value>
    var key: Option<string>
    var csrfToken: string

    constructor (data: map<string, Value>, key: Option<string>, csrfToken: string)
      ensures this.data == data && this.key == key && this.csrfToken == csrfToken
    {
      this.data := data;
      this.key := key;
      this.csrfToken := csrfToken;
    }

    /** `session.flush()`: drop all data and the key. */
    method Flush()
      modifies this
      ensures data == map[] && key.None? && csrfToken == old(csrfToken)
    {
      data := map[];
      key := None;
    }

    /** `session.cycle_key()`: a new key, the same data. */
    method CycleKey(newKey: string)
      modifies this
      ensures data == old(data) && key == Some(newKey) && csrfToken == old(csrfToken)
    {
      key := Some(newKey);
    }
  }

  /** The session data `login` leaves behind, or the KeyError it raises when
      the session holds a token but no username. */
  function LoginData(data: map<string, Value>, username: Value, token: Value): Result<map<string, Value>, Exception> {
    if TokenKey in data then
      if UsernameKey !in data then Err(KeyError(UsernameKey))
      else if data[UsernameKey] != username then Ok(map[TokenKey := token, UsernameKey := username])
      else Ok(data[TokenKey := token][UsernameKey := username])
    else Ok(data[TokenKey := token][UsernameKey := username])
  }

  /** `login`: the session key is flushed for another user's session and
      cycled for an anonymous one; the CSRF token is always rotated.
      `newKey` and `newCsrf` are the random values Django would draw. */
  method Login(session: Session, username: Value, token: Value, newKey: string, newCsrf: string)
    returns (failure: Option<Exception>)
    modifies session
    ensures LoginData(old(session.data), username, token).Err? ==>
      failure == Some(LoginData(old(session.data), username, token).error)
      && session.data == old(session.data) && session.key == old(session.key) && session.csrfToken == old(session.csrfToken)
    ensures LoginData(old(session.data), username, token).Ok? ==>
      failure.None? && session.data == LoginData(old(session.data), username, token).value
      && session.csrfToken == newCsrf
    ensures failure.None? && TokenKey !in old(session.data) ==> session.key == Some(newKey)
    ensures failure.None? && TokenKey in old(session.data) && old(session.data)[UsernameKey] != username ==>
      session.key.None?
    ensures failure.None? && TokenKey in old(session.data) && old(session.data)[UsernameKey] == username ==>
      session.key == old(session.key)
  {
    if TokenKey in session.data {
      if UsernameKey !in session.data {
        return Some(KeyError(UsernameKey));
      }
      if session.data[UsernameKey] != username {
        session.Flush();
      }
    } else {
      session.CycleKey(newKey);
    }
    session.data := session.data[TokenKey := token];
    session.data := session.data[UsernameKey := username];
    session.csrfToken := newCsrf;
    failure := None;
  }

  /** `logout`: the session is flushed. */
  method Logout(session: Session)
    modifies session
    ensures session.data == map[] && session.key.None?
    ensures session.csrfToken == old(session.csrfToken)
  {
    session.Flush();
  }

  /** After a successful login the session holds the token and username. */
  lemma LoginStoresCredentials(data: map<string, Value>, username: Value, token: Value)
    requires LoginData(data, username, token).Ok?
    ensures var d := LoginData(data, username, token).value;
      TokenKey in d && d[TokenKey] == token && UsernameKey in d && d[UsernameKey] == username
  {
  }

  /** Logging in over another user's session keeps none of its data. */
  lemma OtherUserSessionDropped(data: map<string, Value>, username: Value, token: Value)
    requires TokenKey in data && UsernameKey in data && data[UsernameKey] != username
    ensures LoginData(data, username, token) == Ok(map[TokenKey := token, UsernameKey := username])
    ensures LoginData(data, username, token).value.Keys == {TokenKey, UsernameKey}
  {
  }

  /** Logging in again as the same user, or from an anonymous session,
      keeps every other session key. */
  lemma OtherKeysKept(data: map<string, Value>, username: Value, token: Value, k: string)
    requires TokenKey !in data || (UsernameKey in data && data[UsernameKey] == username)
    requires k in data && k != TokenKey && k != UsernameKey
    ensures LoginData(data, username, token).Ok?
    ensures k in LoginData(data, username, token).value && LoginData(data, username, token).value[k] == data[k]
  {
  }

  /** A token without a username is the only way `login` fails. */
  lemma LoginFailsOnlyWithoutUsername(data: map<string, Value>, username: Value, token: Value)
    ensures LoginData(data, username, token).Err? <==> TokenKey in data && UsernameKey !in data
  {
  }
}
