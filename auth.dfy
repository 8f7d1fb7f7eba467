/** The mock authentication store (`stores/auth.js`). It keeps the token
    and the user both in its own fields and in storage, under 'auth_token'
    and 'auth_user'.

    `JSON.stringify` and `JSON.parse` are parameters (`None` from the parser
    stands for a thrown SyntaxError). */
module Auth {
  import opened Common
  import opened Js
  import opened Dom

  const TokenKey := "auth_token"
  const UserKey := "auth_user"
  const DevToken := "dev-token"
  const MissingCredentials := "Missing credentials"

  /** What a call came to: it returned, or it threw with a message. */
  datatype Outcome = Returned | Threw(message: string)

  /** The user object a login stores. */
  function UserObject(username: JsValue): JsValue
  {
    Obj(map["username" := username])
  }

  class AuthStore {
    /** The user object, or `null` when nobody is logged in. */
    var user: JsValue
    var token: Option<string>
    const browser: Browser

    constructor (b: Browser)
      ensures user == Null && token.None? && browser == b
    {
      user := Null;
      token := None;
      browser := b;
    }

    /** `initFromStorage`: a stored token is taken when non-empty, then a
        stored user is parsed. A user that does not parse throws, after the
        token has already been taken. */
    method InitFromStorage(parse: string -> Option<JsValue>) returns (outcome: Outcome)
      modifies this
      ensures token == (if Set(browser.storage, TokenKey) then Some(browser.storage[TokenKey]) else old(token))
      ensures !Set(browser.storage, UserKey) ==> user == old(user) && outcome == Returned
      ensures Set(browser.storage, UserKey) && parse(browser.storage[UserKey]).None? ==>
                user == old(user) && outcome.Threw?
      ensures Set(browser.storage, UserKey) && parse(browser.storage[UserKey]).Some? ==>
                user == parse(browser.storage[UserKey]).value && outcome == Returned
    {
      var storedToken := if TokenKey in browser.storage then Some(browser.storage[TokenKey]) else None;
      var userRaw := if UserKey in browser.storage then Some(browser.storage[UserKey]) else None;
      if storedToken.Some? && storedToken.value != "" {
        token := storedToken;
      }
      outcome := Returned;
      if userRaw.Some? && userRaw.value != "" {
        var parsed := parse(userRaw.value);
        if parsed.None? {
          return Threw("SyntaxError");
        }
        user := parsed.value;
      }
    }

    /** `login`: a falsy username or password throws and changes nothing;
        otherwise the user and the development token are set and stored. */
    method Login(username: JsValue, password: JsValue, stringify: JsValue -> string) returns (outcome: Outcome)
      modifies this, browser
      ensures !Truthy(username) || !Truthy(password) ==>
                outcome == Threw(MissingCredentials) && user == old(user) && token == old(token)
                && browser.storage == old(browser.storage)
      ensures Truthy(username) && Truthy(password) ==>
                && outcome == Returned
                && user == UserObject(username) && token == Some(DevToken)
                && browser.storage == old(browser.storage)[TokenKey := DevToken][UserKey := stringify(UserObject(username))]
      ensures browser.dataset == old(browser.dataset) && browser.style == old(browser.style)
      ensures browser.events == old(browser.events)
    {
      if !Truthy(username) || !Truthy(password) {
        return Threw(MissingCredentials);
      }
      user := UserObject(username);
      token := Some(DevToken);
      browser.storage := browser.storage[TokenKey := token.value];
      browser.storage := browser.storage[UserKey := stringify(user)];
      outcome := Returned;
    }

    /** `logout`: both fields and both storage entries are cleared. */
    method Logout()
      modifies this, browser
      ensures user == Null && token.None?
      ensures browser.storage == old(browser.storage) - {TokenKey, UserKey}
      ensures browser.dataset == old(browser.dataset) && browser.style == old(browser.style)
      ensures browser.events == old(browser.events)
    {
      user := Null;
      token := None;
      browser.storage := browser.storage - {TokenKey};
      browser.storage := browser.storage - {UserKey};
    }
  }

  /** Logging in and then out leaves storage as it was before, less any
      earlier entries under the two keys. */
  lemma LoginThenLogoutStorage(storage: map<string, string>, userText: string)
    ensures storage[TokenKey := DevToken][UserKey := userText] - {TokenKey, UserKey} == storage - {TokenKey, UserKey}
  {
  }
}
