/**
 * The persisted credential store of lib/auth.ts: two keys of the browser's
 * durable key-value storage, `"token"` (the bearer credential) and `"user"`
 * (the encoded user record).
 */
module Auth {
  import opened Wrappers
  import opened Users

  const TokenKey := "token"
  const UserKey := "user"

  /** What `JSON.parse` does with text that is not a user. */
  datatype ParseError = SyntaxError

  /** `localStorage.getItem("token")`: the stored text, or null. */
  function StoredToken(items: map<string, string>): (token: Option<string>) {
    if TokenKey in items then Some(items[TokenKey]) else None
  }

  /** JavaScript truthiness of a `string | null`: present and not empty. */
  predicate Truthy(s: Option<string>) {
    s.Some? && s.value != ""
  }

  /** `getUser()`: null when the entry is absent or empty (both falsy), the
      decoded user otherwise, and a thrown error when the text does not parse. */
  function StoredUser(items: map<string, string>): (r: Result<Option<User>, ParseError>)
    ensures r == Ok(None) <==> UserKey !in items || items[UserKey] == ""
    ensures r.Err? <==> UserKey in items && items[UserKey] != "" && DecodeUser(items[UserKey]).None?
    ensures r.Ok? && r.value.Some? ==> UserKey in items && DecodeUser(items[UserKey]) == r.value
  {
    if UserKey !in items || items[UserKey] == "" then Ok(None)
    else match DecodeUser(items[UserKey])
      case Some(u) => Ok(Some(u))
      case None => Err(SyntaxError)
  }

  /** The storage with both credential keys removed: what `logout()` leaves. */
  function Cleared(items: map<string, string>): (r: map<string, string>)
    ensures TokenKey !in r && UserKey !in r
    ensures forall k :: k != TokenKey && k != UserKey ==> (k in r <==> k in items)
    ensures forall k :: k in r ==> r[k] == items[k]
  {
    items - {TokenKey, UserKey}
  }

  /** The browser's durable storage, restricted to what the store touches. */
  class CredentialStore {
    var items: map<string, string>

    constructor (initial: map<string, string>)
      ensures items == initial
    {
      items := initial;
    }

    /** `localStorage.removeItem(key)`. */
    method RemoveItem(key: string)
      modifies this
      ensures items == old(items) - {key}
    {
      items := items - {key};
    }

    method SetToken(token: string)
      modifies this
      ensures items == old(items)[TokenKey := token]
      ensures StoredToken(items) == Some(token)
      ensures StoredUser(items) == old(StoredUser(items))
    {
      items := items[TokenKey := token];
    }

    method GetToken() returns (token: Option<string>)
      ensures token == StoredToken(items)
      ensures token.Some? <==> TokenKey in items
    {
      token := if TokenKey in items then Some(items[TokenKey]) else None;
    }

    method SetUser(user: User)
      modifies this
      ensures items == old(items)[UserKey := EncodeUser(user)]
      ensures StoredUser(items) == Ok(Some(user))
      ensures StoredToken(items) == old(StoredToken(items))
    {
      items := items[UserKey := EncodeUser(user)];
      DecodeEncode(user);
    }

    method GetUser() returns (user: Result<Option<User>, ParseError>)
      ensures user == StoredUser(items)
    {
      var text := if UserKey in items then Some(items[UserKey]) else None;
      if !Truthy(text) {
        user := Ok(None);
      } else {
        var parsed := DecodeUser(text.value);
        user := if parsed.Some? then Ok(parsed) else Err(SyntaxError);
      }
    }

    /** Removes the token, then the user. */
    method Logout()
      modifies this
      ensures items == Cleared(old(items))
      ensures StoredToken(items) == None && StoredUser(items) == Ok(None)
    {
      RemoveItem(TokenKey);
      RemoveItem(UserKey);
    }

    /** `!!getToken()`: a token is stored and is not empty; it is not validated. */
    method IsAuthenticated() returns (b: bool)
      ensures b <==> TokenKey in items && items[TokenKey] != ""
      ensures b <==> Truthy(StoredToken(items))
    {
      var token := GetToken();
      b := token.Some? && token.value != "";
    }
  }

  /** Writing the token is read back by `getToken()` and leaves `getUser()` as it was. */
  lemma SetTokenThenRead(items: map<string, string>, token: string)
    ensures StoredToken(items[TokenKey := token]) == Some(token)
    ensures StoredUser(items[TokenKey := token]) == StoredUser(items)
    ensures Truthy(StoredToken(items[TokenKey := token])) <==> token != ""
  {
  }

  /** Writing the user is read back by `getUser()` (the encoding round trip)
      and leaves `getToken()` as it was. */
  lemma SetUserThenRead(items: map<string, string>, user: User)
    ensures StoredUser(items[UserKey := EncodeUser(user)]) == Ok(Some(user))
    ensures StoredToken(items[UserKey := EncodeUser(user)]) == StoredToken(items)
  {
    DecodeEncode(user);
  }

  /** After `logout()` neither key reads back, the store is not authenticated,
      and a second `logout()` changes nothing. */
  lemma LogoutThenRead(items: map<string, string>)
    ensures StoredToken(Cleared(items)) == None
    ensures StoredUser(Cleared(items)) == Ok(None)
    ensures !Truthy(StoredToken(Cleared(items)))
    ensures Cleared(Cleared(items)) == Cleared(items)
  {
  }
}
