/**
 * lib/auth.ts: the credentials check and the two callbacks that carry the user id
 * from the sign-in into the token and from the token into the session. The
 * password hash and its comparison are the uninterpreted parameters `hash` and
 * `compare`.
 */
module Auth {
  import opened Common
  import opened Text
  import opened Db

  /** `email.split("@")[0]`: the name given to an auto-registered user. */
  function NamePart(email: string): (r: string)
    ensures r <= email && '@' !in r
    ensures |r| < |email| ==> email[|r|] == '@'
    ensures r == email <==> '@' !in email
  {
    FirstPiece(email, '@');
    Split(email, '@')[0]
  }

  /**
   * `authorize`: no credentials, no user; an existing user with a password signs in when
   * the password matches it; an existing user without one never does; an unknown e-mail
   * address registers a new user. Returns the signed-in user's id.
   */
  method Authorize(store: Store, email: Option<string>, password: Option<string>,
                   compare: (string, string) -> bool, hash: string -> string) returns (r: Option<UserId>)
    requires store.Valid()
    modifies store
    ensures store.Valid()
    ensures store.history == old(store.history) && store.sessions == old(store.sessions)
    ensures store.messages == old(store.messages) && store.saved == old(store.saved)
    ensures !Present(email) || !Present(password) ==> r.None? && store.users == old(store.users)
    ensures Present(email) && Present(password) ==>
      match old(store.FindByEmail(email.value))
      case Some(u) =>
        && store.users == old(store.users)
        && r == (if old(store.users)[u].password.Some? && old(store.users)[u].password.value != ""
                    && compare(password.value, old(store.users)[u].password.value)
                 then Some(u) else None)
      case None =>
        && r == Some(|old(store.users)|)
        && store.users == old(store.users) + [UserRecord(email.value, Some(hash(password.value)), Some(NamePart(email.value)), None, None)]
  {
    if !Present(email) || !Present(password) {
      return None;
    }
    var existing := store.FindByEmail(email.value);
    if existing.Some? {
      var stored := store.users[existing.value].password;
      if Present(stored) {
        if compare(password.value, stored.value) {
          return existing;
        }
        return None;
      }
      return None;
    }
    var created := store.CreateUser(UserRecord(email.value, Some(hash(password.value)), Some(NamePart(email.value)), None, None));
    r := Some(created.value);
  }

  /** The signed token's subject claim. */
  class Token {
    var sub: Option<UserId>

    constructor (sub: Option<UserId>)
      ensures this.sub == sub
    {
      this.sub := sub;
    }
  }

  /** The user part of the session object handed to the client. */
  class SessionUser {
    var id: Option<UserId>

    constructor (id: Option<UserId>)
      ensures this.id == id
    {
      this.id := id;
    }
  }

  class AuthSession {
    var user: SessionUser?

    constructor (user: SessionUser?)
      ensures this.user == user
    {
      this.user := user;
    }
  }

  /** The `jwt` callback: a sign-in puts the user's id into the token; otherwise the token is kept. */
  method Jwt(token: Token, user: Option<UserId>) returns (r: Token)
    modifies token
    ensures r == token
    ensures user.Some? ==> token.sub == user
    ensures user.None? ==> token.sub == old(token.sub)
  {
    if user.Some? {
      token.sub := user;
    }
    r := token;
  }

  /** The `session` callback: the token's subject becomes the session user's id when both are present. */
  method SessionCallback(session: AuthSession, token: Token) returns (r: AuthSession)
    modifies session.user
    ensures r == session && session.user == old(session.user)
    ensures session.user != null && token.sub.Some? ==> session.user.id == token.sub
    ensures session.user != null && token.sub.None? ==> session.user.id == old(session.user.id)
  {
    if session.user != null && token.sub.Some? {
      session.user.id := token.sub;
    }
    r := session;
  }

  // ---------------------------------------------------------------------------
  // Properties of the credentials check

  /** The name is the text before the first `@`. */
  lemma NameBeforeAt(local: string, domain: string)
    requires '@' !in local
    ensures NamePart(local + "@" + domain) == local
  {
    SplitAfterPiece(local, domain, '@');
    assert local + "@" + domain == local + ['@'] + domain;
  }

  /**
   * The user seeded without a password (`demo@revnews.ai`) can never sign in by
   * credentials, whatever the password, and is never registered again.
   */
  method DemoUserCannotSignIn(password: string, compare: (string, string) -> bool, hash: string -> string)
    returns (signedIn: Option<UserId>, users: nat)
    ensures signedIn.None? && users == 1
  {
    var store := new Store();
    var seeded := store.CreateUser(UserRecord("demo@revnews.ai", None, Some("Demo User"), None, None));
    signedIn := Authorize(store, Some("demo@revnews.ai"), Some(password), compare, hash);
    users := |store.users|;
  }
}
