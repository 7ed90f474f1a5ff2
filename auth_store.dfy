/**
 * The browser's session store: the signed-in user, the token pair and the
 * expiry instant (milliseconds since the epoch). `now` stands for the
 * clock.
 */
module AuthStore {
  import opened Wrappers

  datatype AuthUser = AuthUser(id: string, email: string, username: string, isActive: int, role: string)

  /** The token pair; every field is optional. */
  datatype TokenPair = TokenPair(
    accessToken: Option<string>,
    refreshToken: Option<string>,
    tokenType: Option<string>,
    expiresIn: Option<int>)   // seconds

  /** `Partial<AuthUser>`: `None` is a field the update does not carry. */
  datatype UserUpdate = UserUpdate(
    id: Option<string>,
    email: Option<string>,
    username: Option<string>,
    isActive: Option<int>,
    role: Option<string>)

  /** The store's state. */
  datatype Session = Session(user: Option<AuthUser>, tokens: Option<TokenPair>, expiresAt: Option<int>)

  const SignedOut: Session := Session(None, None, None)

  /** `data.token?.expires_in ?? 0`. */
  function ExpiresIn(token: Option<TokenPair>): (r: int)
    ensures token.None? || token.value.expiresIn.None? ==> r == 0
    ensures token.Some? && token.value.expiresIn.Some? ==> r == token.value.expiresIn.value
  {
    if token.Some? then token.value.expiresIn.GetOr(0) else 0
  }

  /** The session `login` sets: what was given (or nothing), expiring `expires_in` seconds from now. */
  function LoginSession(now: int, user: Option<AuthUser>, token: Option<TokenPair>): (r: Session)
    ensures r.user == user && r.tokens == token && r.expiresAt.Some?
    ensures r.expiresAt.value - now == ExpiresIn(token) * 1000
  {
    Session(user, token, Some(now + ExpiresIn(token) * 1000))
  }

  /** `{ ...user, ...updates }`: each field the update carries replaces the user's. */
  function Merge(u: AuthUser, p: UserUpdate): AuthUser {
    AuthUser(p.id.GetOr(u.id), p.email.GetOr(u.email), p.username.GetOr(u.username),
      p.isActive.GetOr(u.isActive), p.role.GetOr(u.role))
  }

  /** Two updates as one: the later one's fields win. */
  function Then(p: UserUpdate, q: UserUpdate): UserUpdate {
    UserUpdate(if q.id.Some? then q.id else p.id, if q.email.Some? then q.email else p.email,
      if q.username.Some? then q.username else p.username, if q.isActive.Some? then q.isActive else p.isActive,
      if q.role.Some? then q.role else p.role)
  }

  const NoChange: UserUpdate := UserUpdate(None, None, None, None, None)

  /**
   * Merging is an update in the usual sense: an empty update changes
   * nothing, two updates in a row are their combination, and repeating an
   * update changes nothing more.
   */
  lemma MergeLaws(u: AuthUser, p: UserUpdate, q: UserUpdate)
    ensures Merge(u, NoChange) == u
    ensures Merge(Merge(u, p), q) == Merge(u, Then(p, q))
    ensures Merge(Merge(u, p), p) == Merge(u, p)
  {
  }

  /** The session after `updateUser(p)`: a present user merged, an absent one left absent; tokens and expiry kept. */
  function UpdatedSession(s: Session, p: UserUpdate): (r: Session)
    ensures r.user.Some? <==> s.user.Some?
    ensures r.user.Some? ==> r.user.value == Merge(s.user.value, p)
    ensures r.tokens == s.tokens && r.expiresAt == s.expiresAt
  {
    s.(user := if s.user.Some? then Some(Merge(s.user.value, p)) else None)
  }

  class Store {
    var user: Option<AuthUser>
    var tokens: Option<TokenPair>
    var expiresAt: Option<int>

    function State(): Session
      reads this
    {
      Session(user, tokens, expiresAt)
    }

    constructor ()
      ensures State() == SignedOut
    {
      user, tokens, expiresAt := None, None, None;
    }

    /** `login({ user, token })` at instant `now`. */
    method Login(now: int, u: Option<AuthUser>, token: Option<TokenPair>)
      modifies this
      ensures State() == LoginSession(now, u, token)
    {
      user := u;
      tokens := token;
      expiresAt := Some(now + ExpiresIn(token) * 1000);
    }

    /** `logout`: everything cleared. */
    method Logout()
      modifies this
      ensures State() == SignedOut
    {
      user, tokens, expiresAt := None, None, None;
    }

    /** `updateUser(p)`. */
    method UpdateUser(p: UserUpdate)
      modifies this
      ensures State() == UpdatedSession(old(State()), p)
    {
      if user.Some? {
        user := Some(Merge(user.value, p));
      }
    }
  }
}
