/**
 * The server's authentication middleware. `RequireAuth` checks the
 * `Authorization` header, validates its bearer token and puts the token's
 * user in the request context; `RequireAdminAuth` lets only administrators
 * through. What a handler does to the request (the JSON error it writes, or
 * the context user it sets before calling the next handler) is returned as
 * a verdict.
 */
module AuthMiddleware {
  import opened Wrappers
  import Strings

  const StatusUnauthorized: int := 401
  const StatusForbidden: int := 403
  const AdminRole: string := "admin"
  const BearerScheme: string := "bearer"

  /** What a valid token carries. */
  datatype Claims = Claims(userId: string, email: string, role: string)

  /** The context user. */
  datatype User = User(id: string, email: string, role: string)

  datatype Verdict =
    | Rejected(code: int, message: string)   // the error response is written; the chain stops
    | Admitted(user: User)                   // the next handler runs with this context user

  function UserOf(c: Claims): User {
    User(c.userId, c.email, c.role)
  }

  /** The header's parts pass the format check: exactly two, the first `bearer` in any ASCII case. */
  predicate BearerParts(parts: seq<string>) {
    |parts| == 2 && Strings.ToLower(parts[0]) == BearerScheme
  }

  /**
   * `RequireAuth`. `validate` stands for the token manager's
   * `ValidateToken`; the checks run in the source's order.
   */
  function RequireAuth(header: string, validate: string -> Result<Claims>): (r: Verdict)
    ensures r.Rejected? ==> r.code == StatusUnauthorized
    ensures header == "" ==> r == Rejected(StatusUnauthorized, "Authorization header required")
    ensures header != "" && !BearerParts(Strings.Split(header, ' ')) ==>
      r == Rejected(StatusUnauthorized, "Invalid authorization header format")
    ensures r.Admitted? ==> header != "" && BearerParts(Strings.Split(header, ' '))
  {
    if header == "" then Rejected(StatusUnauthorized, "Authorization header required")
    else
      var parts := Strings.Split(header, ' ');
      if !BearerParts(parts) then Rejected(StatusUnauthorized, "Invalid authorization header format")
      else
        match validate(parts[1])
        case Err(_) => Rejected(StatusUnauthorized, "Invalid or expired token")
        case Ok(claims) => Admitted(UserOf(claims))
  }

  /**
   * A header `<scheme> <token>` whose scheme is `bearer` in any case and
   * which holds no other space: exactly the token is validated, and the
   * verdict is the claims' user or "Invalid or expired token".
   */
  lemma BearerTokenValidated(scheme: string, token: string, validate: string -> Result<Claims>)
    requires Strings.ToLower(scheme) == BearerScheme
    requires ' ' !in scheme && ' ' !in token
    ensures RequireAuth(scheme + " " + token, validate)
      == match validate(token)
         case Ok(claims) => Admitted(UserOf(claims))
         case Err(_) => Rejected(StatusUnauthorized, "Invalid or expired token")
  {
    Strings.SplitAround(scheme, token, ' ');
  }

  /** Conversely, an admitted header is `<scheme> <token>` with a single space, and its token validates to the context user. */
  lemma AdmittedHeaderShape(header: string, validate: string -> Result<Claims>)
    requires RequireAuth(header, validate).Admitted?
    ensures var parts := Strings.Split(header, ' ');
      && header == parts[0] + " " + parts[1]
      && Strings.ToLower(parts[0]) == BearerScheme
      && ' ' !in parts[1]
      && validate(parts[1]).Ok?
      && RequireAuth(header, validate).user == UserOf(validate(parts[1]).value)
  {
    var parts := Strings.Split(header, ' ');
    Strings.SplitJoin(header, ' ');
    assert Strings.Join(parts, ' ') == parts[0] + [' '] + Strings.Join(parts[1..], ' ');
  }

  /** Two spaces between the scheme and the token are a format error, whatever the token. */
  lemma DoubleSpaceRejected(scheme: string, token: string, validate: string -> Result<Claims>)
    ensures RequireAuth(scheme + "  " + token, validate) == Rejected(StatusUnauthorized, "Invalid authorization header format")
  {
    var header := scheme + "  " + token;
    Strings.CountAppend(scheme + "  ", token, ' ');
    Strings.CountAppend(scheme, "  ", ' ');
    Strings.SplitCount(header, ' ');
    assert Strings.Count("  ", ' ') == 2;
  }

  /**
   * `RequireAdminAuth`, given the context user (`None` when `RequireAuth`
   * did not run or set none): only an administrator passes.
   */
  function RequireAdminAuth(context: Option<User>): (r: Verdict)
    ensures r.Admitted? <==> context.Some? && context.value.role == AdminRole
    ensures r.Admitted? ==> r.user == context.value
    ensures r.Rejected? ==> r == Rejected(StatusForbidden, "Admin access required")
  {
    if context.None? || context.value.role != AdminRole then Rejected(StatusForbidden, "Admin access required")
    else Admitted(context.value)
  }

  /**
   * The admin routes' chain, `RequireAuth` then `RequireAdminAuth` on the
   * user it set: reached exactly with a well-formed bearer header whose
   * token validates to claims with the administrator role; a valid token of
   * any other role gets 403.
   */
  function AdminChain(header: string, validate: string -> Result<Claims>): (r: Verdict)
    ensures r.Admitted? <==>
      (RequireAuth(header, validate).Admitted? && validate(Strings.Split(header, ' ')[1]).value.role == AdminRole)
    ensures RequireAuth(header, validate).Admitted? && r.Rejected? ==> r == Rejected(StatusForbidden, "Admin access required")
  {
    match RequireAuth(header, validate)
    case Rejected(code, message) => Rejected(code, message)
    case Admitted(user) => RequireAdminAuth(Some(user))
  }
}
