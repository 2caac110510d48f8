/** `isAuthenticated`: find the token, choose the secret from the URL and
    the body's `userType`, verify, and either let the request through with
    the decoded payload or answer 401. */
module Gate {
  import opened Values
  import opened Text
  import opened Jws
  import opened Http
  import opened Context
  import opened Issuer

  /** The parts of a request the gate reads. `url` is relative to the
      `/api/v1` mount. */
  datatype Request = Request(authorization: Option<string>, cookie: Option<string>,
                             url: string, userType: Option<string>)

  datatype Outcome =
    /** `req.user = decoded; next()` */
    | Admit(user: Claims)
    /** a 401 response; the route handler is not reached */
    | Reject(reply: Reply)

  /** `req.headers.authorization?.split(" ")[1] || req.cookies.access_token`. */
  function ExtractToken(req: Request): (r: Option<string>)
    ensures r != req.cookie ==>
              r.Some? && r.value != "" && ' ' !in r.value && req.authorization.Some?
              && StartsWith(req.authorization.value, BeforeFirst(req.authorization.value, ' ') + " " + r.value)
    ensures req.authorization.None? ==> r == req.cookie
  {
    var word := if req.authorization.Some? then SecondWord(req.authorization.value) else None;
    if Truthy(word) then word else req.cookie
  }

  /** The header's second word is taken whatever the first word says. */
  lemma HeaderTokenWins(req: Request, scheme: string, token: string)
    requires ' ' !in scheme && ' ' !in token && token != []
    requires req.authorization == Some(scheme + " " + token)
    ensures ExtractToken(req) == Some(token)
  {
    SecondWordOfPair(scheme, token);
  }

  /** Without a header, or with a header lacking a space or a second word,
      the cookie is used. */
  lemma CookieFallback(req: Request)
    requires req.authorization.None? || ' ' !in req.authorization.value
             || SecondWord(req.authorization.value) == Some("")
    ensures ExtractToken(req) == req.cookie
  {
  }

  /** The name `userType` carries for each role. */
  function UserTypeName(role: Role): string {
    match role
    case Bco => "bco"
    case Forwarder => "forwarder"
    case Chb => "chb"
    case Admin => "admin"
  }

  /** Whether one branch of `getSecretKey` matches. */
  predicate Matches(role: Role, url: string, userType: string) {
    StartsWith(url, "/" + UserTypeName(role)) || userType == UserTypeName(role)
  }

  /** The order the branches are tried in. */
  const Precedence: seq<Role> := [Bco, Forwarder, Chb, Admin]

  /** `getSecretKey(url, userType)`: each branch returns its variable `|| null`. */
  function SecretKey(env: Env, url: string, userType: string): (r: Option<string>)
    ensures r.Some? ==> r.value != ""
                        && r.value in [OrEmpty(env.bcoSecret), OrEmpty(env.accessToken), OrEmpty(env.chbSecret),
                                       OrEmpty(env.adminSecret)]
    ensures userType == "bco" ==> r == OrNull(env.bcoSecret)
    ensures r.Some? ==> exists i :: 0 <= i < |Precedence| && Matches(Precedence[i], url, userType)
  {
    assert "/" + "bco" == "/bco" && "/" + "forwarder" == "/forwarder";
    assert "/" + "chb" == "/chb" && "/" + "admin" == "/admin";
    assert Precedence[0] == Bco && Precedence[1] == Forwarder && Precedence[2] == Chb && Precedence[3] == Admin;
    if StartsWith(url, "/bco") || userType == "bco" then OrNull(env.bcoSecret)
    else if StartsWith(url, "/forwarder") || userType == "forwarder" then OrNull(env.accessToken)
    else if StartsWith(url, "/chb") || userType == "chb" then OrNull(env.chbSecret)
    else if StartsWith(url, "/admin") || userType == "admin" then OrNull(env.adminSecret)
    else None
  }

  /** The first role, in precedence order, whose branch matches. */
  function SelectRole(url: string, userType: string): (r: Option<Role>)
    ensures r.Some? <==> exists i :: 0 <= i < |Precedence| && Matches(Precedence[i], url, userType)
    ensures r.Some? ==> Matches(r.value, url, userType)
    ensures r.Some? ==> forall i :: 0 <= i < |Precedence| && Precedence[i] == r.value ==>
                          forall k :: 0 <= k < i ==> !Matches(Precedence[k], url, userType)
  {
    FirstMatch(Precedence, url, userType)
  }

  function FirstMatch(roles: seq<Role>, url: string, userType: string): (r: Option<Role>)
    requires forall i, j :: 0 <= i < j < |roles| ==> roles[i] != roles[j]
    ensures r.Some? <==> exists i :: 0 <= i < |roles| && Matches(roles[i], url, userType)
    ensures r.Some? ==> Matches(r.value, url, userType)
    ensures r.Some? ==> forall i :: 0 <= i < |roles| && roles[i] == r.value ==>
                          forall k :: 0 <= k < i ==> !Matches(roles[k], url, userType)
  {
    if roles == [] then None
    else if Matches(roles[0], url, userType) then Some(roles[0])
    else
      var rest := FirstMatch(roles[1..], url, userType);
      assert forall i :: 1 <= i < |roles| ==> roles[i] == roles[1..][i - 1];
      rest
  }

  /** The decision table is "first matching role wins, then that role's
      secret, or nothing if it is unset"; forwarder URLs use `ACCESS_TOKEN`. */
  lemma {:induction false} SecretKeyByPrecedence(env: Env, url: string, userType: string)
    ensures SecretKey(env, url, userType)
            == match SelectRole(url, userType)
               case None => None
               case Some(role) => OrNull(RoleSecret(env, role))
  {
    assert "/" + "bco" == "/bco" && "/" + "forwarder" == "/forwarder";
    assert "/" + "chb" == "/chb" && "/" + "admin" == "/admin";
    var p := Precedence;
    assert p[1..] == [Forwarder, Chb, Admin] && p[1..][1..] == [Chb, Admin] && p[1..][1..][1..] == [Admin];
    assert p[1..][1..][1..][1..] == [];
    if !Matches(Bco, url, userType) {
      assert SelectRole(url, userType) == FirstMatch(p[1..], url, userType);
      if !Matches(Forwarder, url, userType) {
        assert FirstMatch(p[1..], url, userType) == FirstMatch(p[1..][1..], url, userType);
        if !Matches(Chb, url, userType) {
          assert FirstMatch(p[1..][1..], url, userType) == FirstMatch(p[1..][1..][1..], url, userType);
        }
      }
    }
  }

  /** A request with `userType` "bco" is checked against `BCO_SECRET` on
      every route, the admin routes included. */
  lemma UserTypeBcoOverridesRoute(env: Env, url: string)
    ensures SelectRole(url, "bco") == Some(Bco)
    ensures SecretKey(env, url, "bco") == OrNull(env.bcoSecret)
  {
  }

  /** A `/chat/...` URL matches no prefix; without a recognised `userType`
      no secret is chosen. */
  lemma ChatRoutesNeedUserType(url: string, userType: string)
    requires StartsWith(url, "/chat")
    requires userType !in {"bco", "forwarder", "chb", "admin"}
    ensures SelectRole(url, userType).None?
  {
    assert url[1] == 'c' && url[2] == 'h' && url[3] == 'a';
    assert !StartsWith(url, "/" + "bco") by { assert ("/" + "bco")[1] == 'b'; }
    assert !StartsWith(url, "/" + "forwarder") by { assert ("/" + "forwarder")[1] == 'f'; }
    assert !StartsWith(url, "/" + "chb") by { assert ("/" + "chb")[3] == 'b'; }
    assert !StartsWith(url, "/" + "admin") by { assert ("/" + "admin")[1] == 'a'; }
  }

  const LoginFirst := "Please login to access this resource"
  const InvalidRoute := "Invalid route"
  const SessionExpired := "Session expired, Please login!"

  function Unauthorized(message: string): Reply {
    Msg(401, false, message)
  }

  /** `isAuthenticated` at time `ctx.now`. */
  function Authenticate(ctx: Ctx, req: Request): (r: Outcome)
    ensures r.Admit? <==> Truthy(ExtractToken(req))
                          && SecretKey(ctx.env, req.url, OrEmpty(req.userType)).Some?
                          && Verify(ctx.svc.jwt, ExtractToken(req).value,
                                    SecretKey(ctx.env, req.url, OrEmpty(req.userType)), ctx.now).Valid?
    ensures r.Admit? ==> r.user == Verify(ctx.svc.jwt, ExtractToken(req).value,
                                          SecretKey(ctx.env, req.url, OrEmpty(req.userType)), ctx.now).claims
    ensures r.Reject? ==> r.reply.Msg? && r.reply.status == 401 && !r.reply.success
    ensures r.Reject? ==> (r.reply.message == LoginFirst <==> !Truthy(ExtractToken(req)))
    ensures r.Reject? && Truthy(ExtractToken(req)) ==>
              (r.reply.message == InvalidRoute <==> SecretKey(ctx.env, req.url, OrEmpty(req.userType)).None?)
  {
    var token := ExtractToken(req);
    if !Truthy(token) then Reject(Unauthorized(LoginFirst))
    else
      var secret := SecretKey(ctx.env, req.url, OrEmpty(req.userType));
      if secret.None? then Reject(Unauthorized(InvalidRoute))
      else
        match Verify(ctx.svc.jwt, token.value, secret, ctx.now)
        case Valid(claims) => Admit(claims)
        case Expired => Reject(Unauthorized(SessionExpired))
        case Invalid => Reject(Unauthorized(SessionExpired))
  }

  /** An expired token and a forged one get the same answer. */
  lemma ExpiredLooksForged(ctx: Ctx, a: Request, b: Request)
    requires Truthy(ExtractToken(a)) && Truthy(ExtractToken(b))
    requires SecretKey(ctx.env, a.url, OrEmpty(a.userType)).Some?
    requires Verify(ctx.svc.jwt, ExtractToken(a).value, SecretKey(ctx.env, a.url, OrEmpty(a.userType)), ctx.now).Expired?
    requires SecretKey(ctx.env, b.url, OrEmpty(b.userType)).Some?
    requires Verify(ctx.svc.jwt, ExtractToken(b).value, SecretKey(ctx.env, b.url, OrEmpty(b.userType)), ctx.now).Invalid?
    ensures Authenticate(ctx, a) == Authenticate(ctx, b) == Reject(Msg(401, false, SessionExpired))
  {
  }

  /** A session issued for a role opens that role's routes for one day,
      with `req.user` the `{ id }` it was issued for, provided no earlier
      branch of the table claims the request. */
  lemma {:induction false} OwnSessionAdmitted(ctx: Ctx, role: Role, id: Option<int>, req: Request, later: int)
    requires Sound(ctx.svc.jwt)
    requires SignRoleToken(ctx, role, id).Ok?
    requires req.authorization.None? && req.cookie == Some(SignRoleToken(ctx, role, id).value)
    requires SelectRole(req.url, OrEmpty(req.userType)) == Some(role)
    requires ctx.now <= later < ctx.now + Day
    ensures Authenticate(ctx.(now := later), req) == Admit(IdClaims(id))
  {
    SecretKeyByPrecedence(ctx.env, req.url, OrEmpty(req.userType));
    RoleTokenVerifies(ctx, role, role, id, later);
  }

  /** A BCO session, sent with `userType` "bco", passes the gate on an
      admin URL; with distinct secrets an admin session sent the same way
      does not. */
  lemma {:induction false} BcoSessionOnAdminRoute(ctx: Ctx, id: Option<int>, req: Request, later: int)
    requires Sound(ctx.svc.jwt)
    requires SignRoleToken(ctx, Bco, id).Ok? && SignRoleToken(ctx, Admin, id).Ok?
    requires ctx.env.bcoSecret != ctx.env.adminSecret
    requires StartsWith(req.url, "/admin") && req.userType == Some("bco")
    requires req.authorization.None?
    requires ctx.now <= later < ctx.now + Day
    ensures req.cookie == Some(SignRoleToken(ctx, Bco, id).value) ==>
              Authenticate(ctx.(now := later), req) == Admit(IdClaims(id))
    ensures req.cookie == Some(SignRoleToken(ctx, Admin, id).value) ==>
              Authenticate(ctx.(now := later), req) == Reject(Msg(401, false, SessionExpired))
  {
    UserTypeBcoOverridesRoute(ctx.env, req.url);
    if req.cookie == Some(SignRoleToken(ctx, Bco, id).value) {
      OwnSessionAdmitted(ctx, Bco, id, req, later);
    }
    if req.cookie == Some(SignRoleToken(ctx, Admin, id).value) {
      CrossRoleRejected(ctx, Admin, Bco, id, later);
      RoleTokenVerifies(ctx, Admin, Admin, id, later);
    }
  }
}
