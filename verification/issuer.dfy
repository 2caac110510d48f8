/** The token issuers: per-role access tokens, the forwarder's refresh token,
    activation and invite tokens, the cookie options and the four
    "send token" responses. */
module Issuer {
  import opened Values
  import opened Text
  import opened Jws
  import opened Http
  import opened Context

  const Day: nat := 86400

  /** The four account kinds; a forwarder admin's tokens are signed with
      `ACCESS_TOKEN`, which no other role uses. */
  datatype Role = Forwarder | Bco | Chb | Admin

  /** The environment variable a role's access tokens are signed with. */
  function RoleSecret(env: Env, role: Role): Option<string> {
    match role
    case Forwarder => env.accessToken
    case Bco => env.bcoSecret
    case Chb => env.chbSecret
    case Admin => env.adminSecret
  }

  /** The `role` field added to the returned user. */
  function RoleName(role: Role): string
    requires !role.Forwarder?
  {
    match role
    case Bco => "bco"
    case Chb => "chb"
    case Admin => "admin"
  }

  /** `SignAccessToken`, `signBCOToken`, `signCHBToken`, `signAdminToken`:
      `{ id }` under the role's secret (an unset secret becomes ""), valid
      for one day. */
  function SignRoleToken(ctx: Ctx, role: Role, id: Option<int>): (r: Result<string>)
    ensures r.Err? <==> !Truthy(RoleSecret(ctx.env, role))
  {
    Sign(ctx.svc.jwt, IdClaims(id), Some(OrEmpty(RoleSecret(ctx.env, role))), ctx.now, Day)
  }

  /** `SignRefreshToken`: also `{ id }` under `ACCESS_TOKEN`, valid ten days. */
  function SignRefreshToken(ctx: Ctx, id: Option<int>): (r: Result<string>)
    ensures r.Err? <==> !Truthy(ctx.env.accessToken)
  {
    Sign(ctx.svc.jwt, IdClaims(id), Some(OrEmpty(ctx.env.accessToken)), ctx.now, 10 * Day)
  }

  /** A token a role's issuer signed verifies under that role's secret for
      one day, and under another role's secret only if the two variables
      hold the same value. Forwarder access and refresh tokens verify under
      the same secret. */
  lemma RoleTokenVerifies(ctx: Ctx, role: Role, other: Role, id: Option<int>, later: int)
    requires Sound(ctx.svc.jwt)
    requires SignRoleToken(ctx, role, id).Ok?
    ensures Verify(ctx.svc.jwt, SignRoleToken(ctx, role, id).value, RoleSecret(ctx.env, other), later)
            == if Truthy(RoleSecret(ctx.env, other)) && RoleSecret(ctx.env, other) == RoleSecret(ctx.env, role)
               then (if later < ctx.now + Day then Valid(IdClaims(id)) else Expired)
               else Invalid
    ensures SignRefreshToken(ctx, id).Ok? && role.Forwarder? ==>
            Verify(ctx.svc.jwt, SignRefreshToken(ctx, id).value, RoleSecret(ctx.env, role), later)
            == (if later < ctx.now + 10 * Day then Valid(IdClaims(id)) else Expired)
  {
    var s := Some(OrEmpty(RoleSecret(ctx.env, role)));
    SignThenVerify(ctx.svc.jwt, IdClaims(id), s, ctx.now, Day, RoleSecret(ctx.env, other), later);
    if SignRefreshToken(ctx, id).Ok? && role.Forwarder? {
      SignThenVerify(ctx.svc.jwt, IdClaims(id), s, ctx.now, 10 * Day, RoleSecret(ctx.env, role), later);
    }
  }

  /** With distinct role secrets, no role's token opens another role's routes. */
  lemma CrossRoleRejected(ctx: Ctx, role: Role, other: Role, id: Option<int>, later: int)
    requires Sound(ctx.svc.jwt)
    requires SignRoleToken(ctx, role, id).Ok?
    requires RoleSecret(ctx.env, other) != RoleSecret(ctx.env, role)
    ensures Verify(ctx.svc.jwt, SignRoleToken(ctx, role, id).value, RoleSecret(ctx.env, other), later) == Invalid
  {
    RoleTokenVerifies(ctx, role, other, id, later);
  }

  /** `Math.floor(1000 + Math.random() * 9000).toString()`, where `draw`
      is the integer part of `Math.random() * 9000`. */
  function ActivationCode(draw: nat): string {
    NatToString(1000 + draw)
  }

  /** An activation code is four decimal digits, and reading it back gives
      the number drawn. */
  lemma ActivationCodeShape(draw: nat)
    requires draw < 9000
    ensures |ActivationCode(draw)| == 4 && AllDigits(ActivationCode(draw))
    ensures ParseInt(ActivationCode(draw)) == Some(1000 + draw)
  {
    var n: nat := 1000 + draw;
    FourDigits(n);
    ParseIntOfNatToString(n);
    assert ActivationCode(draw) == NatToString(n);
  }

  /** `createActivationToken`: `{ user, activationCode }` under
      `ACTIVATION_SECRET`, valid fifteen minutes; returns the token and the code. */
  function CreateActivationToken(ctx: Ctx, user: Registration, draw: nat): (r: Result<(string, string)>)
    requires draw < 9000
    ensures r.Err? <==> !Truthy(ctx.env.activationSecret)
    ensures r.Ok? ==> r.value.1 == ActivationCode(draw)
  {
    var code := ActivationCode(draw);
    match Sign(ctx.svc.jwt, ActivationClaims(user, code), ctx.env.activationSecret, ctx.now, 15 * 60)
    case Ok(token) => Ok((token, code))
    case Err(m) => Err(m)
  }

  /** The code returned next to the activation token is the one embedded in
      it; the token verifies under `ACTIVATION_SECRET` for 900 seconds. */
  lemma ActivationTokenCarriesCode(ctx: Ctx, user: Registration, draw: nat, later: int)
    requires Sound(ctx.svc.jwt) && draw < 9000
    requires CreateActivationToken(ctx, user, draw).Ok?
    ensures var (token, code) := CreateActivationToken(ctx, user, draw).value;
            Verify(ctx.svc.jwt, token, ctx.env.activationSecret, later)
            == if later < ctx.now + 900 then Valid(ActivationClaims(user, code)) else Expired
  {
    SignThenVerify(ctx.svc.jwt, ActivationClaims(user, ActivationCode(draw)), ctx.env.activationSecret,
                   ctx.now, 15 * 60, ctx.env.activationSecret, later);
  }

  /** `generateUniqueInviteToken`: the invitation under `INVITE_SECRET`,
      valid 86400 seconds. */
  function InviteToken(ctx: Ctx, invite: Claims): (r: Result<string>)
    requires invite.InviteClaims?
    ensures r.Err? <==> !Truthy(ctx.env.inviteSecret)
  {
    Sign(ctx.svc.jwt, invite, ctx.env.inviteSecret, ctx.now, Day)
  }

  /** `verifyInviteToken`. */
  function VerifyInviteToken(ctx: Ctx, token: string): (r: Verified)
    ensures !Truthy(ctx.env.inviteSecret) ==> r.Invalid?
    ensures r.Valid? ==> ctx.svc.jwt.decode(token).Some?
                         && ctx.svc.jwt.decode(token).value.secret == ctx.env.inviteSecret.value
                         && r.claims == ctx.svc.jwt.decode(token).value.claims
  {
    Verify(ctx.svc.jwt, token, ctx.env.inviteSecret, ctx.now)
  }

  /** An invitation verifies, with its own payload, for exactly one day. */
  lemma InviteRoundTrip(ctx: Ctx, invite: Claims, later: int)
    requires Sound(ctx.svc.jwt) && invite.InviteClaims?
    requires InviteToken(ctx, invite).Ok?
    ensures VerifyInviteToken(ctx.(now := later), InviteToken(ctx, invite).value)
            == if later < ctx.now + 86400 then Valid(invite) else Expired
  {
    SignThenVerify(ctx.svc.jwt, invite, ctx.env.inviteSecret, ctx.now, Day, ctx.env.inviteSecret, later);
  }

  /** `parseInt(v || fallback, 10)`. */
  function ParseSetting(v: Option<string>, fallback: string): Option<int> {
    ParseInt(if Truthy(v) then v.value else fallback)
  }

  /** `accessTokenOptions.maxAge`: hours to milliseconds. */
  function AccessMaxAge(env: Env): (ms: Option<int>)
    ensures ms.Some? <==> ParseSetting(env.accessTokenExpire, "300").Some?
    ensures ms.Some? ==> ms.value == ParseSetting(env.accessTokenExpire, "300").value * 3600000
  {
    match ParseSetting(env.accessTokenExpire, "300")
    case Some(h) => Some(h * 60 * 60 * 1000)
    case None => None
  }

  /** `refreshTokenOptions.maxAge`: days to milliseconds. */
  function RefreshMaxAge(env: Env): (ms: Option<int>)
    ensures ms.Some? <==> ParseSetting(env.refreshTokenExpire, "1200").Some?
    ensures ms.Some? ==> ms.value == ParseSetting(env.refreshTokenExpire, "1200").value * 86400000
  {
    match ParseSetting(env.refreshTokenExpire, "1200")
    case Some(d) => Some(d * 24 * 60 * 60 * 1000)
    case None => None
  }

  /** With the variables unset (or empty) the access cookie lives 300 hours
      and the refresh cookie 1200 days. */
  lemma DefaultCookieLifetimes(env: Env)
    requires !Truthy(env.accessTokenExpire) && !Truthy(env.refreshTokenExpire)
    ensures AccessMaxAge(env) == Some(1080000000)
    ensures RefreshMaxAge(env) == Some(103680000000)
  {
    assert NatToString(300) == "300" by {
      assert NatToString(3) == "3";
      assert NatToString(30) == NatToString(3) + [DigitChar(0)];
    }
    assert NatToString(1200) == "1200" by {
      assert NatToString(1) == "1";
      assert NatToString(12) == NatToString(1) + [DigitChar(2)];
      assert NatToString(120) == NatToString(12) + [DigitChar(0)];
    }
    ParseIntOfNatToString(300);
    ParseIntOfNatToString(1200);
  }

  /** The access-token cookie; `secure` only in production. */
  function AccessCookie(env: Env, token: string): (c: Cookie)
    ensures c.name == "access_token" && c.value == token && c.httpOnly && c.sameSite == "lax"
    ensures c.secure <==> env.production
  {
    Cookie("access_token", token, AccessMaxAge(env), true, "lax", env.production)
  }

  /** The refresh-token cookie; never `secure`. */
  function RefreshCookie(env: Env, token: string): (c: Cookie)
    ensures c.name == "refresh_token" && c.value == token && c.httpOnly && c.sameSite == "lax"
    ensures !c.secure
  {
    Cookie("refresh_token", token, RefreshMaxAge(env), true, "lax", false)
  }

  /** `user.id` of a record in its JSON form. */
  function IdOf(user: Obj): Option<int> {
    if "id" in user && user["id"].JInt? then Some(user["id"].i) else None
  }

  /** `user?.chatId` of a record in its JSON form. */
  function ChatIdOf(user: Obj): Option<string> {
    if "chatId" in user && user["chatId"].JStr? then Some(user["chatId"].s) else None
  }

  /** A record whose `chatId` column is written with `StrOrNull` reads back
      that column. */
  lemma ChatIdColumn(user: Obj, chatId: Option<string>)
    requires "chatId" in user && user["chatId"] == StrOrNull(chatId)
    ensures ChatIdOf(user) == chatId
  {
  }

  /** `{ ...user, accessToken, chatToken }`: later keys override earlier ones. */
  function WithTokens(user: Obj, accessToken: string, chatToken: string): (u: Obj)
    ensures u.Keys == user.Keys + {"accessToken", "chatToken"}
    ensures u["accessToken"] == JStr(accessToken) && u["chatToken"] == JStr(chatToken)
    ensures forall k :: k in user && k != "accessToken" && k != "chatToken" ==> u[k] == user[k]
  {
    user + map["accessToken" := JStr(accessToken), "chatToken" := JStr(chatToken)]
  }

  /** The chat client's refusal of an id that is not a string. */
  const ChatIdNotString := "userId should be a string"

  /** `generateChatToken(user?.chatId)`: `createToken` throws a `TypeError`
      for a null or missing chat id, and mints a token for any string. */
  function ChatToken(ctx: Ctx, user: Obj): (r: Result<string>)
    ensures r.Err? <==> ChatIdOf(user).None?
    ensures r.Ok? ==> r.value == ctx.svc.chatToken(ChatIdOf(user).value)
  {
    match ChatIdOf(user)
    case None => Err(ChatIdNotString)
    case Some(id) => Ok(ctx.svc.chatToken(id))
  }

  /** `sendToken`: a forwarder session. Signs the access and the refresh
      token, sets both cookies, and returns the user with both tokens. A
      user without a chat id makes the chat token throw after the cookies
      are set. */
  function SendToken(ctx: Ctx, user: Obj, status: int): (r: Result<Reply>)
    ensures r.Err? <==> !Truthy(ctx.env.accessToken) || ChatIdOf(user).None?
    ensures r.Ok? ==> r.value.Session? && r.value.status == status && r.value.notice.None?
    ensures r.Ok? ==> r.value.user == WithTokens(user, SignRoleToken(ctx, Forwarder, IdOf(user)).value,
                                                  ctx.svc.chatToken(ChatIdOf(user).value))
    ensures r.Ok? ==> (|r.value.cookies| == 2
                       && r.value.cookies[0] == AccessCookie(ctx.env, SignRoleToken(ctx, Forwarder, IdOf(user)).value)
                       && r.value.cookies[1] == RefreshCookie(ctx.env, SignRefreshToken(ctx, IdOf(user)).value))
  {
    match SignRoleToken(ctx, Forwarder, IdOf(user))
    case Err(m) => Err(m)
    case Ok(access) =>
      match SignRefreshToken(ctx, IdOf(user))
      case Err(m) => Err(m)
      case Ok(refresh) =>
        match ChatToken(ctx, user)
        case Err(m) => Err(m)
        case Ok(chat) =>
          Ok(Session(status, None, WithTokens(user, access, chat),
                     [AccessCookie(ctx.env, access), RefreshCookie(ctx.env, refresh)]))
  }

  /** `sendBCOToken`, `sendCHBToken`, `sendAdminToken`: a session for the
      other roles, with a message, the role's name and no cookies. A user
      without a chat id makes the chat token throw. */
  function SendRoleToken(ctx: Ctx, role: Role, user: Obj, status: int, message: string): (r: Result<Reply>)
    requires !role.Forwarder?
    ensures r.Err? <==> !Truthy(RoleSecret(ctx.env, role)) || ChatIdOf(user).None?
    ensures r.Ok? ==> r.value.Session? && r.value.status == status && r.value.notice == Some(message)
    ensures r.Ok? ==> r.value.cookies == []
    ensures r.Ok? ==> r.value.user.Keys == user.Keys + {"accessToken", "chatToken", "role"}
    ensures r.Ok? ==> r.value.user["role"] == JStr(RoleName(role))
    ensures r.Ok? ==> r.value.user["accessToken"] == JStr(SignRoleToken(ctx, role, IdOf(user)).value)
    ensures r.Ok? ==> r.value.user["chatToken"] == JStr(ctx.svc.chatToken(ChatIdOf(user).value))
    ensures r.Ok? ==> forall k :: k in user && k !in {"accessToken", "chatToken", "role"} ==> r.value.user[k] == user[k]
  {
    match SignRoleToken(ctx, role, IdOf(user))
    case Err(m) => Err(m)
    case Ok(access) =>
      match ChatToken(ctx, user)
      case Err(m) => Err(m)
      case Ok(chat) =>
        Ok(Session(status, Some(message), WithTokens(user, access, chat) + map["role" := JStr(RoleName(role))], []))
  }

  /** The access token handed back in a session verifies, for one day, to
      the `id` of the very record returned. */
  lemma SessionTokenVerifies(ctx: Ctx, role: Role, user: Obj, status: int, message: string, later: int)
    requires Sound(ctx.svc.jwt)
    requires if role.Forwarder? then SendToken(ctx, user, status).Ok?
             else SendRoleToken(ctx, role, user, status, message).Ok?
    ensures var r := if role.Forwarder? then SendToken(ctx, user, status).value
                     else SendRoleToken(ctx, role, user, status, message).value;
            r.user["accessToken"].JStr?
            && Verify(ctx.svc.jwt, r.user["accessToken"].s, RoleSecret(ctx.env, role), later)
               == (if later < ctx.now + Day then Valid(IdClaims(IdOf(user))) else Expired)
  {
    RoleTokenVerifies(ctx, role, role, IdOf(user), later);
  }
}
