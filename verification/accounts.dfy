/** The forwarder-admin and broker (CHB) account handlers: registration by
    e-mailed code, activation, login, profile update and code resend, plus
    the broker list and delete. The two controllers are the same code over
    different tables; where they differ, the `Kind` decides. */
module AccountFlows {
  import opened Values
  import opened Text
  import opened Short
  import opened Jws
  import opened Http
  import opened Context
  import opened Errors
  import opened Issuer
  import Chat
  import opened Tables
  import opened Schema
  import opened Paging
  import opened Provision
  import opened AccountStore

  /** The request body of a registration. */
  datatype SignUp = SignUp(email: string, password: string, fullName: string, companyName: string)

  /** The request body of a profile update; `None` is a field left out. */
  datatype Profile = Profile(
    fullName: Option<string>,
    physicalAddress: Option<string>,
    businessRegistrationNumber: Option<string>,
    vatNumber: Option<string>,
    companyName: Option<string>,
    phoneNumber: Option<string>,
    username: Option<string>
  )

  const InvalidOtp := "Invalid OTP, Please try again!"
  const EmailExists := "Email already exist"
  const UsernameTakenMessage := "Username is already taken. Please choose a different one."

  /** A handler's answer when the last step may throw: the reply, or what
      `handleErrors` makes of the error. */
  function Answer(r: Result<Reply>): (a: Reply)
    ensures r.Ok? ==> a == r.value
    ensures r.Err? ==> a == Msg(500, false, "Internal Server Error")
  {
    match r
    case Ok(reply) => reply
    case Err(m) => HandleErrors(Failed(m))
  }

  /** `sendActivationMail(email, activationCode)`. */
  function ActivationMail(email: string, code: string): Effect {
    SendMail(email, "Activate Your KARGO Account", "activation-mail.ejs", map["activationCode" := JStr(code)])
  }

  /** The activation code a mail carries, if it is an activation mail. */
  function MailedCode(e: Effect): Option<string> {
    if e.SendMail? && e.template == "activation-mail.ejs" && "activationCode" in e.data
       && e.data["activationCode"].JStr?
    then Some(e.data["activationCode"].s)
    else None
  }

  /** The session a handler ends with: `sendToken` for a forwarder admin,
      `sendCHBToken` with a message for a broker. Either fails when the
      role's secret is unset or the row has no chat id. */
  function SessionReply(ctx: Ctx, kind: Kind, id: nat, a: Account, status: int, message: string): (r: Result<Reply>)
    ensures r.Err? <==> !Truthy(RoleSecret(ctx.env, kind.Role())) || a.chatId.None?
    ensures r.Ok? ==> r.value.Session? && r.value.status == status
                      && "id" in r.value.user && r.value.user["id"] == JInt(id)
  {
    ChatIdColumn(AccountObj(id, a, kind.Brokers?), a.chatId);
    match kind
    case ForwarderAdmins => SendToken(ctx, AccountObj(id, a, false), status)
    case Brokers => SendRoleToken(ctx, Chb, AccountObj(id, a, true), status, message)
  }

  /** `registrationForwarderAdmin` / `registerChb`: nothing is stored; the
      hashed registration travels inside the activation token, and the
      code is mailed. `hash` is bcrypt's, `draw` the random draw of the code. */
  function Register(ctx: Ctx, db: Db, kind: Kind, form: SignUp, hash: string -> string, draw: nat): (s: Step)
    requires draw < 9000
    ensures s.db == db
    ensures FindByEmail(db, kind, form.email).Some? ==> s == Step(Msg(400, false, "Email Already existed!"), db, [])
    ensures FindByEmail(db, kind, form.email).None? && FindByCompany(db, kind, form.companyName).Some? ==>
              s == Step(Msg(400, false, "Company Already existed!"), db, [])
    ensures s.reply.ActivationSent? <==> FindByEmail(db, kind, form.email).None?
                                         && FindByCompany(db, kind, form.companyName).None?
                                         && Truthy(ctx.env.activationSecret)
    ensures s.reply.ActivationSent? ==>
              s.reply.status == 201
              && s.reply.message == "Please check your email: " + form.email + " to activate your account!"
              && |s.effects| == 1 && s.effects[0].SendMail? && s.effects[0].to == form.email
              && MailedCode(s.effects[0]) == Some(ActivationCode(draw))
  {
    if FindByEmail(db, kind, form.email).Some? then Step(Msg(400, false, "Email Already existed!"), db, [])
    else if FindByCompany(db, kind, form.companyName).Some? then Step(Msg(400, false, "Company Already existed!"), db, [])
    else
      var user := Registration(form.email, hash(form.password), form.fullName, form.companyName);
      match CreateActivationToken(ctx, user, draw)
      case Err(m) => Step(HandleErrors(Failed(m)), db, [])
      case Ok((token, code)) =>
        Step(ActivationSent(201, "Please check your email: " + form.email + " to activate your account!", token),
             db, [ActivationMail(form.email, code)])
  }

  /** The account an activation creates from the registration it carries:
      a fresh chat id and the derived username. */
  function NewAccountOf(user: Registration, newId: string): NewAccount {
    NewAccount(user.email, user.companyName, user.fullName, newId, GenerateUsername(user.email, user.companyName),
               user.password)
  }

  /** The chat-directory calls of an activation: the user is registered,
      then welcomed. */
  function ActivationEffects(user: Registration, newId: string): seq<Effect> {
    [Chat.CreateUserFunction(Some(newId), Some(user.fullName), Some(GenerateUsername(user.email, user.companyName)), Some(""))]
    + Chat.Welcome(newId, Some(user.fullName))
  }

  /** `activateUser` / `activateChb`. The token must verify under
      `ACTIVATION_SECRET` and carry the code the request sends; the e-mail
      must still be free. `newId` is the fresh chat id. */
  function Activate(ctx: Ctx, db: Db, kind: Kind, token: string, code: Option<string>, newId: string): (s: Step)
    ensures !Verify(ctx.svc.jwt, token, ctx.env.activationSecret, ctx.now).Valid? ==>
              s == Step(HandleErrors(VerifyFailure(Verify(ctx.svc.jwt, token, ctx.env.activationSecret, ctx.now))), db, [])
    ensures s.reply.Refused? ==> s == Step(Refused(401, InvalidOtp), db, [])
    ensures var v := Verify(ctx.svc.jwt, token, ctx.env.activationSecret, ctx.now);
            v.Valid? && v.claims.ActivationClaims? ==>
              if code == Some(v.claims.activationCode) then s == Admit(ctx, db, kind, token, v.claims.user, newId)
              else s == Step(Refused(401, InvalidOtp), db, [])
    ensures s.db != db ==>
              var v := Verify(ctx.svc.jwt, token, ctx.env.activationSecret, ctx.now);
              v.Valid? && v.claims.ActivationClaims? && code == Some(v.claims.activationCode)
              && FindByEmail(db, kind, v.claims.user.email).None?
              && CreateUser(ctx, db, kind, NewAccountOf(v.claims.user, newId), token).Ok?
              && s.db == CreateUser(ctx, db, kind, NewAccountOf(v.claims.user, newId), token).value.0
              && s.effects == ActivationEffects(v.claims.user, newId)
  {
    var v := Verify(ctx.svc.jwt, token, ctx.env.activationSecret, ctx.now);
    if !v.Valid? then Step(HandleErrors(VerifyFailure(v)), db, [])
    else if !v.claims.ActivationClaims? then
      // `undefined !== code` refuses any sent code; with none sent, reading
      // the missing `user` throws
      if code.Some? then Step(Refused(401, InvalidOtp), db, [])
      else Step(HandleErrors(Failed("Cannot destructure property 'email' of undefined")), db, [])
    else if code != Some(v.claims.activationCode) then Step(Refused(401, InvalidOtp), db, [])
    else Admit(ctx, db, kind, token, v.claims.user, newId)
  }

  /** An activation past the token and code checks. The insert fails,
      with a 500 and no chat calls, when `REFRESH_TOKEN` is unset or when a
      registration for the same company was activated in the meantime. */
  function Admit(ctx: Ctx, db: Db, kind: Kind, token: string, user: Registration, newId: string): (s: Step)
    ensures FindByEmail(db, kind, user.email).Some? ==> s == Step(Forward(400, EmailExists), db, [])
    ensures FindByEmail(db, kind, user.email).None?
            && (!Truthy(ctx.env.refreshToken) || Clashes(Accounts(db, kind), None, user.email, user.companyName)) ==>
              s == Step(Msg(500, false, "Internal Server Error"), db, [])
    ensures FindByEmail(db, kind, user.email).None? && CreateUser(ctx, db, kind, NewAccountOf(user, newId), token).Ok? ==>
              var (after, id) := CreateUser(ctx, db, kind, NewAccountOf(user, newId), token).value;
              s.db == after && s.effects == ActivationEffects(user, newId)
              && s.reply == Answer(SessionReply(ctx, kind, id, Accounts(after, kind).rows[id], 201, "Activation Successfully!"))
  {
    if FindByEmail(db, kind, user.email).Some? then Step(Forward(400, EmailExists), db, [])
    else
      match CreateUser(ctx, db, kind, NewAccountOf(user, newId), token)
      case Err(m) => Step(HandleErrors(Failed(m)), db, [])
      case Ok((after, id)) =>
        Step(Answer(SessionReply(ctx, kind, id, Accounts(after, kind).rows[id], 201, "Activation Successfully!")),
             after, ActivationEffects(user, newId))
  }

  /** `resendOTP`: the same token is handed back and its code mailed again. */
  function Resend(ctx: Ctx, db: Db, kind: Kind, token: string): (s: Step)
    ensures s.db == db
    ensures s.reply.ActivationSent? ==>
              var v := Verify(ctx.svc.jwt, token, ctx.env.activationSecret, ctx.now);
              v.Valid? && v.claims.ActivationClaims? && v.claims.activationCode != ""
              && FindByEmail(db, kind, v.claims.user.email).None?
              && s.reply == ActivationSent(201, "OTP Sent Successfully!", token)
              && s.effects == [ActivationMail(v.claims.user.email, v.claims.activationCode)]
    ensures !s.reply.ActivationSent? ==> s.effects == []
    ensures var v := Verify(ctx.svc.jwt, token, ctx.env.activationSecret, ctx.now);
            !v.Valid? ==> s == Step(HandleErrors(VerifyFailure(v)), db, [])
    ensures var v := Verify(ctx.svc.jwt, token, ctx.env.activationSecret, ctx.now);
            v.Valid? && (!v.claims.ActivationClaims? || v.claims.activationCode == "") ==>
              s == Step(Msg(401, false, "Invalid user!"), db, [])
    ensures var v := Verify(ctx.svc.jwt, token, ctx.env.activationSecret, ctx.now);
            v.Valid? && v.claims.ActivationClaims? && v.claims.activationCode != "" ==>
              (FindByEmail(db, kind, v.claims.user.email).Some? <==> s == Step(Forward(400, EmailExists), db, []))
              && (FindByEmail(db, kind, v.claims.user.email).None? ==> s.reply.ActivationSent?)
  {
    var v := Verify(ctx.svc.jwt, token, ctx.env.activationSecret, ctx.now);
    if !v.Valid? then Step(HandleErrors(VerifyFailure(v)), db, [])
    else if !v.claims.ActivationClaims? || v.claims.activationCode == "" then Step(Msg(401, false, "Invalid user!"), db, [])
    else if FindByEmail(db, kind, v.claims.user.email).Some? then Step(Forward(400, EmailExists), db, [])
    else
      Step(ActivationSent(201, "OTP Sent Successfully!", token), db,
           [ActivationMail(v.claims.user.email, v.claims.activationCode)])
  }

  /** The directory update a login or profile update sends. */
  function DirectorySync(chatId: Option<string>, username: Option<string>, name: string): Effect {
    Chat.UpdateUserFunction(Some(OrEmpty(chatId)), Some(OrEmpty(username)), Some(name), Some(""))
  }

  /** The provisioning a login or profile update of row `a` applies. */
  function ProvisionAccount(a: Account, supplied: Option<string>, newId: string): Provisioned {
    Provision.Provision(a.chatId, a.username, supplied, newId, GenerateUsername(a.email, a.companyName))
  }

  /** The row a login leaves: provisioned chat id and username. */
  function LoggedInRow(a: Account, newId: string): Account {
    var p := ProvisionAccount(a, None, newId);
    a.(chatId := p.chatId, username := p.username)
  }

  /** `loginForwarder` / `loginChb`: find the account by e-mail and check
      the password, then `SignIn`. */
  function Login(ctx: Ctx, db: Db, kind: Kind, email: string, password: string, newId: string): (s: Step)
    ensures FindByEmail(db, kind, email).None? ==>
              s == Step(Msg(404, false, "User not found, please check your email"), db, [])
    ensures FindByEmail(db, kind, email).Some? ==>
              var k := FindByEmail(db, kind, email).value;
              if ctx.svc.compare(password, OrEmpty(Accounts(db, kind).rows[k].password)) then s == SignIn(ctx, db, kind, k, newId)
              else s == Step(Msg(400, false, "Username or password is invalid!"), db, [])
  {
    match FindByEmail(db, kind, email)
    case None => Step(Msg(404, false, "User not found, please check your email"), db, [])
    case Some(k) =>
      if !ctx.svc.compare(password, OrEmpty(Accounts(db, kind).rows[k].password)) then
        Step(Msg(400, false, "Username or password is invalid!"), db, [])
      else SignIn(ctx, db, kind, k, newId)
  }

  /** A login past the password check. A forwarder login always writes the
      (possibly provisioned) row back and syncs the chat directory; a broker
      login does both only when something was provisioned; the welcome
      follows exactly when something was. */
  function SignIn(ctx: Ctx, db: Db, kind: Kind, k: nat, newId: string): (s: Step)
    requires k in Accounts(db, kind).rows
    ensures var a := Accounts(db, kind).rows[k];
            var p := ProvisionAccount(a, None, newId);
            s.reply == Answer(SessionReply(ctx, kind, k, LoggedInRow(a, newId), 200, "Login Successfully!"))
            && (kind.ForwarderAdmins? || p.filled ==>
                  s.db == WriteBack(db, kind, k, LoggedInRow(a, newId))
                  && |s.effects| >= 1 && s.effects[0] == DirectorySync(p.chatId, NormOpt(p.username), a.fullName))
            && (kind.Brokers? && !p.filled ==> s.db == db && s.effects == [])
            && (p.filled ==> |s.effects| == 4 && s.effects[1..] == Chat.Welcome(OrEmpty(p.chatId), Some(a.fullName)))
            && (!p.filled ==> |s.effects| <= 1)
  {
    var a := Accounts(db, kind).rows[k];
    var p := ProvisionAccount(a, None, newId);
    var a' := LoggedInRow(a, newId);
    var reply := Answer(SessionReply(ctx, kind, k, a', 200, "Login Successfully!"));
    var sync := DirectorySync(p.chatId, NormOpt(p.username), a.fullName);
    var welcome := if p.filled then Chat.Welcome(OrEmpty(p.chatId), Some(a.fullName)) else [];
    if kind.ForwarderAdmins? || p.filled then Step(reply, WriteBack(db, kind, k, a'), [sync] + welcome)
    else Step(reply, db, [])
  }

  /** Whether a profile update is refused for its username: one is
      supplied, it differs (normalised) from the stored one, and the
      kind's availability check finds it taken. */
  predicate UsernameRefused(db: Db, kind: Kind, a: Account, supplied: Option<string>) {
    supplied.Some? && Some(Normalize(supplied.value)) != NormOpt(a.username)
    && !(match kind
         case ForwarderAdmins => IsUsernameAvailable(db, Normalize(supplied.value))
         case Brokers => IsChbUsernameAvailable(db, Normalize(supplied.value)))
  }

  /** The `data` of a profile update: each field is `supplied || stored ||
      undefined`; a broker's customs number mirrors the registration
      number; the account number is only rewritten with itself. */
  function ProfilePatch(kind: Kind, a: Account, p: Provisioned, body: Profile): AccountPatch {
    AccountPatch(
      p.chatId,
      Fallback(body.fullName, Some(a.fullName)),
      Fallback(body.physicalAddress, a.physicalAddress),
      Fallback(body.companyName, Some(a.companyName)),
      Fallback(body.businessRegistrationNumber, a.businessRegistrationNumber),
      if kind.Brokers? then Fallback(body.businessRegistrationNumber, a.businessRegistrationNumber) else None,
      Fallback(body.vatNumber, a.vatNumber),
      if TruthyInt(a.kargoAccountNumber) then a.kargoAccountNumber else None,
      Fallback(body.phoneNumber, a.phoneNumber),
      Fallback(NormOpt(body.username), NormOpt(p.username)))
  }

  /** The name the welcome after a profile update greets: the supplied
      one for a forwarder admin, the stored one for a broker. */
  function WelcomeName(kind: Kind, a: Account, body: Profile): Option<string> {
    match kind
    case ForwarderAdmins => OrElse(body.fullName, Some(a.fullName))
    case Brokers => Some(a.fullName)
  }

  /** The row a profile update leaves. */
  function EditedRow(kind: Kind, a: Account, body: Profile, newId: string): Account {
    Patched(a, ProfilePatch(kind, a, ProvisionAccount(a, body.username, newId), body))
  }

  /** `updateForwarderInfo` / `updateChbInfo` for the signed-in `userId`:
      find the account, refuse a taken username, then `Edit`. */
  function Update(ctx: Ctx, db: Db, kind: Kind, userId: Option<int>, body: Profile, newId: string): (s: Step)
    ensures userId.None? ==> s == Step(Msg(500, false, "Internal Server Error"), db, [])
    ensures userId.Some? && (userId.value < 0 || userId.value !in Accounts(db, kind).rows) ==>
              s == Step(Msg(404, false, "User not found"), db, [])
    ensures userId.Some? && userId.value >= 0 && userId.value in Accounts(db, kind).rows ==>
              var k: nat := userId.value;
              if UsernameRefused(db, kind, Accounts(db, kind).rows[k], body.username) then
                s == Step(Msg(400, false, UsernameTakenMessage), db, [])
              else s == Edit(ctx, db, kind, k, body, newId)
  {
    match FindById(Accounts(db, kind), userId)
    case Err(m) => Step(HandleErrors(Failed(m)), db, [])
    case Ok(None) => Step(Msg(404, false, "User not found"), db, [])
    case Ok(Some(k)) =>
      if UsernameRefused(db, kind, Accounts(db, kind).rows[k], body.username) then
        Step(Msg(400, false, UsernameTakenMessage), db, [])
      else Edit(ctx, db, kind, k, body, newId)
  }

  /** A profile update past the username check: the row is rewritten, the
      directory synced, and the welcome follows when something was
      provisioned. A company name (or e-mail) another row holds makes the
      write fail: a 500, nothing stored and no chat calls. */
  function Edit(ctx: Ctx, db: Db, kind: Kind, k: nat, body: Profile, newId: string): (s: Step)
    requires k in Accounts(db, kind).rows
    ensures var e := EditedRow(kind, Accounts(db, kind).rows[k], body, newId);
            Clashes(Accounts(db, kind), Some(k), e.email, e.companyName) ==>
              s == Step(Msg(500, false, "Internal Server Error"), db, [])
    ensures var a := Accounts(db, kind).rows[k];
            var p := ProvisionAccount(a, body.username, newId);
            var e := EditedRow(kind, a, body, newId);
            !Clashes(Accounts(db, kind), Some(k), e.email, e.companyName) ==>
              s.db == WriteBack(db, kind, k, e)
              && s.reply == Answer(SessionReply(ctx, kind, k, e, 200, "Profile Updated Successfully!"))
              && |s.effects| == (if p.filled then 4 else 1)
              && s.effects[0] == DirectorySync(p.chatId, OrElse(NormOpt(body.username), NormOpt(p.username)),
                                               if Truthy(body.fullName) then body.fullName.value else a.fullName)
              && (p.filled ==> s.effects[1..] == Chat.Welcome(OrEmpty(p.chatId), WelcomeName(kind, a, body)))
  {
    var a := Accounts(db, kind).rows[k];
    var p := ProvisionAccount(a, body.username, newId);
    var patch := ProfilePatch(kind, a, p, body);
    match UpdateAccount(db, kind, Some(k), patch)
    case Err(m) => Step(HandleErrors(Failed(m)), db, [])
    case Ok(after) =>
      var name := if Truthy(body.fullName) then body.fullName.value else a.fullName;
      var sync := DirectorySync(p.chatId, OrElse(NormOpt(body.username), NormOpt(p.username)), name);
      var welcome := if p.filled then Chat.Welcome(OrEmpty(p.chatId), WelcomeName(kind, a, body)) else [];
      Step(Answer(SessionReply(ctx, kind, k, Patched(a, patch), 200, "Profile Updated Successfully!")),
           after, [sync] + welcome)
  }

  /** Every broker row: the list has no filter. */
  predicate AnyAccount(a: Account) { true }

  /** `fetchCHBList`. */
  function ChbList(db: Db, q: Query): (s: Step)
    ensures s.db == db && s.effects == []
    ensures Paginate(db.chbs, AnyAccount, q).Ok? ==>
              s.reply.Listed? && s.reply.message == "CHB list fetched successfully!"
              && s.reply.records == Paginate(db.chbs, AnyAccount, q).value.records
              && (db.chbs.Valid() ==> s.reply.totalCount == |db.chbs.rows|)
    ensures Paginate(db.chbs, AnyAccount, q).Err? ==> s.reply.Forward? && s.reply.status == 500
  {
    CountAll(db.chbs, AnyAccount);
    match Paginate(db.chbs, AnyAccount, q)
    case Ok(page) => Step(Listed(200, "CHB list fetched successfully!", page.records, page.totalCount), db, [])
    case Err(m) => Step(Forward(500, m), db, [])
  }

  /** `deleteCHB`: remove the broker `dataId`, then answer with the
      requested page of what is left. */
  function DeleteChb(db: Db, dataId: Option<int>, q: Query): (s: Step)
    ensures s.effects == []
    ensures dataId.None? ==> s.reply == Forward(500, MissingWhere) && s.db == db
    ensures dataId.Some? && (dataId.value < 0 || dataId.value !in db.chbs.rows) ==>
              s == Step(Forward(404, "CHB not found"), db, [])
    ensures dataId.Some? && dataId.value >= 0 && dataId.value in db.chbs.rows ==>
              s.db == db.(chbs := s.db.chbs)
              && s.db.chbs.rows.Keys == db.chbs.rows.Keys - {dataId.value}
              && (forall k :: k in s.db.chbs.rows ==> s.db.chbs.rows[k] == db.chbs.rows[k])
              && (s.reply.Listed? ==> s.reply.message == "CHB deleted successfully!"
                                      && dataId.value !in s.reply.records)
  {
    match FindById(db.chbs, dataId)
    case Err(m) => Step(Forward(500, m), db, [])
    case Ok(None) => Step(Forward(404, "CHB not found"), db, [])
    case Ok(Some(k)) =>
      var after := db.(chbs := Delete(db.chbs, k));
      if Paginate(after.chbs, AnyAccount, q).Ok? then
        PageContents(after.chbs, AnyAccount, q);
        var page := Paginate(after.chbs, AnyAccount, q).value;
        Step(Listed(200, "CHB deleted successfully!", page.records, page.totalCount), after, [])
      else Step(Forward(500, Paginate(after.chbs, AnyAccount, q).message), after, [])
  }
}
