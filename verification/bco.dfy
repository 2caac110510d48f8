/** The BCO controller: a BCO registers (by itself or by accepting an
    invitation), logs in, edits its profile, and keeps a list of suppliers
    it can add, invite, edit and delete. The admin side lists and deletes
    BCOs. */
module BcoFlows {
  import opened Values
  import opened Text
  import opened Short
  import opened Jws
  import opened Http
  import opened Context
  import opened Errors
  import opened Issuer
  import Chat
  import opened Tables
  import opened Schema
  import opened Paging
  import opened Provision
  import opened AccountStore
  import AccountFlows
  import opened CompanyStore
  import opened BcoStore
  import opened OwnedStore
  import opened Invitation

  const AlreadyUser := "You are already a user, please signIn!"
  const InviteExpired := "Invite token expired!"
  const CompanyInUse := "This company name is already in use!"

  /** The request body of `registerBCO`: the registration form, the id of
      the invited BCO row (absent for a self-registration) and the invite
      token. */
  datatype BcoSignUp = BcoSignUp(form: AccountFlows.SignUp, id: Option<int>, inviteToken: Option<string>)

  /** The first BCO with this e-mail in a company of this name has a password. */
  predicate AlreadyRegistered(db: Db, form: AccountFlows.SignUp) {
    var k := CheckBcoExistenceForCompany(db, form.email, form.companyName);
    k.Some? && Truthy(db.bcos.rows[k.value].password)
  }

  /** A non-empty invite token that does not verify. */
  predicate InviteRefused(ctx: Ctx, token: Option<string>) {
    Truthy(token) && !VerifyInviteToken(ctx, token.value).Valid?
  }

  /** `registerBCO`. `hash` is bcrypt's, `newId` the fresh chat id. A
      refused invite token throws inside `verifyInviteToken`, so the
      "Invite token expired!" answer is never given. */
  function RegisterBco(ctx: Ctx, db: Db, req: BcoSignUp, hash: string -> string, newId: string): (s: Step)
    ensures AlreadyRegistered(db, req.form) ==> s == Step(Msg(400, false, AlreadyUser), db, [])
    ensures !AlreadyRegistered(db, req.form) && InviteRefused(ctx, req.inviteToken) ==>
              s == Step(HandleErrors(VerifyFailure(VerifyInviteToken(ctx, req.inviteToken.value))), db, [])
    ensures !AlreadyRegistered(db, req.form) && !InviteRefused(ctx, req.inviteToken) && !TruthyInt(req.id) ==>
              s == SelfSignup(ctx, db, req.form, hash(req.form.password), newId)
    ensures !AlreadyRegistered(db, req.form) && !InviteRefused(ctx, req.inviteToken) && TruthyInt(req.id) ==>
              s == AcceptInvite(ctx, db, req.id, req.form.fullName, hash(req.form.password))
    ensures s.reply != Msg(404, false, InviteExpired)
  {
    if AlreadyRegistered(db, req.form) then Step(Msg(400, false, AlreadyUser), db, [])
    else if InviteRefused(ctx, req.inviteToken) then
      Step(HandleErrors(VerifyFailure(VerifyInviteToken(ctx, req.inviteToken.value))), db, [])
    else if !TruthyInt(req.id) then SelfSignup(ctx, db, req.form, hash(req.form.password), newId)
    else AcceptInvite(ctx, db, req.id, req.form.fullName, hash(req.form.password))
  }

  /** `sendBCOToken(user, 200, message)` inside a handler: a session for
      the record, or, when the BCO secret is missing or the record has no
      chat id, what `handleErrors` makes of the error thrown. */
  function BcoSession(ctx: Ctx, user: Obj, message: string): (r: Reply)
    ensures r.Session? <==> Truthy(RoleSecret(ctx.env, Role.Bco)) && ChatIdOf(user).Some?
    ensures !r.Session? ==> r == Msg(500, false, "Internal Server Error")
    ensures r.Session? ==> r.status == 200 && r.notice == Some(message) && r.cookies == []
                           && r.user.Keys == user.Keys + {"accessToken", "chatToken", "role"}
                           && r.user["role"] == JStr("bco")
                           && forall k :: k in user && k !in {"accessToken", "chatToken", "role"} ==> r.user[k] == user[k]
    ensures r.Session? ==> ("password" in r.user <==> "password" in user) && ("contact" in r.user <==> "contact" in user)
                           && ("company" in r.user <==> "company" in user)
    ensures r.Session? && "password" in user ==> r.user["password"] == user["password"]
    ensures r.Session? && "id" in user ==> "id" in r.user && r.user["id"] == user["id"]
  {
    AccountFlows.Answer(SendRoleToken(ctx, Role.Bco, user, 200, message))
  }

  /** The company input `{ companyName }` of a self-registration. */
  function NameOnly(name: string): CompanyInput {
    CompanyInput(name, None, None, None, None, None, None, None, None, None, None)
  }

  /** The row a self-registration stores: status "Signup", the fresh chat
      id, the derived username, linked to the new company and to no
      forwarder. */
  function SignupRow(form: AccountFlows.SignUp, hashed: string, companyId: nat, newId: string): Bco {
    Schema.Bco(Some(form.fullName), form.email, Some(hashed), Some(newId), Some(GenerateUsername(form.email, form.companyName)),
        "Signup", None, None, Some(companyId), None, None, None, None, None)
  }

  /** A self-registration: a company with the trimmed name, then the BCO;
      the directory entry and the welcome follow, and the session is
      opened with the stored row, password hash included. */
  function SelfSignup(ctx: Ctx, db: Db, form: AccountFlows.SignUp, hashed: string, newId: string): (s: Step)
    ensures var row := SignupRow(form, hashed, db.companies.next, newId);
            s.db == db.(companies := s.db.companies, warehouses := s.db.warehouses, bcos := s.db.bcos)
            && s.db.companies.rows == db.companies.rows[db.companies.next := NewCompany(NameOnly(form.companyName))]
            && s.db.bcos.rows == db.bcos.rows[db.bcos.next := row]
            && s.reply == BcoSession(ctx, BcoObj(db.bcos.next, row), "Signup Successfully!")
    ensures CompanyNamed(s.db, Some(db.companies.next), Trim(form.companyName))
    ensures s.effects == AccountFlows.ActivationEffects(Registration(form.email, hashed, form.fullName, form.companyName), newId)
    ensures s.reply.Session? ==> "password" in s.reply.user && s.reply.user["password"] == JStr(hashed)
    ensures db.Valid() ==> s.db.Valid() && db.bcos.next !in db.bcos.rows
  {
    var (withCompany, cid) := CreateCompany(db, NameOnly(form.companyName));
    var row := SignupRow(form, hashed, cid, newId);
    var (bcos, id) := Insert(withCompany.bcos, row);
    Step(BcoSession(ctx, BcoObj(id, row), "Signup Successfully!"),
         withCompany.(bcos := bcos),
         AccountFlows.ActivationEffects(Registration(form.email, hashed, form.fullName, form.companyName), newId))
  }

  /** An accepted invitation: the row `id` gets the name, the password and
      status "Accepted". Nothing ties the row to the e-mail being
      registered, and there are no directory calls. An invited row that
      never logged in has no chat id, so the session then fails with a
      500, after the write. */
  function AcceptInvite(ctx: Ctx, db: Db, id: Option<int>, fullName: string, hashed: string): (s: Step)
    ensures s.effects == []
    ensures !Present(db.bcos, id) ==> s == Step(Msg(500, false, "Internal Server Error"), db, [])
    ensures Present(db.bcos, id) ==>
              var k := id.value as nat;
              s.db == db.(bcos := s.db.bcos)
              && s.db.bcos.rows.Keys == db.bcos.rows.Keys
              && k in s.db.bcos.rows
              && var b := db.bcos.rows[k];
              var b' := s.db.bcos.rows[k];
              (forall j :: j in db.bcos.rows && j != k ==> s.db.bcos.rows[j] == db.bcos.rows[j])
              && b'.fullName == Some(fullName) && b'.password == Some(hashed) && b'.invitedStatus == "Accepted"
              && b'.emailAddress == b.emailAddress && b'.chatId == b.chatId && b'.username == b.username
              && b'.companyId == b.companyId && b'.forwarderId == b.forwarderId
              && s.reply == BcoSession(ctx, BcoObj(k, b'), "Signup Successfully!")
    ensures Present(db.bcos, id) ==>
              (s.reply.Session? <==> Truthy(RoleSecret(ctx.env, Role.Bco)) && db.bcos.rows[id.value as nat].chatId.Some?)
  {
    match UpdateBco(db, id, NoChange.(fullName := Some(fullName), password := Some(hashed), invitedStatus := Some("Accepted")))
    case Err(m) => Step(HandleErrors(Failed(m)), db, [])
    case Ok(after) =>
      var k := id.value as nat;
      ChatIdColumn(BcoObj(k, after.bcos.rows[k]), after.bcos.rows[k].chatId);
      Step(BcoSession(ctx, BcoObj(k, after.bcos.rows[k]), "Signup Successfully!"), after, [])
  }

  /** The provisioning a login or profile update of BCO row `b` applies;
      the derived username uses the linked company's name. */
  function BcoProvision(db: Db, b: Bco, supplied: Option<string>, newId: string): Provisioned {
    Provision.Provision(b.chatId, b.username, supplied, newId,
                        GenerateUsername(b.emailAddress, OrEmpty(CompanyNameOf(db, b.companyId))))
  }

  /** `loginBCO`: find the BCO by e-mail, check the password, then `SignInBco`. */
  function LoginBco(ctx: Ctx, db: Db, email: string, password: string, newId: string): (s: Step)
    ensures CheckBcoExistence(db, email).None? ==>
              s == Step(Msg(404, false, "User not found, please check your email"), db, [])
    ensures CheckBcoExistence(db, email).Some? ==>
              var k := CheckBcoExistence(db, email).value;
              if ctx.svc.compare(password, OrEmpty(db.bcos.rows[k].password)) then s == SignInBco(ctx, db, k, newId)
              else s == Step(Msg(400, false, "Username or password is invalid!"), db, [])
  {
    match CheckBcoExistence(db, email)
    case None => Step(Msg(404, false, "User not found, please check your email"), db, [])
    case Some(k) =>
      if !ctx.svc.compare(password, OrEmpty(db.bcos.rows[k].password)) then
        Step(Msg(400, false, "Username or password is invalid!"), db, [])
      else SignInBco(ctx, db, k, newId)
  }

  /** The patch a login writes when it provisioned something. */
  function LoginPatch(p: Provisioned): BcoPatch {
    NoChange.(chatId := p.chatId, username := NormOpt(p.username))
  }

  /** A login past the password check. The row is written (with its
      company renamed to its own name) and the directory synced only when
      something was provisioned; a BCO without a company then fails. The
      session carries the provisioned row without its password. */
  function SignInBco(ctx: Ctx, db: Db, k: nat, newId: string): (s: Step)
    requires k in db.bcos.rows
    ensures var b := db.bcos.rows[k];
            var p := BcoProvision(db, b, None, newId);
            (!p.filled ==> s.db == db && s.effects == [])
            && (p.filled && CompanyNameOf(db, b.companyId).None? ==>
                  s == Step(Msg(500, false, "Internal Server Error"), db, []))
            && (p.filled && CompanyNameOf(db, b.companyId).Some? ==>
                  s.db == UpdateBcoWithCompany(db, Some(k), LoginPatch(p), CompanyNameOf(db, b.companyId)).value
                  && |s.effects| == 4
                  && s.effects[0] == AccountFlows.DirectorySync(p.chatId, NormOpt(p.username), OrEmpty(b.fullName))
                  && s.effects[1..] == Chat.Welcome(OrEmpty(p.chatId), b.fullName))
    ensures s.reply.Session? ==> "password" !in s.reply.user && s.reply.notice == Some("Login successfully!")
  {
    var b := db.bcos.rows[k];
    var p := BcoProvision(db, b, None, newId);
    var reply := BcoSession(ctx, WithoutPassword(BcoIncluding(db, k, b.(chatId := p.chatId, username := p.username), true)), "Login successfully!");
    if !p.filled then Step(reply, db, [])
    else if CompanyNameOf(db, b.companyId).None? then Step(HandleErrors(Failed(NoCompany)), db, [])
    else
      var after := UpdateBcoWithCompany(db, Some(k), LoginPatch(p), CompanyNameOf(db, b.companyId)).value;
      var sync := AccountFlows.DirectorySync(p.chatId, NormOpt(p.username), OrEmpty(b.fullName));
      Step(reply, after, [sync] + Chat.Welcome(OrEmpty(p.chatId), b.fullName))
  }

  /** Whether a profile update is refused for its username: one is
      supplied, it differs (normalised) from the stored one, and it is
      taken by a forwarder admin or a BCO. */
  predicate BcoUsernameRefused(db: Db, b: Bco, supplied: Option<string>) {
    supplied.Some? && Some(Normalize(supplied.value)) != NormOpt(b.username)
    && !IsUsernameAvailable(db, Normalize(supplied.value))
  }

  /** The `data` of a BCO profile update: each field is `supplied || stored
      || undefined`, except that the registration number falls back on the
      stored registration card, not on the stored number. */
  function ProfilePatch(b: Bco, p: Provisioned, body: AccountFlows.Profile): BcoPatch {
    NoChange.(chatId := p.chatId,
              fullName := Fallback(body.fullName, b.fullName),
              username := Fallback(NormOpt(body.username), NormOpt(p.username)),
              businessRegistrationNumber := Fallback(body.businessRegistrationNumber, b.brnCard),
              vatNumber := Fallback(body.vatNumber, b.vatNumber),
              physicalAddress := Fallback(body.physicalAddress, b.physicalAddress),
              phoneNumber := Fallback(body.phoneNumber, b.phoneNumber))
  }

  /** `updateBCOProfile` for the signed-in `userId`: find the BCO, refuse a
      taken username, then `EditBco`. */
  function UpdateBcoProfile(ctx: Ctx, db: Db, userId: Option<int>, body: AccountFlows.Profile, newId: string): (s: Step)
    ensures userId.None? ==> s == Step(Msg(500, false, "Internal Server Error"), db, [])
    ensures userId.Some? && !Present(db.bcos, userId) ==> s == Step(Msg(404, false, "User not found"), db, [])
    ensures Present(db.bcos, userId) ==>
              var k := userId.value as nat;
              if BcoUsernameRefused(db, db.bcos.rows[k], body.username) then
                s == Step(Msg(400, false, AccountFlows.UsernameTakenMessage), db, [])
              else s == EditBco(ctx, db, k, body, newId)
  {
    match FindById(db.bcos, userId)
    case Err(m) => Step(HandleErrors(Failed(m)), db, [])
    case Ok(None) => Step(Msg(404, false, "User not found"), db, [])
    case Ok(Some(k)) =>
      if BcoUsernameRefused(db, db.bcos.rows[k], body.username) then
        Step(Msg(400, false, AccountFlows.UsernameTakenMessage), db, [])
      else EditBco(ctx, db, k, body, newId)
  }

  /** The company name a profile update writes: the supplied one, else
      the current one. */
  function ProfileCompanyName(db: Db, b: Bco, body: AccountFlows.Profile): Option<string> {
    Fallback(body.companyName, CompanyNameOf(db, b.companyId))
  }

  /** A profile update past the username check. The directory is synced
      first; then the row and its company are written in one call, which
      fails for a BCO without a company; the welcome follows a successful
      write when something was provisioned. */
  function EditBco(ctx: Ctx, db: Db, k: nat, body: AccountFlows.Profile, newId: string): (s: Step)
    requires k in db.bcos.rows
    ensures var b := db.bcos.rows[k];
            var p := BcoProvision(db, b, body.username, newId);
            |s.effects| >= 1
            && s.effects[0] == AccountFlows.DirectorySync(p.chatId, OrElse(NormOpt(body.username), NormOpt(p.username)),
                                                          OrEmpty(OrElse(body.fullName, b.fullName)))
            && (CompanyNameOf(db, b.companyId).None? ==>
                  s == Step(Msg(500, false, "Internal Server Error"), db, [s.effects[0]]))
            && (CompanyNameOf(db, b.companyId).Some? ==>
                  var after := UpdateBcoWithCompany(db, Some(k), ProfilePatch(b, p, body), ProfileCompanyName(db, b, body)).value;
                  s.db == after
                  && s.effects[1..] == (if p.filled then Chat.Welcome(OrEmpty(p.chatId), OrElse(body.fullName, b.fullName)) else [])
                  && s.reply == BcoSession(ctx, WithoutPassword(BcoIncluding(after, k, after.bcos.rows[k], false)), "Profile Updated successfully!"))
    ensures s.reply.Session? ==> "password" !in s.reply.user && "contact" !in s.reply.user
  {
    var b := db.bcos.rows[k];
    var p := BcoProvision(db, b, body.username, newId);
    var sync := AccountFlows.DirectorySync(p.chatId, OrElse(NormOpt(body.username), NormOpt(p.username)),
                                           OrEmpty(OrElse(body.fullName, b.fullName)));
    if CompanyNameOf(db, b.companyId).None? then Step(HandleErrors(Failed(NoCompany)), db, [sync])
    else
      var after := UpdateBcoWithCompany(db, Some(k), ProfilePatch(b, p, body), ProfileCompanyName(db, b, body)).value;
      var welcome := if p.filled then Chat.Welcome(OrEmpty(p.chatId), OrElse(body.fullName, b.fullName)) else [];
      Step(BcoSession(ctx, WithoutPassword(BcoIncluding(after, k, after.bcos.rows[k], false)), "Profile Updated successfully!"),
           after, [sync] + welcome)
  }

  /** `getBCODetail`: the signed-in BCO with its company and contact, and
      with its stored password hash, which this handler does not remove. */
  function BcoDetail(ctx: Ctx, db: Db, userId: Option<int>): (s: Step)
    ensures s.db == db && s.effects == []
    ensures userId.None? ==> s.reply == Msg(500, false, "Internal Server Error")
    ensures userId.Some? && !Present(db.bcos, userId) ==> s.reply == Msg(404, false, "User not found!")
    ensures s.reply.Session? ==>
              Present(db.bcos, userId)
              && s.reply.notice == Some("Profile fetched successfully!")
              && "id" in s.reply.user && s.reply.user["id"] == JInt(userId.value)
              && "password" in s.reply.user
              && s.reply.user["password"] == StrOrNull(db.bcos.rows[userId.value as nat].password)
              && "company" in s.reply.user && "contact" in s.reply.user
    ensures Present(db.bcos, userId) ==>
              (s.reply.Session? <==> Truthy(RoleSecret(ctx.env, Role.Bco)) && db.bcos.rows[userId.value as nat].chatId.Some?)
  {
    match FindById(db.bcos, userId)
    case Err(m) => Step(HandleErrors(Failed(m)), db, [])
    case Ok(None) => Step(Msg(404, false, "User not found!"), db, [])
    case Ok(Some(k)) =>
      ChatIdColumn(BcoIncluding(db, k, db.bcos.rows[k], true), db.bcos.rows[k].chatId);
      Step(BcoSession(ctx, BcoIncluding(db, k, db.bcos.rows[k], true),
                                             "Profile fetched successfully!"), db, [])
  }

  /** The page of `userId`'s suppliers a supplier handler answers with. */
  function SupplierPage(db: Db, userId: Option<int>, q: Query, message: string, failStatus: int): (reply: Reply)
    ensures Paginate(db.suppliers, SuppliersOf(userId), q).Ok? ==>
              reply.Listed? && reply.status == 200 && reply.message == message
              && (forall j :: 0 <= j < |reply.records| ==>
                    reply.records[j] in db.suppliers.rows && OwnedBy(db.suppliers.rows[reply.records[j]].bcoId, userId))
              && (db.suppliers.Valid() ==> reply.totalCount == |Matching(db.suppliers, SuppliersOf(userId))|)
    ensures Paginate(db.suppliers, SuppliersOf(userId), q).Err? ==> reply.Forward? && reply.status == failStatus
  {
    PageReply(Paginate(db.suppliers, SuppliersOf(userId), q), message, failStatus)
  }

  /** `fetchDashboardData`: the signed-in BCO's suppliers, page by page. */
  function FetchDashboard(db: Db, userId: Option<int>, q: Query): (s: Step)
    ensures s.db == db && s.effects == []
    ensures s.reply == SupplierPage(db, userId, q, "Supplier fetched successfully!", 500)
  {
    Step(SupplierPage(db, userId, q, "Supplier fetched successfully!", 500), db, [])
  }

  /** `addSupplier`: refused when one of the BCO's suppliers already has a
      company of this (trimmed) name; otherwise a company, a contact and a
      supplier are created, in that order. */
  function AddSupplier(db: Db, userId: Option<int>, contact: ContactInput, company: CompanyInput, q: Query): (s: Step)
    ensures s.effects == []
    ensures userId.None? ==> s == Step(Forward(400, MissingWhere), db, [])
    ensures userId.Some? && !Present(db.bcos, userId) ==> s == Step(Forward(404, "BCO not found"), db, [])
    ensures Present(db.bcos, userId) && |FindSupplierByCompany(db, userId, Trim(company.companyName), None)| > 0 ==>
              s == Step(Msg(400, false, CompanyInUse), db, [])
    ensures Present(db.bcos, userId) && |FindSupplierByCompany(db, userId, Trim(company.companyName), None)| == 0 ==>
              s == StoreSupplier(db, userId.value as nat, contact, company, q)
  {
    match FindById(db.bcos, userId)
    case Err(m) => Step(Forward(400, m), db, [])
    case Ok(None) => Step(Forward(404, "BCO not found"), db, [])
    case Ok(Some(k)) =>
      if |FindSupplierByCompany(db, userId, Trim(company.companyName), None)| > 0 then
        Step(Msg(400, false, CompanyInUse), db, [])
      else StoreSupplier(db, k, contact, company, q)
  }

  /** The writes of `addSupplier` for BCO `k`: the supplier belongs to `k`,
      carries the contact person's name and e-mail, and links the new
      company (whose name is the trimmed one) and contact. */
  function StoreSupplier(db: Db, k: nat, contact: ContactInput, company: CompanyInput, q: Query): (s: Step)
    requires k in db.bcos.rows
    ensures s.effects == []
    ensures s.db.bcos == db.bcos && s.db.forwarders == db.forwarders && s.db.tiers == db.tiers
    ensures db.Valid() ==>
              s.db.Valid()
              && s.db.suppliers.rows.Keys == db.suppliers.rows.Keys + {db.suppliers.next}
              && db.suppliers.next !in db.suppliers.rows
              && (forall j :: j in db.suppliers.rows ==> s.db.suppliers.rows[j] == db.suppliers.rows[j])
              && var n := s.db.suppliers.rows[db.suppliers.next];
                 n.bcoId == Some(k) && n.invitedStatus == "Pending" && n.fullName == contact.fullName
                 && n.email == contact.email && n.port == company.port && n.product == company.product
                 && CompanyNamed(s.db, n.companyId, Trim(company.companyName))
                 && s.reply == SupplierPage(s.db, Some(k), q, "Supplier created successfully!", 400)
  {
    var (db1, cid) := CreateCompany(db, company);
    match CreateContact(db1, contact, cid)
    case Err(m) => Step(Forward(400, m), db1, [])
    case Ok((db2, contactId)) =>
      match CreateSupplier(db2, contact.fullName, db2.contacts.rows[contactId].emailAddress, company.product, company.port,
                           k, contactId, cid)
      case Err(m) => Step(Forward(400, m), db2, [])
      case Ok((db3, _)) => Step(SupplierPage(db3, Some(k), q, "Supplier created successfully!", 400), db3, [])
  }

  /** `inviteSupplier`: the invitation mail, signed by the BCO's name;
      nothing is stored. */
  function InviteSupplier(ctx: Ctx, db: Db, userId: Option<int>, inv: Invite, q: Query): (s: Step)
    ensures s.db == db
    ensures userId.None? ==> s == Step(Forward(400, MissingWhere), db, [])
    ensures userId.Some? && !Present(db.bcos, userId) ==> s == Step(Forward(404, "ForwarderAdmin not found"), db, [])
    ensures Present(db.bcos, userId) ==>
              var mail := InvitationMail(ctx, inv, db.bcos.rows[userId.value as nat].fullName, "KARGO Supplier Invitation Email");
              (mail.Err? ==> s == Step(Forward(400, mail.message), db, []))
              && (mail.Ok? ==> s.effects == [mail.value]
                               && s.reply == SupplierPage(db, userId, q, "Please check your email: Invite sent to your account!", 400))
  {
    match FindById(db.bcos, userId)
    case Err(m) => Step(Forward(400, m), db, [])
    case Ok(None) => Step(Forward(404, "ForwarderAdmin not found"), db, [])
    case Ok(Some(k)) =>
      match InvitationMail(ctx, inv, db.bcos.rows[k].fullName, "KARGO Supplier Invitation Email")
      case Err(m) => Step(Forward(400, m), db, [])
      case Ok(mail) =>
        Step(SupplierPage(db, userId, q, "Please check your email: Invite sent to your account!", 400), db, [mail])
  }

  /** `deleteSupplier`: removes the supplier `dataId`, whoever owns it. */
  function DeleteSupplier(db: Db, userId: Option<int>, dataId: Option<int>, q: Query): (s: Step)
    ensures s.effects == []
    ensures dataId.None? ==> s == Step(Forward(500, MissingWhere), db, [])
    ensures dataId.Some? && !Present(db.suppliers, dataId) ==> s == Step(Forward(404, "Supplier not found"), db, [])
    ensures Present(db.suppliers, dataId) ==>
              s.db == db.(suppliers := s.db.suppliers)
              && s.db.suppliers.rows.Keys == db.suppliers.rows.Keys - {dataId.value as nat}
              && (forall j :: j in s.db.suppliers.rows ==> s.db.suppliers.rows[j] == db.suppliers.rows[j])
              && s.reply == SupplierPage(s.db, userId, q, "Supplier deleted successfully!", 500)
              && (s.reply.Listed? ==> dataId.value !in s.reply.records)
  {
    match FindById(db.suppliers, dataId)
    case Err(m) => Step(Forward(500, m), db, [])
    case Ok(None) => Step(Forward(404, "Supplier not found"), db, [])
    case Ok(Some(k)) =>
      var after := db.(suppliers := Delete(db.suppliers, k));
      Step(SupplierPage(after, userId, q, "Supplier deleted successfully!", 500), after, [])
  }


  /** `editSupplier`: the route's `supplierId` is parsed; the new company
      name must not be used by another of the BCO's suppliers. */
  function EditSupplier(db: Db, userId: Option<int>, supplierId: string, contact: ContactInput, company: CompanyInput,
                        q: Query): (s: Step)
    ensures s.effects == []
    ensures RouteId(supplierId).Err? ==> s == Step(Forward(500, RouteId(supplierId).message), db, [])
    ensures RouteId(supplierId).Ok? && !Present(db.suppliers, Some(RouteId(supplierId).value)) ==>
              s == Step(Forward(404, "Supplier not found"), db, [])
    ensures RouteId(supplierId).Ok? && Present(db.suppliers, Some(RouteId(supplierId).value)) ==>
              var k := RouteId(supplierId).value as nat;
              if |FindSupplierByCompany(db, userId, Trim(company.companyName), Some(k))| > 0 then
                s == Step(Msg(400, false, CompanyInUse), db, [])
              else s == ReviseSupplier(db, userId, k, contact, company, q)
  {
    match RouteId(supplierId)
    case Err(m) => Step(Forward(500, m), db, [])
    case Ok(sid) =>
      match FindById(db.suppliers, Some(sid))
      case Err(m) => Step(Forward(500, m), db, [])
      case Ok(None) => Step(Forward(404, "Supplier not found"), db, [])
      case Ok(Some(k)) =>
        if |FindSupplierByCompany(db, userId, Trim(company.companyName), Some(k))| > 0 then
          Step(Msg(400, false, CompanyInUse), db, [])
        else ReviseSupplier(db, userId, k, contact, company, q)
  }

  /** The writes of `editSupplier`: the company (and its warehouse), then
      the contact, then port and product. They are separate writes: when a
      later one fails, the earlier ones stay. */
  function ReviseSupplier(db: Db, userId: Option<int>, k: nat, contact: ContactInput, company: CompanyInput,
                          q: Query): (s: Step)
    requires k in db.suppliers.rows
    ensures s.effects == []
    ensures s.reply.Forward? || s.reply.Listed?
    ensures var sup := db.suppliers.rows[k];
            var c1 := UpdateCompanyDetails(db, sup.companyId, company);
            (c1.Err? ==> s == Step(Forward(500, c1.message), db, []))
            && (c1.Ok? ==>
                  var c2 := UpdateContactDetails(c1.value, sup.contactId, contact, sup.companyId);
                  (c2.Err? ==> s == Step(Forward(500, c2.message), c1.value, []))
                  && (c2.Ok? ==>
                        s.db == c2.value.(suppliers := s.db.suppliers)
                        && s.db.suppliers.rows
                           == db.suppliers.rows[k := sup.(port := ApplyOpt(sup.port, company.port),
                                                          product := ApplyOpt(sup.product, company.product))]
                        && s.reply == SupplierPage(s.db, userId, q, "Supplier updated successfully!", 500)))
  {
    var sup := db.suppliers.rows[k];
    match UpdateCompanyDetails(db, sup.companyId, company)
    case Err(m) => Step(Forward(500, m), db, [])
    case Ok(db1) =>
      match UpdateContactDetails(db1, sup.contactId, contact, sup.companyId)
      case Err(m) => Step(Forward(500, m), db1, [])
      case Ok(db2) =>
        var db3 := UpdateSupplier(db2, k, company.port, company.product).value;
        Step(SupplierPage(db3, userId, q, "Supplier updated successfully!", 500), db3, [])
  }

  /** `fetchBcoList`: every BCO, page by page. */
  function BcoList(db: Db, q: Query): (s: Step)
    ensures s.db == db && s.effects == []
    ensures Paginate(db.bcos, AnyBco, q).Ok? ==>
              s.reply.Listed? && s.reply.message == "BCO list fetched successfully!"
              && (db.bcos.Valid() ==> s.reply.totalCount == |db.bcos.rows|)
    ensures Paginate(db.bcos, AnyBco, q).Err? ==> s.reply.Forward? && s.reply.status == 500
  {
    CountAll(db.bcos, AnyBco);
    Step(PageReply(Paginate(db.bcos, AnyBco, q), "BCO list fetched successfully!", 500), db, [])
  }

  /** `deleteBCO`: removes the BCO `dataId`, then lists what is left. */
  function DeleteBco(db: Db, dataId: Option<int>, q: Query): (s: Step)
    ensures s.effects == []
    ensures dataId.None? ==> s == Step(Forward(500, MissingWhere), db, [])
    ensures dataId.Some? && !Present(db.bcos, dataId) ==> s == Step(Forward(404, "BCO not found"), db, [])
    ensures Present(db.bcos, dataId) ==>
              s.db == db.(bcos := s.db.bcos)
              && s.db.bcos.rows.Keys == db.bcos.rows.Keys - {dataId.value as nat}
              && (forall j :: j in s.db.bcos.rows ==> s.db.bcos.rows[j] == db.bcos.rows[j])
              && (s.reply.Listed? ==> s.reply.message == "BCO Deleted Successfully!"
                                      && dataId.value !in s.reply.records)
  {
    match FindById(db.bcos, dataId)
    case Err(m) => Step(Forward(500, m), db, [])
    case Ok(None) => Step(Forward(404, "BCO not found"), db, [])
    case Ok(Some(k)) =>
      var after := db.(bcos := Delete(db.bcos, k));
      Step(PageReply(Paginate(after.bcos, AnyBco, q), "BCO Deleted Successfully!", 500), after, [])
  }
}
