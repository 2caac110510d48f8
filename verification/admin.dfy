/** The platform administrator's handlers: sign-up (one account per
    e-mail address, stored with the "admin" role and a fresh chat id),
    login (a chat id is assigned only when the account has none; no
    username is ever derived) and the profile of the signed-in admin. */
module AdminFlows {
  import opened Values
  import opened Text
  import opened Http
  import opened Context
  import opened Errors
  import opened Issuer
  import opened Tables
  import opened Schema
  import Chat
  import AccountFlows
  import opened Provision

  const AlreadyUser := "You are already a user, please signIn!"

  /** `checkAdminExistence(email)`: the admin with this e-mail address. */
  function FindAdmin(db: Db, email: string): (r: Option<nat>)
    ensures r.Some? ==> r.value in db.admins.rows && db.admins.rows[r.value].email == email
    ensures db.admins.Valid() ==> (r.None? <==> forall k :: k in db.admins.rows ==> db.admins.rows[k].email != email)
  {
    FindFirst(db.admins, (a: Admin) => a.email == email)
  }

  /** `sendAdminToken`: the admin's session, or a 500 when `ADMIN_SECRET`
      is unset or the record has no chat id. */
  function AdminSession(ctx: Ctx, user: Obj, message: string): (r: Reply)
    ensures r.Session? <==> Truthy(RoleSecret(ctx.env, Role.Admin)) && ChatIdOf(user).Some?
    ensures !r.Session? ==> r == Msg(500, false, "Internal Server Error")
    ensures r.Session? ==> r.status == 200 && r.notice == Some(message) && r.cookies == []
                           && r.user.Keys == user.Keys + {"accessToken", "chatToken", "role"}
                           && r.user["role"] == JStr("admin")
                           && ("password" in r.user <==> "password" in user)
                           && ("password" in user ==> r.user["password"] == user["password"])
  {
    AccountFlows.Answer(SendRoleToken(ctx, Role.Admin, user, 200, message))
  }

  /** The row `createAdmin` stores. */
  function NewAdmin(fullName: string, email: string, username: string, hashed: string, chatId: string): Admin {
    Schema.Admin(fullName, email, Some(username), "admin", Some(hashed), Some(chatId))
  }

  /** `adminSignup`: refused when the e-mail address is taken; otherwise
      the admin is stored with the hashed password and a fresh chat id,
      registered in the chat directory and greeted. The session it answers
      with carries the stored row, password hash included. */
  function AdminSignup(ctx: Ctx, db: Db, fullName: string, email: string, username: string, password: string,
                       hash: string -> string, chatId: string): (s: Step)
    ensures FindAdmin(db, email).Some? ==> s == Step(Msg(400, false, AlreadyUser), db, [])
    ensures FindAdmin(db, email).None? ==>
              var row := NewAdmin(fullName, email, username, hash(password), chatId);
              s.db == db.(admins := s.db.admins)
              && s.db.admins.rows == db.admins.rows[db.admins.next := row]
              && (db.Valid() ==> s.db.Valid() && db.admins.next !in db.admins.rows)
              && s.effects == [Chat.CreateUserFunction(Some(chatId), Some(fullName), Some(username), Some(""))]
                              + Chat.Welcome(chatId, Some(fullName))
              && s.reply == AdminSession(ctx, AdminObj(db.admins.next, row), "Signup Successfully!")
              && (s.reply.Session? ==> s.reply.user["password"] == JStr(hash(password)))
  {
    match FindAdmin(db, email)
    case Some(_) => Step(Msg(400, false, AlreadyUser), db, [])
    case None =>
      var row := NewAdmin(fullName, email, username, hash(password), chatId);
      var (admins, id) := Insert(db.admins, row);
      Step(AdminSession(ctx, AdminObj(id, row), "Signup Successfully!"), db.(admins := admins),
           [Chat.CreateUserFunction(Some(chatId), Some(fullName), Some(username), Some(""))]
           + Chat.Welcome(chatId, Some(fullName)))
  }

  /** `loginAdmin`: find the admin by e-mail and check the password, then
      `SignInAdmin`. */
  function LoginAdmin(ctx: Ctx, db: Db, email: string, password: string, newId: string): (s: Step)
    ensures FindAdmin(db, email).None? ==>
              s == Step(Msg(404, false, "User not found, please create admin user!"), db, [])
    ensures FindAdmin(db, email).Some? ==>
              var k := FindAdmin(db, email).value;
              if ctx.svc.compare(password, OrEmpty(db.admins.rows[k].password)) then s == SignInAdmin(ctx, db, k, newId)
              else s == Step(Msg(400, false, "Username or password is invalid!"), db, [])
  {
    match FindAdmin(db, email)
    case None => Step(Msg(404, false, "User not found, please create admin user!"), db, [])
    case Some(k) =>
      if !ctx.svc.compare(password, OrEmpty(db.admins.rows[k].password)) then
        Step(Msg(400, false, "Username or password is invalid!"), db, [])
      else SignInAdmin(ctx, db, k, newId)
  }

  /** A login past the password check. An admin without a chat id gets
      `newId`, written back with the rest of the row, synced to the chat
      directory under its normalised username and greeted; an admin with
      one is left as it is. The session never carries the password. */
  function SignInAdmin(ctx: Ctx, db: Db, k: nat, newId: string): (s: Step)
    requires k in db.admins.rows
    ensures var a := db.admins.rows[k];
            var a' := if Truthy(a.chatId) then a else a.(chatId := Some(newId));
            s.reply == AdminSession(ctx, WithoutPassword(AdminObj(k, a')), "Login successfully!")
            && (s.reply.Session? ==> "password" !in s.reply.user && s.reply.notice == Some("Login successfully!"))
            && (Truthy(a.chatId) ==> s.db == db && s.effects == [])
            && (!Truthy(a.chatId) ==>
                  s.db == db.(admins := s.db.admins)
                  && s.db.admins.rows == db.admins.rows[k := a.(chatId := Some(newId))]
                  && s.effects == [AccountFlows.DirectorySync(Some(newId), NormOpt(a.username), a.fullName)]
                                  + Chat.Welcome(newId, Some(a.fullName)))
  {
    var a := db.admins.rows[k];
    if Truthy(a.chatId) then
      Step(AdminSession(ctx, WithoutPassword(AdminObj(k, a)), "Login successfully!"), db, [])
    else
      var a' := a.(chatId := Some(newId));
      Step(AdminSession(ctx, WithoutPassword(AdminObj(k, a')), "Login successfully!"),
           db.(admins := Put(db.admins, k, a')),
           [AccountFlows.DirectorySync(Some(newId), NormOpt(a.username), a.fullName)] + Chat.Welcome(newId, Some(a.fullName)))
  }

  /** `getAdminDetails`: the signed-in admin's row, password hash included. */
  function AdminDetail(ctx: Ctx, db: Db, userId: Option<int>): (s: Step)
    ensures s.db == db && s.effects == []
    ensures userId.None? ==> s.reply == Msg(500, false, "Internal Server Error")
    ensures userId.Some? && !Present(db.admins, userId) ==> s.reply == Msg(404, false, "User not found!")
    ensures Present(db.admins, userId) ==>
              var k := userId.value as nat;
              s.reply == AdminSession(ctx, AdminObj(k, db.admins.rows[k]), "Profile fetched successfully!")
              && (s.reply.Session? ==> s.reply.user["password"] == StrOrNull(db.admins.rows[k].password))
              && (s.reply.Session? <==> Truthy(RoleSecret(ctx.env, Role.Admin)) && db.admins.rows[k].chatId.Some?)
  {
    match FindById(db.admins, userId)
    case Err(m) => Step(HandleErrors(Failed(m)), db, [])
    case Ok(None) => Step(Msg(404, false, "User not found!"), db, [])
    case Ok(Some(k)) =>
      ChatIdColumn(AdminObj(k, db.admins.rows[k]), db.admins.rows[k].chatId);
      Step(AdminSession(ctx, AdminObj(k, db.admins.rows[k]), "Profile fetched successfully!"), db, [])
  }
}
