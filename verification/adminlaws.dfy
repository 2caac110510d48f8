/** What the admin handlers guarantee across calls: one account per e-mail
    address, a fresh account logs in without further writes, and a chat id
    is assigned at most once. */
module AdminLaws {
  import opened Values
  import opened Http
  import opened Context
  import opened Tables
  import opened Schema
  import opened AdminFlows

  /** After a sign-up, a second one with the same e-mail address is refused
      and changes nothing, whatever else it carries. */
  lemma {:induction false} AdminSignupTwiceRefused(ctx: Ctx, db: Db, fullName: string, email: string, username: string,
                                                   password: string, hash: string -> string, chatId: string,
                                                   fullName2: string, username2: string, password2: string,
                                                   chatId2: string)
    requires db.Valid() && FindAdmin(db, email).None?
    ensures var s := AdminSignup(ctx, db, fullName, email, username, password, hash, chatId);
            AdminSignup(ctx, s.db, fullName2, email, username2, password2, hash, chatId2)
            == Step(Msg(400, false, AlreadyUser), s.db, [])
  {
    var s := AdminSignup(ctx, db, fullName, email, username, password, hash, chatId);
    var n := db.admins.next;
    assert s.db.admins.Valid();
    assert n in s.db.admins.rows && s.db.admins.rows[n].email == email;
  }

  /** The admin a sign-up stores logs in with the same e-mail address and
      password: its chat id is already set, so nothing is written or sent,
      and the session is the stored row without its password. */
  lemma {:induction false} AdminSignupThenLogin(ctx: Ctx, db: Db, fullName: string, email: string, username: string,
                                               password: string, hash: string -> string, chatId: string, newId: string)
    requires db.Valid() && FindAdmin(db, email).None?
    requires chatId != "" && ctx.svc.compare(password, hash(password))
    ensures var s := AdminSignup(ctx, db, fullName, email, username, password, hash, chatId);
            var n := db.admins.next;
            LoginAdmin(ctx, s.db, email, password, newId)
            == Step(AdminSession(ctx, WithoutPassword(AdminObj(n, NewAdmin(fullName, email, username, hash(password), chatId))),
                                 "Login successfully!"), s.db, [])
  {
    var s := AdminSignup(ctx, db, fullName, email, username, password, hash, chatId);
    var n := db.admins.next;
    var r := FindAdmin(s.db, email);
    assert s.db.admins.Valid() && n in s.db.admins.rows && s.db.admins.rows[n].email == email;
    assert r.Some?;
    if r.value != n {
      assert false;
    }
  }

  /** A chat id is assigned at most once: after a login that assigned one,
      the next login of the same admin writes and sends nothing; only the
      chat id column changed. */
  lemma {:induction false} AdminLoginSettles(ctx: Ctx, db: Db, k: nat, newId: string, ctx2: Ctx, newId2: string)
    requires k in db.admins.rows && newId != ""
    ensures var s := SignInAdmin(ctx, db, k, newId);
            var a := db.admins.rows[k];
            k in s.db.admins.rows
            && s.db.admins.rows[k] == a.(chatId := if Truthy(a.chatId) then a.chatId else Some(newId))
            && var s2 := SignInAdmin(ctx2, s.db, k, newId2);
               s2.db == s.db && s2.effects == []
  {
    var s := SignInAdmin(ctx, db, k, newId);
    assert Truthy(s.db.admins.rows[k].chatId);
  }
}
