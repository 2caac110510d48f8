/** What the account handlers guarantee across calls: the e-mailed code
    round trip from registration to activation, what a wrong or late code
    gets, that a fresh account logs in without further provisioning, that
    logins settle, and how a profile update merges into the stored row. */
module AccountLaws {
  import opened Values
  import opened Text
  import opened Short
  import opened Jws
  import opened Http
  import opened Context
  import opened Errors
  import opened Issuer
  import opened Tables
  import opened Schema
  import opened Provision
  import opened AccountStore
  import opened AccountFlows

  /** The registration a sign-up form embeds in its activation token. */
  function Embedded(form: SignUp, hash: string -> string): Registration {
    Registration(form.email, hash(form.password), form.fullName, form.companyName)
  }

  /** What registration hands out verifies, within fifteen minutes, to the
      embedded registration and the mailed code. */
  lemma {:induction false} IssuedToken(ctx: Ctx, db: Db, kind: Kind, form: SignUp, hash: string -> string, draw: nat,
                                       later: int)
    requires Sound(ctx.svc.jwt) && draw < 9000
    requires Register(ctx, db, kind, form, hash, draw).reply.ActivationSent?
    ensures var r := Register(ctx, db, kind, form, hash, draw);
            Verify(ctx.svc.jwt, r.reply.activationToken, ctx.env.activationSecret, later)
            == if later < ctx.now + 900 then Valid(ActivationClaims(Embedded(form, hash), ActivationCode(draw)))
               else Expired
    ensures FindByEmail(db, kind, form.email).None?
  {
    ActivationTokenCarriesCode(ctx, Embedded(form, hash), draw, later);
  }

  /** Registering and then activating with the mailed code, within fifteen
      minutes, creates exactly one account: the next id of the kind's table,
      holding the registration with the hashed password, the fresh chat id,
      the derived username, the kind's role and the activation token; the
      user is registered and welcomed in the chat directory. */
  lemma {:induction false} RegisterThenActivate(ctx: Ctx, db: Db, kind: Kind, form: SignUp, hash: string -> string,
                                                draw: nat, later: int, newId: string)
    requires Sound(ctx.svc.jwt) && draw < 9000 && db.Valid()
    requires Register(ctx, db, kind, form, hash, draw).reply.ActivationSent?
    requires later < ctx.now + 900 && Truthy(ctx.env.refreshToken)
    ensures var r := Register(ctx, db, kind, form, hash, draw);
            var a := Activate(ctx.(now := later), db, kind, r.reply.activationToken, MailedCode(r.effects[0]), newId);
            var t := Accounts(db, kind);
            var row := Accounts(a.db, kind).rows[t.next];
            a.db == WithAccounts(db, kind, Accounts(a.db, kind))
            && t.next !in t.rows
            && Accounts(a.db, kind).rows == t.rows[t.next := row]
            && row.email == form.email && row.password == Some(hash(form.password))
            && row.fullName == form.fullName && row.companyName == form.companyName
            && row.chatId == Some(newId) && row.username == Some(GenerateUsername(form.email, form.companyName))
            && row.role == kind.RoleColumn() && row.accessToken == r.reply.activationToken
            && a.effects == ActivationEffects(Embedded(form, hash), newId) && |a.effects| == 4
            && a.db.Valid()
            && (Truthy(RoleSecret(ctx.env, kind.Role())) ==> a.reply.Session? && a.reply.status == 201)
  {
    var r := Register(ctx, db, kind, form, hash, draw);
    IssuedToken(ctx, db, kind, form, hash, draw, later);
    var user := Embedded(form, hash);
    var ctx' := ctx.(now := later);
    assert Verify(ctx'.svc.jwt, r.reply.activationToken, ctx'.env.activationSecret, ctx'.now)
           == Valid(ActivationClaims(user, ActivationCode(draw)));
    assert Activate(ctx', db, kind, r.reply.activationToken, MailedCode(r.effects[0]), newId)
           == Admit(ctx', db, kind, r.reply.activationToken, user, newId);
  }

  /** Any other code, or none, is refused with 401 and nothing is stored or
      sent. */
  lemma {:induction false} WrongCodeRefused(ctx: Ctx, db: Db, kind: Kind, form: SignUp, hash: string -> string,
                                            draw: nat, later: int, code: Option<string>, newId: string)
    requires Sound(ctx.svc.jwt) && draw < 9000
    requires Register(ctx, db, kind, form, hash, draw).reply.ActivationSent?
    requires later < ctx.now + 900
    requires code != MailedCode(Register(ctx, db, kind, form, hash, draw).effects[0])
    ensures Activate(ctx.(now := later), db, kind, Register(ctx, db, kind, form, hash, draw).reply.activationToken,
                     code, newId)
            == Step(Refused(401, InvalidOtp), db, [])
  {
    IssuedToken(ctx, db, kind, form, hash, draw, later);
  }

  /** From the fifteenth minute on, even the right code gets the expiry
      answer, and nothing is stored or sent. */
  lemma {:induction false} LateActivationExpired(ctx: Ctx, db: Db, kind: Kind, form: SignUp, hash: string -> string,
                                                 draw: nat, later: int, code: Option<string>, newId: string)
    requires Sound(ctx.svc.jwt) && draw < 9000
    requires Register(ctx, db, kind, form, hash, draw).reply.ActivationSent?
    requires later >= ctx.now + 900
    ensures Activate(ctx.(now := later), db, kind, Register(ctx, db, kind, form, hash, draw).reply.activationToken,
                     code, newId)
            == Step(Msg(401, false, "Activation token has expired"), db, [])
  {
    IssuedToken(ctx, db, kind, form, hash, draw, later);
  }

  /** Asking for the code again hands back the very token registration
      issued and mails the very same code, as long as the e-mail is still
      free and the token has not expired. */
  lemma {:induction false} ResendRepeatsRegistration(ctx: Ctx, db: Db, kind: Kind, form: SignUp, hash: string -> string,
                                                     draw: nat, later: int)
    requires Sound(ctx.svc.jwt) && draw < 9000
    requires Register(ctx, db, kind, form, hash, draw).reply.ActivationSent?
    requires later < ctx.now + 900
    ensures var r := Register(ctx, db, kind, form, hash, draw);
            Resend(ctx.(now := later), db, kind, r.reply.activationToken)
            == Step(ActivationSent(201, "OTP Sent Successfully!", r.reply.activationToken), db, r.effects)
  {
    IssuedToken(ctx, db, kind, form, hash, draw, later);
    ActivationCodeShape(draw);
  }

  /** The e-mail is checked before the company name: a registration whose
      e-mail is taken is refused for the e-mail whatever the company. */
  lemma EmailCheckedFirst(ctx: Ctx, db: Db, kind: Kind, form: SignUp, hash: string -> string, draw: nat, k: nat)
    requires draw < 9000 && db.Valid()
    requires k in Accounts(db, kind).rows && Accounts(db, kind).rows[k].email == form.email
    ensures Register(ctx, db, kind, form, hash, draw) == Step(Msg(400, false, "Email Already existed!"), db, [])
  {
  }

  /** Logging in with the e-mail of an account finds that account when it
      is the only one with the e-mail. */
  lemma {:induction false} FoundAfterInsert(db: Db, kind: Kind, email: string, after: Db, id: nat)
    requires Accounts(db, kind).Valid() && FindByEmail(db, kind, email).None?
    requires id !in Accounts(db, kind).rows && Accounts(after, kind).Valid()
    requires id in Accounts(after, kind).rows && Accounts(after, kind).rows[id].email == email
    requires forall k :: k in Accounts(after, kind).rows && k != id ==>
                           k in Accounts(db, kind).rows && Accounts(after, kind).rows[k] == Accounts(db, kind).rows[k]
    ensures FindByEmail(after, kind, email) == Some(id)
  {
  }

  /** An account that has a chat id and a username is not provisioned again. */
  lemma Settled(a: Account, newId: string)
    requires Truthy(a.chatId) && Truthy(a.username)
    ensures !ProvisionAccount(a, None, newId).filled && LoggedInRow(a, newId) == a
  {
  }

  /** A freshly activated account logs in (with the password it registered
      and any new id) without provisioning: the store is left as it is, a
      forwarder admin's directory entry is synced once, a broker's login
      calls nothing. */
  lemma {:induction false} ActivatedAccountLogsIn(ctx: Ctx, db: Db, kind: Kind, form: SignUp, hash: string -> string,
                                                  draw: nat, later: int, newId: string, newId2: string)
    requires Sound(ctx.svc.jwt) && draw < 9000 && db.Valid()
    requires Register(ctx, db, kind, form, hash, draw).reply.ActivationSent?
    requires later < ctx.now + 900 && Truthy(ctx.env.refreshToken)
    requires ctx.svc.compare(form.password, OrEmpty(Some(hash(form.password)))) && newId != ""
    ensures var r := Register(ctx, db, kind, form, hash, draw);
            var a := Activate(ctx.(now := later), db, kind, r.reply.activationToken, MailedCode(r.effects[0]), newId);
            var l := Login(ctx, a.db, kind, form.email, form.password, newId2);
            l.db == a.db
            && (kind.ForwarderAdmins? ==> |l.effects| == 1)
            && (kind.Brokers? ==> l.effects == [])
            && (Truthy(RoleSecret(ctx.env, kind.Role())) ==> l.reply.Session? && l.reply.status == 200)
  {
    var r := Register(ctx, db, kind, form, hash, draw);
    RegisterThenActivate(ctx, db, kind, form, hash, draw, later, newId);
    var a := Activate(ctx.(now := later), db, kind, r.reply.activationToken, MailedCode(r.effects[0]), newId);
    DerivedUsernameSettled(form.email, form.companyName);
    LoginToNewRow(ctx, db, kind, form.email, form.password, a.db, newId2);
  }

  /** Login to a store that differs from `db` by one new row, the only one
      with its e-mail, which has a chat id, a username and a password that
      matches. */
  lemma {:induction false} LoginToNewRow(ctx: Ctx, db: Db, kind: Kind, email: string, password: string, after: Db,
                                         newId2: string)
    requires db.Valid() && after.Valid() && FindByEmail(db, kind, email).None?
    requires after == WithAccounts(db, kind, Accounts(after, kind))
    requires var t := Accounts(db, kind);
             t.next !in t.rows && t.next in Accounts(after, kind).rows
             && Accounts(after, kind).rows == t.rows[t.next := Accounts(after, kind).rows[t.next]]
    requires var row := Accounts(after, kind).rows[Accounts(db, kind).next];
             row.email == email && Truthy(row.chatId) && Truthy(row.username)
             && ctx.svc.compare(password, OrEmpty(row.password))
    ensures var l := Login(ctx, after, kind, email, password, newId2);
            l.db == after
            && (kind.ForwarderAdmins? ==> |l.effects| == 1)
            && (kind.Brokers? ==> l.effects == [])
            && (Truthy(RoleSecret(ctx.env, kind.Role())) ==> l.reply.Session? && l.reply.status == 200)
  {
    var id := Accounts(db, kind).next;
    var row := Accounts(after, kind).rows[id];
    FoundAfterInsert(db, kind, email, after, id);
    Settled(row, newId2);
    assert Login(ctx, after, kind, email, password, newId2) == SignIn(ctx, after, kind, id, newId2);
    WriteBackUnchanged(after, kind, id);
  }

  /** Logins settle: after one successful login, logging in again with the
      same credentials provisions nothing, so it changes nothing in the
      store and sends no welcome. */
  lemma {:induction false} SecondLoginSettled(ctx: Ctx, db: Db, kind: Kind, email: string, password: string,
                                              newId: string, newId2: string)
    requires FindByEmail(db, kind, email).Some? && newId != ""
    requires ctx.svc.compare(password, OrEmpty(Accounts(db, kind).rows[FindByEmail(db, kind, email).value].password))
    ensures var s1 := Login(ctx, db, kind, email, password, newId);
            var s2 := Login(ctx, s1.db, kind, email, password, newId2);
            s2.db == s1.db && |s2.effects| <= 1
  {
    var k := FindByEmail(db, kind, email).value;
    var a := Accounts(db, kind).rows[k];
    var a' := LoggedInRow(a, newId);
    var s1 := Login(ctx, db, kind, email, password, newId);
    assert s1 == SignIn(ctx, db, kind, k, newId);
    DerivedUsernameSettled(a.email, a.companyName);
    ProvisionIdempotent(a.chatId, a.username, newId, GenerateUsername(a.email, a.companyName),
                        newId2, GenerateUsername(a.email, a.companyName));
    assert LoggedInRow(a', newId2) == a';
    if kind.ForwarderAdmins? || ProvisionAccount(a, None, newId).filled {
      FindFirstAfterPut(Accounts(db, kind), (x: Account) => x.email == email, k, a');
      assert FindByEmail(s1.db, kind, email) == Some(k);
      WriteBackUnchanged(s1.db, kind, k);
    }
  }

  /** How a profile update merges into the stored row: a supplied (non-
      empty) field replaces the column, a missing or empty one keeps it;
      the e-mail, password, role, tokens, avatar and account number never
      change; a broker's customs number follows its registration number,
      a forwarder admin's is untouched; a usable supplied username is
      stored normalised; and the row always has a chat id afterwards. */
  lemma UpdateMerges(kind: Kind, a: Account, body: Profile, newId: string)
    requires newId != ""
    ensures var b := EditedRow(kind, a, body, newId);
            b.email == a.email && b.password == a.password && b.role == a.role
            && b.accessToken == a.accessToken && b.refreshToken == a.refreshToken && b.avatar == a.avatar
            && b.kargoAccountNumber == a.kargoAccountNumber
            && b.fullName == (if Truthy(body.fullName) then body.fullName.value else a.fullName)
            && b.companyName == (if Truthy(body.companyName) then body.companyName.value else a.companyName)
            && b.physicalAddress == (if Truthy(body.physicalAddress) then body.physicalAddress else a.physicalAddress)
            && b.businessRegistrationNumber
               == (if Truthy(body.businessRegistrationNumber) then body.businessRegistrationNumber
                   else a.businessRegistrationNumber)
            && b.vatNumber == (if Truthy(body.vatNumber) then body.vatNumber else a.vatNumber)
            && b.phoneNumber == (if Truthy(body.phoneNumber) then body.phoneNumber else a.phoneNumber)
            && (kind.ForwarderAdmins? ==> b.customsRegistrationNumber == a.customsRegistrationNumber)
            && (kind.Brokers? && (Truthy(body.businessRegistrationNumber) || Truthy(a.businessRegistrationNumber))
                ==> b.customsRegistrationNumber == b.businessRegistrationNumber)
            && (Truthy(NormOpt(body.username)) ==> b.username == NormOpt(body.username))
            && Truthy(b.chatId)
  {
    FallbackMerge(body.physicalAddress, a.physicalAddress);
    FallbackMerge(body.businessRegistrationNumber, a.businessRegistrationNumber);
    FallbackMerge(body.vatNumber, a.vatNumber);
    FallbackMerge(body.phoneNumber, a.phoneNumber);
  }

  /** A username is refused only when it is really held: by a forwarder
      admin or a BCO, or, for a broker, also by another broker. Keeping
      one's own (normalised) username is never refused. */
  lemma RefusedNameIsHeld(db: Db, kind: Kind, a: Account, u: string)
    requires db.Valid()
    ensures UsernameRefused(db, kind, a, Some(u)) ==>
              (exists k :: k in db.forwarders.rows && db.forwarders.rows[k].username == Some(Normalize(u)))
              || (exists k :: k in db.bcos.rows && db.bcos.rows[k].username == Some(Normalize(u)))
              || (kind.Brokers? && exists k :: k in db.chbs.rows && db.chbs.rows[k].username == Some(Normalize(u)))
    ensures NormOpt(a.username) == Some(Normalize(u)) ==> !UsernameRefused(db, kind, a, Some(u))
  {
    AvailabilityTables(db, Normalize(u));
  }

  /** A profile update to a company name that another account of the same
      kind holds is refused by the store: a 500, nothing written and no
      chat calls. */
  lemma {:induction false} TakenCompanyNameFails(ctx: Ctx, db: Db, kind: Kind, k: nat, j: nat, body: Profile, newId: string)
    requires k in Accounts(db, kind).rows && j in Accounts(db, kind).rows && j != k
    requires Truthy(body.companyName) && body.companyName.value == Accounts(db, kind).rows[j].companyName
    ensures Edit(ctx, db, kind, k, body, newId) == Step(Msg(500, false, "Internal Server Error"), db, [])
  {
    var a := Accounts(db, kind).rows[k];
    var e := EditedRow(kind, a, body, newId);
    assert e.companyName == body.companyName.value;
    assert Some(j) != Some(k);
    assert Clashes(Accounts(db, kind), Some(k), e.email, e.companyName);
  }

  /** Two registrations for one company under different e-mails can both
      be issued, since nothing is stored until activation; only the first
      activation creates an account, and the second is refused by the
      store with a 500 and no chat calls. */
  lemma {:induction false} SameCompanyActivatedOnce(ctx: Ctx, db: Db, kind: Kind, token1: string, token2: string,
                                                    u1: Registration, u2: Registration, newId1: string, newId2: string)
    requires db.Valid() && u1.email != u2.email && u1.companyName == u2.companyName
    requires FindByEmail(db, kind, u1.email).None? && FindByEmail(db, kind, u2.email).None?
    requires CreateUser(ctx, db, kind, NewAccountOf(u1, newId1), token1).Ok?
    ensures var a1 := Admit(ctx, db, kind, token1, u1, newId1);
            a1.db == CreateUser(ctx, db, kind, NewAccountOf(u1, newId1), token1).value.0
            && Admit(ctx, a1.db, kind, token2, u2, newId2) == Step(Msg(500, false, "Internal Server Error"), a1.db, [])
  {
    var (after, id) := CreateUser(ctx, db, kind, NewAccountOf(u1, newId1), token1).value;
    var t' := Accounts(after, kind);
    assert Admit(ctx, db, kind, token1, u1, newId1).db == after;
    assert t'.rows[id].companyName == u2.companyName && Some(id) != None;
    assert Clashes(t', None, u2.email, u2.companyName);
    forall i | i in t'.rows ensures t'.rows[i].email != u2.email {
      if i != id {
        assert i in Accounts(db, kind).rows;
      }
    }
  }
}
