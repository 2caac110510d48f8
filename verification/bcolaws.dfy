/** Properties that relate several BCO handler calls: registering twice,
    accepting an invitation through the mailed link, logging in twice,
    what a profile update writes, and adding or renaming suppliers. */
module BcoLaws {
  import opened Values
  import opened Text
  import opened Short
  import opened Jws
  import opened Http
  import opened Context
  import opened Errors
  import opened Issuer
  import opened Tables
  import opened Schema
  import opened Paging
  import opened Provision
  import AccountFlows
  import opened CompanyStore
  import opened BcoStore
  import opened OwnedStore
  import opened Invitation
  import opened BcoFlows

  /** Every BCO's company link points at an existing company. */
  ghost predicate CompanyLinksExist(db: Db) {
    forall k :: k in db.bcos.rows && db.bcos.rows[k].companyId.Some? ==>
                  db.bcos.rows[k].companyId.value in db.companies.rows
  }

  /** After a self-registration, registering again with the same e-mail
      and the same company name up to surrounding white space is refused,
      whatever id or invite token the second request carries. */
  lemma {:induction false} RegisterTwiceRefused(ctx: Ctx, db: Db, form: AccountFlows.SignUp, hash: string -> string,
                                                newId: string, again: BcoSignUp, newId2: string)
    requires db.Valid() && CompanyLinksExist(db)
    requires CheckBcoExistenceForCompany(db, form.email, form.companyName).None?
    requires hash(form.password) != ""
    requires again.form.email == form.email && Trim(again.form.companyName) == Trim(form.companyName)
    ensures var s := SelfSignup(ctx, db, form, hash(form.password), newId);
            RegisterBco(ctx, s.db, again, hash, newId2) == Step(Msg(400, false, AlreadyUser), s.db, [])
  {
    var s := SelfSignup(ctx, db, form, hash(form.password), newId);
    var n := db.bcos.next;
    var name := Trim(form.companyName);
    assert s.db.bcos.rows[n].companyId == Some(db.companies.next);
    assert s.db.bcos.rows[n].emailAddress == form.email;
    var found := CheckBcoExistenceForCompany(s.db, form.email, again.form.companyName);
    assert found.Some?;
    var k := found.value;
    if k != n {
      assert false;
    }
  }

  /** The link an invitation mail carries opens the sign-up: for a day
      the token passes `registerBCO`'s check, and an invitation with an id
      then fills in that row; after a day the token is refused as expired
      (with the activation wording of `handleErrors`). */
  lemma InvitationLinkSignsUp(ctx: Ctx, inv: Invite, inviterName: Option<string>, subject: string, db: Db,
                              form: AccountFlows.SignUp, hash: string -> string, newId: string, later: int)
    requires Sound(ctx.svc.jwt)
    requires InvitationMail(ctx, inv, inviterName, subject).Ok?
    requires !AlreadyRegistered(db, form)
    ensures var link := InvitationMail(ctx, inv, inviterName, subject).value.data["signupLink"];
            var token := link.s[|LinkPrefix(ctx.env)|..];
            var s := RegisterBco(ctx.(now := later), db, BcoSignUp(form, inv.id, Some(token)), hash, newId);
            (later < ctx.now + Day && TruthyInt(inv.id) ==>
               s == AcceptInvite(ctx.(now := later), db, inv.id, form.fullName, hash(form.password)))
            && (later < ctx.now + Day && !TruthyInt(inv.id) ==>
                  s == SelfSignup(ctx.(now := later), db, form, hash(form.password), newId))
            && (later >= ctx.now + Day ==>
                  s == Step(Msg(401, false, "Activation token has expired"), db, []))
  {
    InvitationLinkVerifies(ctx, inv, inviterName, subject, later);
    var link := InvitationMail(ctx, inv, inviterName, subject).value.data["signupLink"];
    var token := link.s[|LinkPrefix(ctx.env)|..];
    assert Truthy(Some(token)) by {
      var t := InviteToken(ctx, InviteClaimsOf(inv)).value;
      assert link.s == LinkPrefix(ctx.env) + t;
      assert token == t;
      assert t != [];
    }
  }

  /** A login that provisions writes exactly the provisioned chat id and
      the normalised username into the row; the company is rewritten with
      its own name, so it does not change. */
  lemma LoginWritesProvisioned(ctx: Ctx, db: Db, k: nat, newId: string)
    requires k in db.bcos.rows
    requires CompanyNameOf(db, db.bcos.rows[k].companyId).Some?
    requires BcoProvision(db, db.bcos.rows[k], None, newId).filled
    ensures var b := db.bcos.rows[k];
            var p := BcoProvision(db, b, None, newId);
            var s := SignInBco(ctx, db, k, newId);
            s.db.companies == db.companies
            && s.db == db.(bcos := s.db.bcos)
            && s.db.bcos.rows == db.bcos.rows[k := b.(chatId := p.chatId, username := NormOpt(p.username))]
  {
    var b := db.bcos.rows[k];
    var p := BcoProvision(db, b, None, newId);
    var s := SignInBco(ctx, db, k, newId);
    var c := b.companyId.value;
    assert s.db.companies.rows == db.companies.rows;
    assert p.chatId.Some? && p.username.Some?;
    assert PatchedBco(b, LoginPatch(p)) == b.(chatId := p.chatId, username := NormOpt(p.username));
  }

  /** Logging in again after a login changes nothing and calls nothing,
      provided the fresh chat id is not empty and a stored username does
      not normalise to the empty string. */
  lemma LoginTwiceSettles(ctx: Ctx, db: Db, k: nat, newId: string, ctx2: Ctx, newId2: string)
    requires k in db.bcos.rows && newId != ""
    requires CompanyNameOf(db, db.bcos.rows[k].companyId).Some?
    requires !Truthy(db.bcos.rows[k].username) || Normalize(db.bcos.rows[k].username.value) != ""
    ensures var s := SignInBco(ctx, db, k, newId);
            k in s.db.bcos.rows
            && SignInBco(ctx2, s.db, k, newId2).db == s.db
            && SignInBco(ctx2, s.db, k, newId2).effects == []
  {
    var b := db.bcos.rows[k];
    var p := BcoProvision(db, b, None, newId);
    var s := SignInBco(ctx, db, k, newId);
    if p.filled {
      LoginWritesProvisioned(ctx, db, k, newId);
      var b1 := s.db.bcos.rows[k];
      assert Truthy(b1.chatId);
      if !Truthy(b.username) {
        DerivedUsernameSettled(b.emailAddress, OrEmpty(CompanyNameOf(db, b.companyId)));
      }
      assert Truthy(b1.username);
      assert !BcoProvision(s.db, b1, None, newId2).filled;
    }
  }

  /** What a successful profile update stores: each column takes the
      supplied value when it is non-empty and otherwise keeps what was
      stored, except the registration number, which falls back on the
      registration card first; the company takes the supplied name; the
      e-mail, password, status, links and card are untouched. */
  lemma ProfileUpdateStores(ctx: Ctx, db: Db, k: nat, body: AccountFlows.Profile, newId: string)
    requires k in db.bcos.rows
    requires CompanyNameOf(db, db.bcos.rows[k].companyId).Some?
    ensures var b := db.bcos.rows[k];
            var c := b.companyId.value;
            var s := EditBco(ctx, db, k, body, newId);
            k in s.db.bcos.rows && c in s.db.companies.rows
            && var r := s.db.bcos.rows[k];
            r.fullName == (if Truthy(body.fullName) then body.fullName else b.fullName)
            && r.businessRegistrationNumber
               == (if Truthy(body.businessRegistrationNumber) then body.businessRegistrationNumber
                   else if Truthy(b.brnCard) then b.brnCard else b.businessRegistrationNumber)
            && r.vatNumber == (if Truthy(body.vatNumber) then body.vatNumber else b.vatNumber)
            && r.physicalAddress == (if Truthy(body.physicalAddress) then body.physicalAddress else b.physicalAddress)
            && r.phoneNumber == (if Truthy(body.phoneNumber) then body.phoneNumber else b.phoneNumber)
            && r.emailAddress == b.emailAddress && r.password == b.password && r.invitedStatus == b.invitedStatus
            && r.forwarderId == b.forwarderId && r.contactId == b.contactId && r.companyId == b.companyId
            && r.brnCard == b.brnCard
            && s.db.companies.rows[c].companyName
               == (if Truthy(body.companyName) then body.companyName.value else db.companies.rows[c].companyName)
  {
  }

  /** Adding a supplier and then one whose company has the same name up to
      surrounding white space, for the same BCO, refuses the second. */
  lemma {:induction false} SupplierNameTakenAfterAdd(db: Db, userId: Option<int>, contact: ContactInput,
                                                     company: CompanyInput, q: Query, contact2: ContactInput,
                                                     company2: CompanyInput, q2: Query)
    requires db.Valid() && Present(db.bcos, userId)
    requires |FindSupplierByCompany(db, userId, Trim(company.companyName), None)| == 0
    requires Trim(company2.companyName) == Trim(company.companyName)
    ensures var s := AddSupplier(db, userId, contact, company, q);
            s.db.Valid()
            && AddSupplier(s.db, userId, contact2, company2, q2) == Step(Msg(400, false, CompanyInUse), s.db, [])
  {
    var k := userId.value as nat;
    var s := AddSupplier(db, userId, contact, company, q);
    assert s == StoreSupplier(db, k, contact, company, q);
    var n := db.suppliers.next;
    var name := Trim(company2.companyName);
    TrimIdempotent(company.companyName);
    assert NamedSupplier(s.db, userId, name, s.db.suppliers.rows[n]);
    assert n in FindSupplierByCompany(s.db, userId, name, None);
  }

  /** Another supplier of the same owner has the name exactly when the
      search that skips `k` finds one. */
  lemma SupplierNameClash(db: Db, userId: Option<int>, name: string, k: nat)
    requires db.suppliers.Valid()
    ensures |FindSupplierByCompany(db, userId, name, Some(k))| > 0
            <==> exists j :: j in db.suppliers.rows && j != k && NamedSupplier(db, userId, name, db.suppliers.rows[j])
  {
    var found := FindSupplierByCompany(db, userId, name, Some(k));
    if |found| > 0 {
      assert found[0] in found;
    } else {
      forall j | j in db.suppliers.rows && j != k ensures !NamedSupplier(db, userId, name, db.suppliers.rows[j]) {
        assert Other(j, Some(k));
      }
    }
  }

  /** Renaming a supplier is refused exactly when another supplier of the
      same BCO already has a company of the new (trimmed) name; the
      supplier's own current name never blocks it. */
  lemma {:induction false} RenameRefusedIff(db: Db, userId: Option<int>, supplierId: string, contact: ContactInput,
                                            company: CompanyInput, q: Query)
    requires db.suppliers.Valid() && RouteId(supplierId).Ok? && Present(db.suppliers, Some(RouteId(supplierId).value))
    ensures var k := RouteId(supplierId).value as nat;
            EditSupplier(db, userId, supplierId, contact, company, q).reply == Msg(400, false, CompanyInUse)
            <==> exists j :: j in db.suppliers.rows && j != k
                             && NamedSupplier(db, userId, Trim(company.companyName), db.suppliers.rows[j])
  {
    var k := RouteId(supplierId).value as nat;
    var name := Trim(company.companyName);
    var found := FindSupplierByCompany(db, userId, name, Some(k));
    var s := EditSupplier(db, userId, supplierId, contact, company, q);
    SupplierNameClash(db, userId, name, k);
    if |found| > 0 {
      assert s.reply == Msg(400, false, CompanyInUse);
    } else {
      assert s == ReviseSupplier(db, userId, k, contact, company, q);
      assert !s.reply.Msg?;
    }
  }

  /** An importer row that a forwarder created has no chat id. Accepting
      its invitation stores the name and the password, and then the
      session's chat token throws: the answer is a 500 over a store that
      already holds the new password. */
  lemma {:induction false} InvitedImporterAcceptFails(ctx: Ctx, db: Db, fullName: Option<string>, email: string,
                                                      forwarderId: nat, contactId: nat, companyId: nat,
                                                      name: string, hashed: string)
    requires CreateImporter(db, fullName, Some(email), forwarderId, contactId, companyId).Ok?
    ensures var (after, n) := CreateImporter(db, fullName, Some(email), forwarderId, contactId, companyId).value;
            var s := AcceptInvite(ctx, after, Some(n), name, hashed);
            n in s.db.bcos.rows
            && s.reply == Msg(500, false, "Internal Server Error")
            && s.db.bcos.rows[n].password == Some(hashed)
            && s.db.bcos.rows[n].invitedStatus == "Accepted"
  {
    var (after, n) := CreateImporter(db, fullName, Some(email), forwarderId, contactId, companyId).value;
    assert n in after.bcos.rows && after.bcos.rows[n].chatId.None?;
    assert Present(after.bcos, Some(n));
  }
}
