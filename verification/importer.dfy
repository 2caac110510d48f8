/** The forwarder controller: a forwarder admin's importers (BCO rows
    linked to the forwarder), added with a company, a contact and a tier,
    invited by mail, edited and deleted; and the admin side's list and
    deletion of forwarder admins. */
module ImporterFlows {
  import opened Values
  import opened Text
  import opened Http
  import opened Context
  import opened Tables
  import opened Schema
  import opened Paging
  import opened CompanyStore
  import opened BcoStore
  import opened OwnedStore
  import opened TierStore
  import opened Invitation

  const CompanyInUse := "This company name is already in use!"

  /** What `handleDatabaseConnectionError` rethrows for any failed lookup. */
  const LookupFailed := "Internal Server Error"


  /** `findForwarderAdmin(id)`: an undefined id fails the query, and the
      failure is rethrown with the generic message. */
  function FindForwarderAdmin(db: Db, id: Option<int>): (r: Result<Option<nat>>)
    ensures r.Err? <==> id.None?
    ensures r.Err? ==> r.message == LookupFailed
    ensures r.Ok? ==> (r.value.Some? <==> Present(db.forwarders, id))
    ensures r.Ok? && r.value.Some? ==> r.value.value == id.value
  {
    match FindById(db.forwarders, id)
    case Err(_) => Err(LookupFailed)
    case Ok(k) => Ok(k)
  }

  /** The page of `userId`'s importers an importer handler answers with. */
  function ImporterPage(db: Db, userId: Option<int>, q: Query, message: string, failStatus: int): (reply: Reply)
    ensures Paginate(db.bcos, ImportersOf(userId), q).Ok? ==>
              reply.Listed? && reply.status == 200 && reply.message == message
              && (forall j :: 0 <= j < |reply.records| ==>
                    reply.records[j] in db.bcos.rows && OwnedBy(db.bcos.rows[reply.records[j]].forwarderId, userId))
              && (db.bcos.Valid() ==> reply.totalCount == |Matching(db.bcos, ImportersOf(userId))|)
    ensures Paginate(db.bcos, ImportersOf(userId), q).Err? ==> reply.Forward? && reply.status == failStatus
  {
    PageReply(Paginate(db.bcos, ImportersOf(userId), q), message, failStatus)
  }

  /** `dashboardData`: the signed-in forwarder's importers, page by page. */
  function Dashboard(db: Db, userId: Option<int>, q: Query): (s: Step)
    ensures s.db == db && s.effects == []
    ensures s.reply == ImporterPage(db, userId, q, "Importer fetched successfully!", 500)
  {
    Step(ImporterPage(db, userId, q, "Importer fetched successfully!", 500), db, [])
  }

  /** `addImporter`: refused when one of the forwarder's importers already
      has a company of this (trimmed) name; otherwise `StoreImporter`. */
  function AddImporter(db: Db, userId: Option<int>, contact: ContactInput, company: CompanyInput, q: Query): (s: Step)
    ensures s.effects == []
    ensures userId.None? ==> s == Step(Forward(400, LookupFailed), db, [])
    ensures userId.Some? && !Present(db.forwarders, userId) ==> s == Step(Forward(404, "ForwarderAdmin not found"), db, [])
    ensures Present(db.forwarders, userId) && |FindImporterByCompany(db, userId, Trim(company.companyName), None)| > 0 ==>
              s == Step(Msg(400, false, CompanyInUse), db, [])
    ensures Present(db.forwarders, userId) && |FindImporterByCompany(db, userId, Trim(company.companyName), None)| == 0 ==>
              s == StoreImporter(db, userId.value as nat, contact, company, q)
  {
    match FindForwarderAdmin(db, userId)
    case Err(m) => Step(Forward(400, m), db, [])
    case Ok(None) => Step(Forward(404, "ForwarderAdmin not found"), db, [])
    case Ok(Some(f)) =>
      if |FindImporterByCompany(db, userId, Trim(company.companyName), None)| > 0 then
        Step(Msg(400, false, CompanyInUse), db, [])
      else StoreImporter(db, f, contact, company, q)
  }

  /** The writes of `addImporter` for forwarder `f`, in order: the tier
      (found by name, else created), the company, the contact, the
      company-tier link, the importer. They are separate writes: an
      importer without an e-mail fails last and leaves the others behind. */
  function StoreImporter(db: Db, f: nat, contact: ContactInput, company: CompanyInput, q: Query): (s: Step)
    requires f in db.forwarders.rows
    ensures s.effects == []
    ensures TierFor(db, contact.tier).Err? ==> s == Step(Forward(400, MissingTierName), db, [])
    ensures s.db.forwarders == db.forwarders && s.db.suppliers == db.suppliers
    ensures db.Valid() ==> s.db.Valid()
    ensures db.Valid() && TierFor(db, contact.tier).Ok? ==>
              var (withTier, tierId) := TierFor(db, contact.tier).value;
              var (withCompany, cid) := CreateCompany(withTier, company);
              cid in s.db.companies.rows && s.db.companies.rows[cid] == NewCompany(company)
              && withCompany.contacts.next in s.db.contacts.rows
              && s.db.contacts.rows[withCompany.contacts.next] == NewContact(contact, cid)
              && withCompany.companyTiers.next in s.db.companyTiers.rows
              && s.db.companyTiers.rows[withCompany.companyTiers.next] == CompanyTier(cid, tierId)
              && (contact.email.None? ==> s.reply == Forward(400, MissingEmail) && s.db.bcos == db.bcos)
              && (contact.email.Some? ==>
                    s.db.bcos.rows.Keys == db.bcos.rows.Keys + {db.bcos.next}
                    && db.bcos.next !in db.bcos.rows
                    && (forall j :: j in db.bcos.rows ==> s.db.bcos.rows[j] == db.bcos.rows[j])
                    && var n := s.db.bcos.rows[db.bcos.next];
                       n.forwarderId == Some(f) && n.invitedStatus == "Pending" && n.fullName == contact.fullName
                       && n.emailAddress == contact.email.value && n.password.None?
                       && n.companyId == Some(cid) && n.contactId == Some(withCompany.contacts.next)
                       && s.reply == ImporterPage(s.db, Some(f), q, "Importer created successfully!", 400))
  {
    match TierFor(db, contact.tier)
    case Err(m) => Step(Forward(400, m), db, [])
    case Ok((withTier, tierId)) =>
      var (withCompany, cid) := CreateCompany(withTier, company);
      match CreateContact(withCompany, contact, cid)
      case Err(m) => Step(Forward(400, m), withCompany, [])
      case Ok((withContact, contactId)) =>
        match AddCompanyTier(withContact, cid, tierId)
        case Err(m) => Step(Forward(400, m), withContact, [])
        case Ok(linked) =>
          match CreateImporter(linked, contact.fullName, linked.contacts.rows[contactId].emailAddress, f, contactId, cid)
          case Err(m) => Step(Forward(400, m), linked, [])
          case Ok((after, _)) => Step(ImporterPage(after, Some(f), q, "Importer created successfully!", 400), after, [])
  }

  /** `inviteImporter`: the invitation mail, signed by the forwarder's
      name; nothing is stored. */
  function InviteImporter(ctx: Ctx, db: Db, userId: Option<int>, inv: Invite, q: Query): (s: Step)
    ensures s.db == db
    ensures userId.None? ==> s == Step(Forward(400, LookupFailed), db, [])
    ensures userId.Some? && !Present(db.forwarders, userId) ==> s == Step(Forward(404, "ForwarderAdmin not found"), db, [])
    ensures Present(db.forwarders, userId) ==>
              var mail := InvitationMail(ctx, inv, Some(db.forwarders.rows[userId.value as nat].fullName),
                                         "KARGO Importer Invitation Email");
              (mail.Err? ==> s == Step(Forward(400, mail.message), db, []))
              && (mail.Ok? ==> s.effects == [mail.value]
                               && s.reply == ImporterPage(db, userId, q, "Please check your email: Invite sent to your account!", 400))
  {
    match FindForwarderAdmin(db, userId)
    case Err(m) => Step(Forward(400, m), db, [])
    case Ok(None) => Step(Forward(404, "ForwarderAdmin not found"), db, [])
    case Ok(Some(f)) =>
      match InvitationMail(ctx, inv, Some(db.forwarders.rows[f].fullName), "KARGO Importer Invitation Email")
      case Err(m) => Step(Forward(400, m), db, [])
      case Ok(mail) =>
        Step(ImporterPage(db, userId, q, "Please check your email: Invite sent to your account!", 400), db, [mail])
  }

  /** `deleteImporter`: removes the BCO `importerId`, whoever it belongs to. */
  function DeleteImporter(db: Db, userId: Option<int>, importerId: Option<int>, q: Query): (s: Step)
    ensures s.effects == []
    ensures importerId.None? ==> s == Step(Forward(500, MissingWhere), db, [])
    ensures importerId.Some? && !Present(db.bcos, importerId) ==> s == Step(Forward(404, "Importer not found"), db, [])
    ensures Present(db.bcos, importerId) ==>
              s.db == db.(bcos := s.db.bcos)
              && s.db.bcos.rows.Keys == db.bcos.rows.Keys - {importerId.value as nat}
              && (forall j :: j in s.db.bcos.rows ==> s.db.bcos.rows[j] == db.bcos.rows[j])
              && s.reply == ImporterPage(s.db, userId, q, "Importer deleted successfully!", 500)
              && (s.reply.Listed? ==> importerId.value !in s.reply.records)
  {
    match FindById(db.bcos, importerId)
    case Err(m) => Step(Forward(500, m), db, [])
    case Ok(None) => Step(Forward(404, "Importer not found"), db, [])
    case Ok(Some(k)) =>
      var after := db.(bcos := Delete(db.bcos, k));
      Step(ImporterPage(after, userId, q, "Importer deleted successfully!", 500), after, [])
  }

  /** `editImporter`: the route's `importerId` is parsed; the new company
      name must not be used by another of the forwarder's importers. */
  function EditImporter(db: Db, userId: Option<int>, importerId: string, contact: ContactInput, company: CompanyInput,
                        q: Query): (s: Step)
    ensures s.effects == []
    ensures RouteId(importerId).Err? ==> s == Step(Forward(500, RouteId(importerId).message), db, [])
    ensures RouteId(importerId).Ok? && !Present(db.bcos, Some(RouteId(importerId).value)) ==>
              s == Step(Forward(404, "Importer not found"), db, [])
    ensures RouteId(importerId).Ok? && Present(db.bcos, Some(RouteId(importerId).value)) ==>
              var k := RouteId(importerId).value as nat;
              if |FindImporterByCompany(db, userId, Trim(company.companyName), Some(k))| > 0 then
                s == Step(Msg(400, false, CompanyInUse), db, [])
              else s == ReviseImporter(db, userId, k, contact, company, q)
  {
    match RouteId(importerId)
    case Err(m) => Step(Forward(500, m), db, [])
    case Ok(i) =>
      match FindById(db.bcos, Some(i))
      case Err(m) => Step(Forward(500, m), db, [])
      case Ok(None) => Step(Forward(404, "Importer not found"), db, [])
      case Ok(Some(k)) =>
        if |FindImporterByCompany(db, userId, Trim(company.companyName), Some(k))| > 0 then
          Step(Msg(400, false, CompanyInUse), db, [])
        else ReviseImporter(db, userId, k, contact, company, q)
  }

  /** The importer's new name and e-mail, from the contact person. */
  function ImporterPatch(contact: ContactInput): BcoPatch {
    NoChange.(fullName := contact.fullName, emailAddress := contact.email)
  }

  /** The writes of `editImporter`, in order: the company (and its
      warehouse), the contact, the company's tier, the importer's name and
      e-mail. Each is its own write: when a later one fails, the earlier
      ones stay. */
  function ReviseImporter(db: Db, userId: Option<int>, k: nat, contact: ContactInput, company: CompanyInput,
                          q: Query): (s: Step)
    requires k in db.bcos.rows
    ensures s.effects == []
    ensures s.reply.Forward? || s.reply.Listed?
    ensures var b := db.bcos.rows[k];
            var c1 := UpdateCompanyDetails(db, b.companyId, company);
            (c1.Err? ==> s == Step(Forward(500, c1.message), db, []))
            && (c1.Ok? ==>
                  var c2 := UpdateContactDetails(c1.value, b.contactId, contact, b.companyId);
                  (c2.Err? ==> s == Step(Forward(500, c2.message), c1.value, []))
                  && (c2.Ok? ==>
                        var c3 := UpdateCompanyTier(c2.value, b.companyId.value, contact.tier);
                        (c3.Err? ==> s == Step(Forward(500, TierUpdateFailed), c2.value, []))
                        && (c3.Ok? ==>
                              s.db == c3.value.(bcos := s.db.bcos)
                              && s.db.bcos.rows == db.bcos.rows[k := PatchedBco(b, ImporterPatch(contact))]
                              && s.reply == ImporterPage(s.db, userId, q, "Importer updated successfully!", 500))))
  {
    var b := db.bcos.rows[k];
    match UpdateCompanyDetails(db, b.companyId, company)
    case Err(m) => Step(Forward(500, m), db, [])
    case Ok(db1) =>
      match UpdateContactDetails(db1, b.contactId, contact, b.companyId)
      case Err(m) => Step(Forward(500, m), db1, [])
      case Ok(db2) =>
        match UpdateCompanyTier(db2, b.companyId.value, contact.tier)
        case Err(m) => Step(Forward(500, m), db2, [])
        case Ok(db3) =>
          var db4 := UpdateBco(db3, Some(k), ImporterPatch(contact)).value;
          Step(ImporterPage(db4, userId, q, "Importer updated successfully!", 500), db4, [])
  }

  /** `fetchForwardAdminList`: every forwarder admin, page by page. */
  function ForwarderAdminList(db: Db, q: Query): (s: Step)
    ensures s.db == db && s.effects == []
    ensures Paginate(db.forwarders, AnyForwarder, q).Ok? ==>
              s.reply.Listed? && s.reply.message == "Forwarder Admin list fetched successfully!"
              && (db.forwarders.Valid() ==> s.reply.totalCount == |db.forwarders.rows|)
    ensures Paginate(db.forwarders, AnyForwarder, q).Err? ==> s.reply.Forward? && s.reply.status == 500
  {
    CountAll(db.forwarders, AnyForwarder);
    Step(PageReply(Paginate(db.forwarders, AnyForwarder, q), "Forwarder Admin list fetched successfully!", 500), db, [])
  }

  /** `deleteForwarderAdmin`: removes the forwarder admin `dataId`, then
      lists what is left. An undefined id fails the lookup. */
  function DeleteForwarderAdmin(db: Db, dataId: Option<int>, q: Query): (s: Step)
    ensures s.effects == []
    ensures dataId.None? ==> s == Step(Forward(500, LookupFailed), db, [])
    ensures dataId.Some? && !Present(db.forwarders, dataId) ==>
              s == Step(Forward(404, "Forwarder Admin not found"), db, [])
    ensures Present(db.forwarders, dataId) ==>
              s.db == db.(forwarders := s.db.forwarders)
              && s.db.forwarders.rows.Keys == db.forwarders.rows.Keys - {dataId.value as nat}
              && (forall j :: j in s.db.forwarders.rows ==> s.db.forwarders.rows[j] == db.forwarders.rows[j])
              && (s.reply.Listed? ==> s.reply.message == "Forwarder Admin deleted successfully!"
                                      && dataId.value !in s.reply.records)
  {
    match FindForwarderAdmin(db, dataId)
    case Err(m) => Step(Forward(500, m), db, [])
    case Ok(None) => Step(Forward(404, "Forwarder Admin not found"), db, [])
    case Ok(Some(f)) =>
      var after := db.(forwarders := Delete(db.forwarders, f));
      Step(PageReply(Paginate(after.forwarders, AnyForwarder, q), "Forwarder Admin deleted successfully!", 500), after, [])
  }
}
