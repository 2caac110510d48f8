/** The store functions over BCO rows: creation, the two existence
    lookups, plain updates and the update that writes the linked company
    in the same call. */
module BcoStore {
  import opened Values
  import opened Text
  import opened Tables
  import opened Schema
  import opened CompanyStore

  /** The columns an update of a BCO row may set; `None` leaves a column
      alone. */
  datatype BcoPatch = BcoPatch(
    fullName: Option<string>,
    emailAddress: Option<string>,
    password: Option<string>,
    chatId: Option<string>,
    username: Option<string>,
    invitedStatus: Option<string>,
    businessRegistrationNumber: Option<string>,
    vatNumber: Option<string>,
    physicalAddress: Option<string>,
    phoneNumber: Option<string>
  )

  const NoChange := BcoPatch(None, None, None, None, None, None, None, None, None, None)

  /** A BCO row after an update: the named columns take their new values;
      the links and the registration card are never touched. */
  function PatchedBco(b: Bco, p: BcoPatch): (r: Bco)
    ensures r.forwarderId == b.forwarderId && r.contactId == b.contactId && r.companyId == b.companyId
    ensures r.brnCard == b.brnCard
    ensures p == NoChange ==> r == b
    ensures p.password.Some? ==> r.password == p.password
    ensures p.password.None? ==> r.password == b.password
  {
    b.(fullName := ApplyOpt(b.fullName, p.fullName),
       emailAddress := Apply(b.emailAddress, p.emailAddress),
       password := ApplyOpt(b.password, p.password),
       chatId := ApplyOpt(b.chatId, p.chatId),
       username := ApplyOpt(b.username, p.username),
       invitedStatus := Apply(b.invitedStatus, p.invitedStatus),
       businessRegistrationNumber := ApplyOpt(b.businessRegistrationNumber, p.businessRegistrationNumber),
       vatNumber := ApplyOpt(b.vatNumber, p.vatNumber),
       physicalAddress := ApplyOpt(b.physicalAddress, p.physicalAddress),
       phoneNumber := ApplyOpt(b.phoneNumber, p.phoneNumber))
  }

  /** The status `createBCO` stores: the given one, "Pending" when none is. */
  function StatusOrPending(status: Option<string>): (s: string)
    ensures Truthy(status) ==> s == status.value
    ensures !Truthy(status) ==> s == "Pending"
  {
    if Truthy(status) then status.value else "Pending"
  }

  /** `createBCO`: a BCO connected to a forwarder, a contact and a company;
      each `connect` must find its row. */
  function CreateBco(db: Db, fullName: Option<string>, emailAddress: string, forwarderId: Option<int>,
                     contactId: Option<int>, companyId: Option<int>, status: Option<string>): (r: Result<(Db, nat)>)
    ensures r.Ok? <==> Present(db.forwarders, forwarderId) && Present(db.contacts, contactId)
                       && Present(db.companies, companyId)
    ensures r.Ok? ==> var (after, id) := r.value;
                      after == db.(bcos := after.bcos)
                      && id in after.bcos.rows && after.bcos.rows == db.bcos.rows[id := after.bcos.rows[id]]
                      && after.bcos.rows[id].invitedStatus == StatusOrPending(status)
                      && after.bcos.rows[id].emailAddress == emailAddress
                      && after.bcos.rows[id].fullName == fullName
                      && after.bcos.rows[id].forwarderId == Some(forwarderId.value as nat)
                      && after.bcos.rows[id].contactId == Some(contactId.value as nat)
                      && after.bcos.rows[id].companyId == Some(companyId.value as nat)
                      && after.bcos.rows[id].password.None?
    ensures r.Ok? && db.Valid() ==> r.value.1 !in db.bcos.rows && r.value.0.Valid()
  {
    if !Present(db.forwarders, forwarderId) || !Present(db.contacts, contactId) || !Present(db.companies, companyId) then
      Err(RecordNotFound)
    else
      var row := Bco(fullName, emailAddress, None, None, None, StatusOrPending(status),
                     Some(forwarderId.value as nat), Some(contactId.value as nat), Some(companyId.value as nat),
                     None, None, None, None, None);
      var (bcos, id) := Insert(db.bcos, row);
      Ok((db.(bcos := bcos), id))
  }

  /** `checkBCOExistence(email)`: the first BCO with this e-mail address. */
  function CheckBcoExistence(db: Db, email: string): (r: Option<nat>)
    ensures r.Some? ==> r.value in db.bcos.rows && db.bcos.rows[r.value].emailAddress == email
    ensures r.Some? ==> forall k :: k in db.bcos.rows && k < r.value ==> db.bcos.rows[k].emailAddress != email
    ensures db.bcos.Valid() ==> (r.None? <==> forall k :: k in db.bcos.rows ==> db.bcos.rows[k].emailAddress != email)
  {
    FindFirst(db.bcos, (b: Bco) => b.emailAddress == email)
  }

  /** `checkBCOExistenceForCompany(email, companyName)`: the first BCO with
      this e-mail address whose company is called `trim(companyName)`. */
  function CheckBcoExistenceForCompany(db: Db, email: string, companyName: string): (r: Option<nat>)
    ensures r.Some? ==> r.value in db.bcos.rows && db.bcos.rows[r.value].emailAddress == email
                        && CompanyNamed(db, db.bcos.rows[r.value].companyId, Trim(companyName))
    ensures db.bcos.Valid() ==>
              (r.None? <==> forall k :: k in db.bcos.rows ==>
                              !(db.bcos.rows[k].emailAddress == email
                                && CompanyNamed(db, db.bcos.rows[k].companyId, Trim(companyName))))
  {
    FindFirst(db.bcos, (b: Bco) => b.emailAddress == email && CompanyNamed(db, b.companyId, Trim(companyName)))
  }

  /** `updateBCO(id, data)`: the row with this id, and only it. */
  function UpdateBco(db: Db, id: Option<int>, p: BcoPatch): (r: Result<Db>)
    ensures r.Ok? <==> Present(db.bcos, id)
    ensures r.Ok? ==> r.value == db.(bcos := r.value.bcos)
                      && r.value.bcos.rows == db.bcos.rows[id.value as nat := PatchedBco(db.bcos.rows[id.value as nat], p)]
    ensures r.Ok? && db.Valid() ==> r.value.Valid()
  {
    match FindById(db.bcos, id)
    case Err(m) => Err(m)
    case Ok(None) => Err(RecordNotFound)
    case Ok(Some(k)) => Ok(db.(bcos := Put(db.bcos, k, PatchedBco(db.bcos.rows[k], p))))
  }

  /** The ORM's error for a nested update of a relation the row does not have. */
  const NoCompany := "No 'Company' record was found for a nested update on relation 'BcoToCompany'."

  /** `updateBCOWithCompany(id, data, companyData)`: the row and, in the
      same write, its linked company (only its name can be set). The ORM
      runs the two as one: a BCO without a company is not updated at all. */
  function UpdateBcoWithCompany(db: Db, id: Option<int>, p: BcoPatch, companyName: Option<string>): (r: Result<Db>)
    ensures r.Ok? <==> Present(db.bcos, id) && CompanyNameOf(db, db.bcos.rows[id.value as nat].companyId).Some?
    ensures r.Ok? ==> var k := id.value as nat;
                      var c := db.bcos.rows[k].companyId.value;
                      r.value == db.(bcos := r.value.bcos, companies := r.value.companies)
                      && r.value.bcos.rows == db.bcos.rows[k := PatchedBco(db.bcos.rows[k], p)]
                      && r.value.companies.rows
                         == db.companies.rows[c := db.companies.rows[c].(companyName := Apply(db.companies.rows[c].companyName, companyName))]
    ensures r.Ok? && db.Valid() ==> r.value.Valid()
  {
    match FindById(db.bcos, id)
    case Err(m) => Err(m)
    case Ok(None) => Err(RecordNotFound)
    case Ok(Some(k)) =>
      var b := db.bcos.rows[k];
      if CompanyNameOf(db, b.companyId).None? then Err(NoCompany)
      else
        var c := b.companyId.value;
        var co := db.companies.rows[c];
        Ok(db.(bcos := Put(db.bcos, k, PatchedBco(b, p)),
               companies := Put(db.companies, c, co.(companyName := Apply(co.companyName, companyName)))))
  }
}
