/** The company and contact writes shared by the importer and supplier
    flows: how each request field is normalised on the way into the store. */
module CompanyStore {
  import opened Values
  import opened Text
  import opened Tables
  import opened Schema

  /** The relation filter `company: { companyName: name }`: the row links
      to an existing company with exactly this name. */
  predicate CompanyNamed(db: Db, companyId: Option<nat>, name: string) {
    companyId.Some? && companyId.value in db.companies.rows
    && db.companies.rows[companyId.value].companyName == name
  }

  /** `row?.company?.companyName`. */
  function CompanyNameOf(db: Db, companyId: Option<nat>): (r: Option<string>)
    ensures r.Some? <==> companyId.Some? && companyId.value in db.companies.rows
    ensures r.Some? ==> CompanyNamed(db, companyId, r.value)
  {
    match companyId
    case Some(c) => if c in db.companies.rows then Some(db.companies.rows[c].companyName) else None
    case None => None
  }

  /** The company row `createCompany` writes. */
  function NewCompany(c: CompanyInput): Company {
    Company(Trim(c.companyName), OrNull(c.registeredAddress), OrNull(c.businessRegistrationNumber),
            OrNull(c.vatNumber), OrNull(c.unlocodeRegisteredAddress))
  }

  /** The warehouse address created with company `id`: an empty first
      line is stored as null, an empty second line and code as "". */
  function NewWarehouse(c: CompanyInput, id: nat): Warehouse {
    Warehouse(id, OrNull(c.addressLine1), OrEmpty(c.addressLine2), c.cityCountry,
              OrEmpty(c.unlocodeWarehouseAddress))
  }

  /** `createCompany`: the company and, in the same call, its one warehouse
      address. Returns the store and the new company's id. */
  function CreateCompany(db: Db, c: CompanyInput): (r: (Db, nat))
    ensures db.Valid() ==> r.0.Valid()
    ensures db.companies.Valid() ==> r.1 !in db.companies.rows
    ensures r.0.companies.rows == db.companies.rows[r.1 := NewCompany(c)]
    ensures r.0.warehouses.rows == db.warehouses.rows[db.warehouses.next := NewWarehouse(c, r.1)]
    ensures db.warehouses.Valid() ==> db.warehouses.next !in db.warehouses.rows
    ensures r.0 == db.(companies := r.0.companies, warehouses := r.0.warehouses)
  {
    var (companies, id) := Insert(db.companies, NewCompany(c));
    var (warehouses, _) := Insert(db.warehouses, NewWarehouse(c, id));
    (db.(companies := companies, warehouses := warehouses), id)
  }

  /** The stored name is the trimmed name; each empty optional field is
      stored as null (the address columns) or "" (the second address line
      and the warehouse code); the warehouse belongs to the new company. */
  lemma CreateCompanyNormalises(db: Db, c: CompanyInput)
    requires db.Valid()
    ensures var (after, id) := CreateCompany(db, c);
            var co := after.companies.rows[id];
            co.companyName == Trim(c.companyName)
            && (co.registeredAddress.None? <==> !Truthy(c.registeredAddress))
            && (co.businessRegistrationNumber.None? <==> !Truthy(c.businessRegistrationNumber))
            && (co.vatNumber.None? <==> !Truthy(c.vatNumber))
            && (co.unlocodeRegisteredAddress.None? <==> !Truthy(c.unlocodeRegisteredAddress))
            && (Truthy(c.registeredAddress) ==> co.registeredAddress == c.registeredAddress)
            && db.warehouses.next in after.warehouses.rows
            && after.warehouses.rows[db.warehouses.next].companyId == id
            && (after.warehouses.rows[db.warehouses.next].addressLine1.None? <==> !Truthy(c.addressLine1))
            && (after.warehouses.rows[db.warehouses.next].addressLine2 == "" <==> !Truthy(c.addressLine2))
            && |after.warehouses.rows| == |db.warehouses.rows| + 1
  {
  }

  /** Company ids and warehouse ids advance together: the store has only
      ever created warehouses together with companies. */
  ghost predicate Lockstep(db: Db) {
    db.Valid() && db.companies.next == db.warehouses.next
    && forall k :: k in db.companies.rows ==> k in db.warehouses.rows && db.warehouses.rows[k].companyId == k
  }

  /** `createCompany` keeps ids in step, so a company's warehouse has the
      company's own id — the row the nested warehouse update of
      `updateCompanyDetails` looks up. */
  lemma CreateKeepsLockstep(db: Db, c: CompanyInput)
    requires Lockstep(db)
    ensures Lockstep(CreateCompany(db, c).0)
    ensures var (after, id) := CreateCompany(db, c);
            id in after.warehouses.rows && after.warehouses.rows[id].companyId == id
  {
  }

  /** `createContact`: the contact person's fields, linked to the company
      (an unknown company is refused by the `connect`). */
  function CreateContact(db: Db, p: ContactInput, companyId: nat): (r: Result<(Db, nat)>)
    ensures r.Err? <==> companyId !in db.companies.rows
    ensures r.Ok? ==> r.value.0 == db.(contacts := r.value.0.contacts)
    ensures r.Ok? ==> r.value.0.contacts.rows == db.contacts.rows[r.value.1 := NewContact(p, companyId)]
    ensures r.Ok? && db.Valid() ==> r.value.1 !in db.contacts.rows && r.value.0.Valid()
  {
    if companyId !in db.companies.rows then Err(RecordNotFound)
    else
      var (contacts, id) := Insert(db.contacts, NewContact(p, companyId));
      Ok((db.(contacts := contacts), id))
  }

  /** The contact row for a contact person: name and email are renamed,
      phone and status copied, the two codes default to null. */
  function NewContact(p: ContactInput, companyId: nat): (c: Contact)
    ensures c.contactName == p.fullName && c.emailAddress == p.email
    ensures c.phoneNumber == p.phoneNumber && c.status == p.status && c.companyId == companyId
    ensures c.accountReference == OrNull(p.accountReference) && c.apiCustomerCode == OrNull(p.apiCustomerCode)
  {
    Contact(p.fullName, p.email, p.phoneNumber, p.status, companyId, OrNull(p.accountReference),
            OrNull(p.apiCustomerCode))
  }

  /** The company row after `updateCompanyDetails`: the name trimmed, the
      registered address as given (left alone when absent), the other
      three nulled when empty. */
  function EditedCompany(stored: Company, c: CompanyInput): Company {
    Company(Trim(c.companyName), ApplyOpt(stored.registeredAddress, c.registeredAddress),
            OrNull(c.businessRegistrationNumber), OrNull(c.vatNumber), OrNull(c.unlocodeRegisteredAddress))
  }

  function EditedWarehouse(stored: Warehouse, c: CompanyInput): Warehouse {
    stored.(addressLine1 := ApplyOpt(stored.addressLine1, c.addressLine1),
            addressLine2 := OrEmpty(c.addressLine2),
            cityCountry := ApplyOpt(stored.cityCountry, c.cityCountry))
  }

  /** `updateCompanyDetails(companyId, c)`: the company and, through a
      nested update, the company's warehouse address whose id equals the
      company id. Either write failing fails the whole call. */
  function UpdateCompanyDetails(db: Db, companyId: Option<nat>, c: CompanyInput): (r: Result<Db>)
    ensures r.Ok? <==> companyId.Some? && companyId.value in db.companies.rows
                       && companyId.value in db.warehouses.rows
                       && db.warehouses.rows[companyId.value].companyId == companyId.value
    ensures r.Ok? ==> r.value == db.(companies := r.value.companies, warehouses := r.value.warehouses)
    ensures r.Ok? ==> var id := companyId.value;
                      r.value.companies.rows == db.companies.rows[id := EditedCompany(db.companies.rows[id], c)]
                      && r.value.warehouses.rows == db.warehouses.rows[id := EditedWarehouse(db.warehouses.rows[id], c)]
    ensures r.Ok? && db.Valid() ==> r.value.Valid()
  {
    match companyId
    case None => Err(MissingWhere)
    case Some(id) =>
      if id !in db.companies.rows then Err(RecordNotFound)
      else if id !in db.warehouses.rows || db.warehouses.rows[id].companyId != id then Err(RecordNotFound)
      else
        Ok(db.(companies := Put(db.companies, id, EditedCompany(db.companies.rows[id], c)),
               warehouses := Put(db.warehouses, id, EditedWarehouse(db.warehouses.rows[id], c))))
  }

  /** Submitting the creation form again as an edit reproduces the created
      rows, unless it carries an empty registered address or first address
      line: creation stores those as null, the edit stores "" as given. */
  lemma ResubmitCompany(db: Db, c: CompanyInput)
    requires Lockstep(db)
    ensures var (created, id) := CreateCompany(db, c);
            var edited := UpdateCompanyDetails(created, Some(id), c);
            edited.Ok?
            && (edited.value == created <==> c.registeredAddress != Some("") && c.addressLine1 != Some(""))
  {
    var (created, id) := CreateCompany(db, c);
    CreateKeepsLockstep(db, c);
    var edited := UpdateCompanyDetails(created, Some(id), c);
    if c.registeredAddress == Some("") {
      assert edited.value.companies.rows[id].registeredAddress != created.companies.rows[id].registeredAddress;
    } else if c.addressLine1 == Some("") {
      assert edited.value.warehouses.rows[id].addressLine1 != created.warehouses.rows[id].addressLine1;
    } else {
      assert edited.value.companies.rows == created.companies.rows;
      assert edited.value.warehouses.rows == created.warehouses.rows;
    }
  }

  function EditedContact(stored: Contact, p: ContactInput, companyId: nat): Contact {
    Contact(ApplyOpt(stored.contactName, p.fullName), ApplyOpt(stored.emailAddress, p.email),
            ApplyOpt(stored.phoneNumber, p.phoneNumber), ApplyOpt(stored.status, p.status), companyId,
            OrNull(p.accountReference), OrNull(p.apiCustomerCode))
  }

  /** `updateContactDetails(contactId, p, companyId)`: the contact must
      exist and the company it is (re)linked to too. */
  function UpdateContactDetails(db: Db, contactId: Option<nat>, p: ContactInput, companyId: Option<nat>): (r: Result<Db>)
    ensures r.Ok? <==> contactId.Some? && contactId.value in db.contacts.rows
                       && companyId.Some? && companyId.value in db.companies.rows
    ensures r.Ok? ==> r.value == db.(contacts := r.value.contacts)
    ensures r.Ok? ==> r.value.contacts.rows
                      == db.contacts.rows[contactId.value := EditedContact(db.contacts.rows[contactId.value], p, companyId.value)]
    ensures r.Ok? && db.Valid() ==> r.value.Valid()
  {
    match contactId
    case None => Err(MissingWhere)
    case Some(id) =>
      if id !in db.contacts.rows then Err(RecordNotFound)
      else
        match companyId
        case None => Err(MissingWhere)
        case Some(cid) =>
          if cid !in db.companies.rows then Err(RecordNotFound)
          else Ok(db.(contacts := Put(db.contacts, id, EditedContact(db.contacts.rows[id], p, cid))))
  }

  /** `updateContactDetails` applies `createContact`'s mapping: editing a
      contact with the form it was created from changes nothing, and an
      edit's absent fields keep the stored values. */
  lemma ResubmitContact(db: Db, p: ContactInput, companyId: nat)
    requires db.Valid() && CreateContact(db, p, companyId).Ok?
    ensures var (created, id) := CreateContact(db, p, companyId).value;
            UpdateContactDetails(created, Some(id), p, Some(companyId)) == Ok(created)
  {
    var (created, id) := CreateContact(db, p, companyId).value;
    assert created.contacts.rows[id := EditedContact(created.contacts.rows[id], p, companyId)] == created.contacts.rows;
  }

  /** An edit that leaves out the name, email, phone and status keeps them. */
  lemma ContactEditKeepsAbsent(stored: Contact, p: ContactInput, companyId: nat)
    requires p.fullName.None? && p.email.None? && p.phoneNumber.None? && p.status.None?
    ensures var e := EditedContact(stored, p, companyId);
            e.contactName == stored.contactName && e.emailAddress == stored.emailAddress
            && e.phoneNumber == stored.phoneNumber && e.status == stored.status
  {
  }
}
