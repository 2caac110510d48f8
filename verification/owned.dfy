/** The records an account owns: a forwarder's importers (BCO rows linked
    to the forwarder) and a BCO's suppliers. Both kinds are looked up by
    company name within the owner's records, created "Pending" with their
    links, and listed page by page scoped to the owner. */
module OwnedStore {
  import opened Values
  import opened Text
  import opened Tables
  import opened Schema
  import opened CompanyStore
  import opened BcoStore
  import opened Paging

  /** `where: { forwarderId: owner }` or `where: { bcoId: owner }`: an
      undefined owner drops the condition. */
  predicate OwnedBy(link: Option<nat>, owner: Option<int>) {
    owner.None? || (link.Some? && link.value == owner.value)
  }

  /** The filter of `getPaginatedImporterData`. */
  function ImportersOf(owner: Option<int>): Bco -> bool {
    (b: Bco) => OwnedBy(b.forwarderId, owner)
  }

  /** The filter of `getPaginatedSupplierData`. */
  function SuppliersOf(owner: Option<int>): Supplier -> bool {
    (s: Supplier) => OwnedBy(s.bcoId, owner)
  }

  /** The unfiltered lists. */
  predicate AnyBco(b: Bco) { true }
  predicate AnySupplier(s: Supplier) { true }
  predicate AnyForwarder(a: Account) { true }

  /** An importer of `owner` whose company is called `trim(name)`. */
  predicate NamedImporter(db: Db, owner: Option<int>, name: string, b: Bco) {
    OwnedBy(b.forwarderId, owner) && CompanyNamed(db, b.companyId, Trim(name))
  }

  /** A supplier of `owner` whose company is called `trim(name)`. */
  predicate NamedSupplier(db: Db, owner: Option<int>, name: string, s: Supplier) {
    OwnedBy(s.bcoId, owner) && CompanyNamed(db, s.companyId, Trim(name))
  }

  /** `findImporterByCompany(owner, name, importerId, isUpdating)`:
      `except` is the parsed id of the importer being edited, `None` when
      one is being added. */
  function FindImporterByCompany(db: Db, owner: Option<int>, name: string, except: Option<int>): (r: seq<nat>)
    ensures forall k :: k in r ==> k in db.bcos.rows && NamedImporter(db, owner, name, db.bcos.rows[k]) && Other(k, except)
    ensures db.bcos.Valid() ==>
              forall k :: k in db.bcos.rows && NamedImporter(db, owner, name, db.bcos.rows[k]) && Other(k, except) ==> k in r
  {
    Excluding(FindMany(db.bcos, (b: Bco) => NamedImporter(db, owner, name, b)), except)
  }

  /** `findSupplierByCompany(owner, name, supplierId, isUpdating)`. */
  function FindSupplierByCompany(db: Db, owner: Option<int>, name: string, except: Option<int>): (r: seq<nat>)
    ensures forall k :: k in r ==> k in db.suppliers.rows && NamedSupplier(db, owner, name, db.suppliers.rows[k]) && Other(k, except)
    ensures db.suppliers.Valid() ==>
              forall k :: k in db.suppliers.rows && NamedSupplier(db, owner, name, db.suppliers.rows[k]) && Other(k, except) ==> k in r
  {
    Excluding(FindMany(db.suppliers, (s: Supplier) => NamedSupplier(db, owner, name, s)), except)
  }

  /** The ORM's error for a required column left undefined. */
  const MissingEmail := "Argument `emailAddress` is missing."

  /** `createImporter`: a "Pending" BCO connected to the forwarder, the
      contact and the company. It is `createBCO` without a status. */
  function CreateImporter(db: Db, fullName: Option<string>, email: Option<string>,
                          forwarderId: nat, contactId: nat, companyId: nat): (r: Result<(Db, nat)>)
    ensures email.None? ==> r == Err(MissingEmail)
    ensures email.Some? ==>
              r == CreateBco(db, fullName, email.value, Some(forwarderId), Some(contactId), Some(companyId), None)
  {
    if email.None? then Err(MissingEmail)
    else if forwarderId !in db.forwarders.rows || contactId !in db.contacts.rows || companyId !in db.companies.rows then
      Err(RecordNotFound)
    else
      var (bcos, id) := Insert(db.bcos, Bco(fullName, email.value, None, None, None, "Pending", Some(forwarderId),
                                            Some(contactId), Some(companyId), None, None, None, None, None));
      Ok((db.(bcos := bcos), id))
  }

  /** `createSupplier`: a "Pending" supplier connected to the BCO, the
      contact and the company; nothing else is written. */
  function CreateSupplier(db: Db, fullName: Option<string>, email: Option<string>, product: Option<string>,
                          port: Option<string>, bcoId: nat, contactId: nat, companyId: nat): (r: Result<(Db, nat)>)
    ensures r.Ok? <==> bcoId in db.bcos.rows && contactId in db.contacts.rows && companyId in db.companies.rows
    ensures r.Ok? ==> var (after, id) := r.value;
                      after == db.(suppliers := after.suppliers)
                      && id in after.suppliers.rows
                      && after.suppliers.rows == db.suppliers.rows[id := after.suppliers.rows[id]]
                      && after.suppliers.rows[id].invitedStatus == "Pending"
                      && after.suppliers.rows[id].bcoId == Some(bcoId)
                      && after.suppliers.rows[id].contactId == Some(contactId)
                      && after.suppliers.rows[id].companyId == Some(companyId)
                      && after.suppliers.rows[id].product == product && after.suppliers.rows[id].port == port
    ensures r.Ok? && db.Valid() ==> r.value.1 !in db.suppliers.rows && r.value.0.Valid()
  {
    if bcoId !in db.bcos.rows || contactId !in db.contacts.rows || companyId !in db.companies.rows then
      Err(RecordNotFound)
    else
      var (suppliers, id) := Insert(db.suppliers, Supplier(fullName, email, product, port, "Pending", Some(bcoId),
                                                          Some(contactId), Some(companyId)));
      Ok((db.(suppliers := suppliers), id))
  }

  /** `updateSupplier(id, { port, product })`: only those two columns of
      that row. */
  function UpdateSupplier(db: Db, id: nat, port: Option<string>, product: Option<string>): (r: Result<Db>)
    ensures r.Ok? <==> id in db.suppliers.rows
    ensures r.Ok? ==> var s := db.suppliers.rows[id];
                      r.value == db.(suppliers := r.value.suppliers)
                      && r.value.suppliers.rows
                         == db.suppliers.rows[id := s.(port := ApplyOpt(s.port, port), product := ApplyOpt(s.product, product))]
    ensures r.Ok? && db.Valid() ==> r.value.Valid()
  {
    if id !in db.suppliers.rows then Err(RecordNotFound)
    else
      var s := db.suppliers.rows[id];
      Ok(db.(suppliers := Put(db.suppliers, id, s.(port := ApplyOpt(s.port, port), product := ApplyOpt(s.product, product)))))
  }

  /** `getPaginatedSupplierList`: every supplier, whoever owns it, page by
      page, with the count of all suppliers. */
  function SupplierList(db: Db, q: Query): (r: Result<Page>)
    ensures r.Ok? <==> Skip(q) >= 0 && PageSize(q) >= 0
    ensures r.Ok? ==> |r.value.records| <= PageSize(q)
                      && forall i :: 0 <= i < |r.value.records| ==> r.value.records[i] in db.suppliers.rows
    ensures r.Ok? && db.suppliers.Valid() ==> r.value.totalCount == |db.suppliers.rows|
  {
    CountAll(db.suppliers, AnySupplier);
    Paginate(db.suppliers, AnySupplier, q)
  }

  /** No supplier is left off the list: with a positive page size, each one
      is on some page `page` of it. */
  lemma {:induction false} EverySupplierListed(db: Db, k: nat, size: nat)
    requires db.suppliers.Valid() && k in db.suppliers.rows && size >= 1
    ensures exists page: nat :: page >= 1
              && SupplierList(db, Query(Some(NatToString(page)), Some(NatToString(size)))).Ok?
              && k in SupplierList(db, Query(Some(NatToString(page)), Some(NatToString(size)))).value.records
  {
    EveryRowOnSomePage(db.suppliers, AnySupplier, k, size);
    var m: nat :| WindowOf(db.suppliers, AnySupplier, m * size, size).Ok?
                  && k in WindowOf(db.suppliers, AnySupplier, m * size, size).value.records;
    PageWindow(db.suppliers, AnySupplier, m + 1, size);
    assert (m + 1 - 1) * size == m * size;
    var page: nat := m + 1;
    assert SupplierList(db, Query(Some(NatToString(page)), Some(NatToString(size))))
           == WindowOf(db.suppliers, AnySupplier, m * size, size);
  }
}
