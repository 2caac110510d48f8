/** What the forwarder's importer handlers guarantee across calls: company
    names are unique among one forwarder's importers, an edit relabels the
    importer's tier, and the writes of an edit are not undone when a later
    one fails. */
module ImporterLaws {
  import opened Values
  import opened Text
  import opened Http
  import opened Tables
  import opened Schema
  import opened Paging
  import opened CompanyStore
  import opened BcoStore
  import opened OwnedStore
  import opened TierStore
  import opened ImporterFlows

  /** After an importer is added, adding another with the same company
      name up to surrounding white space to the same forwarder is refused. */
  lemma {:induction false} ImporterNameTakenAfterAdd(db: Db, userId: Option<int>, contact: ContactInput,
                                                     company: CompanyInput, q: Query, contact2: ContactInput,
                                                     company2: CompanyInput, q2: Query)
    requires db.Valid() && Present(db.forwarders, userId)
    requires |FindImporterByCompany(db, userId, Trim(company.companyName), None)| == 0
    requires contact.email.Some? && TierFor(db, contact.tier).Ok?
    requires Trim(company2.companyName) == Trim(company.companyName)
    ensures var s := AddImporter(db, userId, contact, company, q);
            s.db.Valid()
            && AddImporter(s.db, userId, contact2, company2, q2) == Step(Msg(400, false, CompanyInUse), s.db, [])
  {
    var f := userId.value as nat;
    var s := AddImporter(db, userId, contact, company, q);
    assert s == StoreImporter(db, f, contact, company, q);
    var n := db.bcos.next;
    var name := Trim(company2.companyName);
    TrimIdempotent(company.companyName);
    assert NamedImporter(s.db, userId, name, s.db.bcos.rows[n]);
    assert n in FindImporterByCompany(s.db, userId, name, None);
  }

  /** Another importer of the same owner has the name exactly when the
      search that skips `k` finds one. */
  lemma ImporterNameClash(db: Db, userId: Option<int>, name: string, k: nat)
    requires db.bcos.Valid()
    ensures |FindImporterByCompany(db, userId, name, Some(k))| > 0
            <==> exists j :: j in db.bcos.rows && j != k && NamedImporter(db, userId, name, db.bcos.rows[j])
  {
    var found := FindImporterByCompany(db, userId, name, Some(k));
    if |found| > 0 {
      assert found[0] in found;
    } else {
      forall j | j in db.bcos.rows && j != k ensures !NamedImporter(db, userId, name, db.bcos.rows[j]) {
        assert Other(j, Some(k));
      }
    }
  }

  /** Renaming an importer is refused exactly when another importer of the
      same forwarder already has a company of the new (trimmed) name. */
  lemma {:induction false} RenameImporterRefusedIff(db: Db, userId: Option<int>, importerId: string,
                                                    contact: ContactInput, company: CompanyInput, q: Query)
    requires db.bcos.Valid() && RouteId(importerId).Ok? && Present(db.bcos, Some(RouteId(importerId).value))
    ensures var k := RouteId(importerId).value as nat;
            EditImporter(db, userId, importerId, contact, company, q).reply == Msg(400, false, CompanyInUse)
            <==> exists j :: j in db.bcos.rows && j != k
                             && NamedImporter(db, userId, Trim(company.companyName), db.bcos.rows[j])
  {
    var k := RouteId(importerId).value as nat;
    var name := Trim(company.companyName);
    var found := FindImporterByCompany(db, userId, name, Some(k));
    var s := EditImporter(db, userId, importerId, contact, company, q);
    ImporterNameClash(db, userId, name, k);
    if |found| > 0 {
      assert s.reply == Msg(400, false, CompanyInUse);
    } else {
      assert s == ReviseImporter(db, userId, k, contact, company, q);
      assert !s.reply.Msg?;
    }
  }

  /** An edit naming a tier stores the contact's name and e-mail on the
      importer and lists it under that tier from then on. */
  lemma {:induction false} EditedImporterTier(db: Db, userId: Option<int>, k: nat, contact: ContactInput,
                                              company: CompanyInput, q: Query, name: string)
    requires db.Valid() && k in db.bcos.rows
    requires var b := db.bcos.rows[k];
             b.companyId.Some? && b.companyId.value in db.companies.rows
             && b.companyId.value in db.warehouses.rows && db.warehouses.rows[b.companyId.value].companyId == b.companyId.value
             && b.contactId.Some? && b.contactId.value in db.contacts.rows
    requires contact.tier == Some(name) && name != ""
    ensures var s := ReviseImporter(db, userId, k, contact, company, q);
            var b := db.bcos.rows[k];
            s.reply == ImporterPage(s.db, userId, q, "Importer updated successfully!", 500)
            && k in s.db.bcos.rows
            && s.db.bcos.rows[k].fullName == ApplyOpt(b.fullName, contact.fullName)
            && s.db.bcos.rows[k].emailAddress == Apply(b.emailAddress, contact.email)
            && TierLabel(s.db, s.db.bcos.rows[k]) == name
  {
    var b := db.bcos.rows[k];
    var c := b.companyId.value;
    var db1 := UpdateCompanyDetails(db, b.companyId, company).value;
    var db2 := UpdateContactDetails(db1, b.contactId, contact, b.companyId).value;
    var db3 := UpdateCompanyTier(db2, c, contact.tier).value;
    assert db2.Valid();
    var s := ReviseImporter(db, userId, k, contact, company, q);
    assert s.db.companyTiers == db3.companyTiers && s.db.tiers == db3.tiers;
    assert s.db.bcos.rows[k].companyId == Some(c);
  }

  /** The writes of an edit are separate: when the tier cannot be set (no
      tier named and none stored), the company's new details stay written
      although the handler answers with an error. */
  lemma {:induction false} EditKeepsCompanyWhenTierFails(db: Db, userId: Option<int>, k: nat, contact: ContactInput,
                                                         company: CompanyInput, q: Query)
    requires k in db.bcos.rows
    requires var b := db.bcos.rows[k];
             b.companyId.Some? && b.companyId.value in db.companies.rows
             && b.companyId.value in db.warehouses.rows && db.warehouses.rows[b.companyId.value].companyId == b.companyId.value
             && b.contactId.Some? && b.contactId.value in db.contacts.rows
    requires contact.tier.None? && db.tiers.rows == map[]
    ensures var s := ReviseImporter(db, userId, k, contact, company, q);
            var c := db.bcos.rows[k].companyId.value;
            s.reply == Forward(500, TierUpdateFailed)
            && c in s.db.companies.rows && s.db.companies.rows[c] == EditedCompany(db.companies.rows[c], company)
            && s.db.bcos == db.bcos
  {
    var b := db.bcos.rows[k];
    var db1 := UpdateCompanyDetails(db, b.companyId, company).value;
    var db2 := UpdateContactDetails(db1, b.contactId, contact, b.companyId).value;
    assert db2.tiers == db.tiers;
    assert FindTier(db2, None).None?;
  }
}
