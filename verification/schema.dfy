/** The relational store the handlers work on, one table per entity, and
    the JSON shapes the handlers return rows in. Timestamps and the columns
    no handler of this model reads or writes are not represented. */
module Schema {
  import opened Values
  import opened Text
  import opened Tables
  import opened Http

  /** A forwarder admin or a customs house broker: the two tables have the
      same columns, except that only a broker has a customs registration
      number (always `None` in a forwarder row). */
  datatype Account = Account(
    email: string,
    password: Option<string>,
    fullName: string,
    companyName: string,
    chatId: Option<string>,
    username: Option<string>,
    role: string,
    accessToken: string,
    refreshToken: string,
    physicalAddress: Option<string>,
    phoneNumber: Option<string>,
    avatar: Option<string>,
    businessRegistrationNumber: Option<string>,
    customsRegistrationNumber: Option<string>,
    vatNumber: Option<string>,
    kargoAccountNumber: Option<int>
  )

  datatype Admin = Admin(fullName: string, email: string, username: Option<string>, role: string,
                         password: Option<string>, chatId: Option<string>)

  /** A beneficial cargo owner: an importer a forwarder created or invited,
      or a self-registered one. */
  datatype Bco = Bco(
    fullName: Option<string>,
    emailAddress: string,
    password: Option<string>,
    chatId: Option<string>,
    username: Option<string>,
    invitedStatus: string,
    forwarderId: Option<nat>,
    contactId: Option<nat>,
    companyId: Option<nat>,
    brnCard: Option<string>,
    businessRegistrationNumber: Option<string>,
    vatNumber: Option<string>,
    physicalAddress: Option<string>,
    phoneNumber: Option<string>
  )

  datatype Company = Company(companyName: string, registeredAddress: Option<string>,
                             businessRegistrationNumber: Option<string>, vatNumber: Option<string>,
                             unlocodeRegisteredAddress: Option<string>)

  datatype Warehouse = Warehouse(companyId: nat, addressLine1: Option<string>, addressLine2: string,
                                 cityCountry: Option<string>, unlocodeWarehouseAddress: string)

  datatype Contact = Contact(contactName: Option<string>, emailAddress: Option<string>,
                             phoneNumber: Option<string>, status: Option<string>, companyId: nat,
                             accountReference: Option<string>, apiCustomerCode: Option<string>)

  datatype Tier = Tier(tierName: string, markupPercentage: real)

  datatype CompanyTier = CompanyTier(companyId: nat, tierId: nat)

  datatype Supplier = Supplier(fullName: Option<string>, email: Option<string>, product: Option<string>,
                               port: Option<string>, invitedStatus: string, bcoId: Option<nat>,
                               contactId: Option<nat>, companyId: Option<nat>)

  datatype Db = Db(
    forwarders: Table<Account>,
    chbs: Table<Account>,
    admins: Table<Admin>,
    bcos: Table<Bco>,
    companies: Table<Company>,
    warehouses: Table<Warehouse>,
    contacts: Table<Contact>,
    tiers: Table<Tier>,
    companyTiers: Table<CompanyTier>,
    suppliers: Table<Supplier>
  ) {
    ghost predicate Valid() {
      forwarders.Valid() && chbs.Valid() && admins.Valid() && bcos.Valid() && companies.Valid()
      && warehouses.Valid() && contacts.Valid() && tiers.Valid() && companyTiers.Valid()
      && suppliers.Valid()
    }
  }

  /** What a handler produces: its response, the store afterwards, and the
      calls to the chat service and the mailer, in order. */
  datatype Step = Step(reply: Reply, db: Db, effects: seq<Effect>)

  /** The company fields of an add or edit request. */
  datatype CompanyInput = CompanyInput(
    companyName: string,
    registeredAddress: Option<string>,
    businessRegistrationNumber: Option<string>,
    vatNumber: Option<string>,
    unlocodeRegisteredAddress: Option<string>,
    addressLine1: Option<string>,
    addressLine2: Option<string>,
    cityCountry: Option<string>,
    unlocodeWarehouseAddress: Option<string>,
    port: Option<string>,
    product: Option<string>
  )

  /** The contact-person fields of an add or edit request. */
  datatype ContactInput = ContactInput(
    fullName: Option<string>,
    email: Option<string>,
    phoneNumber: Option<string>,
    status: Option<string>,
    accountReference: Option<string>,
    apiCustomerCode: Option<string>,
    tier: Option<string>
  )

  /** `findUnique({ where: { id } })`: an undefined id is refused by the ORM. */
  function FindById<T>(t: Table<T>, id: Option<int>): (r: Result<Option<nat>>)
    ensures r.Err? <==> id.None?
    ensures r.Ok? && r.value.Some? ==> r.value.value == id.value && r.value.value in t.rows
    ensures r.Ok? && r.value.None? ==> id.value < 0 || id.value !in t.rows
  {
    match id
    case None => Err(MissingWhere)
    case Some(i) => if i >= 0 && i in t.rows then Ok(Some(i)) else Ok(None)
  }

  const MissingWhere := "Argument `where` of type WhereUniqueInput needs at least one argument."

  /** The range of the ORM's `Int` columns: signed 32-bit integers. */
  predicate IsInt32(i: int) {
    -0x8000_0000 <= i <= 0x7FFF_FFFF
  }

  /** The ORM's error for `NaN` where an `Int` id is expected. */
  const NotAnId := "Argument `id`: Invalid value provided. Expected Int, provided Float."

  /** The ORM's error for an id that does not fit an `Int` column. */
  const IdOutOfRange := "Unable to fit integer value into an INT4 (32-bit signed integer)."

  /** `parseInt(id)` (no radix) of a route parameter, handed to the ORM as
      an `Int` id: `NaN` and values beyond 32 bits are refused before any
      row is read. */
  function RouteId(s: string): (r: Result<int>)
    ensures r.Ok? <==> ParseIntAuto(s).Some? && IsInt32(ParseIntAuto(s).value)
    ensures r.Ok? ==> r.value == ParseIntAuto(s).value
    ensures ParseIntAuto(s).None? ==> r == Err(NotAnId)
    ensures ParseIntAuto(s).Some? && !IsInt32(ParseIntAuto(s).value) ==> r == Err(IdOutOfRange)
  {
    match ParseIntAuto(s)
    case None => Err(NotAnId)
    case Some(i) => if IsInt32(i) then Ok(i) else Err(IdOutOfRange)
  }

  /** Every id an `Int` column can hold, written in decimal, names that id;
      a larger one is refused. */
  lemma RouteIdOfDecimal(n: nat)
    ensures IsInt32(n) ==> RouteId(NatToString(n)) == Ok(n)
    ensures !IsInt32(n) ==> RouteId(NatToString(n)) == Err(IdOutOfRange)
  {
    ParseIntAutoOfNatToString(n);
  }

  /** A hexadecimal route id names the row its value names; a bare `0x` is
      refused as `NaN`. */
  lemma RouteIdOfHex()
    ensures RouteId("0x10") == Ok(16) && RouteId("-0x10") == Ok(-16)
    ensures RouteId("0x") == Err(NotAnId)
  {
    HexIdsDiffer();
  }

  function IdJson(id: Option<nat>): Json {
    match id
    case Some(i) => JInt(i)
    case None => JNull
  }

  /** A forwarder-admin or broker row as the ORM returns it. */
  function AccountObj(id: nat, a: Account, broker: bool): (o: Obj)
    ensures "password" in o && "id" in o && o["id"] == JInt(id)
    ensures ("customsRegistrationNumber" in o) <==> broker
  {
    var base := map[
      "id" := JInt(id), "email" := JStr(a.email), "password" := StrOrNull(a.password),
      "fullName" := JStr(a.fullName), "companyName" := JStr(a.companyName),
      "chatId" := StrOrNull(a.chatId), "username" := StrOrNull(a.username), "role" := JStr(a.role),
      "accessToken" := JStr(a.accessToken), "refreshToken" := JStr(a.refreshToken),
      "physicalAddress" := StrOrNull(a.physicalAddress), "phoneNumber" := StrOrNull(a.phoneNumber),
      "avatar" := StrOrNull(a.avatar),
      "businessRegistrationNumber" := StrOrNull(a.businessRegistrationNumber),
      "vatNumber" := StrOrNull(a.vatNumber), "kargoAccountNumber" := IntOrNull(a.kargoAccountNumber)];
    if broker then base["customsRegistrationNumber" := StrOrNull(a.customsRegistrationNumber)] else base
  }

  function AdminObj(id: nat, a: Admin): (o: Obj)
    ensures "password" in o && "id" in o && o["id"] == JInt(id)
  {
    map["id" := JInt(id), "fullName" := JStr(a.fullName), "email" := JStr(a.email),
        "username" := StrOrNull(a.username), "role" := JStr(a.role),
        "password" := StrOrNull(a.password), "chatId" := StrOrNull(a.chatId)]
  }

  function CompanyObj(id: nat, c: Company): Obj {
    map["id" := JInt(id), "companyName" := JStr(c.companyName),
        "registeredAddress" := StrOrNull(c.registeredAddress),
        "businessRegistrationNumber" := StrOrNull(c.businessRegistrationNumber),
        "vatNumber" := StrOrNull(c.vatNumber),
        "unlocodeRegisteredAddress" := StrOrNull(c.unlocodeRegisteredAddress)]
  }

  /** A BCO row as the ORM returns it, without related rows. */
  function BcoObj(id: nat, b: Bco): (o: Obj)
    ensures "password" in o && "id" in o && o["id"] == JInt(id) && o["password"] == StrOrNull(b.password)
    ensures "company" !in o && "contact" !in o
  {
    map["id" := JInt(id), "fullName" := StrOrNull(b.fullName), "emailAddress" := JStr(b.emailAddress),
        "password" := StrOrNull(b.password), "chatId" := StrOrNull(b.chatId),
        "username" := StrOrNull(b.username), "invitedStatus" := JStr(b.invitedStatus),
        "forwarderId" := IdJson(b.forwarderId), "contactId" := IdJson(b.contactId),
        "companyId" := IdJson(b.companyId), "brnCard" := StrOrNull(b.brnCard),
        "businessRegistrationNumber" := StrOrNull(b.businessRegistrationNumber),
        "vatNumber" := StrOrNull(b.vatNumber), "physicalAddress" := StrOrNull(b.physicalAddress),
        "phoneNumber" := StrOrNull(b.phoneNumber)]
  }

  function ContactObj(id: nat, c: Contact): Obj {
    map["id" := JInt(id), "contactName" := StrOrNull(c.contactName),
        "emailAddress" := StrOrNull(c.emailAddress), "phoneNumber" := StrOrNull(c.phoneNumber),
        "status" := StrOrNull(c.status), "companyId" := JInt(c.companyId),
        "accountReference" := StrOrNull(c.accountReference), "apiCustomerCode" := StrOrNull(c.apiCustomerCode)]
  }

  /** The company a BCO row links to, in its JSON form, if it exists. */
  function LinkedCompany(db: Db, b: Bco): Option<Obj> {
    match b.companyId
    case Some(c) => if c in db.companies.rows then Some(CompanyObj(c, db.companies.rows[c])) else None
    case None => None
  }

  /** The contact a BCO row links to, in its JSON form, if it exists. */
  function LinkedContact(db: Db, b: Bco): Option<Obj> {
    match b.contactId
    case Some(c) => if c in db.contacts.rows then Some(ContactObj(c, db.contacts.rows[c])) else None
    case None => None
  }

  function ObjOrNull(o: Option<Obj>): Json {
    match o
    case Some(x) => JObj(x)
    case None => JNull
  }

  /** A BCO row with `include: { company: true }`, and with the contact too
      when `withContact`; a missing relation is `null`. */
  function BcoIncluding(db: Db, id: nat, b: Bco, withContact: bool): (o: Obj)
    ensures "password" in o && "id" in o && o["id"] == JInt(id) && "company" in o
    ensures o["password"] == StrOrNull(b.password)
    ensures ("contact" in o) <==> withContact
  {
    var o := BcoObj(id, b)["company" := ObjOrNull(LinkedCompany(db, b))];
    if withContact then o["contact" := ObjOrNull(LinkedContact(db, b))] else o
  }

  /** `delete user.password`. */
  function WithoutPassword(o: Obj): (r: Obj)
    ensures "password" !in r
    ensures forall k :: k in o && k != "password" ==> k in r && r[k] == o[k]
    ensures r.Keys == o.Keys - {"password"}
  {
    o - {"password"}
  }
}
