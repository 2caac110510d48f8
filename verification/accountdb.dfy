/** The store functions behind the forwarder-admin and broker (CHB)
    account handlers. The two tables have the same shape; which one a
    function reads or writes is the `Kind`. */
module AccountStore {
  import opened Values
  import opened Jws
  import opened Tables
  import opened Context
  import opened Issuer
  import opened Schema

  datatype Kind = ForwarderAdmins | Brokers {
    /** The role the kind's sessions are issued for. */
    function Role(): Role {
      match this
      case ForwarderAdmins => Forwarder
      case Brokers => Chb
    }

    /** The `role` column a new account gets. */
    function RoleColumn(): string {
      match this
      case ForwarderAdmins => "ForwarderAdmin"
      case Brokers => "chb"
    }
  }

  function Accounts(db: Db, kind: Kind): Table<Account> {
    match kind
    case ForwarderAdmins => db.forwarders
    case Brokers => db.chbs
  }

  function WithAccounts(db: Db, kind: Kind, t: Table<Account>): (r: Db)
    ensures Accounts(r, kind) == t
    ensures kind.ForwarderAdmins? ==> r == db.(forwarders := t)
    ensures kind.Brokers? ==> r == db.(chbs := t)
  {
    match kind
    case ForwarderAdmins => db.(forwarders := t)
    case Brokers => db.(chbs := t)
  }

  /** `checkEmailExistence` / `checkChbEmailExistence` and
      `checkUserExistence` / `checkChbUserExistence`: the account with this
      email, in the kind's own table only. */
  function FindByEmail(db: Db, kind: Kind, email: string): (r: Option<nat>)
    ensures r.Some? ==> r.value in Accounts(db, kind).rows && Accounts(db, kind).rows[r.value].email == email
    ensures Accounts(db, kind).Valid() ==>
              (r.None? <==> forall k :: k in Accounts(db, kind).rows ==> Accounts(db, kind).rows[k].email != email)
  {
    FindFirst(Accounts(db, kind), (a: Account) => a.email == email)
  }

  /** `checkCompanyExistence` / `checkChbCompanyExistence`. */
  function FindByCompany(db: Db, kind: Kind, companyName: string): (r: Option<nat>)
    ensures r.Some? ==> r.value in Accounts(db, kind).rows && Accounts(db, kind).rows[r.value].companyName == companyName
    ensures Accounts(db, kind).Valid() ==>
              (r.None? <==> forall k :: k in Accounts(db, kind).rows ==> Accounts(db, kind).rows[k].companyName != companyName)
  {
    FindFirst(Accounts(db, kind), (a: Account) => a.companyName == companyName)
  }

  /** Whether some row of a table has this username. */
  predicate UsernameTaken<T>(t: Table<T>, name: T -> Option<string>, u: string) {
    FindFirst(t, (x: T) => name(x) == Some(u)).Some?
  }

  /** What `UsernameTaken` means row by row. */
  lemma TakenMeans<T>(t: Table<T>, name: T -> Option<string>, u: string)
    ensures t.Valid() ==> (UsernameTaken(t, name, u) <==> exists k :: k in t.rows && name(t.rows[k]) == Some(u))
  {
    if !t.Valid() { return; }
    var p := (x: T) => name(x) == Some(u);
    var r := FindFirst(t, p);
    if r.None? {
      forall k | k in t.rows ensures name(t.rows[k]) != Some(u) {
        assert !p(t.rows[k]);
      }
    } else {
      assert p(t.rows[r.value]);
    }
  }

  function AccountName(a: Account): Option<string> { a.username }
  function BcoName(b: Bco): Option<string> { b.username }

  /** `isUsernameAvailable`: no forwarder admin and no BCO has the name. */
  predicate IsUsernameAvailable(db: Db, u: string): (r: bool)
    ensures db.forwarders.Valid() && db.bcos.Valid() ==>
              (r <==> (forall k :: k in db.forwarders.rows ==> db.forwarders.rows[k].username != Some(u))
                      && (forall k :: k in db.bcos.rows ==> db.bcos.rows[k].username != Some(u)))
  {
    TakenMeans(db.forwarders, AccountName, u);
    TakenMeans(db.bcos, BcoName, u);
    !UsernameTaken(db.forwarders, AccountName, u) && !UsernameTaken(db.bcos, BcoName, u)
  }

  /** `isChbUsernameAvailable`: no forwarder admin, no BCO and no broker has it. */
  predicate IsChbUsernameAvailable(db: Db, u: string): (r: bool)
    ensures db.forwarders.Valid() && db.bcos.Valid() && db.chbs.Valid() ==>
              (r <==> (forall k :: k in db.forwarders.rows ==> db.forwarders.rows[k].username != Some(u))
                      && (forall k :: k in db.bcos.rows ==> db.bcos.rows[k].username != Some(u))
                      && (forall k :: k in db.chbs.rows ==> db.chbs.rows[k].username != Some(u)))
  {
    TakenMeans(db.forwarders, AccountName, u);
    TakenMeans(db.bcos, BcoName, u);
    TakenMeans(db.chbs, AccountName, u);
    !UsernameTaken(db.forwarders, AccountName, u) && !UsernameTaken(db.bcos, BcoName, u)
    && !UsernameTaken(db.chbs, AccountName, u)
  }

  /** What each availability check means row by row, and how the two
      relate: the broker check is the forwarder check plus the broker
      table; neither looks at the admin table, and the forwarder check
      does not look at the broker table. */
  lemma AvailabilityTables(db: Db, u: string)
    requires db.Valid()
    ensures IsUsernameAvailable(db, u)
            <==> (forall k :: k in db.forwarders.rows ==> db.forwarders.rows[k].username != Some(u))
                 && (forall k :: k in db.bcos.rows ==> db.bcos.rows[k].username != Some(u))
    ensures IsChbUsernameAvailable(db, u)
            <==> IsUsernameAvailable(db, u) && forall k :: k in db.chbs.rows ==> db.chbs.rows[k].username != Some(u)
    ensures forall chbs, admins :: IsUsernameAvailable(db.(chbs := chbs, admins := admins), u) == IsUsernameAvailable(db, u)
    ensures forall admins :: IsChbUsernameAvailable(db.(admins := admins), u) == IsChbUsernameAvailable(db, u)
  {
    TakenMeans(db.forwarders, AccountName, u);
    TakenMeans(db.bcos, BcoName, u);
    TakenMeans(db.chbs, AccountName, u);
  }

  /** A broker's username does not block a forwarder admin or a BCO from
      taking it; it does block another broker. */
  lemma BrokerNameNotReserved(db: Db, u: string, k: nat)
    requires db.Valid() && k in db.chbs.rows && db.chbs.rows[k].username == Some(u)
    requires IsUsernameAvailable(db, u)
    ensures !IsChbUsernameAvailable(db, u)
  {
    TakenMeans(db.chbs, AccountName, u);
  }

  /** Whether a row other than `except` already holds this e-mail or this
      company name. Both columns are unique in the two account tables:
      they are the ones `findUnique` looks accounts up by. */
  predicate Clashes(t: Table<Account>, except: Option<nat>, email: string, companyName: string) {
    exists j :: j in t.rows && Some(j) != except && (t.rows[j].email == email || t.rows[j].companyName == companyName)
  }

  /** No two rows share an e-mail or a company name. */
  predicate UniqueColumns(t: Table<Account>) {
    forall i, j :: i in t.rows && j in t.rows && i != j ==>
      t.rows[i].email != t.rows[j].email && t.rows[i].companyName != t.rows[j].companyName
  }

  /** The refresh token stored at account creation: `{ email }` under
      `REFRESH_TOKEN` (an unset variable becomes ""), valid ten days. */
  function SignStoredRefresh(ctx: Ctx, email: string): (r: Result<string>)
    ensures r.Err? <==> !Truthy(ctx.env.refreshToken)
  {
    Sign(ctx.svc.jwt, EmailClaims(email), Some(OrEmpty(ctx.env.refreshToken)), ctx.now, 10 * Day)
  }

  /** The fields an activation hands to `createUser` / `createChbUser`. */
  datatype NewAccount = NewAccount(email: string, companyName: string, fullName: string,
                                   chatId: string, username: string, password: string)

  /** The row `createUser` / `createChbUser` writes. */
  function AccountRow(kind: Kind, n: NewAccount, accessToken: string, refreshToken: string): Account {
    Account(n.email, Some(n.password), n.fullName, n.companyName, Some(n.chatId), Some(n.username),
            kind.RoleColumn(), accessToken, refreshToken, None, None, None, None, None, None, None)
  }

  /** `createUser` / `createChbUser`: the activation token is stored as the
      access token next to a fresh refresh token. Signing fails when
      `REFRESH_TOKEN` is unset; after it, the insert fails when another row
      holds the e-mail or the company name. Nothing is stored on failure. */
  function CreateUser(ctx: Ctx, db: Db, kind: Kind, n: NewAccount, activationToken: string): (r: Result<(Db, nat)>)
    ensures r.Err? <==> !Truthy(ctx.env.refreshToken) || Clashes(Accounts(db, kind), None, n.email, n.companyName)
    ensures Truthy(ctx.env.refreshToken) && r.Err? ==> r == Err(UniqueViolation)
    ensures r.Ok? ==> var (after, id) := r.value;
                      after == WithAccounts(db, kind, Accounts(after, kind))
                      && Accounts(after, kind).rows
                         == Accounts(db, kind).rows[id := AccountRow(kind, n, activationToken, SignStoredRefresh(ctx, n.email).value)]
                      && (Accounts(db, kind).Valid() ==> id !in Accounts(db, kind).rows)
                      && (db.Valid() ==> after.Valid())
  {
    match SignStoredRefresh(ctx, n.email)
    case Err(m) => Err(m)
    case Ok(refresh) =>
      if Clashes(Accounts(db, kind), None, n.email, n.companyName) then Err(UniqueViolation)
      else
        var (t, id) := Insert(Accounts(db, kind), AccountRow(kind, n, activationToken, refresh));
        Ok((WithAccounts(db, kind, t), id))
  }

  /** The stored refresh token carries the account's email, under
      `REFRESH_TOKEN`, for ten days. */
  lemma StoredRefreshCarriesEmail(ctx: Ctx, email: string, later: int)
    requires Sound(ctx.svc.jwt) && Truthy(ctx.env.refreshToken)
    ensures Verify(ctx.svc.jwt, SignStoredRefresh(ctx, email).value, ctx.env.refreshToken, later)
            == if later < ctx.now + 10 * Day then Valid(EmailClaims(email)) else Expired
  {
    SignThenVerify(ctx.svc.jwt, EmailClaims(email), Some(OrEmpty(ctx.env.refreshToken)), ctx.now, 10 * Day,
                   ctx.env.refreshToken, later);
  }

  /** The `data` of a profile update; `None` leaves the column alone. */
  datatype AccountPatch = AccountPatch(
    chatId: Option<string>,
    fullName: Option<string>,
    physicalAddress: Option<string>,
    companyName: Option<string>,
    businessRegistrationNumber: Option<string>,
    customsRegistrationNumber: Option<string>,
    vatNumber: Option<string>,
    kargoAccountNumber: Option<int>,
    phoneNumber: Option<string>,
    username: Option<string>
  )

  function Patched(a: Account, p: AccountPatch): Account {
    a.(chatId := ApplyOpt(a.chatId, p.chatId),
       fullName := Apply(a.fullName, p.fullName),
       physicalAddress := ApplyOpt(a.physicalAddress, p.physicalAddress),
       companyName := Apply(a.companyName, p.companyName),
       businessRegistrationNumber := ApplyOpt(a.businessRegistrationNumber, p.businessRegistrationNumber),
       customsRegistrationNumber := ApplyOpt(a.customsRegistrationNumber, p.customsRegistrationNumber),
       vatNumber := ApplyOpt(a.vatNumber, p.vatNumber),
       kargoAccountNumber := ApplyOpt(a.kargoAccountNumber, p.kargoAccountNumber),
       phoneNumber := ApplyOpt(a.phoneNumber, p.phoneNumber),
       username := ApplyOpt(a.username, p.username))
  }

  /** A patch changes only the columns it names: the e-mail, the password,
      the role and the tokens never change, nor does any column whose
      patch field is absent. */
  lemma PatchTouchesOnlyNamed(a: Account, p: AccountPatch)
    ensures var b := Patched(a, p);
            b.email == a.email && b.password == a.password && b.role == a.role
            && b.accessToken == a.accessToken && b.refreshToken == a.refreshToken && b.avatar == a.avatar
            && (p.chatId.None? ==> b.chatId == a.chatId) && (p.fullName.None? ==> b.fullName == a.fullName)
            && (p.kargoAccountNumber.None? ==> b.kargoAccountNumber == a.kargoAccountNumber)
            && (p.username.None? ==> b.username == a.username)
            && (p.customsRegistrationNumber.None? ==> b.customsRegistrationNumber == a.customsRegistrationNumber)
            && (p == AccountPatch(None, None, None, None, None, None, None, None, None, None) ==> b == a)
  {
  }

  /** `updateForwardAdmin` / `updateChb`: the row with this id, and only it.
      A missing row fails; so does a patched row whose e-mail or company
      name another row holds. */
  function UpdateAccount(db: Db, kind: Kind, id: Option<int>, p: AccountPatch): (r: Result<Db>)
    ensures r.Ok? <==> id.Some? && id.value >= 0 && id.value in Accounts(db, kind).rows
                       && var b := Patched(Accounts(db, kind).rows[id.value as nat], p);
                          !Clashes(Accounts(db, kind), Some(id.value as nat), b.email, b.companyName)
    ensures Present(Accounts(db, kind), id) && r.Err? ==> r == Err(UniqueViolation)
    ensures r.Ok? ==> r.value == WithAccounts(db, kind, Accounts(r.value, kind))
    ensures r.Ok? ==> var k: nat := id.value;
                      Accounts(r.value, kind).rows == Accounts(db, kind).rows[k := Patched(Accounts(db, kind).rows[k], p)]
    ensures r.Ok? && db.Valid() ==> r.value.Valid()
  {
    match FindById(Accounts(db, kind), id)
    case Err(m) => Err(m)
    case Ok(None) => Err(RecordNotFound)
    case Ok(Some(k)) =>
      var t := Accounts(db, kind);
      var b := Patched(t.rows[k], p);
      if Clashes(t, Some(k), b.email, b.companyName) then Err(UniqueViolation)
      else Ok(WithAccounts(db, kind, Put(t, k, b)))
  }

  /** `updateForwardAdmin(user.id, user)` at login: the whole in-memory
      record is written back over the row. */
  function WriteBack(db: Db, kind: Kind, id: nat, a: Account): (r: Db)
    requires id in Accounts(db, kind).rows
    ensures r == WithAccounts(db, kind, Accounts(r, kind))
    ensures Accounts(r, kind).rows == Accounts(db, kind).rows[id := a]
    ensures db.Valid() ==> r.Valid()
  {
    WithAccounts(db, kind, Put(Accounts(db, kind), id, a))
  }

  /** Writing back the row as it is stored changes nothing. */
  lemma WriteBackUnchanged(db: Db, kind: Kind, id: nat)
    requires id in Accounts(db, kind).rows
    ensures WriteBack(db, kind, id, Accounts(db, kind).rows[id]) == db
  {
    var t := Accounts(db, kind);
    assert t.rows[id := t.rows[id]] == t.rows;
    assert Put(t, id, t.rows[id]) == t;
  }

  /** Creating an account keeps the e-mail and company-name columns unique. */
  lemma {:induction false} CreateUserKeepsUnique(ctx: Ctx, db: Db, kind: Kind, n: NewAccount, activationToken: string)
    requires Accounts(db, kind).Valid() && UniqueColumns(Accounts(db, kind))
    requires CreateUser(ctx, db, kind, n, activationToken).Ok?
    ensures UniqueColumns(Accounts(CreateUser(ctx, db, kind, n, activationToken).value.0, kind))
  {
    var (after, id) := CreateUser(ctx, db, kind, n, activationToken).value;
    var t, t' := Accounts(db, kind), Accounts(after, kind);
    forall i, j | i in t'.rows && j in t'.rows && i != j
      ensures t'.rows[i].email != t'.rows[j].email && t'.rows[i].companyName != t'.rows[j].companyName
    {
      if i == id {
        assert j in t.rows && Some(j) != None;
      } else if j == id {
        assert i in t.rows && Some(i) != None;
      }
    }
  }

  /** A successful profile write keeps the two columns unique. */
  lemma {:induction false} UpdateAccountKeepsUnique(db: Db, kind: Kind, id: Option<int>, p: AccountPatch)
    requires UniqueColumns(Accounts(db, kind))
    requires UpdateAccount(db, kind, id, p).Ok?
    ensures UniqueColumns(Accounts(UpdateAccount(db, kind, id, p).value, kind))
  {
    var k: nat := id.value;
    var t, t' := Accounts(db, kind), Accounts(UpdateAccount(db, kind, id, p).value, kind);
    forall i, j | i in t'.rows && j in t'.rows && i != j
      ensures t'.rows[i].email != t'.rows[j].email && t'.rows[i].companyName != t'.rows[j].companyName
    {
      if i == k {
        assert Some(j) != Some(k);
      } else if j == k {
        assert Some(i) != Some(k);
      }
    }
  }

  /** A login's write-back leaves the e-mail and company name as stored,
      so it cannot break their uniqueness. */
  lemma {:induction false} WriteBackKeepsUnique(db: Db, kind: Kind, id: nat, a: Account)
    requires id in Accounts(db, kind).rows && UniqueColumns(Accounts(db, kind))
    requires a.email == Accounts(db, kind).rows[id].email && a.companyName == Accounts(db, kind).rows[id].companyName
    ensures UniqueColumns(Accounts(WriteBack(db, kind, id, a), kind))
  {
    var t, t' := Accounts(db, kind), Accounts(WriteBack(db, kind, id, a), kind);
    forall i, j | i in t'.rows && j in t'.rows && i != j
      ensures t'.rows[i].email != t'.rows[j].email && t'.rows[i].companyName != t'.rows[j].companyName
    {
      assert t'.rows[i].email == t.rows[i].email && t'.rows[i].companyName == t.rows[i].companyName;
      assert t'.rows[j].email == t.rows[j].email && t'.rows[j].companyName == t.rows[j].companyName;
    }
  }
}
