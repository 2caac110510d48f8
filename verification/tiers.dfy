/** Pricing tiers and the links between companies and tiers: the tier
    lookup by name, its find-or-create use, the company-tier upsert, and
    the tier label an importer is listed with. */
module TierStore {
  import opened Values
  import opened Tables
  import opened Schema

  /** The markup a new tier gets. */
  const DefaultMarkup: real := 0.0

  /** The wrapped error of every failure inside `updateCompanyTier`. */
  const TierUpdateFailed := "Error updating company tier"

  /** The ORM's error for creating a tier without a name. */
  const MissingTierName := "Argument `tierName` is missing."

  /** The ORM's error for a link to a missing company or tier. */
  const LinkRefused := "Foreign key constraint failed on the field: `companyId`"

  /** `where: { tierName: name }`: an undefined name matches every tier. */
  function TierNamed(name: Option<string>): Tier -> bool {
    (t: Tier) => name.None? || t.tierName == name.value
  }

  /** `where: { companyId }`. */
  function LinkOf(companyId: nat): CompanyTier -> bool {
    (l: CompanyTier) => l.companyId == companyId
  }

  /** `findTier(name)` and `findTierByName(name)`: the first tier with this name. */
  function FindTier(db: Db, name: Option<string>): (r: Option<nat>)
    ensures r.Some? ==> r.value in db.tiers.rows && (name.Some? ==> db.tiers.rows[r.value].tierName == name.value)
    ensures db.tiers.Valid() && name.Some? ==>
              (r.None? <==> forall k :: k in db.tiers.rows ==> db.tiers.rows[k].tierName != name.value)
  {
    FindFirst(db.tiers, TierNamed(name))
  }

  /** The tier a name stands for: the existing one, or else a new one with
      markup 0 (which needs a name). Returns the store and the tier's id. */
  function TierFor(db: Db, name: Option<string>): (r: Result<(Db, nat)>)
    ensures FindTier(db, name).Some? ==> r == Ok((db, FindTier(db, name).value))
    ensures FindTier(db, name).None? ==> (r.Ok? <==> name.Some?)
    ensures r.Ok? ==> var (after, id) := r.value;
                      id in after.tiers.rows && (name.Some? ==> after.tiers.rows[id].tierName == name.value)
                      && after == db.(tiers := after.tiers)
    ensures r.Ok? && db.tiers.Valid() ==>
              forall k :: k in db.tiers.rows ==> k in r.value.0.tiers.rows && r.value.0.tiers.rows[k] == db.tiers.rows[k]
    ensures r.Ok? && FindTier(db, name).None? ==> r.value.0.tiers.rows[r.value.1] == Tier(name.value, DefaultMarkup)
    ensures r.Ok? && db.Valid() ==> r.value.0.Valid()
  {
    match FindTier(db, name)
    case Some(id) => Ok((db, id))
    case None =>
      if name.None? then Err(MissingTierName)
      else
        var (tiers, id) := Insert(db.tiers, Tier(name.value, DefaultMarkup));
        Ok((db.(tiers := tiers), id))
  }

  /** `addCompnayTier(companyId, tierId)`: a new link; both ends must exist. */
  function AddCompanyTier(db: Db, companyId: nat, tierId: nat): (r: Result<Db>)
    ensures r.Ok? <==> companyId in db.companies.rows && tierId in db.tiers.rows
    ensures r.Ok? ==> r.value == db.(companyTiers := r.value.companyTiers)
                      && db.companyTiers.next in r.value.companyTiers.rows
                      && r.value.companyTiers.rows == db.companyTiers.rows[db.companyTiers.next := CompanyTier(companyId, tierId)]
    ensures r.Ok? && db.Valid() ==> r.value.Valid() && db.companyTiers.next !in db.companyTiers.rows
  {
    if companyId !in db.companies.rows || tierId !in db.tiers.rows then Err(LinkRefused)
    else Ok(db.(companyTiers := Insert(db.companyTiers, CompanyTier(companyId, tierId)).0))
  }

  /** `updateCompanyTier(companyId, name)`: find or create the tier, then
      re-point the company's first link to it, or create a link when the
      company has none. Every failure becomes one generic error. */
  function UpdateCompanyTier(db: Db, companyId: nat, name: Option<string>): (r: Result<Db>)
    ensures r.Err? ==> r.message == TierUpdateFailed
    ensures companyId in db.companies.rows ==> (r.Ok? <==> name.Some? || FindTier(db, name).Some?)
    ensures r.Ok? ==> r.value == db.(tiers := r.value.tiers, companyTiers := r.value.companyTiers)
    ensures r.Ok? && db.Valid() ==>
              r.value.Valid()
              && FindFirst(r.value.companyTiers, LinkOf(companyId)).Some?
              && var l := r.value.companyTiers.rows[FindFirst(r.value.companyTiers, LinkOf(companyId)).value];
                 l.tierId in r.value.tiers.rows
                 && (name.Some? ==> r.value.tiers.rows[l.tierId].tierName == name.value)
  {
    match TierFor(db, name)
    case Err(_) => Err(TierUpdateFailed)
    case Ok((withTier, tierId)) =>
      match FindFirst(withTier.companyTiers, LinkOf(companyId))
      case Some(l) =>
        var link := withTier.companyTiers.rows[l].(tierId := tierId);
        FindFirstAfterPut(withTier.companyTiers, LinkOf(companyId), l, link);
        Ok(withTier.(companyTiers := Put(withTier.companyTiers, l, link)))
      case None =>
        match AddCompanyTier(withTier, companyId, tierId)
        case Err(_) => Err(TierUpdateFailed)
        case Ok(linked) => Ok(linked)
  }

  /** The tier label of a listed importer: the name of the tier its
      company's first link points to, or "No Tier" when there is no
      company, no link, no such tier or an empty name. */
  function TierLabel(db: Db, b: Bco): (tag: string)
    ensures tag != ""
  {
    match b.companyId
    case None => "No Tier"
    case Some(c) =>
      match FindFirst(db.companyTiers, LinkOf(c))
      case None => "No Tier"
      case Some(l) =>
        var t := db.companyTiers.rows[l].tierId;
        if t in db.tiers.rows && db.tiers.rows[t].tierName != "" then db.tiers.rows[t].tierName else "No Tier"
  }
}
