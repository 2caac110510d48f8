/** Lazy provisioning, shared by the forwarder-admin, broker and BCO login
    and profile-update handlers: a missing chat id is filled with a fresh
    one, a missing username with the derived one, and a welcome message is
    due exactly when something was filled in. */
module Provision {
  import opened Values
  import opened Text
  import opened Short

  /** The identity fields after provisioning, and whether anything was filled. */
  datatype Provisioned = Provisioned(chatId: Option<string>, username: Option<string>, filled: bool)

  /** `x?.trim().toLocaleLowerCase()`. */
  function NormOpt(o: Option<string>): Option<string> {
    match o
    case Some(s) => Some(Normalize(s))
    case None => None
  }

  /** A falsy `chatId` becomes `newId`. A falsy `username` becomes `derived`,
      unless the request itself supplies a truthy username (`supplied`;
      `None` at login, where nothing is supplied). */
  function Provision(chatId: Option<string>, username: Option<string>, supplied: Option<string>,
                     newId: string, derived: string): (p: Provisioned)
    ensures p.filled <==> !Truthy(chatId) || (!Truthy(username) && !Truthy(supplied))
    ensures Truthy(chatId) ==> p.chatId == chatId
    ensures !Truthy(chatId) ==> p.chatId == Some(newId)
    ensures Truthy(username) || Truthy(supplied) ==> p.username == username
    ensures !Truthy(username) && !Truthy(supplied) ==> p.username == Some(derived)
  {
    var c := if Truthy(chatId) then chatId else Some(newId);
    var u := if Truthy(username) || Truthy(supplied) then username else Some(derived);
    Provisioned(c, u, !Truthy(chatId) || (!Truthy(username) && !Truthy(supplied)))
  }

  /** With a non-empty new id and a non-empty derived name, the flag says
      exactly whether a field changed, and afterwards the chat id is set. */
  lemma FilledIffChanged(chatId: Option<string>, username: Option<string>, supplied: Option<string>,
                         newId: string, derived: string)
    requires newId != "" && derived != ""
    ensures var p := Provision(chatId, username, supplied, newId, derived);
            (p.filled <==> p.chatId != chatId || p.username != username)
            && Truthy(p.chatId)
  {
  }

  /** Provisioning is idempotent: a second pass over its own output, with
      any new id and any derivation, fills nothing and changes nothing. */
  lemma ProvisionIdempotent(chatId: Option<string>, username: Option<string>, newId: string, derived: string,
                            newId2: string, derived2: string)
    requires newId != "" && derived != ""
    ensures var p := Provision(chatId, username, None, newId, derived);
            var q := Provision(p.chatId, p.username, None, newId2, derived2);
            !q.filled && q.chatId == p.chatId && q.username == p.username
  {
  }

  /** The username a login derives for an account that has none: the
      derivation of `genrateUniqueUsername`, never empty, already
      normalised. */
  lemma DerivedUsernameSettled(email: string, companyName: string)
    ensures GenerateUsername(email, companyName) != ""
    ensures NormOpt(Some(GenerateUsername(email, companyName))) == Some(GenerateUsername(email, companyName))
  {
    var u := GenerateUsername(email, companyName);
    UsernameShape(email, companyName);
    assert |u| > 0;
    NormalizedUsername(email, companyName);
    assert NormOpt(Some(u)) == Some(Normalize(u));
  }
}
