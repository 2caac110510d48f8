/** Invitations: a forwarder invites an importer, a BCO invites a
    supplier, and either way the invitee receives a mail with a sign-up
    link that carries a one-day invite token. */
module Invitation {
  import opened Values
  import opened Jws
  import opened Http
  import opened Context
  import opened Issuer

  /** The request body of an invitation. */
  datatype Invite = Invite(fullName: Option<string>, email: string, companyName: string, id: Option<int>)

  /** The payload `generateUniqueInviteToken({ id, email, companyName, fullName })` signs. */
  function InviteClaimsOf(i: Invite): (c: Claims)
    ensures c.InviteClaims?
  {
    InviteClaims(i.id, Some(i.email), Some(i.companyName), i.fullName)
  }

  /** What precedes the token in a sign-up link. */
  function LinkPrefix(env: Env): string {
    Interpolate(env.frontendUrl) + "/auth/bco/signup?invite="
  }

  /** The invitation mail, with `inviterName` the inviting account's full
      name. Signing fails without `INVITE_SECRET`. */
  function InvitationMail(ctx: Ctx, i: Invite, inviterName: Option<string>, subject: string): (r: Result<Effect>)
    ensures r.Err? <==> !Truthy(ctx.env.inviteSecret)
    ensures r.Ok? ==> r.value.SendMail? && r.value.to == i.email && r.value.subject == subject
                      && r.value.template == "invite-mail.ejs"
                      && "signupLink" in r.value.data
                      && r.value.data["signupLink"] == JStr(LinkPrefix(ctx.env) + InviteToken(ctx, InviteClaimsOf(i)).value)
                      && "invitedName" in r.value.data
                      && (r.value.data["invitedName"] == JNull <==> !Truthy(i.fullName))
  {
    match InviteToken(ctx, InviteClaimsOf(i))
    case Err(m) => Err(m)
    case Ok(token) =>
      Ok(SendMail(i.email, subject, "invite-mail.ejs",
                  map["invitedName" := (if Truthy(i.fullName) then JStr(i.fullName.value) else JNull),
                      "inviterFullName" := StrOrNull(inviterName),
                      "inviterCompanyName" := JStr(i.companyName),
                      "signupLink" := JStr(LinkPrefix(ctx.env) + token)]))
  }

  /** The link in an invitation mail carries a token that verifies, for one
      day from sending, to exactly the invitation. */
  lemma InvitationLinkVerifies(ctx: Ctx, i: Invite, inviterName: Option<string>, subject: string, later: int)
    requires Sound(ctx.svc.jwt)
    requires InvitationMail(ctx, i, inviterName, subject).Ok?
    ensures var link := InvitationMail(ctx, i, inviterName, subject).value.data["signupLink"];
            var prefix := LinkPrefix(ctx.env);
            link.JStr? && |prefix| <= |link.s| && link.s[..|prefix|] == prefix
            && VerifyInviteToken(ctx.(now := later), link.s[|prefix|..])
               == if later < ctx.now + Day then Valid(InviteClaimsOf(i)) else Expired
  {
    var token := InviteToken(ctx, InviteClaimsOf(i)).value;
    var prefix := LinkPrefix(ctx.env);
    assert (prefix + token)[|prefix|..] == token;
    assert (prefix + token)[..|prefix|] == prefix;
    InviteRoundTrip(ctx, InviteClaimsOf(i), later);
  }
}
