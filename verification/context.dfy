/** The process environment and the services a handler calls but that are
    not modelled: the token oracle, bcrypt's `compare` and the chat
    service's token minting. Time is a parameter: `now` is the current time
    in whole seconds. */
module Context {
  import opened Values
  import opened Jws

  /** The environment variables the core reads; `None` is an unset variable. */
  datatype Env = Env(
    accessToken: Option<string>,        // ACCESS_TOKEN
    refreshToken: Option<string>,       // REFRESH_TOKEN
    bcoSecret: Option<string>,          // BCO_SECRET
    chbSecret: Option<string>,          // CHB_SECRET
    adminSecret: Option<string>,        // ADMIN_SECRET
    activationSecret: Option<string>,   // ACTIVATION_SECRET
    inviteSecret: Option<string>,       // INVITE_SECRET
    accessTokenExpire: Option<string>,  // ACCESS_TOKEN_EXPIRE (hours)
    refreshTokenExpire: Option<string>, // REFRESH_TOKEN_EXPIRE (days)
    frontendUrl: Option<string>,        // FRONTEND_URL
    production: bool                    // NODE_ENV === "production"
  )

  datatype Services = Services(
    jwt: Jwt,
    /** bcrypt `compare(plain, hash)` */
    compare: (string, string) -> bool,
    /** the chat service's `createToken(userId)` for a string id */
    chatToken: string -> string
  )

  datatype Ctx = Ctx(env: Env, svc: Services, now: int)
}
