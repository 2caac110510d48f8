/** What a handler hands back to the web framework, what it asks of the
    outside world (the hosted chat directory and the mailer), and what it
    throws. */
module Http {
  import opened Values

  /** A cookie as `res.cookie(name, value, options)` receives it; `maxAge`
      is in milliseconds and `None` stands for `NaN`. */
  datatype Cookie = Cookie(name: string, value: string, maxAge: Option<int>, httpOnly: bool,
                           sameSite: string, secure: bool)

  datatype Reply =
    /** `{ success, message }` */
    | Msg(status: int, success: bool, message: string)
    /** `{ success: false, error }` (a rejected activation code) */
    | Refused(status: int, error: string)
    /** `{ error }` (the chat endpoints) */
    | Failure(status: int, error: string)
    /** `{ success: true, message, activationToken }` */
    | ActivationSent(status: int, message: string, activationToken: string)
    /** `{ success: true, [message,] user }` plus the cookies set with it */
    | Session(status: int, notice: Option<string>, user: Obj, cookies: seq<Cookie>)
    /** `{ success: true, message, data: { records, totalCount } }`; each
        record is represented by its row id */
    | Listed(status: int, message: string, records: seq<nat>, totalCount: nat)
    /** any other JSON body */
    | Body(status: int, body: Obj)
    /** `res.sendStatus(status)` */
    | Bare(status: int)
    /** a body relaying what the chat service answered */
    | Relayed(status: int)
    /** `next(new ErrorHandler(message, status))`: handed on to the
        framework's error handling with this status and message */
    | Forward(status: int, message: string)

  /** A user record in the chat directory; absent fields are not sent. */
  datatype DirUser = DirUser(id: Option<string>, name: Option<string>, username: Option<string>,
                             avatar: Option<string>)

  /** Calls to the chat service and the mailer, in the order they are made. */
  datatype Effect =
    | UpsertUsers(users: seq<DirUser>)
    | UpsertUser(user: DirUser)
    | CreateChannel(kind: string, channelId: string, members: seq<Option<string>>, createdBy: Option<string>)
    | PostMessage(channelId: string, text: Option<string>, sender: Option<string>)
    | AddMembers(channelId: string, added: Json)
    | SendMail(to: string, subject: string, template: string, data: Obj)

  /** What was thrown: the class of the error and its message. */
  datatype ErrorKind =
    | TokenExpired
    | JsonWebToken
    /** the `ErrorHandler` class declared next to `handleErrors` */
    | LocalHandler(statusCode: int)
    /** anything else, the other `ErrorHandler` class included */
    | Plain

  datatype Thrown = Thrown(kind: ErrorKind, message: string)
}
