/** The data model of the MailSuite fetchers: the fetcher record, the mail
    account it delivers into, and the externally visible effects (store calls
    and process launches) that the cron job and the management API produce. */
module Fetchers {

  datatype Option<T> = None | Some(value: T)

  /** Connection security of a POP3 or SMTP server. OtherSecurity stands for
      any stored value that is none of the three named kinds. */
  datatype Security = NoSecurity | Ssl | StartTls | OtherSecurity(code: int)

  /** One remote-mailbox polling configuration. Times are whole seconds since
      the epoch; checkInterval is in minutes. */
  datatype Fetcher = Fetcher(
    entityId: int,
    idUser: int,
    idAccount: int,
    isEnabled: bool,
    incomingServer: string,
    incomingPort: int,
    incomingLogin: string,
    incomingPassword: string,
    incomingMailSecurity: Security,
    leaveMessagesOnServer: bool,
    folder: string,
    isOutgoingEnabled: bool,
    name: string,
    email: string,
    outgoingServer: string,
    outgoingPort: int,
    outgoingMailSecurity: Security,
    outgoingUseAuth: bool,
    useSignature: bool,
    signature: string,
    isLocked: bool,
    checkInterval: int,
    checkLastTime: int)

  /** The owning mail account, as far as the fetchers use it. */
  datatype Account = Account(entityId: int, email: string)

  /** What the outside world sees, in order: reads of the whole fetcher list,
      writes to the fetcher store (with their notifyFull flag), creations,
      deletions, and launches of the retrieval command. */
  datatype Effect =
    | ListedAll
    | Updated(fetcher: Fetcher, notifyFull: bool)
    | Created(fetcher: Fetcher)
    | Deleted(id: int)
    | Exec(command: string)

  /** The management API's boolean SSL switch, as a connection security. */
  function SecurityFromSslFlag(useSsl: bool): (s: Security)
    ensures s == Ssl <==> useSsl
    ensures s == NoSecurity <==> !useSsl
  {
    if useSsl then Ssl else NoSecurity
  }
}
