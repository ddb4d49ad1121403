/** The mpop command line the cron job launches for one fetcher: the
    retrieval script followed by fourteen option fragments in a fixed order,
    appended one after another with no quoting or escaping of the values
    spliced in. */
module Mpop {
  import opened Text
  import opened Fetchers
  import opened Mailbox

  /** The module settings the cron job reads once, when it starts. */
  datatype CronConfig = CronConfig(mpopDataFolder: string, mpopScript: string, deliveryScript: string)

  function OnOff(b: bool): string { if b then "on" else "off" }

  /** Whether --tls and --tls-starttls are switched on for an incoming
      connection security. */
  function TlsSwitches(security: Security): (r: (bool, bool))
    ensures r.1 ==> r.0
    ensures r.0 <==> security == Ssl || security == StartTls
    ensures r.1 <==> security == StartTls
  {
    match security
    case Ssl => (true, false)
    case StartTls => (true, true)
    case _ => (false, false)
  }

  function HostArg(server: string): string { " --host=\"" + server + "\"" }

  function PortArg(port: int): string { " --port=" + Decimal(port) }

  function UserArg(login: string): string { " --user=\"" + login + "\"" }

  function UidlsArg(maildir: string, fetcherId: int): string
  {
    " --uidls-file=\"" + UidlsFile(maildir, fetcherId) + "\""
  }

  /** mpop hands every message to the delivery script, for this account's
      e-mail and the fetcher's folder. */
  function DeliveryArg(deliveryScript: string, accountEmail: string, folder: string): string
  {
    " --delivery=mda,\"" + deliveryScript + " -d " + accountEmail + " -m '" + folder + "'\""
  }

  function KeepArg(leaveMessagesOnServer: bool): (a: string)
  {
    " --keep=" + OnOff(leaveMessagesOnServer)
  }

  /** SSL and STARTTLS both switch TLS on; anything else leaves it off. */
  function TlsArg(security: Security): (a: string)
  {
    " --tls=" + OnOff(TlsSwitches(security).0)
  }

  /** Only STARTTLS switches STARTTLS on. */
  function StartTlsArg(security: Security): (a: string)
  {
    " --tls-starttls=" + OnOff(TlsSwitches(security).1)
  }

  /** mpop reads the password from the output of an echo command. */
  function PasswordArg(password: string): string
  {
    " --passwordeval=\"echo '" + password + "'\""
  }

  /** Options that do not depend on the fetcher: fetch only new messages and
      never check the server certificate. */
  const OnlyNew := " --only-new=on"
  const NoCertCheck := " --tls-certcheck=off"

  /** The command string handed to the shell. */
  function MpopCommand(config: CronConfig, f: Fetcher, accountEmail: string): (cmd: string)
  {
    var cmd :=
      config.mpopScript
      + HostArg(f.incomingServer)
      + PortArg(f.incomingPort)
      + UserArg(f.incomingLogin)
      + " --auth=user"
      + UidlsArg(Maildir(config.mpopDataFolder, accountEmail), f.entityId)
      + DeliveryArg(config.deliveryScript, accountEmail, f.folder)
      + KeepArg(f.leaveMessagesOnServer)
      + OnlyNew
      + TlsArg(f.incomingMailSecurity)
      + NoCertCheck
      + StartTlsArg(f.incomingMailSecurity)
      + " --received-header=off"
      + " --half-quiet"
      + PasswordArg(f.incomingPassword);
    cmd
  }

  /** The server is spliced between double quotes as it is. */
  lemma {:induction false} HostArgValue(server: string)
    ensures var a := HostArg(server);
      |a| == |server| + 10 && a[..9] == " --host=\"" && a[9..|a| - 1] == server && a[|a| - 1] == '"'
  {
  }

  /** The port is written in decimal: reading the value back gives the port. */
  lemma {:induction false} PortArgValue(port: int)
    ensures var a := PortArg(port);
      |a| > 8 && a[..8] == " --port=" && ParseDecimal(a[8..]) == port
  {
    assert PortArg(port)[8..] == Decimal(port);
    DecimalRoundTrip(port);
  }

  /** The login is spliced between double quotes as it is. */
  lemma {:induction false} UserArgValue(login: string)
    ensures var a := UserArg(login);
      |a| == |login| + 10 && a[..9] == " --user=\"" && a[9..|a| - 1] == login && a[|a| - 1] == '"'
  {
  }

  /** The fetcher's UIDL file is spliced between double quotes. */
  lemma {:induction false} UidlsArgValue(maildir: string, fetcherId: int)
    ensures var a := UidlsArg(maildir, fetcherId); var u := UidlsFile(maildir, fetcherId);
      |a| == |u| + 16 && a[..15] == " --uidls-file=\"" && a[15..|a| - 1] == u && a[|a| - 1] == '"'
  {
  }

  /** The delivery script, the account e-mail and the folder appear in the
      delivery option as they are, at fixed places. */
  lemma {:induction false} DeliveryArgValue(deliveryScript: string, accountEmail: string, folder: string)
    ensures var a := DeliveryArg(deliveryScript, accountEmail, folder); var n := |deliveryScript|;
      && |a| == n + |accountEmail| + |folder| + 28
      && a[..17] == " --delivery=mda,\"" && a[17..17 + n] == deliveryScript
      && a[17 + n..21 + n] == " -d " && a[21 + n..21 + n + |accountEmail|] == accountEmail
      && a[|a| - |folder| - 7..|a| - |folder| - 2] == " -m '" && a[|a| - |folder| - 2..|a| - 2] == folder
      && a[|a| - 2..] == "'\""
  {
  }

  /** The password is spliced into the echo command between single quotes. */
  lemma {:induction false} PasswordArgValue(password: string)
    ensures var a := PasswordArg(password);
      && |a| == |password| + 25
      && a[..23] == " --passwordeval=\"echo '" && a[23..|a| - 2] == password && a[|a| - 2..] == "'\""
  {
  }

  /** --keep is on exactly when messages are left on the server. */
  lemma {:induction false} KeepArgValues(leaveMessagesOnServer: bool)
    ensures KeepArg(leaveMessagesOnServer) == " --keep=on" <==> leaveMessagesOnServer
    ensures KeepArg(leaveMessagesOnServer) == " --keep=off" <==> !leaveMessagesOnServer
  {
    assert " --keep=on"[9] != " --keep=off"[9];
  }

  /** SSL and STARTTLS both switch TLS on; anything else leaves it off. */
  lemma {:induction false} TlsArgValues(security: Security)
    ensures TlsArg(security) == " --tls=on" <==> security == Ssl || security == StartTls
    ensures TlsArg(security) == " --tls=off" <==> !(security == Ssl || security == StartTls)
  {
    assert " --tls=on"[8] != " --tls=off"[8];
  }

  /** Only STARTTLS switches STARTTLS on. */
  lemma {:induction false} StartTlsArgValues(security: Security)
    ensures StartTlsArg(security) == " --tls-starttls=on" <==> security == StartTls
    ensures StartTlsArg(security) == " --tls-starttls=off" <==> security != StartTls
  {
    assert " --tls-starttls=on"[17] != " --tls-starttls=off"[17];
  }

  /** The command ends with the option that echoes the fetcher's password. */
  lemma {:induction false} CommandEndsWithPassword(config: CronConfig, f: Fetcher, accountEmail: string)
    ensures var cmd := MpopCommand(config, f, accountEmail);
      var p := PasswordArg(f.incomingPassword);
      |p| <= |cmd| && cmd[|cmd| - |p|..] == p
  {
  }

  /** Fetchers of one account never share a --uidls-file argument. */
  lemma {:induction false} UidlsArgumentsDistinct(maildir: string, a: int, b: int)
    requires a != b
    ensures UidlsArg(maildir, a) != UidlsArg(maildir, b)
  {
    UidlsFileDistinct(maildir, a, b);
    var ua, ub := UidlsFile(maildir, a), UidlsFile(maildir, b);
    var prefix := " --uidls-file=\"";
    assert (prefix + ua + "\"")[|prefix|..|prefix| + |ua|] == ua;
    assert (prefix + ub + "\"")[|prefix|..|prefix| + |ub|] == ub;
  }
}
