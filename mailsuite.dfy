/** The MailSuite module's fetcher management API: settings, listing,
    creation, the three kinds of update, deletion, and the hook that lets a
    user send mail through one of their fetchers. Every operation except the
    settings call and the hook is switched off by the AllowFetchers setting;
    the settings call reports that setting whatever its value. Every operation
    on an existing fetcher first checks that the calling user owns it. */
module MailSuite {
  import opened Fetchers
  import opened Store

  /** What the settings call reports to the client. */
  datatype Settings = Settings(allowFetchers: bool)

  /** The arguments the mail module hands to the send/save hook: the chosen
      fetcher id, the calling user, and the fetcher attached so far, if any. */
  datatype MessageArgs = MessageArgs(fetcherId: int, userId: int, fetcher: Option<Fetcher>)

  /** The fetchers of `fs` that belong to the user, in the same order. */
  function OwnedBy(fs: seq<Fetcher>, userId: int): (r: seq<Fetcher>)
    ensures |r| <= |fs|
    ensures forall f :: f in r <==> f in fs && f.idUser == userId
  {
    if fs == [] then []
    else if fs[0].idUser == userId then [fs[0]] + OwnedBy(fs[1..], userId)
    else OwnedBy(fs[1..], userId)
  }

  /** A new fetcher as the create call fills it in; every field the call does
      not set keeps the value a freshly constructed fetcher has. */
  function NewFetcher(blank: Fetcher, userId: int, accountId: int, folder: string, incomingLogin: string,
                      incomingPassword: string, incomingServer: string, incomingPort: int,
                      incomingUseSsl: bool, leaveMessagesOnServer: bool): (f: Fetcher)
    ensures f.idUser == userId && f.idAccount == accountId
    ensures f.incomingServer == incomingServer && f.incomingPort == incomingPort
    ensures f.incomingLogin == incomingLogin && f.incomingPassword == incomingPassword
    ensures f.incomingMailSecurity == (if incomingUseSsl then Ssl else NoSecurity)
    ensures f.leaveMessagesOnServer == leaveMessagesOnServer && f.folder == folder
    ensures f.(idUser := blank.idUser, idAccount := blank.idAccount, incomingServer := blank.incomingServer,
               incomingPort := blank.incomingPort, incomingLogin := blank.incomingLogin,
               incomingPassword := blank.incomingPassword, incomingMailSecurity := blank.incomingMailSecurity,
               leaveMessagesOnServer := blank.leaveMessagesOnServer, folder := blank.folder) == blank
  {
    blank.(idUser := userId, idAccount := accountId, incomingServer := incomingServer, incomingPort := incomingPort,
           incomingLogin := incomingLogin, incomingPassword := incomingPassword,
           incomingMailSecurity := SecurityFromSslFlag(incomingUseSsl),
           leaveMessagesOnServer := leaveMessagesOnServer, folder := folder)
  }

  /** The incoming-connection update: six fields, and the password only when
      one is supplied. */
  function WithIncomingSettings(f: Fetcher, isEnabled: bool, folder: string, incomingServer: string, incomingPort: int,
                                incomingUseSsl: bool, leaveMessagesOnServer: bool, incomingPassword: Option<string>): (g: Fetcher)
    ensures g.isEnabled == isEnabled && g.folder == folder
    ensures g.incomingServer == incomingServer && g.incomingPort == incomingPort
    ensures g.incomingMailSecurity == (if incomingUseSsl then Ssl else NoSecurity)
    ensures g.leaveMessagesOnServer == leaveMessagesOnServer
    ensures g.incomingPassword == (if incomingPassword.Some? then incomingPassword.value else f.incomingPassword)
    ensures g.(isEnabled := f.isEnabled, folder := f.folder, incomingServer := f.incomingServer,
               incomingPort := f.incomingPort, incomingMailSecurity := f.incomingMailSecurity,
               leaveMessagesOnServer := f.leaveMessagesOnServer, incomingPassword := f.incomingPassword) == f
  {
    var g := f.(isEnabled := isEnabled, incomingServer := incomingServer, incomingPort := incomingPort);
    var g := if incomingPassword.Some? then g.(incomingPassword := incomingPassword.value) else g;
    g.(incomingMailSecurity := SecurityFromSslFlag(incomingUseSsl), leaveMessagesOnServer := leaveMessagesOnServer, folder := folder)
  }

  /** The outgoing-identity update: the SMTP server, its security and
      authentication, and the sender name and address. */
  function WithSmtpSettings(f: Fetcher, email: string, name: string, isOutgoingEnabled: bool, outgoingServer: string,
                            outgoingPort: int, outgoingUseSsl: bool, outgoingUseAuth: bool): (g: Fetcher)
    ensures g.email == email && g.name == name && g.isOutgoingEnabled == isOutgoingEnabled
    ensures g.outgoingServer == outgoingServer && g.outgoingPort == outgoingPort
    ensures g.outgoingMailSecurity == (if outgoingUseSsl then Ssl else NoSecurity)
    ensures g.outgoingUseAuth == outgoingUseAuth
    ensures g.(email := f.email, name := f.name, isOutgoingEnabled := f.isOutgoingEnabled,
               outgoingServer := f.outgoingServer, outgoingPort := f.outgoingPort,
               outgoingMailSecurity := f.outgoingMailSecurity, outgoingUseAuth := f.outgoingUseAuth) == f
  {
    f.(isOutgoingEnabled := isOutgoingEnabled, name := name, email := email, outgoingServer := outgoingServer,
       outgoingPort := outgoingPort, outgoingMailSecurity := SecurityFromSslFlag(outgoingUseSsl),
       outgoingUseAuth := outgoingUseAuth)
  }

  /** The signature update. */
  function WithSignature(f: Fetcher, useSignature: bool, signature: string): (g: Fetcher)
    ensures g.useSignature == useSignature && g.signature == signature
    ensures g.(useSignature := f.useSignature, signature := f.signature) == f
  {
    f.(useSignature := useSignature, signature := signature)
  }

  /** None of the management updates touches the identity of a fetcher or the
      lock and timestamp the cron job keeps. */
  ghost predicate SameCronState(f: Fetcher, g: Fetcher)
  {
    && g.entityId == f.entityId && g.idUser == f.idUser && g.idAccount == f.idAccount
    && g.isLocked == f.isLocked && g.checkLastTime == f.checkLastTime && g.checkInterval == f.checkInterval
  }

  lemma {:induction false} UpdatesKeepCronState(f: Fetcher, isEnabled: bool, folder: string, incomingServer: string, incomingPort: int,
                             incomingUseSsl: bool, leaveMessagesOnServer: bool, incomingPassword: Option<string>,
                             email: string, name: string, isOutgoingEnabled: bool, outgoingServer: string,
                             outgoingPort: int, outgoingUseSsl: bool, outgoingUseAuth: bool,
                             useSignature: bool, signature: string)
    ensures SameCronState(f, WithIncomingSettings(f, isEnabled, folder, incomingServer, incomingPort, incomingUseSsl, leaveMessagesOnServer, incomingPassword))
    ensures SameCronState(f, WithSmtpSettings(f, email, name, isOutgoingEnabled, outgoingServer, outgoingPort, outgoingUseSsl, outgoingUseAuth))
    ensures SameCronState(f, WithSignature(f, useSignature, signature))
  {
  }

  /** The incoming-settings and outgoing-identity updates touch disjoint
      fields, so the order in which a user makes them does not matter. */
  lemma {:induction false} IncomingAndSmtpCommute(f: Fetcher, isEnabled: bool, folder: string, incomingServer: string, incomingPort: int,
                               incomingUseSsl: bool, leaveMessagesOnServer: bool, incomingPassword: Option<string>,
                               email: string, name: string, isOutgoingEnabled: bool, outgoingServer: string,
                               outgoingPort: int, outgoingUseSsl: bool, outgoingUseAuth: bool)
    ensures
      WithIncomingSettings(WithSmtpSettings(f, email, name, isOutgoingEnabled, outgoingServer, outgoingPort, outgoingUseSsl, outgoingUseAuth),
                           isEnabled, folder, incomingServer, incomingPort, incomingUseSsl, leaveMessagesOnServer, incomingPassword)
      == WithSmtpSettings(WithIncomingSettings(f, isEnabled, folder, incomingServer, incomingPort, incomingUseSsl, leaveMessagesOnServer, incomingPassword),
                          email, name, isOutgoingEnabled, outgoingServer, outgoingPort, outgoingUseSsl, outgoingUseAuth)
  {
  }

  /** The signature update commutes with the other two. */
  lemma {:induction false} SignatureCommutes(f: Fetcher, isEnabled: bool, folder: string, incomingServer: string, incomingPort: int,
                          incomingUseSsl: bool, leaveMessagesOnServer: bool, incomingPassword: Option<string>,
                          email: string, name: string, isOutgoingEnabled: bool, outgoingServer: string,
                          outgoingPort: int, outgoingUseSsl: bool, outgoingUseAuth: bool,
                          useSignature: bool, signature: string)
    ensures
      WithSignature(WithIncomingSettings(f, isEnabled, folder, incomingServer, incomingPort, incomingUseSsl, leaveMessagesOnServer, incomingPassword), useSignature, signature)
      == WithIncomingSettings(WithSignature(f, useSignature, signature), isEnabled, folder, incomingServer, incomingPort, incomingUseSsl, leaveMessagesOnServer, incomingPassword)
    ensures
      WithSignature(WithSmtpSettings(f, email, name, isOutgoingEnabled, outgoingServer, outgoingPort, outgoingUseSsl, outgoingUseAuth), useSignature, signature)
      == WithSmtpSettings(WithSignature(f, useSignature, signature), email, name, isOutgoingEnabled, outgoingServer, outgoingPort, outgoingUseSsl, outgoingUseAuth)
  {
  }

  /** Repeating an update with the same arguments changes nothing more. */
  lemma {:induction false} UpdatesIdempotent(f: Fetcher, isEnabled: bool, folder: string, incomingServer: string, incomingPort: int,
                          incomingUseSsl: bool, leaveMessagesOnServer: bool, incomingPassword: Option<string>)
    ensures
      var g := WithIncomingSettings(f, isEnabled, folder, incomingServer, incomingPort, incomingUseSsl, leaveMessagesOnServer, incomingPassword);
      WithIncomingSettings(g, isEnabled, folder, incomingServer, incomingPort, incomingUseSsl, leaveMessagesOnServer, incomingPassword) == g
  {
  }

  /** The module as its API sees it: the AllowFetchers setting, the field
      values of a freshly constructed fetcher, and the fetcher store. */
  class MailSuiteModule {
    const allowFetchers: bool
    const blank: Fetcher
    const store: FetcherStore

    constructor (allowFetchers: bool, blank: Fetcher, store: FetcherStore)
      ensures this.allowFetchers == allowFetchers && this.blank == blank && this.store == store
    {
      this.allowFetchers := allowFetchers;
      this.blank := blank;
      this.store := store;
    }

    /** The fetcher exists and belongs to the user. */
    predicate Owns(userId: int, fetcherId: int)
      reads this, store
      requires store.Valid()
      ensures Owns(userId, fetcherId) <==> store.Get(fetcherId).Some? && store.Get(fetcherId).value.idUser == userId
    {
      fetcherId in store.records && store.records[fetcherId].idUser == userId
    }

    /** GetSettings: reports whether fetchers are allowed. */
    function GetSettings(): (s: Settings)
      ensures s.allowFetchers <==> allowFetchers
    {
      Settings(allowFetchers)
    }

    /** GetFetchers: the user's fetchers in list order, or nothing (the API's
        false) when fetchers are not allowed. */
    function GetFetchers(userId: int): (r: Option<seq<Fetcher>>)
      reads this, store
      requires store.Valid()
      ensures r.None? <==> !allowFetchers
      ensures r.Some? ==> forall f :: f in r.value ==> f.idUser == userId && f.entityId in store.records && store.records[f.entityId] == f
      ensures r.Some? ==> forall id :: id in store.records && store.records[id].idUser == userId ==> store.records[id] in r.value
    {
      if allowFetchers then
        var all := store.List();
        assert forall id :: id in store.records ==> store.records[id] in all by {
          forall id | id in store.records ensures store.records[id] in all {
            var i :| 0 <= i < |store.order| && store.order[i] == id;
            assert all[i] == store.records[id];
          }
        }
        Some(OwnedBy(all, userId))
      else None
    }

    /** CreateFetcher: stores a new fetcher for the user's account and returns
        its id, or nothing when fetchers are not allowed. */
    method CreateFetcher(userId: int, accountId: int, folder: string, incomingLogin: string, incomingPassword: string,
                         incomingServer: string, incomingPort: int, incomingUseSsl: bool, leaveMessagesOnServer: bool)
      returns (id: Option<int>)
      requires store.Valid()
      modifies store
      ensures store.Valid()
      ensures id.Some? <==> allowFetchers
      ensures !allowFetchers ==> unchanged(store)
      ensures allowFetchers ==>
        var f := NewFetcher(blank, userId, accountId, folder, incomingLogin, incomingPassword,
                            incomingServer, incomingPort, incomingUseSsl, leaveMessagesOnServer).(entityId := id.value);
        && id.value !in old(store.records)
        && store.records == old(store.records)[id.value := f]
        && store.order == old(store.order) + [id.value]
        && store.nextId > id.value
        && store.effects == old(store.effects) + [Created(f)]
    {
      if allowFetchers {
        var f := NewFetcher(blank, userId, accountId, folder, incomingLogin, incomingPassword,
                            incomingServer, incomingPort, incomingUseSsl, leaveMessagesOnServer);
        var newId := store.Create(f);
        return Some(newId);
      }
      return None;
    }

    /** UpdateFetcher: rewrites the incoming-connection settings of the user's
        fetcher and persists them with full notification. */
    method UpdateFetcher(userId: int, fetcherId: int, isEnabled: bool, folder: string, incomingServer: string,
                         incomingPort: int, incomingUseSsl: bool, leaveMessagesOnServer: bool, incomingPassword: Option<string>)
      returns (ok: bool)
      requires store.Valid()
      modifies store
      ensures store.Valid()
      ensures ok <==> allowFetchers && old(Owns(userId, fetcherId))
      ensures !ok ==> unchanged(store)
      ensures ok ==>
        var g := WithIncomingSettings(old(store.records[fetcherId]), isEnabled, folder, incomingServer, incomingPort,
                                      incomingUseSsl, leaveMessagesOnServer, incomingPassword);
        && store.records == old(store.records)[fetcherId := g]
        && store.order == old(store.order) && store.nextId == old(store.nextId)
        && store.effects == old(store.effects) + [Updated(g, true)]
    {
      ok := false;
      if allowFetchers {
        var found := store.Get(fetcherId);
        if found.Some? && found.value.idUser == userId {
          var f := WithIncomingSettings(found.value, isEnabled, folder, incomingServer, incomingPort,
                                        incomingUseSsl, leaveMessagesOnServer, incomingPassword);
          ok := store.Update(f, true);
        }
      }
    }

    /** UpdateFetcherSmtpSettings: rewrites the outgoing identity of the
        user's fetcher and persists it without full notification. */
    method UpdateFetcherSmtpSettings(userId: int, fetcherId: int, email: string, name: string, isOutgoingEnabled: bool,
                                     outgoingServer: string, outgoingPort: int, outgoingUseSsl: bool, outgoingUseAuth: bool)
      returns (ok: bool)
      requires store.Valid()
      modifies store
      ensures store.Valid()
      ensures ok <==> allowFetchers && old(Owns(userId, fetcherId))
      ensures !ok ==> unchanged(store)
      ensures ok ==>
        var g := WithSmtpSettings(old(store.records[fetcherId]), email, name, isOutgoingEnabled, outgoingServer,
                                  outgoingPort, outgoingUseSsl, outgoingUseAuth);
        && store.records == old(store.records)[fetcherId := g]
        && store.order == old(store.order) && store.nextId == old(store.nextId)
        && store.effects == old(store.effects) + [Updated(g, false)]
    {
      ok := false;
      if allowFetchers {
        var found := store.Get(fetcherId);
        if found.Some? && found.value.idUser == userId {
          var f := WithSmtpSettings(found.value, email, name, isOutgoingEnabled, outgoingServer,
                                    outgoingPort, outgoingUseSsl, outgoingUseAuth);
          ok := store.Update(f, false);
        }
      }
    }

    /** UpdateSignature: rewrites the signature of the user's fetcher and
        persists it without full notification. */
    method UpdateSignature(userId: int, fetcherId: int, useSignature: bool, signature: string) returns (ok: bool)
      requires store.Valid()
      modifies store
      ensures store.Valid()
      ensures ok <==> allowFetchers && old(Owns(userId, fetcherId))
      ensures !ok ==> unchanged(store)
      ensures ok ==>
        var g := WithSignature(old(store.records[fetcherId]), useSignature, signature);
        && store.records == old(store.records)[fetcherId := g]
        && store.order == old(store.order) && store.nextId == old(store.nextId)
        && store.effects == old(store.effects) + [Updated(g, false)]
    {
      ok := false;
      if allowFetchers {
        var found := store.Get(fetcherId);
        if found.Some? && found.value.idUser == userId {
          var f := WithSignature(found.value, useSignature, signature);
          ok := store.Update(f, false);
        }
      }
    }

    /** DeleteFetcher: removes the user's fetcher. */
    method DeleteFetcher(userId: int, fetcherId: int) returns (ok: bool)
      requires store.Valid()
      modifies store
      ensures store.Valid()
      ensures ok <==> allowFetchers && old(Owns(userId, fetcherId))
      ensures !ok ==> unchanged(store)
      ensures ok ==>
        && store.records == old(store.records) - {fetcherId}
        && store.order == Without(old(store.order), fetcherId) && store.nextId == old(store.nextId)
        && store.effects == old(store.effects) + [Deleted(fetcherId)]
    {
      ok := false;
      if allowFetchers {
        var found := store.Get(fetcherId);
        if found.Some? && found.value.idUser == userId {
          ok := store.Delete(fetcherId);
        }
      }
    }

    /** The send/save hook: attaches the chosen fetcher when it exists and
        belongs to the sender, whatever the AllowFetchers setting; otherwise
        the arguments stay as they were. */
    function OnBeforeSendOrSaveMessage(args: MessageArgs): (r: MessageArgs)
      reads this, store
      requires store.Valid()
      ensures r.fetcherId == args.fetcherId && r.userId == args.userId
      ensures Owns(args.userId, args.fetcherId) ==> r.fetcher == Some(store.records[args.fetcherId])
      ensures !Owns(args.userId, args.fetcherId) ==> r == args
      ensures r.fetcher != args.fetcher ==> r.fetcher.Some? && r.fetcher.value.idUser == args.userId && r.fetcher.value.entityId == args.fetcherId
    {
      var found := store.Get(args.fetcherId);
      if found.Some? && found.value.idUser == args.userId then args.(fetcher := found) else args
    }
  }
}
