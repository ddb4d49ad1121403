/** The fetcher cron job: for every stored fetcher, the lock-and-throttle
    gate, the persisted lock, the mpop launch and the persisted unlock. */
module Cron {
  import opened Text
  import opened Fetchers
  import opened Mailbox
  import opened Mpop
  import opened Store

  /** What the cron job does with one fetcher. */
  datatype Decision = NoAccount | Locked | Throttled | Run

  /** The lock-and-throttle gate, for a fetcher whose account exists. A
      locked fetcher is always skipped, however old its lock; an unlocked one
      is skipped only while a positive check interval (in minutes) has not yet
      elapsed since its last check. */
  function Gate(f: Fetcher, now: int): (d: Decision)
    ensures d != NoAccount
    ensures d == Locked <==> f.isLocked
    ensures d == Throttled <==> !f.isLocked && f.checkInterval > 0 && f.checkLastTime + 60 * f.checkInterval > now
    ensures d == Run <==> !f.isLocked && (f.checkInterval <= 0 || now >= f.checkLastTime + 60 * f.checkInterval)
  {
    if f.isLocked then Locked
    else
      var elapsed := now - f.checkLastTime;
      var intervalSeconds := f.checkInterval * 60;
      if intervalSeconds > 0 && elapsed < intervalSeconds then Throttled else Run
  }

  /** Once a fetcher may run, it may run at any later time too. */
  lemma {:induction false} GateMonotone(f: Fetcher, now: int, later: int)
    requires now <= later && Gate(f, now) == Run
    ensures Gate(f, later) == Run
  {
  }

  /** The decision for one fetcher: nothing happens unless its account exists. */
  function Decide(accounts: map<int, Account>, f: Fetcher, now: int): (d: Decision)
    ensures d == NoAccount <==> f.idAccount !in accounts
    ensures f.idAccount in accounts ==> d == Gate(f, now)
  {
    if f.idAccount !in accounts then NoAccount else Gate(f, now)
  }

  /** The record as persisted before the launch: locked, checked now. */
  function Claimed(f: Fetcher, now: int): (g: Fetcher)
    ensures g.isLocked && g.checkLastTime == now
  {
    f.(isLocked := true, checkLastTime := now)
  }

  /** The record as persisted after the launch: unlocked again. */
  function Released(f: Fetcher): (g: Fetcher)
    ensures !g.isLocked
  {
    f.(isLocked := false)
  }

  /** The fetcher object after one cron pass over it. */
  function AfterCycle(accounts: map<int, Account>, f: Fetcher, now: int): (g: Fetcher)
    ensures Decide(accounts, f, now) != Run ==> g == f
    ensures Decide(accounts, f, now) == Run ==> !g.isLocked && g.checkLastTime == now
  {
    if Decide(accounts, f, now) == Run then Released(Claimed(f, now)) else f
  }

  /** The lock write, the unlock write and a whole pass change only the
      lock flag and the time of the last check; every other setting of the
      fetcher is written back as it was read. */
  lemma {:induction false} LockFieldsOnly(accounts: map<int, Account>, f: Fetcher, now: int)
    ensures Claimed(f, now).(isLocked := f.isLocked, checkLastTime := f.checkLastTime) == f
    ensures Released(f).(isLocked := f.isLocked) == f
    ensures AfterCycle(accounts, f, now).(isLocked := f.isLocked, checkLastTime := f.checkLastTime) == f
  {
  }

  /** The effects of a pass that runs: the lock write, the launch and the
      unlock write, in that order. */
  function RunEffects(claimed: Fetcher, command: string): (es: seq<Effect>)
    ensures |es| == 3
    ensures es[0] == Updated(claimed, false) && es[1] == Exec(command) && es[2] == Updated(Released(claimed), false)
  {
    [Updated(claimed, false), Exec(command), Updated(Released(claimed), false)]
  }

  /** A journal that gains the lock write, then the launch, then the unlock
      write, one at a time, gains the effects of a run. */
  lemma {:induction false} RunJournal(claimed: Fetcher, command: string, e0: seq<Effect>, e1: seq<Effect>, e2: seq<Effect>, e3: seq<Effect>)
    requires e1 == e0 + [Updated(claimed, false)]
    requires e2 == e1 + [Exec(command)]
    requires e3 == e2 + [Updated(Released(claimed), false)]
    ensures e3 == e0 + RunEffects(claimed, command)
  {
    assert e3 == e0 + [Updated(claimed, false), Exec(command), Updated(Released(claimed), false)];
  }

  /** The effects of one cron pass over a fetcher: nothing, or the lock write,
      the launch and the unlock write, in that order. */
  function CycleEffects(config: CronConfig, accounts: map<int, Account>, f: Fetcher, now: int): (es: seq<Effect>)
    ensures |es| == 0 || |es| == 3
    ensures es != [] <==> Decide(accounts, f, now) == Run
  {
    if Decide(accounts, f, now) == Run then
      var claimed := Claimed(f, now);
      RunEffects(claimed, MpopCommand(config, claimed, accounts[f.idAccount].email))
    else []
  }

  /** A pass over a fetcher without an account, or over a locked or throttled
      one, writes nothing, launches nothing and leaves the fetcher as it was;
      a pass that runs leaves it unlocked and checked at `now`, having written
      the lock (checked at `now`) first and the unlock last. */
  lemma {:induction false} PassOutcomes(config: CronConfig, accounts: map<int, Account>, f: Fetcher, now: int)
    ensures f.idAccount !in accounts || f.isLocked ==> CycleEffects(config, accounts, f, now) == [] && AfterCycle(accounts, f, now) == f
    ensures Decide(accounts, f, now) == Run ==>
      var es := CycleEffects(config, accounts, f, now);
      && es[0].Updated? && es[0].fetcher == Claimed(f, now) && es[0].fetcher.checkLastTime == now
      && es[1].Exec?
      && es[2] == Updated(AfterCycle(accounts, f, now), false)
  {
  }

  /** The effects of the passes over the first n listed fetchers, the i-th
      pass reading the clock value clock(i). */
  function AllCycleEffects(config: CronConfig, accounts: map<int, Account>, fs: seq<Fetcher>, clock: nat -> int, n: nat): (es: seq<Effect>)
    requires n <= |fs|
    ensures |es| == 3 * Runs(accounts, fs, clock, n)
  {
    if n == 0 then []
    else AllCycleEffects(config, accounts, fs, clock, n - 1) + CycleEffects(config, accounts, fs[n - 1], clock(n - 1))
  }

  function CountExecs(es: seq<Effect>): nat
  {
    if es == [] then 0 else (if es[0].Exec? then 1 else 0) + CountExecs(es[1..])
  }

  function CountUpdates(es: seq<Effect>): nat
  {
    if es == [] then 0 else (if es[0].Updated? then 1 else 0) + CountUpdates(es[1..])
  }

  /** How many of the first n listed fetchers pass the gate. */
  function Runs(accounts: map<int, Account>, fs: seq<Fetcher>, clock: nat -> int, n: nat): nat
    requires n <= |fs|
  {
    if n == 0 then 0
    else Runs(accounts, fs, clock, n - 1) + (if Decide(accounts, fs[n - 1], clock(n - 1)) == Run then 1 else 0)
  }

  lemma {:induction false} CountsConcat(a: seq<Effect>, b: seq<Effect>)
    ensures CountExecs(a + b) == CountExecs(a) + CountExecs(b)
    ensures CountUpdates(a + b) == CountUpdates(a) + CountUpdates(b)
    decreases |a|
  {
    if a == [] {
      assert a + b == b;
    } else {
      assert (a + b)[1..] == a[1..] + b;
      CountsConcat(a[1..], b);
    }
  }

  lemma {:induction false} RunCounts(claimed: Fetcher, command: string)
    ensures CountExecs(RunEffects(claimed, command)) == 1
    ensures CountUpdates(RunEffects(claimed, command)) == 2
  {
    var es := RunEffects(claimed, command);
    assert es[1..] == [Exec(command), Updated(Released(claimed), false)];
    assert es[1..][1..] == [Updated(Released(claimed), false)];
    assert es[1..][1..][1..] == [];
    assert CountExecs(es[1..][1..]) == 0 && CountUpdates(es[1..][1..]) == 1;
    assert CountExecs(es[1..]) == 1 && CountUpdates(es[1..]) == 1;
  }

  /** A pass launches mpop once and writes the store twice when the fetcher
      runs, and does neither otherwise. */
  lemma {:induction false} CycleCounts(config: CronConfig, accounts: map<int, Account>, f: Fetcher, now: int)
    ensures var es := CycleEffects(config, accounts, f, now);
      && CountExecs(es) == (if Decide(accounts, f, now) == Run then 1 else 0)
      && CountUpdates(es) == 2 * CountExecs(es)
  {
    if Decide(accounts, f, now) == Run {
      var claimed := Claimed(f, now);
      RunCounts(claimed, MpopCommand(config, claimed, accounts[f.idAccount].email));
    }
  }

  /** Over a whole run, the launches are exactly the fetchers that pass the
      gate, and there are exactly two store writes per launch. */
  lemma {:induction false} AllCycleCounts(config: CronConfig, accounts: map<int, Account>, fs: seq<Fetcher>, clock: nat -> int, n: nat)
    requires n <= |fs|
    ensures CountExecs(AllCycleEffects(config, accounts, fs, clock, n)) == Runs(accounts, fs, clock, n)
    ensures CountUpdates(AllCycleEffects(config, accounts, fs, clock, n)) == 2 * Runs(accounts, fs, clock, n)
  {
    if n > 0 {
      AllCycleCounts(config, accounts, fs, clock, n - 1);
      CycleCounts(config, accounts, fs[n - 1], clock(n - 1));
      CountsConcat(AllCycleEffects(config, accounts, fs, clock, n - 1), CycleEffects(config, accounts, fs[n - 1], clock(n - 1)));
    }
  }

  /** The launch at position k is preceded by a write that locks a fetcher
      and followed by a write that unlocks the same fetcher, both without
      full notification. */
  ghost predicate LaunchBracketed(es: seq<Effect>, k: int)
    requires 0 <= k < |es|
  {
    && 0 < k < |es| - 1
    && es[k - 1].Updated? && es[k - 1].fetcher.isLocked && !es[k - 1].notifyFull
    && es[k + 1].Updated? && !es[k + 1].fetcher.isLocked && !es[k + 1].notifyFull
    && es[k + 1].fetcher.entityId == es[k - 1].fetcher.entityId
  }

  /** Every launch in the journal is bracketed by a lock and an unlock write. */
  ghost predicate Bracketed(es: seq<Effect>)
  {
    forall k :: 0 <= k < |es| && es[k].Exec? ==> LaunchBracketed(es, k)
  }

  lemma {:induction false} BracketedConcat(a: seq<Effect>, b: seq<Effect>, ab: seq<Effect>)
    requires Bracketed(a) && Bracketed(b) && ab == a + b
    ensures Bracketed(ab)
  {
    forall k | 0 <= k < |ab| && ab[k].Exec?
      ensures LaunchBracketed(ab, k)
    {
      if k < |a| {
        assert LaunchBracketed(a, k);
        assert ab[k - 1] == a[k - 1] && ab[k + 1] == a[k + 1];
      } else {
        var j := k - |a|;
        assert ab[k] == b[j];
        assert LaunchBracketed(b, j);
        assert ab[k - 1] == b[j - 1] && ab[k + 1] == b[j + 1];
      }
    }
  }

  /** The launch of a fetcher's command happens between its lock write and
      its unlock write, whatever the command's exit code. */
  lemma {:induction false} CycleBracketed(config: CronConfig, accounts: map<int, Account>, f: Fetcher, now: int)
    ensures Bracketed(CycleEffects(config, accounts, f, now))
  {
    if Decide(accounts, f, now) == Run {
      var claimed := Claimed(f, now);
      RunBracketed(claimed, MpopCommand(config, claimed, accounts[f.idAccount].email));
    }
  }

  /** The lock write, launch and unlock write of a pass that runs bracket
      the launch, whatever the command. */
  lemma {:induction false} RunBracketed(claimed: Fetcher, command: string)
    requires claimed.isLocked
    ensures Bracketed(RunEffects(claimed, command))
  {
    var es := RunEffects(claimed, command);
    forall k | 0 <= k < |es| && es[k].Exec? ensures LaunchBracketed(es, k) {
      assert es[0].Updated? && es[2].Updated?;
    }
  }

  lemma {:induction false} AllCyclesBracketed(config: CronConfig, accounts: map<int, Account>, fs: seq<Fetcher>, clock: nat -> int, n: nat)
    requires n <= |fs|
    ensures Bracketed(AllCycleEffects(config, accounts, fs, clock, n))
  {
    if n > 0 {
      AllCyclesBracketed(config, accounts, fs, clock, n - 1);
      BracketedStep(config, accounts, fs, clock, n);
    }
  }

  /** The induction step of AllCyclesBracketed: the pass over the n-th
      listed fetcher. */
  lemma {:induction false} BracketedStep(config: CronConfig, accounts: map<int, Account>, fs: seq<Fetcher>, clock: nat -> int, n: nat)
    requires 0 < n <= |fs|
    requires Bracketed(AllCycleEffects(config, accounts, fs, clock, n - 1))
    ensures Bracketed(AllCycleEffects(config, accounts, fs, clock, n))
  {
    CycleBracketed(config, accounts, fs[n - 1], clock(n - 1));
    BracketedConcat(AllCycleEffects(config, accounts, fs, clock, n - 1), CycleEffects(config, accounts, fs[n - 1], clock(n - 1)),
      AllCycleEffects(config, accounts, fs, clock, n));
  }

  lemma {:induction false} RunRecords(claimed: Fetcher, command: string, records: map<int, Fetcher>)
    ensures var r := ApplyUpdates(records, RunEffects(claimed, command));
      && r == Apply(Apply(records, Updated(claimed, false)), Updated(Released(claimed), false))
      && if claimed.entityId in records then r == records[claimed.entityId := Released(claimed)] else r == records
  {
    ApplyThree(records, Updated(claimed, false), Exec(command), Updated(Released(claimed), false));
  }

  /** Replaying three effects is applying them one after the other. */
  lemma {:induction false} ApplyThree(records: map<int, Fetcher>, a: Effect, b: Effect, c: Effect)
    ensures ApplyUpdates(records, [a, b, c]) == Apply(Apply(Apply(records, a), b), c)
  {
    var r1 := Apply(records, a);
    var r2 := Apply(r1, b);
    var r3 := Apply(r2, c);
    assert [a, b, c][1..] == [b, c];
    assert [b, c][1..] == [c];
    assert [c][1..] == [];
    assert ApplyUpdates(r2, [c]) == r3;
    assert ApplyUpdates(r1, [b, c]) == r3;
  }

  /** The store writes of one pass leave every record alone except the
      fetcher's own, which becomes the fetcher as the pass leaves it. */
  lemma {:induction false} CycleRecords(config: CronConfig, accounts: map<int, Account>, f: Fetcher, now: int, records: map<int, Fetcher>)
    ensures var r := ApplyUpdates(records, CycleEffects(config, accounts, f, now));
      if Decide(accounts, f, now) == Run && f.entityId in records
      then r == records[f.entityId := AfterCycle(accounts, f, now)]
      else r == records
  {
    if Decide(accounts, f, now) == Run {
      var claimed := Claimed(f, now);
      RunRecords(claimed, MpopCommand(config, claimed, accounts[f.idAccount].email), records);
    }
  }

  /** Each listed fetcher has its own stored record. */
  predicate DistinctIds(fs: seq<Fetcher>)
  {
    forall i, j :: 0 <= i < j < |fs| ==> fs[i].entityId != fs[j].entityId
  }

  /** The fetchers listed in a store order of distinct ids have distinct
      ids, and each is stored under its own id. */
  lemma {:induction false} ListedRecords(order: seq<int>, records: map<int, Fetcher>, fs: seq<Fetcher>)
    requires Distinct(order) && |fs| == |order|
    requires forall i :: 0 <= i < |order| ==> order[i] in records && fs[i] == records[order[i]] && fs[i].entityId == order[i]
    ensures DistinctIds(fs)
    ensures forall i :: 0 <= i < |fs| ==> fs[i].entityId in records && records[fs[i].entityId] == fs[i]
  {
  }

  /** The records after the passes over the first n listed fetchers: each of
      those is stored as its pass left it, and each fetcher listed after them
      is stored untouched. */
  ghost predicate PassedRecords(accounts: map<int, Account>, fs: seq<Fetcher>, clock: nat -> int, n: nat, r: map<int, Fetcher>)
  {
    forall i :: 0 <= i < |fs| ==> StoredAfter(accounts, fs, clock, n, r, i)
  }

  /** The i-th listed fetcher is stored under its own id, as its pass left
      it when it is among the first n, untouched otherwise. */
  ghost predicate StoredAfter(accounts: map<int, Account>, fs: seq<Fetcher>, clock: nat -> int, n: nat, r: map<int, Fetcher>, i: nat)
    requires i < |fs|
  {
    && fs[i].entityId in r
    && r[fs[i].entityId] == if i < n then AfterCycle(accounts, fs[i], clock(i)) else fs[i]
  }

  /** The records after the passes over the first n listed fetchers: each
      fetcher that passes the gate has its record, if it has one, replaced by
      the fetcher as its pass leaves it; every other record stays. */
  function RecordsAfter(accounts: map<int, Account>, fs: seq<Fetcher>, clock: nat -> int, n: nat,
                        records: map<int, Fetcher>): (r: map<int, Fetcher>)
    requires n <= |fs|
    ensures r.Keys == records.Keys
  {
    if n == 0 then records
    else
      var before := RecordsAfter(accounts, fs, clock, n - 1, records);
      var f := fs[n - 1];
      if Decide(accounts, f, clock(n - 1)) == Run && f.entityId in before
      then before[f.entityId := AfterCycle(accounts, f, clock(n - 1))]
      else before
  }

  /** The store writes of the pass over the n-th listed fetcher take the
      records after the earlier passes to the records after n passes. */
  lemma {:induction false} RecordsAfterStep(config: CronConfig, accounts: map<int, Account>, fs: seq<Fetcher>, clock: nat -> int, n: nat,
                                            records: map<int, Fetcher>)
    requires 0 < n <= |fs|
    ensures RecordsAfter(accounts, fs, clock, n, records) ==
      ApplyUpdates(RecordsAfter(accounts, fs, clock, n - 1, records), CycleEffects(config, accounts, fs[n - 1], clock(n - 1)))
  {
    CycleRecords(config, accounts, fs[n - 1], clock(n - 1), RecordsAfter(accounts, fs, clock, n - 1, records));
  }

  /** Replaying a journal that extends an already replayed one by one more
      pass is applying that pass's writes to the records already reached. */
  lemma {:induction false} ReplayStep(records: map<int, Fetcher>, prev: seq<Effect>, cycle: seq<Effect>, all: seq<Effect>,
                                      before: map<int, Fetcher>, after: map<int, Fetcher>)
    requires all == prev + cycle
    requires before == ApplyUpdates(records, prev) && after == ApplyUpdates(before, cycle)
    ensures after == ApplyUpdates(records, all)
  {
    ApplyUpdatesConcat(records, prev, cycle);
  }

  /** After the passes over the first n listed fetchers, each of them, stored
      under its own id, is as its pass left it, and the fetchers listed after
      them are untouched. */
  lemma {:induction false} AllCycleRecords(accounts: map<int, Account>, fs: seq<Fetcher>, clock: nat -> int, n: nat, records: map<int, Fetcher>)
    requires n <= |fs| && DistinctIds(fs)
    requires forall i :: 0 <= i < |fs| ==> fs[i].entityId in records && records[fs[i].entityId] == fs[i]
    ensures PassedRecords(accounts, fs, clock, n, RecordsAfter(accounts, fs, clock, n, records))
  {
    if n > 0 {
      AllCycleRecords(accounts, fs, clock, n - 1, records);
      CycleStepRecords(accounts, fs, clock, n, records);
    }
  }

  /** Appending the effects of one more pass to a journal that already
      holds those of the earlier passes gives the journal of all the passes
      together. */
  lemma {:induction false} PassStep(e0: seq<Effect>, done: seq<Effect>, cycle: seq<Effect>, all: seq<Effect>, e: seq<Effect>, e1: seq<Effect>)
    requires all == done + cycle
    requires e == e0 + done && e1 == e + cycle
    ensures e1 == e0 + all
  {
    assert (e0 + done) + cycle == e0 + (done + cycle);
  }

  /** The passes over the first i + 1 fetchers are those over the first i,
      then the pass over the (i + 1)-th. */
  lemma {:induction false} NextPass(config: CronConfig, accounts: map<int, Account>, fs: seq<Fetcher>, clock: nat -> int, i: nat)
    requires i < |fs|
    ensures AllCycleEffects(config, accounts, fs, clock, i + 1) ==
      AllCycleEffects(config, accounts, fs, clock, i) + CycleEffects(config, accounts, fs[i], clock(i))
  {
  }

  /** The induction step of AllCycleRecords: the pass over the n-th listed
      fetcher. */
  lemma {:induction false} CycleStepRecords(accounts: map<int, Account>, fs: seq<Fetcher>, clock: nat -> int, n: nat, records: map<int, Fetcher>)
    requires 0 < n <= |fs| && DistinctIds(fs)
    requires PassedRecords(accounts, fs, clock, n - 1, RecordsAfter(accounts, fs, clock, n - 1, records))
    ensures PassedRecords(accounts, fs, clock, n, RecordsAfter(accounts, fs, clock, n, records))
  {
    var before := RecordsAfter(accounts, fs, clock, n - 1, records);
    var r := RecordsAfter(accounts, fs, clock, n, records);
    var last := fs[n - 1];
    forall i | 0 <= i < |fs|
      ensures StoredAfter(accounts, fs, clock, n, r, i)
    {
      assert StoredAfter(accounts, fs, clock, n - 1, before, i);
      if i != n - 1 {
        assert fs[i].entityId != last.entityId;
      }
    }
  }

  /** Builds the mpop command for a fetcher by appending its option fragments
      one after another to the script path. */
  method BuildCommand(config: CronConfig, f: Fetcher, accountEmail: string) returns (command: string)
    ensures command == MpopCommand(config, f, accountEmail)
  {
    var (login, domain) := SplitEmail(accountEmail);
    var maildir := config.mpopDataFolder + "/" + domain + "/" + login;

    var tls, startTls := "off", "off";
    match f.incomingMailSecurity {
      case Ssl =>
        tls := "on";
      case StartTls =>
        tls := "on";
        startTls := "on";
      case _ =>
    }
    assert maildir == Maildir(config.mpopDataFolder, accountEmail);
    assert " --tls=" + tls == TlsArg(f.incomingMailSecurity);
    assert " --tls-starttls=" + startTls == StartTlsArg(f.incomingMailSecurity);

    command := config.mpopScript;
    command := command + HostArg(f.incomingServer);
    command := command + PortArg(f.incomingPort);
    command := command + UserArg(f.incomingLogin);
    command := command + " --auth=user";
    command := command + UidlsArg(maildir, f.entityId);
    command := command + DeliveryArg(config.deliveryScript, accountEmail, f.folder);
    command := command + KeepArg(f.leaveMessagesOnServer);
    command := command + OnlyNew;
    command := command + (" --tls=" + tls);
    command := command + NoCertCheck;
    command := command + (" --tls-starttls=" + startTls);
    command := command + " --received-header=off";
    command := command + " --half-quiet";
    command := command + PasswordArg(f.incomingPassword);
  }

  /** The cron job: its configuration, the mail accounts it can resolve and
      the fetcher store it reads and writes. */
  class CronFetcher {
    const config: CronConfig
    const allowFetchers: bool
    const accounts: map<int, Account>
    const store: FetcherStore

    constructor (config: CronConfig, allowFetchers: bool, accounts: map<int, Account>, store: FetcherStore)
      ensures this.config == config && this.allowFetchers == allowFetchers
      ensures this.accounts == accounts && this.store == store
    {
      this.config := config;
      this.allowFetchers := allowFetchers;
      this.accounts := accounts;
      this.store := store;
    }

    /** Launches a shell command and waits for it. The exit code and the
        output lines are whatever the process produces. */
    method RunCommand(command: string) returns (exitCode: int, output: seq<string>)
      modifies store`effects
      ensures store.effects == old(store.effects) + [Exec(command)]
    {
      exitCode, output :| true;
      store.effects := store.effects + [Exec(command)];
    }

    /** Builds the mpop command for a claimed fetcher and launches it. */
    method Launch(claimed: Fetcher, accountEmail: string)
      modifies store`effects
      ensures store.effects == old(store.effects) + [Exec(MpopCommand(config, claimed, accountEmail))]
    {
      var command := BuildCommand(config, claimed, accountEmail);
      var exitCode, output := RunCommand(command);
    }

    /** The fetching step of a pass, for a fetcher that passed the gate and
        is already marked locked: persists the lock, launches mpop, then
        unlocks the fetcher and persists that, whatever the launch returned. */
    method Fetch(claimed: Fetcher, accountEmail: string) returns (g: Fetcher)
      requires store.Valid()
      modifies store
      ensures store.Valid()
      ensures g == Released(claimed)
      ensures store.effects == old(store.effects) + RunEffects(claimed, MpopCommand(config, claimed, accountEmail))
      ensures store.records == Apply(Apply(old(store.records), Updated(claimed, false)), Updated(Released(claimed), false))
      ensures store.order == old(store.order) && store.nextId == old(store.nextId)
    {
      ghost var e0 := store.effects;
      g := claimed;
      var written := store.Update(g, false);
      ghost var e1 := store.effects;

      Launch(g, accountEmail);
      ghost var e2 := store.effects;

      g := Released(g);
      written := store.Update(g, false);
      RunJournal(claimed, MpopCommand(config, claimed, accountEmail), e0, e1, e2, store.effects);
    }

    /** One pass over a fetcher; returns the fetcher object as the pass leaves it. */
    method ExecuteFetcher(f: Fetcher, now: int) returns (g: Fetcher)
      requires store.Valid()
      modifies store
      ensures store.Valid()
      ensures g == AfterCycle(accounts, f, now)
      ensures store.effects == old(store.effects) + CycleEffects(config, accounts, f, now)
      ensures store.records == ApplyUpdates(old(store.records), CycleEffects(config, accounts, f, now))
      ensures store.order == old(store.order) && store.nextId == old(store.nextId)
    {
      g := f;
      var doFetch := true;
      if g.idAccount in accounts {
        var account := accounts[g.idAccount];

        if g.isLocked {
          doFetch := false;
        } else {
          var elapsed := now - g.checkLastTime;
          var intervalSeconds := g.checkInterval * 60;
          if intervalSeconds > 0 && elapsed < intervalSeconds {
            doFetch := false;
          } else {
            g := g.(isLocked := true, checkLastTime := now);
          }
        }

        if doFetch {
          ghost var records0 := store.records;
          assert Decide(accounts, f, now) == Run && g == Claimed(f, now);
          g := Fetch(g, account.email);
          RunRecords(Claimed(f, now), MpopCommand(config, Claimed(f, now), account.email), records0);
        }
      }
      if !doFetch {
        assert CycleEffects(config, accounts, f, now) == [];
        assert store.effects == old(store.effects) + [];
        assert store.records == ApplyUpdates(old(store.records), []);
      }
    }

    /** The foreach loop of the cron entry point: one pass over each fetcher
        of `fetchers`, in order, the i-th pass reading the clock value
        clock(i). */
    method PassOver(fetchers: seq<Fetcher>, clock: nat -> int)
      requires store.Valid()
      modifies store
      ensures store.Valid()
      ensures store.effects == old(store.effects) + AllCycleEffects(config, accounts, fetchers, clock, |fetchers|)
      ensures store.records == RecordsAfter(accounts, fetchers, clock, |fetchers|, old(store.records))
      ensures store.records == ApplyUpdates(old(store.records), AllCycleEffects(config, accounts, fetchers, clock, |fetchers|))
      ensures store.order == old(store.order) && store.nextId == old(store.nextId)
    {
      var i := 0;
      while i < |fetchers|
        invariant 0 <= i <= |fetchers|
        invariant store.Valid()
        invariant store.order == old(store.order) && store.nextId == old(store.nextId)
        invariant store.effects == old(store.effects) + AllCycleEffects(config, accounts, fetchers, clock, i)
        invariant store.records == RecordsAfter(accounts, fetchers, clock, i, old(store.records))
        invariant store.records == ApplyUpdates(old(store.records), AllCycleEffects(config, accounts, fetchers, clock, i))
      {
        ghost var effects, records := store.effects, store.records;
        var passed := ExecuteFetcher(fetchers[i], clock(i));
        NextPass(config, accounts, fetchers, clock, i);
        PassStep(old(store.effects), AllCycleEffects(config, accounts, fetchers, clock, i),
                 CycleEffects(config, accounts, fetchers[i], clock(i)), AllCycleEffects(config, accounts, fetchers, clock, i + 1),
                 effects, store.effects);
        ReplayStep(old(store.records), AllCycleEffects(config, accounts, fetchers, clock, i),
                   CycleEffects(config, accounts, fetchers[i], clock(i)), AllCycleEffects(config, accounts, fetchers, clock, i + 1),
                   records, store.records);
        RecordsAfterStep(config, accounts, fetchers, clock, i + 1, old(store.records));
        i := i + 1;
      }
    }

    /** The cron entry point: when fetchers are allowed, reads the fetcher
        list once and passes over each listed fetcher once, in list order,
        the i-th pass reading the clock value clock(i). When they are not,
        nothing is read or written. */
    method ExecuteAllFetchers(clock: nat -> int)
      requires store.Valid()
      modifies store
      ensures store.Valid()
      ensures !allowFetchers ==> unchanged(store)
      ensures allowFetchers ==>
        var fs := old(store.List());
        && store.effects == old(store.effects) + [ListedAll] + AllCycleEffects(config, accounts, fs, clock, |fs|)
        && store.records == RecordsAfter(accounts, fs, clock, |fs|, old(store.records))
        && store.records == ApplyUpdates(old(store.records), AllCycleEffects(config, accounts, fs, clock, |fs|))
        && PassedRecords(accounts, fs, clock, |fs|, store.records)
        && store.order == old(store.order) && store.nextId == old(store.nextId)
    {
      if allowFetchers {
        var fetchers := store.ListAll();
        ghost var records0 := store.records;
        ListedRecords(store.order, records0, fetchers);
        PassOver(fetchers, clock);
        AllCycleRecords(accounts, fetchers, clock, |fetchers|, records0);
      }
    }
  }
}
