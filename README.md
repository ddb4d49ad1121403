# MailSuite fetchers: cron job and management API in Dafny

This project models the fetcher part of the Aurora MailSuite module.

A *fetcher* is a user's remote POP3 mailbox. A cron job polls it with the `mpop` retrieval tool and delivers the mail into one of the user's local mail accounts.

## The cron job (`FetchersCron.php`)

`CronFetcher::ExecuteAllFetchers` runs only when the `AllowFetchers` setting is on. It then reads the fetcher list once and passes over every listed fetcher once, in list order.

`CronFetcher::ExecuteFetcher` handles one fetcher:
1. It resolves the owning mail account. If there is none, it does nothing.
2. It splits the account e-mail with the pattern `(.+)@(.+)$` into a login and a domain.
3. It skips a fetcher that is locked, and an unlocked fetcher whose positive check interval (in minutes) has not yet elapsed since its last check.
4. Otherwise it marks the fetcher locked and checked now, and persists that.
5. It builds the mpop command line by successive appends and runs it.
6. Whatever the exit code, it marks the fetcher unlocked and persists that.

## The management API (`Module.php`)

The API is a set of guarded record updates over the fetcher store:
- `GetSettings`, `GetFetchers`, `CreateFetcher`, `UpdateFetcher`, `UpdateFetcherSmtpSettings`, `UpdateSignature`, `DeleteFetcher`.
- Every one of them except `GetSettings` is switched off by `AllowFetchers`. `GetSettings` reports the setting whatever its value.
- Each call on an existing fetcher first checks that the caller owns it.

The `onBeforeSendOrSaveMessage` hook attaches a fetcher to an outgoing message. It checks ownership but not `AllowFetchers`.

## Layout

| file | module | contents |
|---|---|---|
| `text.dfy` | `Text` | how an integer is written when concatenated into a string, with its inverse |
| `fetcher.dfy` | `Fetchers` | the fetcher record, the connection-security kinds, the account, and the effects the outside world sees |
| `mailbox.dfy` | `Mailbox` | the e-mail split with PCRE semantics, the maildir and the UIDL file path |
| `mpop.dfy` | `Mpop` | the option fragments and the whole command line |
| `store.dfy` | `Store` | the fetcher store (`FetcherStore` class) and the effect of store writes on the records |
| `cron.dfy` | `Cron` | the gate, the per-pass effects, the `CronFetcher` class, and the lemmas about whole runs |
| `mailsuite.dfy` | `MailSuite` | the field updates and the `MailSuiteModule` class with the API |

## How the outside world appears in the model

- **Store effects.** The store object keeps a ghost journal `effects` of everything visible outside the process, in order: list reads, store writes with their `notifyFull` flag, creations, deletions, and command launches. The cron contracts state this journal exactly.
- **Time.** The wall clock is an integer parameter: `now` for one pass, and `clock(i)` for the i-th pass of a run.
- **Process launch.** Launching the command is `CronFetcher.RunCommand`. It returns an arbitrary exit code and output, and journals the launch.

## Behaviour of the source worth knowing

- There is no stale-lock recovery. A locked fetcher is skipped however old its lock is (`FetchersCron.php:57-61`). The interval is used only as the minutes-based throttle on unlocked fetchers (`FetchersCron.php:64-71`).
- The checks that the data folder and the two scripts exist are commented out (`FetchersCron.php:140-156`). They are not modelled.
- The result of each store write is ignored (`FetchersCron.php:82,123`). A write that returns false does not stop the pass.
- The domain the pattern captures is '@'-free except that it may end with '@'. Group 1 is greedy, but it must leave group 2 at least one character, so `a@b@` splits into `a` and `b@` (`Mailbox.SplitEmailTrailingAtExample`).
- `IsEnabled` is not consulted by the cron job.

## Model

| member | source | states |
|---|---|---|
| Text.Decimal | FetchersCron.php:99 | the string form of an int is non-empty and starts with '-' exactly when the number is negative |
| Text.NatDigits | FetchersCron.php:102 | the digits of a natural number are decimal digits with no leading zero |
| Text.NatDigitsValue | FetchersCron.php:102 | reading the digits of n back gives n |
| Text.DecimalRoundTrip | FetchersCron.php:99-102 | reading back the string form of any int gives the int |
| Text.DecimalInjective | FetchersCron.php:102 | different fetcher ids never render alike |
| Text.DecimalExample | FetchersCron.php:102 | 14 is written "14" and -7 is written "-7" |
| Fetchers.SecurityFromSslFlag | Module.php:277 | the boolean SSL flag gives SSL exactly when true and NONE exactly when false (also lines 373 and 468) |
| Mailbox.StripFinalNewline | FetchersCron.php:45 | '$' may stand before one final newline: the subject is kept, or loses exactly that newline |
| Mailbox.LastLine | FetchersCron.php:45 | the searched line holds no newline and is preceded by a newline when it is not the whole subject |
| Mailbox.LastAtUpTo | FetchersCron.php:45 | finds the right-most '@' at index 1..k, or reports there is none |
| Mailbox.MatchInLastLine | FetchersCron.php:45 | any match of the pattern lies in the last line and reaches its end |
| Mailbox.MatchIsFound | FetchersCron.php:45 | any match splits at an '@' the search finds, no further left than the reported split |
| Mailbox.FoundIsMatch | FetchersCron.php:45-52 | a found '@' gives a genuine match with the captured login and domain |
| Mailbox.LastLineIsSuffix | FetchersCron.php:45 | the searched line is a suffix of the subject |
| Mailbox.SplitEmail | FetchersCron.php:45-52 | the login is empty exactly when the domain is (what the split means is `Mailbox.SplitEmailIsReportedMatch`) |
| Mailbox.FoundIsReported | FetchersCron.php:45-52 | when the search finds an '@', both parts are non-empty and form the match preg_match reports |
| Mailbox.NotFoundIsNoMatch | FetchersCron.php:45-52 | when the search finds no '@', both parts are empty and the pattern matches nowhere |
| Mailbox.SplitEmailIsReportedMatch | FetchersCron.php:45-52 | the split is the match preg_match reports (leftmost start, greedy login); when nothing matches, both parts are empty and no match exists |
| Mailbox.ReportedMatchIsSplitEmail | FetchersCron.php:45-52 | the reported match is unique and is what the split returns |
| Mailbox.SplitEmailParts | FetchersCron.php:45-52 | both parts are newline-free and the domain has no '@' before its last character |
| Mailbox.SplitEmailExample | FetchersCron.php:45-52 | `bob@ex.io` splits into login `bob` and domain `ex.io` |
| Mailbox.SplitEmailGreedyExample | FetchersCron.php:45-52 | `a@b@c` splits into login `a@b` and domain `c` |
| Mailbox.SplitEmailTrailingAtExample | FetchersCron.php:45-52 | `a@b@` splits into login `a` and domain `b@` |
| Mailbox.SplitEmailNoMatchExamples | FetchersCron.php:46-52 | `not-an-email`, `@x` and `x@` give empty login and domain |
| Mailbox.MaildirLayout | FetchersCron.php:53 | the maildir is the data folder, '/', the domain, '/', the login, each at its place |
| Mailbox.MaildirExample | FetchersCron.php:53 | the maildir of bob@ex.io under /var/mpop is /var/mpop/ex.io/bob |
| Mailbox.UidlsFileLayout | FetchersCron.php:102 | the UIDL file lies directly in the maildir and is named `fetcher-id<id in decimal>-uidls` |
| Mailbox.UidlsFileDistinct | FetchersCron.php:102 | two fetchers sharing a maildir never share a UIDL file |
| Mailbox.UidlsFileExample | FetchersCron.php:102 | fetcher 14 of bob@ex.io keeps its UIDLs in /var/mpop/ex.io/bob/fetcher-id14-uidls |
| Mpop.TlsSwitches | FetchersCron.php:84-95 | TLS is on exactly for SSL and STARTTLS; STARTTLS is on exactly for STARTTLS, and only with TLS |
| Mpop.HostArgValue | FetchersCron.php:98 | `--host=` carries the server between double quotes, unescaped |
| Mpop.PortArgValue | FetchersCron.php:99 | `--port=` carries the port in decimal, and reading it back gives the port |
| Mpop.UserArgValue | FetchersCron.php:100 | `--user=` carries the login between double quotes, unescaped |
| Mpop.UidlsArgValue | FetchersCron.php:102 | `--uidls-file=` carries the fetcher's UIDL file between double quotes |
| Mpop.DeliveryArgValue | FetchersCron.php:103 | `--delivery=mda,` carries the delivery script, then `-d` and the account e-mail, then `-m` and the folder in single quotes, closing the double quote |
| Mpop.KeepArgValues | FetchersCron.php:104 | `--keep=on` exactly when messages are left on the server, `--keep=off` exactly when they are not |
| Mpop.TlsArgValues | FetchersCron.php:106 | `--tls=on` exactly for SSL and STARTTLS, `--tls=off` exactly for everything else |
| Mpop.StartTlsArgValues | FetchersCron.php:108 | `--tls-starttls=on` exactly for STARTTLS, `--tls-starttls=off` exactly otherwise |
| Mpop.PasswordArgValue | FetchersCron.php:112 | `--passwordeval=` echoes the password between single quotes, unescaped |
| Mpop.CommandEndsWithPassword | FetchersCron.php:97-112 | `MpopCommand` ends with the `--passwordeval` option that echoes the fetcher's password |
| Mpop.UidlsArgumentsDistinct | FetchersCron.php:102 | different fetcher ids give different `--uidls-file` arguments |
| Store.Without | Module.php:615 | deletion keeps every other id, drops this one, and keeps the list free of duplicates |
| Store.Listed | FetchersCron.php:160 | the list holds the record of each listed id, in list order |
| Store.Apply | FetchersCron.php:82 | a store write overwrites exactly the record with the written fetcher's id, if there is one |
| Store.ApplyUpdates | FetchersCron.php:82-123 | store writes never add or remove records |
| Store.ApplyUpdatesConcat | FetchersCron.php:158-165 | applying two traces in turn is applying their concatenation |
| Store.FetcherStore.List | FetchersCron.php:160 | the listed fetchers are the stored records, in list order, each under its own id |
| Store.FetcherStore.ListAll | FetchersCron.php:160 | reading the list returns `List()` and journals one list read |
| Store.FetcherStore.Get | Module.php:363 | a fetcher is found exactly when its id is stored, and it carries that id |
| Store.FetcherStore.Update | Module.php:377 | the write succeeds exactly when the id is stored, overwrites only that record, and is journalled with its notifyFull flag |
| Store.FetcherStore.Create | Module.php:281 | the new fetcher gets a fresh id, is appended to the list and is journalled |
| Store.FetcherStore.Delete | Module.php:615 | the record and its list entry go, the rest stays, and the deletion is journalled |
| Cron.Gate | FetchersCron.php:57-77 | a locked fetcher is always skipped; an unlocked one is throttled exactly when its interval is positive and `now` is before last check + 60·interval; otherwise it runs (also when the elapsed time equals the interval, or the interval is ≤ 0) |
| Cron.GateMonotone | FetchersCron.php:64-77 | a fetcher that may run at `now` may run at any later time |
| Cron.Decide | FetchersCron.php:38-42 | nothing happens exactly when the account is missing; otherwise the gate decides |
| Cron.Claimed | FetchersCron.php:75-76 | the lock write sets IsLocked and CheckLastTime = now (that nothing else changes is `Cron.LockFieldsOnly`) |
| Cron.Released | FetchersCron.php:122 | the unlock write clears IsLocked |
| Cron.AfterCycle | FetchersCron.php:35-126 | a skipped fetcher is unchanged; a run leaves it unlocked and checked at `now` |
| Cron.LockFieldsOnly | FetchersCron.php:75-122 | the lock write, the unlock write and a whole pass change only IsLocked and CheckLastTime; every other field is written back as read |
| Cron.CycleEffects | FetchersCron.php:80-124 | a pass has effects exactly when the fetcher runs, and then exactly three |
| Cron.RunEffects | FetchersCron.php:82-123 | a run's effects are exactly the lock write, the launch and the unlock write, in that order, none with full notification |
| Cron.PassOutcomes | FetchersCron.php:38-61 | a missing account or a lock means no write, no launch and an unchanged fetcher; a run writes the lock at `now` first, launches, then writes the unlocked fetcher |
| Cron.AllCycleEffects | FetchersCron.php:158-165 | the journal of the first n passes holds three effects for each fetcher among them that passes the gate, and nothing else |
| Cron.RunCounts | FetchersCron.php:82-123 | a run launches once and writes twice |
| Cron.CycleCounts | FetchersCron.php:80-124 | a pass launches once and writes twice if it runs, and does neither otherwise |
| Cron.CountsConcat | FetchersCron.php:158-165 | launch and write counts add up over concatenated traces |
| Cron.AllCycleCounts | FetchersCron.php:158-165 | over a run, the launches are exactly the fetchers that pass the gate, with exactly two writes per launch |
| Cron.BracketedConcat | FetchersCron.php:158-165 | the lock/launch/unlock bracketing survives concatenation |
| Cron.CycleBracketed | FetchersCron.php:82-123 | every launch comes right after a lock write and right before an unlock write of the same fetcher, both with notifyFull false, whatever the exit code |
| Cron.RunBracketed | FetchersCron.php:82-123 | lock write, launch, unlock write bracket the launch, whatever the command |
| Cron.AllCyclesBracketed | FetchersCron.php:158-165 | the bracketing holds for a whole run |
| Cron.BracketedStep | FetchersCron.php:161-164 | the pass over the n-th fetcher keeps the journal bracketed |
| Cron.RunRecords | FetchersCron.php:82-123 | the two writes of a run leave the fetcher's record unlocked and checked now, and no other record changes |
| Cron.CycleRecords | FetchersCron.php:35-126 | a pass changes at most its own fetcher's record, into the fetcher as the pass leaves it |
| Cron.ListedRecords | FetchersCron.php:160 | the listed fetchers have distinct ids and each is the record stored under its own id |
| Cron.RecordsAfter | FetchersCron.php:158-165 | the records after the first n passes: passes never add or remove records |
| Cron.RecordsAfterStep | FetchersCron.php:161-164 | the store writes of the n-th pass take the records after n-1 passes to those after n |
| Cron.CycleStepRecords | FetchersCron.php:161-164 | the pass over the n-th fetcher preserves what the earlier passes established |
| Cron.AllCycleRecords | FetchersCron.php:158-165 | after a run, each listed fetcher's record is as its own pass left it; fetchers not yet passed are untouched |
| Cron.BuildCommand | FetchersCron.php:84-112 | the appends and the TLS switch build exactly `MpopCommand` |
| Cron.CronFetcher.RunCommand | FetchersCron.php:115-117 | a launch is journalled once; its exit code and output are unconstrained |
| Cron.CronFetcher.Launch | FetchersCron.php:97-117 | builds the mpop command for the claimed fetcher and journals exactly its launch |
| Cron.CronFetcher.Fetch | FetchersCron.php:80-124 | persists the lock, launches the command for the locked fetcher, then persists the unlock, in that order and regardless of the result |
| Cron.CronFetcher.ExecuteFetcher | FetchersCron.php:35-126 | the returned fetcher, the journal and the records are those `AfterCycle`/`CycleEffects` prescribe, and the list is untouched |
| Cron.CronFetcher.PassOver | FetchersCron.php:161-164 | the passes in list order: the journal gains exactly their effects, and the records are both `RecordsAfter` and the replay of those effects |
| Cron.CronFetcher.ExecuteAllFetchers | FetchersCron.php:128-168 | when fetchers are disallowed nothing is read or written; otherwise one list read, then the passes in list order, and each listed record ends as its pass left it |
| MailSuite.OwnedBy | Module.php:187 | the user's fetchers are exactly the listed ones they own |
| MailSuite.NewFetcher | Module.php:266-279 | the create call sets the user, account, incoming settings, SSL flag, leave flag and folder; every other field keeps its fresh value |
| MailSuite.WithIncomingSettings | Module.php:366-375 | only IsEnabled, server, port, security, leave flag and folder change, plus the password when one is supplied |
| MailSuite.WithSmtpSettings | Module.php:463-469 | only the outgoing and identity fields change |
| MailSuite.WithSignature | Module.php:545-546 | only UseSignature and Signature change |
| MailSuite.UpdatesKeepCronState | Module.php:366-375 | no management update touches the ids, the lock, the last check time or the interval |
| MailSuite.IncomingAndSmtpCommute | Module.php:366-375 | the incoming and SMTP updates commute |
| MailSuite.SignatureCommutes | Module.php:545-546 | the signature update commutes with the other two |
| MailSuite.UpdatesIdempotent | Module.php:366-375 | repeating an incoming-settings update changes nothing more |
| MailSuite.MailSuiteModule.Owns | Module.php:363-364 | the user owns a fetcher exactly when the store finds it and its IdUser is the user's |
| MailSuite.MailSuiteModule.GetSettings | Module.php:91-98 | reports whether fetchers are allowed |
| MailSuite.MailSuiteModule.GetFetchers | Module.php:181-191 | nothing when disallowed; otherwise every returned fetcher is a stored record of the user, and every stored record of the user is returned |
| MailSuite.MailSuiteModule.CreateFetcher | Module.php:262-285 | returns an id exactly when allowed, and then stores `NewFetcher` under a fresh id; otherwise the store is unchanged |
| MailSuite.MailSuiteModule.UpdateFetcher | Module.php:356-382 | succeeds exactly when allowed and the caller owns the fetcher; then writes `WithIncomingSettings` with notifyFull true; otherwise the store is unchanged |
| MailSuite.MailSuiteModule.UpdateFetcherSmtpSettings | Module.php:453-476 | succeeds exactly when allowed and owned; then writes `WithSmtpSettings` with notifyFull false; otherwise the store is unchanged |
| MailSuite.MailSuiteModule.UpdateSignature | Module.php:536-552 | succeeds exactly when allowed and owned; then writes `WithSignature` with notifyFull false; otherwise the store is unchanged |
| MailSuite.MailSuiteModule.DeleteFetcher | Module.php:606-620 | succeeds exactly when allowed and owned; then removes the record; otherwise the store is unchanged |
| MailSuite.MailSuiteModule.OnBeforeSendOrSaveMessage | Module.php:637-644 | attaches the stored fetcher exactly when the sender owns it, whatever AllowFetchers says; an attached fetcher always belongs to the sender |

## Left out

- Logging (`FetchersCron.php:41, 55, 59, 69, 74, 114, 118-121, 131, 137, 167, 170-173`) is a free-text side channel.
- The launched process is only an arbitrary exit code and output lines. Shell quoting is not modelled: the command string is built exactly as the source builds it, with no escaping.
- `microtime(true)` is a float. The model uses an integer `now`, and CheckLastTime is whole seconds.
- The Fetchers manager, the accounts manager and their SQL storage are not part of this model. Their behaviour is modelled by the `FetcherStore` class: writes by id, fresh ids on create, and list order.
- Fetchers manager's `getFetchers($UserId)` is assumed to return the user's fetchers in list order (`MailSuite.OwnedBy`).
- Framework calls (`Api::Init`, `GetModule`, `getConfig`, `checkUserRoleIsAtLeast`) are out of scope. Settings are inputs and role checks are assumed to pass.
- `onAfterCreateUser` only delegates to another manager and to the Mail module.
- PHP's loose typing and `null` arguments are not modelled. `UpdateSignature`'s optional arguments are plain values, and `IdUser === UserId` is integer equality.
- The MailSo connection-security constants are not part of this model. `Security` names SSL, STARTTLS and NONE, plus any other stored value.
- Cron.CronFetcher.ExecuteFetcher: the e-mail split and maildir are computed in `BuildCommand`, which is reached only when the fetcher runs. The source computes them before the gate; they have no effect on a skipped pass.
- MailSuite.MailSuiteModule.CreateFetcher: a failed insert (the manager returning false) is not modelled. The store always accepts a new fetcher.
- MailSuite.MailSuiteModule.UpdateFetcher: a manager write that fails for an existing record is not modelled. The API's result is the store's result, which is true whenever the fetcher exists.
- MailSuite.MailSuiteModule.UpdateFetcherSmtpSettings, MailSuite.MailSuiteModule.UpdateSignature and MailSuite.MailSuiteModule.DeleteFetcher: the same holds for them. They return the manager's result (`Module.php:471, 547, 615`), and the store never fails, so "succeeds exactly when allowed and owned" leaves out a failing write.
- Mpop.MpopCommand: only its ending is stated as a property (`Mpop.CommandEndsWithPassword`). The full fragment order is its definition, which `Cron.BuildCommand` is proved to build.
- Cron.Decide: a missing account is an account id absent from `accounts`. This takes the accounts manager to return null for it, so that `isset` fails (`FetchersCron.php:38-39`). The accounts manager is not part of this model. If it returned false instead, `isset` would hold and the pass would go on with an empty e-mail: the maildir would be `<data folder>//` and mpop would run with `-d  -m '…'`. `Cron.PassOutcomes`' no-write, no-launch case for a missing account depends on this assumption.
- Cron.CronFetcher.ExecuteAllFetchers: interleaved cron invocations are not modelled. The store has one writer, and `IsLocked` is only data. The bracketing and record lemmas (`Cron.AllCyclesBracketed`, `Cron.AllCycleRecords`) describe one run's journal and say nothing about two runs. The list is read once (`FetchersCron.php:160`), so each pass decides on that snapshot's `IsLocked` and `CheckLastTime`. A lock another invocation takes after the read is not seen.
- Cron.CronFetcher.Fetch / ExecuteAllFetchers: exceptions and a killed process are not modelled. Every pass here returns normally. In the source nothing catches an exception from the account lookup or a store write (`FetchersCron.php:38, 82, 123`), neither in the loop (`FetchersCron.php:161-164`) nor at the top-level call (`FetchersCron.php:176`), and mpop runs without a timeout (`FetchersCron.php:117`). Either failure after the lock write ends the run. The fetcher then stays locked for good, since a lock is never recovered (`FetchersCron.php:57-61`). The remaining fetchers are not processed. The journal lemmas (`Cron.AllCyclesBracketed`, `Cron.AllCycleRecords`, `Cron.AllCycleCounts`) hold only for runs whose passes all return.
