# uds-policy, verified

A Dafny model of the policy layer of a privileged Unix-socket daemon, and proofs of what its design
promises over whole runs: the watchdog never kills a busy daemon and always catches a wedged one, the
socket of a serving daemon is never taken from under it and a crashed one's is always reclaimed, the
memo of account names agrees with the directory it speeds up, a connection is guarded, in flight and
on the books for as long as it is answered, and the audit journal tells from its text alone what
happened, up to a stated exception.

| file | what it models |
|---|---|
| `Activity.dfy` | `ServeActivity` as a class with a ghost log of its stamps; the verdict on the fields, the verdict on the log, and the ceilings |
| `Heartbeat.dfy` | serve thread, heartbeat thread and systemd timer as one timed transition system |
| `GatekeeperTiming.dfy` | the gatekeeper's interval, accept timeout and ceilings |
| `WatchdogEnv.dfy` | `heartbeat_from` and the range check of `set_accept_timeout` |
| `SocketLife.dfy` | any number of daemons, one system call at a time, with crashes and failing calls |
| `Socket.dfy` | `bind`, `reclaim_stale_socket` and `drop` as imperative code over a mutable host |
| `Memo.dfy` | `name_for_uid`: the cache as a class, and any number of threads around its mutex |
| `Callers.dfy` | `Display for Caller` and a reader that parses it from the right |
| `Audit.dfy` | operations, their entries, the journal text, and interleavings of operations |
| `Gate.dfy` | `PeerGate::authorize` |
| `JournalReader.dfy` | reading the journal's text back: lines, outcomes, tags and refusals, by their literal words |
| `Effects.dfy` | the one log in which the serve thread's stamps, lines and actions stand in the order they were taken |
| `ServeLoop.dfy` | `serve` and `answer` as methods over the classes above, all writing to that log |
| `ServeRuns.dfy` | what every run of the loop keeps |
| `Text.dfy`, `Prelude.dfy` | decimal numbers, flattening, lines; option and result types, integer widths |

Time is an integer number of microseconds on the monotonic clock, and durations are naturals. A stamp
is one critical section: the instant it carries is sampled under the lock, so no verdict can fall
between the sample and the write. A verdict's own instant is sampled before the lock is taken, as a
separate step.

## Hypotheses

- At most one start is under way per path at a time (`SocketLife.Enabled`), and nothing outside the
  modelled daemons touches the path. No listener is open when a run begins; paths may already name
  stale sockets, files or links.
- `Instant` is monotonic (`Heartbeat.Pass`).
- NSS is a fixed function whenever it answers (`oracle` in `Memo.Act`); it may fail at any time.
- Contract strings and the errno text of an unreadable caller hold no newline (`Audit.WellSpoken`).
- The serve lock is not poisoned in the timed system; the class models a poisoned one.
- A wakeup of the heartbeat is counted when its verdict is reached, so the time it waits for the lock is
  part of how promptly it wakes.

## Where the code differs from a reading of it

- A timeout of one microsecond gives an interval of zero. A zero accept timeout means none at all, and
  the idle ceiling is zero, so a healthy idle loop is killed:
  `GatekeeperTiming.SafeExactlyFromTwoMicroseconds` proves this is the only such timeout. A loop whose
  accept timeout could not be armed has no idle ceiling and is safe at any.
- A start whose chmod fails removes its own inode, and has also removed the stale socket it reclaimed on
  the way, if there was one: `SocketLife.ChmodFailureOverAStaleSocket` is the family, and
  `SocketLife.ChmodFailureRemovesOnlyOwnExactly` the exact condition.
- A predecessor that drops between a successor's `exists` and its metadata read makes that start fail
  on a path that has become free; between the metadata read and the probe it does not. The reverse, a
  path read as free that is taken, fails at bind. `SocketLife.CrashRecovery` proves these are the only
  two, and `SocketLife.DropBeforeMetadataIsReachable` that the first happens.
- An unreadable caller reads as a peer exactly when its reason is a peer's numbers, or ends with them
  after an opening parenthesis: `Callers.UnreadableReadsAsThisPeerExactly` for a given peer,
  `Callers.OtherCallersReadAsPeersExactly` for any, decided by reading the reason from the right. An
  in-process caller never does.
- A failure line ends in foreign text, so it can be read in two ways. Reading up to its first timing gives
  back the operation exactly when the tag holds no timing such as " (3ms): " of its own
  (`JournalReader.FailedReadsExactly`); `JournalReader.FailuresCanCoincide` is the ambiguous family, and
  `JournalReader.PeersCanShareAFailureLine` puts two peers in it. Whoever has the announcement can always
  tell how that operation ended (`JournalReader.OutcomesAreTold`), and no failure is ever a success
  (`JournalReader.KindsNeverCoincide`).
- `served` saturates, so it equals the number of accepted connections only up to 2^64 - 1:
  `ServeRuns.ServedCountsAccepts`.

## Model

| member | source | states |
|---|---|---|
| Activity.ServeActivity.constructor | src/watchdog.rs:160-168 | a new record is idle, as of its creation |
| Activity.ServeActivity.Tick | src/watchdog.rs:172-176 | overwrites the last tick only; a poisoned lock drops the stamp |
| Activity.ServeActivity.CallStarted | src/watchdog.rs:179-188 | replaces whatever call was in flight by a new one, started and progressed now |
| Activity.ServeActivity.Progressed | src/watchdog.rs:195-201 | moves the progress of the call in flight, and nothing when idle |
| Activity.ServeActivity.CallFinished | src/watchdog.rs:204-209 | clears the call and counts as a tick |
| Activity.ServeActivity.IsAlive | src/watchdog.rs:217-244 | the verdict equals the declarative judgement over the full log of stamps, and is dead when the lock is poisoned |
| Activity.LogRefinement | src/watchdog.rs:144-245 | for every log with nondecreasing times the two stored fields judge exactly as the log does: a recent enough tick or finish when no call is open, the latest start of a bounded call, the progress since the start of a stream |
| Activity.LateLock | src/watchdog.rs:172-254 | stamps landing after the sample and before the lock never turn a live verdict dead, and turn a dead one live exactly when one of them restarts the clock the record is judged by |
| Activity.StampingNeverExtendsABoundedCall | src/watchdog.rs:172-237 | no sequence of ticks and progress changes the verdict on a bounded call at any instant, so an overstayed one stays dead |
| Activity.AliveThroughoutExactly | src/watchdog.rs:217-244 | a run is alive at every instant exactly when each idle stretch, bounded call and watched silence ends within its ceiling |
| Heartbeat.RunKeepsInv | src/watchdog.rs:250-259 | in every reachable world the record is the replay of its log, stamps are ordered in time, wakeups are spaced by the interval, and the process is killed exactly when the last pet is older than the timeout |
| Heartbeat.EveryWakeupPets | src/watchdog.rs:250-258 | if the record is alive whenever the clock is sampled, every verdict pets, whatever is stamped before the lock is taken |
| Heartbeat.NoFalseKill | src/watchdog.rs:217-259 | over every run and interleaving, a serve thread within its ceilings and a heartbeat at most the timeout apart are never killed, every wakeup pets, and no gap between pets exceeds the timeout |
| Heartbeat.WedgeDetected | src/watchdog.rs:223-258 | after a wedge at `t` under ceiling `c`, no pet is for a sample past `t + c`, at most `c / interval + 1` pets follow, and the timer fires by `t + c + lag + usec`; for idle loops, bounded calls and watched streams alike |
| Heartbeat.SampleCanPrecedeStamp | src/watchdog.rs:230-254 | a reachable verdict is asked at a sample earlier than the stamp it is judged by, so the subtraction must saturate |
| Heartbeat.LateVerdictIsAboutItsSample | src/watchdog.rs:250-256 | a reachable verdict pets a record that was alive at the sample and is dead by the time the lock is taken |
| GatekeeperTiming.LoopKeepsCeilings | examples/gatekeeper.rs:77-120 | from two microseconds up a loop of that shape, scheduled within two intervals of its accept timeout, keeps the ceiling of three intervals; unarmed it has no idle ceiling and owes nothing outside calls; a call keeps its ten minutes |
| GatekeeperTiming.TimelyGatekeeperIsNeverKilled | examples/gatekeeper.rs:73-120 | from two microseconds up, scheduled on time, or unarmed however long it idles, a gatekeeper whose calls end within ten minutes is never killed and every wakeup pets |
| GatekeeperTiming.SafeExactlyFromTwoMicroseconds | examples/gatekeeper.rs:82-83 | that safety holds exactly when the timeout is at least two microseconds or the accept timeout was not armed, and then at any timeout |
| GatekeeperTiming.OneMicrosecondKillsAnIdleLoop | src/watchdog.rs:288-289 | a run in which a prompt heartbeat lets a healthy idle loop be killed |
| GatekeeperTiming.IdleWedgeIsCaught | examples/gatekeeper.rs:82-89 | an idle gatekeeper that wedges is petted at most four more times and killed within three intervals, the lag and the timeout |
| GatekeeperTiming.OverstayedCallIsCaught | examples/gatekeeper.rs:82-103 | a call that never returns is caught, armed or not: no pet is for a sample past its ten minutes, at most ten minutes' worth of intervals plus one pets follow, and it is killed within the ceiling, the lag and the timeout |
| GatekeeperTiming.FourPetsCanHappen | examples/gatekeeper.rs:83-89 | the bound of four is reached |
| GatekeeperTiming.ConfigIsTheEnvironments | examples/gatekeeper.rs:77-89 | interval, timeout and ceilings are those of the environment's timeout: half of it, three intervals if armed, ten minutes, no stream ceiling |
| GatekeeperTiming.TimelyGatekeepersExist | examples/gatekeeper.rs:77-120 | from two microseconds up runs of timely gatekeepers under a prompt heartbeat hold any number of pets, one every interval |
| WatchdogEnv.ParseExactly | src/watchdog.rs:284-288 | a text parses to a value exactly when it is an optional plus and decimal digits of that value within the type's range |
| WatchdogEnv.HeartbeatExactly | src/watchdog.rs:276-290 | a heartbeat exists exactly for a numeral from 1 to 2^64 - 1 whose pid, if given, is this process; it is half the timeout |
| WatchdogEnv.PrintedTimeoutIsHonoured | src/watchdog.rs:261-290 | printing a timeout and a pid and reading them back gives half the timeout rounded down, for this pid and no other |
| WatchdogEnv.IntervalAlwaysArms | src/socket.rs:237-239 | every interval the environment can configure fits the accept timeout's signed 64-bit conversion, and is armed unchanged |
| Text.NumberOfDecimal | src/watchdog.rs:284-288 | a number printed digit by digit, each digit the character of its value, is read back as itself |
| SocketLife.RunKeepsInv | src/socket.rs:158-281 | what every system call, crash and start keeps: owners and their inodes, no two starts on a path, every open listener held by a live process, and each process's history of unlinks |
| SocketLife.ServingDaemonsKeepTheirPath | src/socket.rs:158-253 | in every run the path of a serving daemon names its own listening inode, and at most one daemon serves a path |
| SocketLife.UnlinksAreSafe | src/socket.rs:249-281 | every unlink in every run removes a socket nobody listens on, or the unlinker's own |
| SocketLife.FailedStartsLeaveOthersAlone | src/socket.rs:164-281 | a start refused as active, not a socket or unverifiable has removed nothing; one failing at chmod has removed only its own inode exactly when it reclaimed nothing |
| SocketLife.ChmodFailureRemovesOnlyOwnExactly | src/socket.rs:160-172 | for an uninterrupted start failing at chmod, only its own inode is removed exactly when `exists` answered no |
| SocketLife.ChmodFailureOverAStaleSocket | src/socket.rs:160-172 | over any stale socket, a start whose chmod fails has removed that socket and its own |
| SocketLife.CrashRecovery | src/socket.rs:158-281 | from every reachable state whose other owners are over and whose path names nothing or a socket, a start wherever it stands ends serving with a live listener, exactly unless the path changed under what it read first |
| SocketLife.DropBeforeMetadataIsReachable | src/socket.rs:160-266 | a reachable state in which a predecessor's unlink makes the start fail although the path is free |
| SocketLife.StartAnswersExactly | src/socket.rs:158-281 | for every well-formed file system, path and pattern of failing calls, each answer a start can give is given exactly under its condition on the inode and the calls |
| SocketLife.ActiveMeansServed | src/socket.rs:271-272 | in every run a start is told that the path is active only while another live process holds the listener on the inode it names |
| Socket.Socket.ReclaimStaleSocket | src/socket.rs:265-281 | the code makes the calls of one process of the model, in order, to its verdict, unlinking only after a refused probe; each refusal is given exactly for what the path names and the calls that fail: not a socket, a live listener, an unverifiable probe |
| Socket.Socket.BindAndSetMode | src/socket.rs:164-172 | bind, listen, chmod, and giving the path up on failure, make the calls the model's process makes, in its order, and end where it ends |
| Socket.Socket.Bind | src/socket.rs:158-172 | the start makes the model's calls in its order and leaves the host and the result its process leaves; read off the file system, it answers not-a-socket, already-active and unverifiable exactly where the source does, and succeeds exactly when the path is or becomes free and no call fails |
| Socket.Socket.Drop | src/socket.rs:249-253 | exactly two calls are made, the unlink of the path and then the close of the listener; an owned path is free and its listener closed afterwards |
| Memo.Sanitize | src/caller.rs:180-185 | a name keeps its first 64 characters, each line break replaced by a space, on one line |
| Memo.NameCache.NameForUid | src/caller.rs:148-178 | an undisturbed call returns the cached name, or the account's name cut to 64 characters with spaces for line breaks, or none; the memo changes only for a completed lookup, at that uid |
| Memo.MemoRefinesOracle | src/caller.rs:148-178 | in every interleaving of any number of threads, every entry and every name returned by a lookup that did not fail is the account's name cut to 64 characters with spaces for line breaks, or its absence; a failed lookup returns none; nobody is in NSS holding the mutex |
| Memo.MemoRemembersExactlyTheCompleted | src/caller.rs:164-177 | the uids in the memo are exactly those some lookup completed for, so absences are kept and failures are not |
| Memo.MemoOnlyGrows | src/caller.rs:155-177 | entries are never removed or changed |
| Memo.StoredAnswersAreServed | src/caller.rs:155-162 | a call begun after its uid is stored never enters NSS and returns the stored value |
| Memo.UndisturbedCall | src/caller.rs:148-178 | a call nobody interrupts takes the steps of the concurrent system to what the sequential specification says |
| Callers.Display | src/caller.rs:123-136 | the text shows the peer under the account's name the memo then holds for its uid, or the reason, or in-process; the memo is otherwise unchanged |
| Callers.CallersReadAsDocumented | src/caller.rs:123-136 | the literal shapes of a peer with and without a name, an unreadable and an in-process caller |
| Callers.PeerIsRecoverable | src/caller.rs:125-131 | reading a rendered peer from the right returns its uid, gid, pid and optional name, whatever the name holds |
| Callers.PeersRenderApart | src/caller.rs:125-131 | peers that render alike agree on every number and on the name |
| Callers.UnreadableReadsAsThisPeerExactly | src/caller.rs:125-132 | an unreadable caller renders as a given peer under some name exactly when its reason is that peer's numbers or ends with a parenthesis and them |
| Callers.OtherCallersReadAsPeersExactly | src/caller.rs:123-136 | a caller that is no peer renders as some peer under some name exactly when it is unreadable and its reason, read from the right, is a peer's numbers alone or after a parenthesis; an in-process caller never does |
| Callers.UnreadableCanReadAsAPeer | src/caller.rs:132 | the two failing families: a peer's numbers after any text and a parenthesis, and a peer's numbers alone |
| Callers.ShownIsShort | src/caller.rs:42-136 | a shown peer is at most 111 characters |
| Audit.Journal.Begin | src/audit.rs:71-87 | a gated call is announced with the text the operation keeps, its call, action and caller; an unprivileged one writes nothing and looks nobody up |
| Audit.Journal.Finish | src/audit.rs:104-118 | one line says success or failure as told, with the whole milliseconds and the reason, under the kept text; nothing for an unprivileged call |
| Audit.EveryOperationIsAccountedFor | src/audit.rs:71-118 | in every interleaving each operation has written nothing, or its announcement, or that and one outcome as it was told, timed, under the identical text |
| Audit.BeginsMinusOutcomes | src/audit.rs:71-118 | announcements exceed outcomes by exactly the gated operations still open or abandoned |
| Audit.NoForgedLines | src/audit.rs:71-143 | for every account name and failure text, splitting the journal at newlines gives back exactly the lines written |
| Text.LinesRecoverable | src/audit.rs:133-136 | a stream reads back line by line exactly when no line holds a newline |
| Text.Bounded | src/audit.rs:137-143 | a failure text keeps its first 256 characters, each line break replaced by a space, and has one line |
| Audit.AuditLinesAreShort | src/audit.rs:104-143 | a line is at most the contract's strings, the caller and a constant, with at most 256 characters of failure text |
| Audit.LinesNameTheirPeer | src/audit.rs:71-131 | an announcement and a success give back the uid, gid and pid of the peer they are for, and a success its milliseconds, whatever the account's name and the contract's strings hold |
| JournalReader.JournalTells | src/audit.rs:71-143 | from the text of the journal alone, cut at its newlines, each line gives back its kind and what it carries; a failure its operation unless the tag holds a timing |
| JournalReader.FailedReadsExactly | src/audit.rs:112-115 | a failure line reads as a failure and gives back tag, milliseconds and bounded reason exactly when the tag holds no timing of its own |
| JournalReader.OutcomesAreTold | src/audit.rs:110-116 | for every service, tag, duration and reason the announcement's tag and the outcome line give back ok or failed, the milliseconds and the first 256 characters of the reason |
| JournalReader.KindsNeverCoincide | src/audit.rs:78-115 | equal lines of a service are of one kind: a success is never taken for a failure, nor a line of the daemon's own for either |
| JournalReader.FailuresCanCoincide | src/audit.rs:112-115 | the ambiguous family: a timing in one operation's failure text or in another's tag makes the same line of both |
| JournalReader.PeersCanShareAFailureLine | src/audit.rs:112-131 | two different peers under such names leave the same failure line |
| JournalReader.FailureNamesItsPeer | src/audit.rs:112-131 | a failure line with an untimed tag gives back the numbers of its peer |
| JournalReader.TagReadsExactly | src/audit.rs:129-131 | a tag gives back call, action and caller exactly when the contract's strings hold no space |
| Gate.RefusalHasOneLine | src/authorization.rs:165-178 | the text of a refusal cannot break a line |
| Gate.UidGateAdmitsExactly | src/authorization.rs:138-183 | of the callers a socket can report, a gate built from uids admits exactly the peers it lists |
| Gate.AdmitsExactly | src/authorization.rs:158-184 | any gate admits exactly the peers whose uid or gid it lists, unreadable callers unless told to refuse them, and the process itself always |
| Gate.RefusalsStateTheirGrounds | src/authorization.rs:165-178 | a refusal gives back the uid and gid that were not listed, or the reason the caller could not be read |
| JournalReader.RefusedPeerIsRead | examples/gatekeeper.rs:130 | the journal's refusal of a peer gives back who it was, whatever its name holds, and the uid and gid that were not listed |
| ServeLoop.Wire.Accept | src/socket.rs:216-223 | accept, credentials, deadline, in that order and before anything else can happen to the connection; a failed deadline drops it |
| ServeLoop.Exchange | examples/gatekeeper.rs:144-158 | one exchange, and a line names the caller only if the reply got through |
| ServeLoop.AnswerAdmitted | examples/gatekeeper.rs:138-140 | announcement, exchange and report, in that order in the one log and under one text |
| ServeLoop.Answer | examples/gatekeeper.rs:125-141 | a refused caller costs one line, one name and one refusal text, and no exchange; an admitted one is announced, answered and reported |
| ServeLoop.HandleConnection | examples/gatekeeper.rs:96-104 | in the one log of the thread the call is opened, then the connection answered, then the call closed |
| ServeLoop.TakeTurn | examples/gatekeeper.rs:95-119 | each turn leaves exactly the memo and the log its outcome calls for, ending in a tick; journal and record hold what the log says |
| ServeLoop.Serve | examples/gatekeeper.rs:93-120 | the loop does what the specification does for each turn, stops at the limit, and never serves past it |
| ServeRuns.ServedCountsAccepts | examples/gatekeeper.rs:93-105 | `served` is the number of successful accepts, saturating |
| ServeRuns.EveryExchangeIsGuarded | examples/gatekeeper.rs:95-139 | at any point of any run each exchange follows, for its own connection, the accept, the credential read, the deadline, the opening of the call, the gate's consent to those credentials and, for a gated call, the printed announcement |
| ServeRuns.ExchangesOnlyWithListedPeers | src/authorization.rs:158-184 | behind a uid gate the credentials read before an exchange are those of a peer whose uid is listed |
| ServeRuns.ListedPeersAreServedExactly | examples/gatekeeper.rs:95-139 | behind a uid gate a connection gets an exchange exactly when it was accepted and its peer's uid is listed |
| ServeRuns.ReturnedMeansHandled | examples/gatekeeper.rs:95-141 | at any point of any run a connection whose handling returned has done, effect by effect: one refusal line and one refusal text and no exchange; or, if gated, one announcement, one exchange, the reply line exactly if the reply got through, and one ok or failed line as it went, all under one text |
| ServeRuns.EveryTurnIsDone | examples/gatekeeper.rs:94-141 | every turn of every run does exactly, and in order, what a turn of its kind does, and nothing is done outside the turns |
| ServeRuns.TurnsKeepToThemselves | examples/gatekeeper.rs:94-119 | every action on a connection is taken in its own turn, so that turn's tick comes after all of them |
| ServeRuns.InFlightExactlyWhileAnswering | examples/gatekeeper.rs:96-104 | at any point of any run the record the heartbeat reads has a bounded call in flight exactly while a connection is being answered, from the verdict to the last line about it |
| ServeRuns.BooksBalance | examples/gatekeeper.rs:125-141 | at every loop head the journal of a gated call holds as many announcements and as many outcomes as there were exchanges, and as many refusals as there were denials and refusal texts |
| ServeRuns.LinesNameTruly | examples/gatekeeper.rs:125-157 | every line about a connection shows its own caller, under the name of the account of its uid or under none |
| ServeRuns.ServeJournalReadsBack | examples/gatekeeper.rs:108-156 | the whole loop's journal reads back line by line |
| ServeRuns.LoopHeadIsIdle | examples/gatekeeper.rs:94-119 | at every loop head no call is in flight and the last stamp is a tick |
| ServeRuns.ServingIsNeverKilled | examples/gatekeeper.rs:73-120 | a watchdog run over any prefix of the loop's own stamps, scheduled on time, never kills it, and unarmed never however long it idles |

## Left out

- The kernel, `nix`, NSS and `SO_PEERCRED`: each call is a step with the outcomes the code distinguishes.
- `notify`, `notify_to` and reading the environment: a pet is one event at the instant of its verdict, and environment values are parameters.
- `spawn_heartbeat` as a loop: it never ends and interleaves with the serve thread, so its body is the two steps `Wake` and `Verdict` of the transition system.
- `give_socket_to_group` and `lookup_group_gid`: best-effort calls with log lines, no effect on who owns the path.
- Socket.Socket.Bind: ends at the chmod; the group change that may follow a successful one is the item above.
- Socket.Socket.BindAndSetMode: likewise.
- ServeLoop.Serve: begins at the loop; what precedes it in `serve` is `Socket.Socket.Bind`, `Gate.ForUids` and `GatekeeperTiming.GatekeeperConfig`, without the READY message and the serving line.
- `AllowSocketPeers`, `DenyAll`, the builders of `SocketConfig` and `Liveness`, the constructors of `Call`, and the accessors of `Caller`: one-branch facts.
- Two starts racing on one path, and outsiders replacing it: the code takes no lock for either.
- The placeholder protocol's bytes and the example's `self_test`: the exchange is an outcome, success or a failure text.
- The read deadline's value and its inheritance from the listener: only whether setting it failed is modelled.
- An accept loop with no limit and no end of turns: `Serve` runs over a finite sequence of turns of any length.
- Paths and error values inside `BindError`: the variant and, for `Io`, the failing call are kept.
