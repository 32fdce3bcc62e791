# A model of the console hub, and what is proved of it

The hub lets many SSH users share one physical modem. A user picks a site, a dial goroutine takes
the device lock and dials, and the session that gets the CONNECT types at the remote console until
it hangs up. Users live in one JSON file that several processes rewrite; sites come from a text file.

The project models six parts of it. Code that assigns fields or loops is a class or a method proved
against a function; what the source promises is then proved about that function, over every input
or every run. Code that runs concurrently is a step system.

| part | modules |
|---|---|
| who owns the modem | `DialProtocol`, `DialOrder`, `DialCode`, `DeviceLocks`, `Ownership`, `Sessions`, `Passages`, `Grounds`, `Cleanups`, `Tokens`, `Handles`, `Exclusion`, `Stranding`, `CalmRuns`, `LostLock` |
| the connected session | `Console`, `ConsoleRuns`, `ConsoleTyping`, `ConsoleSession`, `Wire`, `Scrollback`, `Text`, `Seqs` |
| the user store | `Users`, `UserHistory`, `StoreFiles` |
| talking to the modem | `Modem`, `ModemCode`, `Transcript`, `Pipe` |
| site files | `Sites`, `SiteFiles`, `SiteLines` |
| the bridge process | `Bridge`, and the wait loops in `DialCode` |

**Ownership.** `Ownership.Apply` has any number of sessions, dial goroutines, undelivered messages
and cleanup commands; messages arrive in any order, sessions may be killed at any step. A token is
anything that obliges somebody to release the lock. `Tokens.StepFlows` says what each step does to
the tokens, the lock and the open handles: at most one token comes, goes, changes hands, or opens or
closes its handle. From that follow, for all site lists, that no two tokens or cleanups share a
handle (`Handles`), exactly when an open handle stays open for good (`Stranding`), and when the lock
is free (`CalmRuns`); for named sites, that there is one owner (`Exclusion`), and exactly when the
lock is lost for good (`Stranding`).

`CalmRuns` names four kinds of disturbance: a dial abandoned, a busy session killed, the error of a
password submission reaching a session that is dialing, and a quit message reaching a busy one. That
the lock is free when all live screens are quiet needs all four excluded. That no CONNECT is ignored,
and that a connected session is the one the lock names, need only the first and the third excluded;
the latter holds in such runs iff all sites have a name or none has. That each CONNECT is for a session
still alive needs the second and the fourth excluded as well. `LostLock` has a run for each of these
needs.

`DialCode.Dialer` is the dial goroutine as code, every action of which must be one the protocol of
`DialProtocol` admits, follow the one before it as `DialOrder` says, and agree with what the
environment answers. `DialOrder` tells from the events alone when a retry is due, and that every
retry due is made unless the bridge stays or the device stays away. `Sessions.RootModel` is the root
model as code, proved against `Ownership.Decide`, which is also what a session does in the step
system. `Passages` says, without it, how a session gets from one screen to the next.

**Connected session.** `Console.ConnectedModel` is the code. `ConsoleRuns` states what holds after
any sequence of messages in terms of what happened since the session began, `ConsoleTyping` what the
keys pressed make of the line that Enter sends; `Wire` lets the commands
it issued run concurrently and says what reaches the modem; `ConsoleSession` ties the console to the
connected screen of the ownership system.

**User store.** `Users.FileStore` is the code over the list of users. `UserHistory` says from the
history alone whom the store admits, what it lists and how it answers. `StoreFiles` replaces the
file step by step, with crashes, and shows that readers and writers only ever see the result of a
prefix of the committed operations, and that an operation nothing fails is carried out.

**Modem.** `Modem.ReadUntil` and `ModemCode.OpenModem` are the code; the device is a script of reads
with the clock readings around them. `Pipe` is the background reader.

**Site files.** `Sites` is the code. `SiteLines` says which lines count and which sites they are, and
`SiteFiles` that parsing undoes printing.

## Where the code does less than its text promises

Each of these is a lemma, with the exact condition where there is one.

- A site with an empty name does not mark the lock as taken, so any number of handles can be open at
  once (`UnnamedSiteBreaksExclusion`); mutual exclusion holds iff every site has a name
  (`ExclusionIffNamed`), and a site file may contain one that has none (`NamelessSiteParses`).
- The lock can be lost for good. With named sites it is, in every continuation of a run, iff its
  token is stranded: a CONNECT result ignored after ctrl+c, one on its way to a killed session or
  about to be sent to one, or a connected session killed before its cleanup (`LostIffStranded`). An
  open handle stays open for good on the same condition, whatever the sites are called
  (`OpenForeverIffStranded`).
  `AbandonedDialLosesLock` and `KilledSessionLosesLock` are runs that lead there.
- The error of an earlier password submission that arrives while a dial runs marks it as done
  (`LatePasswordErrorHidesDial`), and a quit message that arrives after a dial request ends a session
  that is dialing by then (`LateQuitLosesLock`). Besides abandoned dials and kills, these are what
  can leave the lock taken with every live screen quiet (`EverySlipIsNeeded`, `QuietMeansFree`).
- After an abandoned dial or a late error the session may take the CONNECT of another site than it
  shows (`AbandonedDialMisnames`, `LateErrorMisnames`).
- `readUntil` looks for result codes in any case, `Dial` and `Configure` only in capitals. A dial is
  classified as heard iff its first code is ERROR or stands in capitals
  (`ClassifiedAsHeardIffCapitals`, `LowerCaseConnectIsError`); Configure counts the accepted commands
  rightly iff no reply is a refusal without ERROR in capitals (`CountsRightlyIffNoneMuffled`,
  `LowerCaseErrorIsAccepted`), so always with a modem that sends capitals (`CapitalsAreCounted`).
- `Reset` and `SetPassword` report success when the password cannot be hashed; it takes effect iff
  it can (`ReportedSuccessIsRealIffHashable`).
- A comment at `internal/tui/connected.go:408` says that only an empty Enter arms the `~.` escape. In
  batch mode any Enter does (`EscapeIffArmed` states what the code does).
- `killBridgeProcess` does not check that a line names the bridge: what it kills is just the running
  bridges iff the listing has no stray line, one with two fields that names neither program
  (`KillsOnlyBridgesIff`).
- A `Read` with a buffer shorter than the chunk it takes loses the rest, as the code says
  (`LossIffShortBuffer`).

## Model

| member | source | states |
|---|---|---|
| DeviceLocks.DeviceLock.Acquire | internal/modem/pool.go:24-38 | succeeds iff the lock is free and the device present; then, and only then, the site is entered |
| DeviceLocks.DeviceLock.Release | internal/modem/pool.go:41-45 | the lock is free, whoever called |
| DialProtocol.EveryRunTellsAStory | internal/tui/dialing.go:166-239 | a finished run that got the lock is, waiting aside, a number of failed dials, each followed by hangup, close, bridge gone and device present, and one of a few endings; a failed Acquire opens and releases nothing; re-dials follow only NO CARRIER or TIMEOUT |
| DialProtocol.EveryStoryIsTold | internal/tui/dialing.go:166-239 | every such story is that of some run: the shape is exact |
| DialProtocol.FinishedRunBalances | internal/tui/dialing.go:202-238 | at most three opens; every handle opened is closed once, and the lock released once, unless they are handed over |
| DialProtocol.LedgerHolds | internal/tui/dialing.go:166-239 | at every point of every run the past opens, closes and releases are what the program point says |
| DialProtocol.ConnectIffModem | internal/tui/dialing.go:208-238 | a dial result is CONNECT iff it carries a modem iff lock and open device are still with the dial; the zero value never leaks from the exit after the loop |
| DialProtocol.ReleaseComesLast | internal/tui/dialing.go:219-238 | the release comes after the last open and the last close |
| DialOrder.EveryRetryIsMade | internal/tui/dialing.go:176-206 | in a run whose events follow each other as the source has them, every retry due (after NO CARRIER or TIMEOUT, with fewer than three dials made) was made, or the lock was released because the bridge stayed after the kill or the device stayed away |
| DialCode.Dialer.WaitBridgeExit | internal/tui/bridge.go:57-90 | its exact trace for every environment; at most 31 polls, so the cap of 40 never decides; killing only after the full timeout |
| DialCode.Dialer.WaitDeviceReady | internal/tui/bridge.go:140-162 | its exact trace; at most 21 polls, so the cap of 25 never decides |
| DialCode.Dialer.DialAttempt | internal/tui/dialing.go:245-275 | from what the environment answers, goes from a closed device to an open one with a dial result, or closes what it opened and fails |
| DialCode.Dialer.DialWithRetries | internal/tui/dialing.go:176-238 | it ends with CONNECT handed over right after the dial that got it, or with the release and the reply; if it gives up for the bridge, that was still there after a kill and 15000 + 2000 ms, if for the device, the last look in 10000 ms was in vain |
| DialCode.Dialer.AcquireAndDial | internal/tui/dialing.go:166-239 | its trace is a finished run of the protocol with this reply, told truthfully and in the order of `DialOrder`; attempts, and releases for a bridge that stayed or a device that stayed away, are one more than the retries due; both only after the whole wait; it acquires iff the lock was free and the device there, and keeps the lock iff it hands the modem over |
| Sessions.RootModel.UpdatePasswordChange | internal/tui/model.go:113-128 | the new session and the effect of its command: only an accepted password leads to the menu, Enter submits on the second field, ctrl+c sends a quit message |
| Sessions.RootModel.UpdateMenu | internal/tui/model.go:130-144 | likewise: a dial request for a listed site starts one dial; Enter asks for the selected site, if there is one; quitting sends a message |
| Sessions.RootModel.UpdateDialing | internal/tui/model.go:146-181 | likewise: CONNECT hands the modem to a session or is hung up, closed and released; ctrl+c leaves at once |
| Sessions.RootModel.UpdateConnected | internal/tui/model.go:183-196 | likewise: back to the menu on the final message only, one cleanup command |
| Sessions.RootModel.ReturnToMenu | internal/tui/model.go:198-208 | the menu, and no modem remembered |
| Sessions.RootModel.Update | internal/tui/model.go:78-96 | each screen handles its input |
| Sessions.RootModel.Take | internal/tui/menu.go:124-125 | a quit message ends the session whatever screen it shows by then; any other input is handled by Update |
| Sessions.GivingUpIsTwoSteps | internal/tui/model.go:158-163 | hanging up a CONNECT whose session cannot start is the close and the release of the step system, and leaves the session at the menu |
| Passages.ForcedChangeIsMade | internal/tui/model.go:113-128 | over every run: a session that had to change its password shows the password screen until it is told that a password was accepted, which follows from an Enter of its own on the second field whose password was accepted |
| Passages.NobodyWaitsInVain | internal/tui/dialing.go:166-239 | over every run, whatever disturbs it: a session that shows a running dial has a dial under way for it, or its answer is on the way |
| Passages.PasswordKeys | internal/tui/password.go:58-95 | tab and Enter on the password screen, and that tab does nothing elsewhere |
| Passages.KeysLead | internal/tui/model.go:113-181 | ctrl+c asks to quit or leaves the dial, Enter leaves a failed dial only, and asks for the selected site |
| Passages.RequestDials | internal/tui/model.go:130-144 | a dial request at the menu starts one dial of the site asked for and shows it; one for no site changes nothing |
| Passages.FailingAnswerShows | internal/tui/model.go:146-181 | any other answer than CONNECT to a session at the dial shows the dial as failed |
| Tokens.StepFlows | internal/tui/model.go:146-208 | every step lets at most one obligation to release come, go, change hands, or open or close its handle, and changes the lock and the open handles just so |
| Cleanups.RunsStayOrderly | internal/tui/connected.go:123-197 | in every reachable state each cleanup under way, and each message about a finished one, is that of one session that is cleaning, and each such session has one |
| Handles.RunsStayApart | internal/tui/dialing.go:166-275 | in every reachable state, whatever the sites are called, no two tokens hold the same handle and every open handle is held by one |
| Exclusion.RunsKeepOneOwner | internal/tui/dialing.go:166-239 | with named sites: in every reachable state at most one token, and it is there iff the lock is taken |
| Exclusion.OneTokenWhenLocked | internal/modem/pool.go:24-45 | with named sites: one token if the lock is taken, none if it is free; every open handle is the token's, so at most one is open |
| Exclusion.ExclusionIffNamed | internal/modem/pool.go:28-36 | mutual exclusion in all runs iff no site name is empty |
| Exclusion.UnnamedSiteBreaksExclusion | internal/modem/pool.go:28-36 | with an empty name there is, for every n, a run with n open handles |
| Handles.CleanupAtMostOnce | internal/tui/connected.go:501-523 | two cleanup commands in a run never concern the same CONNECT, whatever the sites are called |
| Handles.CleanupsStay | internal/tui/connected.go:501-523 | the record of cleanups the previous row speaks of keeps every one ever issued |
| Handles.AtMostOneFarewell | internal/tui/connected.go:123-197 | of a pending cleanup, its done message and the final message a session has at most one |
| Handles.LeavesConnectedClean | internal/tui/model.go:183-196 | the connected screen is left only after the close and the release |
| Stranding.LostIffStranded | internal/tui/model.go:146-208 | no continuation of a run frees the lock iff its token is stranded with nobody left to act on it |
| Stranding.OpenForeverIffStranded | internal/tui/model.go:146-208 | no continuation of a run closes an open handle iff the token that holds it is stranded, whatever the sites are called |
| Stranding.StrandedForever | internal/tui/model.go:168-173 | from a stranded token on, the lock stays taken in every continuation |
| LostLock.AbandonedDialLosesLock | internal/tui/model.go:171 | a run disturbed by one abandoned dial only, after which all screens are quiet and the lock is lost for good |
| LostLock.KilledSessionLosesLock | internal/tui/connected.go:501-523 | the same with one killed connected session |
| LostLock.LatePasswordErrorHidesDial | internal/tui/model.go:174-180 | the same with one late password error: the failed-dial screen shows while the dial holds the lock |
| LostLock.LateQuitLosesLock | internal/tui/menu.go:124-125 | the same with one quit message that reaches a dialing session |
| LostLock.EverySlipIsNeeded | internal/tui/model.go:146-180 | each of the four kinds of disturbance, alone, can leave the lock taken with every live screen quiet |
| LostLock.LateErrorIgnoresConnect | internal/tui/model.go:174-180 | after a late error alone a CONNECT can be ignored |
| LostLock.KilledWhileDialing | internal/tui/model.go:146-166 | after a kill alone a CONNECT can be on its way to a session that has ended |
| LostLock.QuitWhileDialing | internal/tui/menu.go:124-125 | the same after a late quit alone |
| LostLock.AbandonedDialMisnames | internal/tui/model.go:171 | with two names, after an abandoned dial alone, a session can be connected under another name than the lock's |
| LostLock.LateErrorMisnames | internal/tui/model.go:174-180 | the same after a late error alone |
| LostLock.ConnectedNamesTheLockIff | internal/modem/pool.go:24-45 | in runs without abandoned dials and late errors a connected session is always the one the lock names iff all sites have a name or none has |
| CalmRuns.QuietMeansFree | internal/tui/model.go:130-208 | in runs with none of the four disturbances, whatever the sites are called: all live sessions at password, menu or failed dial means lock free and device closed |
| CalmRuns.NothingLost | internal/tui/model.go:146-166 | in runs without abandoned dials and late errors, kills and quits included, no CONNECT is ever ignored and each is for a session that waits for it |
| CalmRuns.ConnectsFindTheLiving | internal/tui/model.go:146-166 | in runs with none of the four, that session is alive |
| CalmRuns.ConnectedNamesTheLock | internal/tui/connected.go:501-523 | with named sites, in runs without abandoned dials and late errors, a connected session that has not released is the one the lock is taken for |
| Console.ConnectedModel.NavigateHistory | internal/tui/connected.go:413-439 | the new line, index and stash; nothing else changes |
| Console.ConnectedModel.TrimOutput | internal/tui/connected.go:456-464 | the output is cut to its last lines; nothing else changes |
| Console.ConnectedModel.HandleEnter | internal/tui/connected.go:369-411 | the whole new state and the command issued, in each of escape, batch and normal mode |
| Console.ConnectedModel.HandleKey | internal/tui/connected.go:292-367 | the whole new state and the commands, for each key; what typing comes to is in the rows of `ConsoleTyping` |
| Console.ConnectedModel.Update | internal/tui/connected.go:123-214 | the whole new state and the commands, for each message, and that only the end of the cleanup counts while cleaning |
| ConsoleRuns.SessionsStaySound | internal/tui/connected.go:292-439 | in every reachable state the index is in range, nothing but printable characters is held or sent, and there are no batch lines outside batch mode |
| ConsoleRuns.HistoryIsCollapsedTail | internal/tui/connected.go:395-404 | the history is the last hundred of all submitted lines with adjacent repeats collapsed |
| ConsoleRuns.ArrowsAreACursor | internal/tui/connected.go:413-439 | up and down are a clamped cursor over the history followed by the typed line |
| ConsoleRuns.DownsRestoreTypedLine | internal/tui/connected.go:429-435 | enough downs restore the typed line, whatever came before |
| ConsoleRuns.BatchesAccountForEveryLine | internal/tui/connected.go:303-391 | every line entered in batch mode is, in order, sent with its batch, cancelled or pending; batches issued are exactly those sent |
| ConsoleRuns.CtrlDSendsBatch | internal/tui/connected.go:311-321 | ctrl+d sends exactly the lines entered since batch mode was turned on |
| ConsoleRuns.EscapeIffArmed | internal/tui/connected.go:372-408 | submitting ~. starts the cleanup iff the last Enter submitted an empty line in normal mode or any line in batch mode |
| ConsoleTyping.KeysEditLine | internal/tui/connected.go:292-367 | over every run that is not cleaning: the line is what typing, backspace and ctrl+u since then make of it, and other messages between them do not touch it |
| ConsoleTyping.TypingAppends | internal/tui/connected.go:356-363 | typing a text puts it at the end of the line |
| ConsoleTyping.RubbingTakesFromTheEnd | internal/tui/connected.go:347-351 | n backspaces take the last n characters, or all |
| ConsoleTyping.ClearingForgets | internal/tui/connected.go:330-332 | after ctrl+u the line is what is typed from then on |
| ConsoleTyping.LinesBeginEmpty | internal/tui/connected.go:369-411 | a line begins empty, at the start and after each Enter |
| ConsoleTyping.EnterSendsTheLine | internal/tui/connected.go:369-411 | in normal mode Enter sends exactly the line so edited, unless it is the armed escape |
| ConsoleTyping.EnterKeepsTheLine | internal/tui/connected.go:384-391 | in batch mode it adds exactly that line to the batch |
| ConsoleTyping.TypedTextIsSent | internal/tui/connected.go:292-411 | the keys of a text other than ~. and Enter send that text |
| ConsoleTyping.ReadsOnAndWakes | internal/tui/connected.go:123-197 | a live session reads on after every chunk, and wakes the remote side at each tick until the first chunk has come |
| ConsoleTyping.LeavesWithANote | internal/tui/connected.go:123-197 | the note a session leaves with, and that it skips the hangup iff the carrier was lost |
| ConsoleRuns.OneCleanup | internal/tui/connected.go:123-197 | one cleanup command at most over the whole run, one exactly when cleaning, with the hangup skipped iff the carrier was lost |
| ConsoleSession.ConsoleAgrees | internal/tui/connected.go:123-214 | on every message the console issues its cleanup, or the report of its end, exactly when the connected screen of the ownership system does |
| ConsoleSession.ConsoleFollowsScreen | internal/tui/connected.go:123-214 | so over every run the two are cleaning at the same time |
| ConsoleRuns.ScrollbackIsTrimmedOnce | internal/tui/connected.go:153-159 | until cleanup the buffer is the last 10000 lines of everything shown since the banner or the last ctrl+l |
| ConsoleRuns.ScrollbackIsASuffix | internal/tui/connected.go:456-464 | so it is the end of what was shown, from the start of a line on |
| Scrollback.NormaliseIsScan | internal/tui/connected.go:153-156 | the two replacements are one scan from left to right |
| Scrollback.NormaliseLeavesNoCr | internal/tui/connected.go:153-156 | no carriage return is left |
| Scrollback.NormaliseIdempotent | internal/tui/connected.go:153-156 | normalising again changes nothing |
| Scrollback.NormaliseInChunks | internal/tui/connected.go:153-156 | chunk by chunk is the whole, but for one extra newline where a CR/LF pair is split |
| Scrollback.TrimConcat | internal/tui/connected.go:456-464 | trimming before appending and trimming again is trimming once |
| Scrollback.TrimIsLastLines | internal/tui/connected.go:456-464 | the lines left are the last ones, all of them when they are few |
| Wire.BytesFrameLines | internal/tui/connected.go:467-498 | however writes interleave or fail, the bytes split at CR into the lines written, and each command's lines are a prefix of its own, in order |
| Wire.EverySubmittedLineIsSent | internal/tui/connected.go:467-549 | when all have run, the bytes split into exactly the normal lines, the wake-ups and the sent batch lines; cancelled ones are in none |
| Users.FindUserIdx | internal/auth/store.go:274-281 | the first user of that name, or -1 iff there is none |
| Users.FileStore.AddUser | internal/auth/store.go:86-109 | the new list and the outcome, read and write errors included |
| Users.FileStore.RemoveUser | internal/auth/store.go:111-127 | the new list and the outcome |
| Users.FileStore.ModifyUser | internal/auth/store.go:149-217 | Lock, Unlock, Reset, SetPassword, UpdateLastLogin: the new list and the outcome; a failed hash leaves the record alone |
| Users.FileStore.Authenticate | internal/auth/store.go:71-84 | true iff the user is there, unlocked and the password matches |
| Users.FileStore.MustChangePassword | internal/auth/store.go:179-192 | the flag, or not found |
| Users.FileStore.List | internal/auth/store.go:129-147 | the public view of every user, in order |
| UserHistory.AuthenticateIff | internal/auth/store.go:71-217 | over every history: admitted iff added and not removed since, the last accepted password write since set this password, and the last Lock or Unlock since is no Lock |
| UserHistory.MustChangeIff | internal/auth/store.go:86-192 | must change iff that last write was Add or Reset; an answer iff the user exists |
| UserHistory.ListIsTheLiving | internal/auth/store.go:86-147 | usernames stay unique and the list names exactly the users that exist |
| UserHistory.ListingTellsHistory | internal/auth/store.go:86-217 | each entry of the listing: locked iff the last Lock or Unlock since the user was added is a Lock, must change iff the last accepted password write was Add or Reset, and the time of the last login recorded since |
| UserHistory.ListingIsInOrder | internal/auth/store.go:86-147 | the listing is in the order in which its users were added |
| UserHistory.OutcomeIff | internal/auth/store.go:86-217 | every operation: the exact condition for each answer, from the history, the length of 72 and what the disk does; Done makes the file what the longer history says, any other answer leaves it |
| UserHistory.ReportedSuccessIsRealIffHashable | internal/auth/store.go:157-177 | for every existing user Reset and SetPassword report success; the password is in force iff it could be hashed, and lets the user in iff also not locked; else nothing changed |
| StoreFiles.UsersFileIsAlwaysWhole | internal/auth/store.go:233-248 | in any interleaving with crashes users.json decodes to the result of the committed operations, and the temporary file is never it |
| StoreFiles.ReadersSeeCommits | internal/auth/store.go:220-230 | every lock-free reader gets the complete state after some prefix of the commits, which has every commit answered before it opened the file |
| StoreFiles.CommitsStand | internal/auth/store.go:201-264 | commits are only ever added to, and a file that was users.json never changes again |
| StoreFiles.AnswersAreTrue | internal/auth/store.go:201-264 | success stands for one commit of this operation and no two answers for the same; a refusal for an operation that changes nothing |
| StoreFiles.EveryCommitIsAnswered | internal/auth/store.go:233-264 | a commit without an answer is that of a crashed writer, or the last one, of the current holder |
| StoreFiles.IoErrorMeansFailure | internal/auth/store.go:201-264 | an answer of IoError means that a system call of that writer failed since it was called |
| StoreFiles.WaitingWriterFinishes | internal/auth/store.go:201-264 | from every reachable state with the lock free, a waiting writer alone, undisturbed, is answered as the operation answers on the committed users, and commits it iff that is Done |
| StoreFiles.ReaderFinishes | internal/auth/store.go:220-230 | from every reachable state an idle reader alone reads the users committed by then |
| Modem.ReadUntil | internal/modem/modem.go:328-371 | the reads made, the text they gave (no byte lost), and which of match, error and deadline ended them first |
| Modem.MatchedIffSomeBoundaryHits | internal/modem/modem.go:339-366 | it matches iff some reachable chunk boundary's text contains a code, and stops at the first |
| Modem.DialReturnsTheCode | internal/modem/modem.go:150-172 | a stream in capitals with one kind of code gives that code, however it is chunked |
| Modem.DialReturnsTheLeadingCode | internal/modem/modem.go:150-172 | a stream in capitals with any codes: what was read is a prefix of it and gives, of the codes in it, the first in the order CONNECT, BUSY, NO CARRIER, NO DIALTONE, ERROR |
| Modem.ClassifiedAsHeardIffCapitals | internal/modem/modem.go:163-172 | the classification agrees with what was heard iff the first code is ERROR or stands in capitals |
| Modem.LowerCaseConnectIsError | internal/modem/modem.go:163-172 | a dial answered in lower case is reported as an error |
| ModemCode.OpenModem.Configure | internal/modem/modem.go:124-136 | the number of commands accepted, the first that was not, and the transcript of all |
| ModemCode.OpenModem.RunAT | internal/modem/modem.go:317-325 | one exchange, its reply and its transcript |
| ModemCode.OpenModem.Dial | internal/modem/modem.go:139-176 | the result for each way the exchange can end, and the transcript |
| ModemCode.AcceptedRightlyIffNotMuffled | internal/modem/modem.go:127-133 | a reply is accepted just when no ERROR was heard in it, iff it is no refusal without ERROR in capitals |
| ModemCode.CountsRightlyIffNoneMuffled | internal/modem/modem.go:124-136 | the number of commands Configure counts is that of the commands accepted, iff no reply is such a refusal |
| ModemCode.CapitalsAreCounted | internal/modem/modem.go:124-136 | with a modem that sends no lower-case letter the count is right under every chunking |
| ModemCode.ConfigureTellsOkFromError | internal/modem/modem.go:124-136 | if each answer has OK or ERROR, and not both, in capitals before the deadline, the commands accepted are just those answered with OK, up to the first ERROR |
| ModemCode.RepliesOnce | internal/modem/modem.go:317-371 | the reply to a command is determined by what the device does |
| ModemCode.TranscriptOfCommands | internal/modem/modem.go:302-325 | the transcript of a list of commands is each command followed by its reply, and nothing else |
| ModemCode.LowerCaseErrorIsAccepted | internal/modem/modem.go:128-133 | such a reply: a refusal in lower case is taken for an acceptance |
| Transcript.CleanKeepsWords | internal/modem/modem.go:374-385 | cleaning keeps the printable words in order, leaves no line break, and is idempotent |
| Transcript.FieldsAreTheRuns | internal/modem/modem.go:384 | fields are the runs without white space: white space separates them, of any length, and a part without any is one |
| Transcript.TranscriptRoundTrip | internal/modem/modem.go:302-315 | splitting a transcript into lines gives back the commands and the non-blank cleaned responses, one line each |
| Pipe.RunKeeps | internal/modem/modem.go:227-268 | bytes read from the device are, in order, taken, queued, in hand or dropped by the close; failures are pending, in the channel, returned or given up by the close |
| Pipe.DeliveredIsPrefix | internal/modem/modem.go:256-268 | with buffers of 4096 bytes what is delivered is a prefix of what the device sent, whichever branch each select takes; at most 100 chunks are queued |
| Pipe.LossIffShortBuffer | internal/modem/modem.go:256-262 | nothing taken is lost iff every Read had room for its chunk |
| Pipe.DrainedIsEverything | internal/modem/modem.go:227-254 | once the loop has stopped without a close and the queue is empty, everything has been taken |
| Pipe.FailureIsToldOnce | internal/modem/modem.go:245-268 | the loop stops reading at the first failure; unless closed, a loop that has stopped met exactly one, which waits in the channel or was returned by exactly one Read |
| Pipe.FailureReachesARead | internal/modem/modem.go:239-268 | a failure met while open is returned by a Read once the loop has pushed and reported |
| Sites.ParseSites | internal/config/sites.go:27-65 | `Parse` of the lines, or the read error after lines that parse; what `Parse` means is in the rows of `SiteLines` |
| Sites.ParseModemInit | internal/config/sites.go:52-59 | the trimmed, non-empty commands of the fifth field |
| SiteLines.SkippedIff | internal/config/sites.go:33-36 | a line is skipped iff it is white space only or its first other character is # |
| SiteLines.LineFate | internal/config/sites.go:33-51 | any other line is a site iff it has at least three bars and an integer within 64 bits in the fourth field; too few fields are counted rightly |
| SiteLines.SiteOfALine | internal/config/sites.go:37-60 | the site of any line is its fields between bars without the white space around them, the fourth as a number, the commands in what follows the fourth bar |
| SiteLines.AtoiIff | internal/config/sites.go:41 | the numbers accepted are an optional sign and digits, within 64 bits, at their decimal value |
| SiteLines.SplitNPieces | internal/config/sites.go:37 | splitting at most n times is splitting, with the rest joined again |
| SiteLines.ParsedIffAllFine | internal/config/sites.go:27-65 | a file parses iff every line that is not skipped is good; the error names the first that is not |
| SiteLines.SitesAreTheLines | internal/config/sites.go:27-65 | the sites are those of the lines, in order |
| SiteLines.SkippableDoesNotMatter | internal/config/sites.go:33-36 | leaving out a blank or comment line anywhere changes no parsed site, nor whether the file parses |
| SiteLines.PaddedLineParses | internal/config/sites.go:37-60 | a line with any white space around its fields and its commands is the site without it |
| SiteFiles.PrintThenParse | internal/config/sites.go:27-65 | parsing printed sites gives the same sites |
| SiteFiles.ParseableIffPlain | internal/config/sites.go:27-65 | a list of sites is the parse of some text iff its fields are trimmed and free of separators, and in range |
| SiteFiles.ParsePrintParse | internal/config/sites.go:27-65 | printing and parsing what was parsed changes nothing |
| SiteFiles.ParseConcat | internal/config/sites.go:27-65 | parsing distributes over concatenation of lines, error line numbers included |
| SiteFiles.NamelessSiteParses | internal/config/sites.go:46-47 | a site with an empty name is accepted |
| Bridge.ParseBridgeRunning | internal/tui/bridge.go:119-132 | true iff some line names the bridge and not slmodemd |
| Bridge.KillBridgeProcess | internal/tui/bridge.go:166-199 | the process ids sent SIGTERM, in order |
| Bridge.KilledAre | internal/tui/bridge.go:179-199 | what is killed is the first field of every line that has two and does not name slmodemd |
| Bridge.BridgeIsSeenAndKilled | internal/tui/bridge.go:119-199 | a listed process whose command line names slmodem-sip-bridge, and not slmodemd, counts as running and its process id is killed |
| Bridge.ParentIsLeftAlone | internal/tui/bridge.go:119-199 | a line that names slmodemd neither counts nor is killed |
| Bridge.KillsOnlyBridgesIff | internal/tui/bridge.go:119-199 | for every listing: what is killed is just the processes of running bridges, in order, iff no line with two fields names neither program |
| Bridge.FiltersDisagreeIff | internal/tui/bridge.go:119-199 | something is killed though no bridge is seen iff no bridge is seen and there is such a line; a bridge is seen but nothing killed iff the lines of bridges have one field and there is no such line |

## Left out

- The screens themselves: rendering, themes, viewport, status bar, list filtering, latency display.
- The SSH server, `pgrep`, `kill`, `os.Stat` and the device files: only their outcomes appear, as free choices.
- bcrypt: an ideal hash that refuses passwords of more than 72 bytes. Its salt is not modelled, nor that checking a password looks at its first 72 bytes only.
- JSON: decoding is assumed to undo encoding. Loss of power is not modelled; crashes of processes are.
- `NewFileStore` creating the first file, and the migration of old user files: users.json is assumed to exist.
- `FileStore`'s process mutex: `StoreFiles` is proved without it, so for more interleavings than there are.
- sendLine, sendBatch, cleanup and readLoop run beside other code and are step systems on values (`Wire`, `Ownership`, `Pipe`), not methods.
- acquireAndDial: the ownership system takes the protocol's actions one by one; `DialCode` is the same code run alone.
- Status texts of a dial, the session logger and its file.
- `Modem.Init`, `drain` and `Hangup` beyond their place in the dial protocol.
- Upper-casing and white space beyond what the model states: `Modem.Upper` maps ASCII letters only, and text is a sequence of characters, not of UTF-8 bytes.
- Modem.ReadUntil: the script is assumed to go on until the clock has passed the deadline, as a clock does.
- The scanner's limit on the length of a line: such a line is one way for the lines to end in a read error.
- `oob-probe`, `oob-manage`, environment configuration, shell scripts and container files.
