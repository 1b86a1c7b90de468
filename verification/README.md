# Verified models of the control plane and its node agents

This project states, in Dafny, what the control plane and its node agents promise each other, and
proves it: who is a member, what a command may do, what survives races and crashes at start, what
reaches a cache directory, and which encodings can be undone. Where the code as written departs
from its stated purpose, a lemma gives the exact condition under which it does meet it, and
usually a named run that breaks it.

`dafny verify dfyconfig.toml` checks everything.

## What is modelled

**Membership** (`Enrollment`, `LedgerRuns`, `Servicer`, `LedgerLaws`, `AgentKeys`). The ledger holds a working
copy and rows. `EnrollmentLedger` changes both in place; each call is proved equal to a function
on ledger values. `LedgerLaws` says of those functions, for every ledger, what each verdict and each
record means, and runs of them carry the theorems. A database write that fails is
a flag on the call: the working copy has changed, the rows have not, the call raises. A restart
reads the rows back. The servicer's handlers compose ledger calls; the agent holds its identity on
disk, in the process and in the renewal task's clone; how a node stands after any run, whichever
writes fail and whatever machine it dials from, is proved to be what a machine over four keys says
(`NodeFollowsSketch`).

**The command protocol** (`Hub`, `Protocol`, `CallRuns`). `AgentHub` is the registry in place. `Protocol` is
the whole system as one labelled transition system: callers, hub, one first-in first-out stream
per connection, agents. A label is a stretch between two awaits, or an event on the wire or at an
agent; any label may be tried at any time, so a run is any interleaving, with streams breaking,
messages lost, deadlines, cancellations, displaced streams, late detaches and shutdown. `Protocol`
says what no run can do; `CallRuns` says what a call comes to, its answer or the reason it gave up.

**Starting** (`Schema`, `Import`). The bounded retry around `create_all` under arbitrary
interference, and the one-time import of the JSON ledger by any number of starters that may crash
at any point.

**The blob cache** (`BlobPaths`, `BlobTrees`, `Blobs`, `BlobStore`, `Order`). The path check on
strings, the store's table, and the in-place refresh and prune of a directory tree.

**Canonical forms** (`TrustPin`, `Codec`, `RunCodec`, `CodecShapes`). The trust-bundle pin in both
implementations, and the `run_container` codec with the values each keyword takes.

**The log stream and deadlines** (`LogTail`, `Deadlines`).

## Where the code and its description part

The models follow the code. Each item names the lemma that settles it.

- `connect` says it uses the identity on disk (`agent/src/session.rs:155-160`); it reads the copy
  the process holds, and `renew_once` updates a clone of that. A node is denied at its first redial
  after a renewal that succeeded in every respect (`RenewThenRedial`). An agent that did read the
  disk would be denied only after a lost or refused reply (`AcceptedIffNeverDialledStale`).
- The ledger's lock is there so that accepting and denying a node "cannot interleave into one of the
  two decisions being lost" (`spark_pulse/agent/enrollment.py:247-252`). It covers each call, not
  Renew's pair of calls: a denial between them is lost (`DenialInTheGapIsLost`), and so is anything
  else, a removal included (`SplitRenewAlwaysAdmits`; the same holds between Enroll's two calls,
  `SplitEnrollAlwaysAdmits`). The pair acts as one call exactly when the node
  would still pass `authorize` (`SplitRenewIsAtomicIff`).
- A renewal whose row could not be written leaves the agent refused. A restart of the control plane
  heals that exactly when nothing wrote the row in between (`UnwrittenRenewalIff`), and the agent's own
  refused redial is such a write: after it the node stays denied, unless that write failed as well
  (`RefusedRedialSticks`).
- A removal whose row could not be deleted lasts until the next restart (`RemovalHoldsIff`).
- A sweep is housekeeping, but its whole-ledger write publishes what a failed write left in memory: a
  redemption whose write failed becomes final after a sweep and a restart, and without the sweep the
  token would still work (`SweepPublishesAFailedRedemption`). Before a restart a sweep is never
  visible, and through one it is invisible exactly when it wrote nothing or the two stores held the
  same live tokens (`SweepIsTransparent`, `SweepThenRestartIff`).
- A denial whose write failed is forgotten by a restart unless the row already said so
  (`UnwrittenDenial`).
- `detach` tells listeners the node is gone even when a newer stream is up, and `shutdown` tells
  them nothing (`ListenersTruthfulIff`, `LateDetachKeepsNewer`).
- The import's marker is written only when there is a file. A start that finds none leaves the next
  one free to import a file that appears later, and a node removed in between is back
  (`LateFileReadmits`). A removal is final exactly when the marker is there as it is made
  (`RemovalIsFinalIff`).
- The log stream loses lines exactly when a non-blank line leaves the window between two polls that
  differ (`ExactIff`), and falls silent for good exactly when no later window holds more lines than
  had been seen (`SilentFromIff`). Where no raw line is cut further by `splitlines`, that is as soon as
  1000 lines have been seen (`FullWindowStalls`); cut lines, such as progress output, let it go on
  (`CutLinesGoOn`). It never repeats a line (`NeverRepeats`).
- A row whose mode is more than the nine permission bits is re-moded on every run
  (`SecondRunIsIdleIff`).
- `install_bundle` and `configure_fabric` bound the waiting thread at 120 seconds and do not bound
  the hub, so a node that takes over 150 seconds is reported as a wedged event loop
  (`FabricBlamesTheLoop`).
- A renewing `save` that dies between starting the key and finishing the certificate leaves files
  nothing can be dialled with, and `load` accepts them; it notices only a death inside the metadata
  (`InterruptedSave`).
- A metadata attribute set to None comes back as its default (`MetadataRoundTripIff`).

## Assumptions

- Secrets, uuids, renewal keys and command ids are fresh. Times are positive where "0" means unset.
- SHA-256 is a function; where a proof needs it not to collide on the two values compared, the lemma
  says so for those two values.
- One control plane owns a ledger's working copy, except in the two start-up races.
- The executor answers a command at most once, with the command's id.

## Model

| member | source | states |
|---|---|---|
| `Enrollment.WriteTouchesOnlyItsRows` | spark_pulse/agent/enrollment.py:333-370 | a narrow write changes the rows it names, drops before puts, and no other row, however far the tables have drifted |
| `Enrollment.EnrollmentLedger.constructor` | spark_pulse/agent/enrollment.py:320-331 | a new working copy is what the rows hold, each record taking its id from its row's key |
| `Enrollment.EnrollmentLedger.WriteRows` | spark_pulse/agent/enrollment.py:333-370 | the row loops amount to one transaction, or to nothing when it fails |
| `Enrollment.EnrollmentLedger.Save` | spark_pulse/agent/enrollment.py:383-407 | after a whole-ledger write the rows equal the working copy outright |
| `Enrollment.EnrollmentLedger.SweepLocked` | spark_pulse/agent/enrollment.py:661-677 | exactly the tokens past both grace periods leave the working copy, and they are reported |
| `Enrollment.EnrollmentLedger.MintToken` | spark_pulse/agent/enrollment.py:411-435 | the new token is in both stores, swept tokens in neither, and only memory changes when the write fails |
| `Enrollment.EnrollmentLedger.RedeemToken` | spark_pulse/agent/enrollment.py:437-479 | the three refusals, in order, change nothing; a redemption spends the token and records the pending node together |
| `Enrollment.EnrollmentLedger.RevokeToken` | spark_pulse/agent/enrollment.py:481-500 | an unused token becomes used; a used one and an unknown one are left alone |
| `Enrollment.EnrollmentLedger.RecordIssue` | spark_pulse/agent/enrollment.py:509-544 | the node is accepted under the new key, facts merge, and the issue count passes the stored one |
| `Enrollment.EnrollmentLedger.Deny` | spark_pulse/agent/enrollment.py:554-563 | a known node is denied in both stores; an unknown one is ignored |
| `Enrollment.EnrollmentLedger.Remove` | spark_pulse/agent/enrollment.py:565-578 | the node leaves both stores |
| `Enrollment.EnrollmentLedger.NoteSeen` | spark_pulse/agent/enrollment.py:580-590 | only the working copy's `last_seen` changes |
| `Enrollment.EnrollmentLedger.Authorize` | spark_pulse/agent/enrollment.py:594-636 | the verdict for each case, and that a changed key or fingerprint denies the node in both stores |
| `Enrollment.EnrollmentLedger.Sweep` | spark_pulse/agent/enrollment.py:640-659 | a sweep that drops anything makes the rows equal the working copy; one that drops nothing writes nothing |
| `LedgerRuns.TokenSingleUse` | spark_pulse/agent/enrollment.py:437-479 | over any run of calls, failed writes and restarts, a secret is redeemed normally at most once |
| `LedgerRuns.RetryIsToldUsed` | spark_pulse/agent/enrollment.py:661-677 | for 600 seconds after a redemption, through any such run, a retry is refused as already used |
| `LedgerRuns.TokensComeFromMints` | spark_pulse/agent/enrollment.py:411-435 | a token in either store was there at the start or was minted by a step of the run |
| `LedgerRuns.StoresAgree` | spark_pulse/agent/enrollment.py:333-407 | in every run without failed writes the two stores differ in nothing but `last_seen`, so a restart changes nothing else |
| `LedgerRuns.SweepIsTransparent` | spark_pulse/agent/enrollment.py:640-677 | deleting every sweep from a run with any failed writes changes no later redemption's success or the node it admits, provided neither run restarts where its two stores hold different tokens |
| `LedgerRuns.GoodWritesStayInStep` | spark_pulse/agent/enrollment.py:333-407 | that proviso holds of every run whose writes succeed, from stores that agree |
| `LedgerRuns.SweepThenRestartIff` | spark_pulse/agent/enrollment.py:383-407 | a sweep followed by a restart changes no later redemption if and only if it wrote nothing or the two stores held the same live tokens before it |
| `LedgerRuns.SweepPublishesAFailedRedemption` | spark_pulse/agent/enrollment.py:640-659 | the run in which a sweep makes a redemption whose write failed final, for every ledger with one live and one stale token |
| `LedgerLaws.AuthorizeIff` | spark_pulse/agent/enrollment.py:594-636 | the verdict is good if and only if the node is accepted, the keys agree and the fingerprints agree; an accepted node that fails a comparison is denied for it, in its row as far as the write is accepted; otherwise nothing changes |
| `LedgerLaws.RefusalSaysWhy` | spark_pulse/agent/enrollment.py:599-614 | the reason given for a node that is unknown, pending or denied |
| `LedgerLaws.IssueIsRecorded` | spark_pulse/agent/enrollment.py:509-544 | the recorded node is accepted under the new key, its issue count exceeds both stores', and a reported fact replaces the one held while an unreported one leaves it |
| `LedgerLaws.IssuedIsAuthorized` | spark_pulse/agent/enrollment.py:509-636 | a node just recorded passes `authorize` with that key and those facts, even if it was denied before |
| `LedgerLaws.DeniedIsRefused` | spark_pulse/agent/enrollment.py:554-563 | a denied node is refused with the reason given, whatever it shows |
| `LedgerLaws.RemovedIsUnknown` | spark_pulse/agent/enrollment.py:565-578 | a removed node is refused as never enrolled |
| `LedgerLaws.RedeemIff` | spark_pulse/agent/enrollment.py:437-479 | which of the three refusals is given exactly when, and otherwise the token is spent on, and the pending record made for, the pinned id or a new one |
| `LedgerLaws.MintedWorks` | spark_pulse/agent/enrollment.py:411-435 | a minted secret is let in exactly until its time is up, as the node it names, after a restart too if it was written |
| `LedgerLaws.MintKeepsOthers` | spark_pulse/agent/enrollment.py:411-435 | minting one secret, and the sweep that goes with it, changes no other secret's admission from then on |
| `LedgerLaws.RevokedIsRefused` | spark_pulse/agent/enrollment.py:481-500 | a revoked secret is never let in again, and the time of an earlier use stays |
| `LedgerLaws.SweepForgets` | spark_pulse/agent/enrollment.py:640-677 | the secrets forgotten are exactly those whose expiry, and use if any, lie over 600 seconds back, and they are counted |
| `LedgerLaws.FailedWriteLeavesRows` | spark_pulse/agent/enrollment.py:333-407 | a call whose write fails changes no row |
| `LedgerLaws.RestartReadsRows` | spark_pulse/agent/enrollment.py:320-331 | a restart reads back the rows, forgets what was not written and changes no row |
| `LedgerLaws.SeenIsNoted` | spark_pulse/agent/enrollment.py:580-590 | being seen moves one time of one record and no row |
| `Servicer.EnrollmentServicer.Enroll` | spark_pulse/agent/servicer.py:104-141 | the handler's ledger effects and reply in every branch, including the removal after an unsignable request |
| `Servicer.EnrollmentServicer.Renew` | spark_pulse/agent/servicer.py:143-168 | no new key is recorded unless `authorize` passed and the request could be signed |
| `Servicer.EnrollmentServicer.OpenSession` | spark_pulse/agent/servicer.py:182-224 | a session is admitted only for the certified id, and only if `authorize` passes on the presented key |
| `LedgerLaws.SessionGate` | spark_pulse/agent/servicer.py:182-224 | admitted if and only if the certificate is for the claimed id and that node is accepted with agreeing key and fingerprint; without a certificate for the claimed id the ledger does not change |
| `LedgerLaws.EnrollGate` | spark_pulse/agent/servicer.py:104-141 | a certificate if and only if the connection has no identity, the secret is good, the request can be signed and both writes succeed; its node then passes `authorize` |
| `LedgerLaws.BadRequestLeavesNoNode` | spark_pulse/agent/servicer.py:128-133 | an unsignable request spends the secret and leaves no node in either store |
| `LedgerLaws.RenewGate` | spark_pulse/agent/servicer.py:143-168 | a renewal if and only if the peer is an accepted node on an agreeing machine, the request can be signed and the write succeeds; the old key then no longer passes and the new one does |
| `Servicer.DenialStep` | spark_pulse/agent/servicer.py:104-224 | one request leaves a durable denial standing if and only if it neither removes the node nor redeems a live token pinned to it |
| `Servicer.DenialIsSticky` | spark_pulse/agent/enrollment.py:554-636 | so a durable denial outlives every run of requests with neither, failed writes and restarts included |
| `Servicer.UnwrittenDenial` | spark_pulse/agent/enrollment.py:554-563 | after a restart the node is denied if and only if the write succeeded or the row already said so |
| `Servicer.SplitRenewIsAtomicIff` | spark_pulse/agent/servicer.py:153-166 | with calls between Renew's two, the result is that of an undivided Renew if and only if the node still passes `authorize` |
| `Servicer.DenialInTheGapIsLost` | spark_pulse/agent/enrollment.py:247-252 | a denial that lands between the two calls is undone in both stores and the node admitted again |
| `Servicer.SplitRenewAlwaysAdmits` | spark_pulse/agent/servicer.py:153-166 | whatever calls fall between Renew's two, a removal included, the node is accepted afterwards in both stores |
| `Servicer.SplitEnrollAlwaysAdmits` | spark_pulse/agent/servicer.py:120-139 | whatever calls fall between Enroll's redemption and its record, the node is accepted afterwards in both stores; with none it is the undivided handler |
| `AgentKeys.InterruptedSave` | agent/src/identity.rs:206-259 | with writes that truncate before they fill, an interrupted first save is always noticed, a renewing one only inside the metadata; otherwise it can be dialled with unless it died between starting the key and finishing the certificate, and a new certificate is never beside an old key |
| `AgentKeys.Agent.Dial` | agent/src/session.rs:161-227 | a dial with the held copy, its verdict and the clone it starts are the model's dial of an agent that does not read the disk |
| `AgentKeys.Agent.Renew` | agent/src/session.rs:396-449 | a renewal against the servicer, with any fate of its reply, is the model's renewal |
| `AgentKeys.EnrolmentEnrols` | spark_pulse/agent/servicer.py:121-141 | an enrolment that returns a certificate leaves one key in both stores and in every copy |
| `AgentKeys.NodeFollowsSketch` | spark_pulse/agent/enrollment.py:594-636 | over every run of dials from any machine, renewals, denials, removals, re-enrolments, restarts of either side and others' requests, an impostor's under the node's name included, any of whose writes may fail, the node's standing in memory and in its row is what the four-key machine says |
| `AgentKeys.CopiesAreWhatWasStored` | agent/src/session.rs:437-447 | over every such run the disk holds the key, certificate, bundle and expiry of the last renewal or enrolment that was stored, the process those it last read, and every copy's private key belongs to its certificate |
| `AgentKeys.TransplantIsBarred` | spark_pulse/agent/enrollment.py:625-635 | a node that dials is let in if and only if its key and, where both are known, its machine agree with its record; from another machine it is barred, durably if the write succeeds |
| `AgentKeys.DialStartsRenewal` | agent/src/session.rs:377-383 | a renewal task starts with a session, with a clone of the held copy, exactly when its expiry is known |
| `AgentKeys.EndStopsRenewal` | agent/src/session.rs:228-240 | the end of a session or of the process ends its renewal task, and nothing is renewed until the next dial |
| `AgentKeys.Agent.RenewalState` | agent/src/session.rs:377-383 | the renewal task gets a clone of the held copy, if its expiry is known |
| `AgentKeys.Agent.RenewOnce` | agent/src/session.rs:414-449 | a pinned renewal changes the clone and the disk together and not the held copy; an unpinned one changes nothing |
| `AgentKeys.AcceptedIffNeverDialledStale` | agent/src/session.rs:155-168 | over every run of dials, recorded renewals, reboots and other nodes' business with any failed writes, a node left alone on its machine is accepted if and only if it never dialled while the copy it dials with was behind the ledger |
| `AgentKeys.DiskReaderIsNeverDenied` | spark_pulse/agent/enrollment.py:615-624 | an agent that reads the disk and whose renewals all reach it is never denied while it dials from its own machine, whatever writes fail, unless the operator denies, removes or re-enrols it |
| `AgentKeys.RedialAfterRestartIff` | spark_pulse/agent/enrollment.py:333-370 | whenever the row still has the agent's key and memory has not, after any run without renewals and restarts and then a restart, the redial is let in if and only if no event of the run wrote the row |
| `AgentKeys.UnwrittenRenewalIff` | spark_pulse/agent/servicer.py:158-163 | so it is after a renewal whose row was not written, through any run of dials, session ends, reboots, denials and others' requests |
| `AgentKeys.RefusedRedialSticks` | spark_pulse/agent/enrollment.py:615-624 | the agent's own redial in between is refused, and a restart undoes that if and only if the refusal was not written |
| `AgentKeys.RemovalHoldsIff` | spark_pulse/agent/enrollment.py:565-578 | a removed node is let in after a restart if and only if its row was not deleted and has the key the agent dials with |
| `AgentKeys.RenewThenRedial` | agent/src/session.rs:377-449 | dial, renew, redial denies the agent as written whatever the renewal's fate, and a disk-reading one unless the reply was stored |
| `Hub.AgentHub.Send` | spark_pulse/agent/hub.py:137-151 | the command is pending and last in the queue, with an unresolved future |
| `Hub.AgentHub.Deliver` | spark_pulse/agent/hub.py:159-168 | a result settles the future its own connection holds, if unresolved, and nothing else |
| `Hub.AgentHub.Abandon` | spark_pulse/agent/hub.py:181-195 | the connection closes empty and exactly its unresolved futures break with the reason |
| `Hub.AgentHub.Discard` | spark_pulse/agent/hub.py:197-200 | the pending entry goes and no future is touched |
| `Hub.AgentHub.Attach` | spark_pulse/agent/hub.py:235-251 | the newer stream is registered, the one it displaced is abandoned and returned, listeners are told |
| `Hub.AgentHub.Detach` | spark_pulse/agent/hub.py:253-259 | only the registered connection leaves the map; any is abandoned; listeners are told "gone" either way |
| `Hub.AgentHub.Shutdown` | spark_pulse/agent/hub.py:353-359 | every registered connection is abandoned, the map is empty, listeners are told nothing |
| `Hub.AgentHub.CancelOn` | spark_pulse/agent/hub.py:340-351 | a cancel is queued on the registered connection and no future is touched |
| `Hub.AbandonTwice` | spark_pulse/agent/hub.py:353-359 | abandoning connections one after another is abandoning them together |
| `Hub.ListenersTruthfulIff` | spark_pulse/agent/hub.py:253-287 | after any run of membership events the listeners' last value equals `is_connected` if and only if the history did not mislead them |
| `Hub.LateDetachKeepsNewer` | spark_pulse/agent/hub.py:235-259 | a displaced stream's late detach leaves the newer stream connected with all it waits for, and the listeners told it is gone |
| `Protocol.AlwaysSound` | spark_pulse/agent/hub.py:91-359 | the whole-system invariant holds after every interleaving |
| `Protocol.SoundStays` | spark_pulse/agent/servicer.py:226-293 | every step of callers, hub, streams and agents keeps that invariant |
| `Protocol.BeginTraffic` | spark_pulse/agent/hub.py:309-325 | a fresh command is queued once and has been started nowhere |
| `Protocol.DrainTraffic` | spark_pulse/agent/servicer.py:250-265 | a command leaves its queue as it is started, so it cannot be started again |
| `Protocol.ReadAnswers` | spark_pulse/agent/servicer.py:267-293 | a result read off a stream was produced there and settles only a future sent there |
| `Protocol.AbandonWaiters` | spark_pulse/agent/hub.py:181-195 | abandoning connections that leave the map strands no waiter |
| `Protocol.ExecutedAtMostOnce` | agent/src/session.rs:296-322 | over every interleaving a command id is started at most once, on the stream it was sent on |
| `Protocol.CallsEndTruthfully` | spark_pulse/agent/hub.py:295-338 | a call is suspended or has ended exactly once; with the one answer the agent produced for that id on that connection, or unreachable, and told of a deadline only if it passed, or cancelled if its caller cancelled it |
| `Protocol.UnreachableForCause` | spark_pulse/agent/hub.py:181-359 | nobody is told "unreachable" without its cause: a deadline that passed, a shutdown, the end or displacement of the stream the command was sent on, or no stream registered when the call began |
| `Protocol.NoStrandedWaiter` | spark_pulse/agent/hub.py:181-259 | an unresolved future is held by a still-registered connection, and a connection out of the map holds nothing |
| `Protocol.AbandonedForEver` | spark_pulse/agent/hub.py:181-195 | once out of the map a connection never returns and never holds anything again |
| `Protocol.EveryCallCanEnd` | spark_pulse/agent/hub.py:321-359 | the end of its stream or a shutdown releases any suspended caller, and its deadline always ends it |
| `CallRuns.ReadSettles` | spark_pulse/agent/hub.py:159-168 | reading a result off the stream its command went out on settles that call's future with it and takes the call off the pending list |
| `CallRuns.ReadThenWake` | spark_pulse/agent/hub.py:321-338 | in every reachable state, a caller whose result is next on its stream is given that answer when it wakes |
| `CallRuns.CallReturnsItsAnswer` | spark_pulse/agent/hub.py:295-338 | from every reachable state, a call to a node whose stream is up, carried out and read back past all that was queued before it, ends with exactly what the agent answered |
| `CallRuns.GivingUp` | spark_pulse/agent/hub.py:325-338 | a caller past its deadline, or that cancels, is told so, and a cancel for its command is queued on the stream it was sent on |
| `CallRuns.BeingCutOff` | spark_pulse/agent/hub.py:181-195 | a caller whose stream ends, or whose hub shuts down, is told so and sends nothing |
| `CallRuns.AskingKeepsWaiting` | spark_pulse/agent/hub.py:340-351 | asking a node to stop a command queues a cancel and ends no call |
| `CallRuns.NobodyThere` | spark_pulse/agent/hub.py:309-313 | a call to a node with no stream ends at once as not connected, and sends nothing |
| `CallRuns.GivingUpIsNoted` | spark_pulse/agent/hub.py:321-338 | a deadline or cancellation takes effect exactly while the caller is suspended, at once if nothing has come yet |
| `CallRuns.GivenUpIsTold` | spark_pulse/agent/hub.py:325-338 | over every interleaving a call ends as cancelled if and only if its cancellation was accepted, and as timed out if and only if its deadline passed and no cancellation was |
| `CallRuns.GoingDown` | spark_pulse/agent/servicer.py:226-293 | what a broken stream, a dead agent and an ended session each leave in flight and running |
| `CallRuns.DownForGood` | spark_pulse/agent/servicer.py:250-293 | over every run after that, nothing is started on a stream that is down, nothing more is put on it, and a dead agent answers nothing |
| `Schema.CreateAll` | spark_pulse/db.py:318-321 | the loop is the modelled attempt: one inspection, then a CREATE for each table it did not find |
| `Schema.AttemptEnds` | spark_pulse/db.py:318-321 | an attempt that loses a race lost it on a table absent before it and present after; one that fails otherwise met a fault on a table it had to create; a clean one leaves every table |
| `Schema.FailureKeepsEarlier` | spark_pulse/db.py:318-321 | where each CREATE commits by itself, a failed attempt leaves every table before the one it failed at |
| `Schema.NothingElseMade` | spark_pulse/db.py:318-321 | nothing else appears: what is there was there before, or somebody made it, or is a table of ours; and none of ours if a failed attempt is rolled back |
| `Schema.CreateSchema` | spark_pulse/db.py:285-330 | the loop is the modelled retry, and raises if and only if a table is missing at the end |
| `Schema.RetryConverges` | spark_pulse/db.py:285-330 | k lost races leave at least k tables; the error escapes only after two attempts met a fault of the database's own; otherwise the retry ends with every table present |
| `Schema.UndisturbedIsLast` | spark_pulse/db.py:318-330 | an attempt that nobody disturbs ends the retry with every table present |
| `Import.Store.MarkDoneWithin` | spark_pulse/db.py:118-135 | the marker is set, and claimed exactly when it was not |
| `Import.Store.MigrateFromJson` | spark_pulse/agent/enrollment.py:279-318 | undisturbed, a start is the transition system's three steps in a row, rows copied one by one |
| `Import.MarkerIffOneImport` | spark_pulse/agent/enrollment.py:279-318 | over any starters, crashes and lost races the marker is there if and only if exactly one import has committed |
| `Import.MarkerAndRowsTogether` | spark_pulse/db.py:382-404 | the step that sets the marker writes every row of the file, leaving other rows alone, and no other start-up step changes a row |
| `Import.StartEnds` | spark_pulse/agent/enrollment.py:279-318 | a start imports exactly when nobody beat it to the commit and no row it meant to update had gone; it serves when there was nothing to import, it imported or it was beaten |
| `Import.RemovalIsFinalIff` | spark_pulse/agent/enrollment.py:279-296 | a removal is final over every run that does not admit the node by hand if and only if the marker is there when it is made |
| `Import.RemovedStaysRemoved` | spark_pulse/agent/enrollment.py:279-288 | once the marker is set a removal is final, whatever starts or file changes follow |
| `Import.NeverReadmitted` | spark_pulse/agent/enrollment.py:279-318 | with the file in place from the first start, no removed node is readmitted by any start |
| `Import.LateFileReadmits` | spark_pulse/agent/enrollment.py:289-296 | the run in which a file that appears late brings a removed node back |
| `TrustPin.PinOfControlPlane` | spark_pulse/agent/identity.py:178-201 | the running digest over the sorted, re-encoded keys computes the pin function, errors included |
| `TrustPin.PinOfAgent` | agent/src/identity.rs:74-94 | the agent's push, sort and update loops compute that function of the keys as they stand |
| `TrustPin.TwinsAgreeIff` | agent/src/identity.rs:79-84 | the two pins of one bundle are equal if and only if re-encoding leaves the same keys |
| `TrustPin.DerPrefixFree` | spark_pulse/agent/identity.py:190-196 | no key encoding is a proper prefix of another (length forms of section 8.1.3 of X.690) |
| `TrustPin.UniquelyDecodable` | spark_pulse/agent/identity.py:197-200 | a concatenation of encodings determines the encodings and their order |
| `TrustPin.PinIsCanonical` | spark_pulse/agent/identity.py:178-201 | two bundles have equal pins if and only if they hold the same keys (section 4.1.2.7 of RFC 5280) as multisets |
| `TrustPin.VerifyPinAcceptsSameKeys` | agent/src/identity.rs:279-284 | against its recorded pin an agent accepts exactly the bundles with the same keys |
| `TrustPin.SpiffeRoundTrip` | spark_pulse/agent/identity.py:111-127 | the two name functions are inverse on exactly the non-empty ids without a slash |
| `Order.OrderedUnique` | spark_pulse/agent/identity.py:190-196 | an ordered arrangement of a multiset is unique, so sorting forgets the order it was given |
| `BlobPaths.SplitJoin` | spark_pulse/blobs.py:93-110 | splitting a joined path gives its components back |
| `BlobPaths.CheckedIsSafe` | spark_pulse/blobs.py:93-110 | exactly the relative, naming, never-climbing paths pass; the result is a fixed point of the check and resolves strictly below any destination |
| `BlobPaths.CheckedIdentifies` | spark_pulse/blobs.py:93-110 | two accepted paths are one row if and only if they have the same components |
| `BlobTrees.FitsRowByRow` | spark_pulse/blobs.py:183-201 | a scope so far written can take one more row exactly when that row clashes with nothing |
| `BlobTrees.SortedAncestorsFirst` | spark_pulse/blobs.py:208 | in path order no path precedes an ancestor, so the reverse visits descendants first |
| `BlobTrees.EmptyMeansUnwanted` | spark_pulse/blobs.py:208-214 | a directory is empty when its turn comes exactly when no wanted file lies below it |
| `BlobTrees.SecondRun` | spark_pulse/blobs.py:172-215 | on the disk a run leaves there is nothing to write, unlink or remove, and exactly the rows with a mode above the nine bits are re-moded again |
| `BlobTrees.SecondRunIsIdleIff` | spark_pulse/blobs.py:186-193 | so a second run changes nothing if and only if every row's mode is nine bits |
| `BlobTrees.OrderDoesNotMatter` | spark_pulse/blobs.py:183 | any order of the same rows asks for the same files |
| `BlobTrees.TreeRebuilds` | spark_pulse/blobs.py:218-237 | a tree's files always fit an empty directory, and bring back its directories if and only if none was empty |
| `Blobs.Disk.WriteFile` | spark_pulse/blobs.py:199-201 | a file is written with its parents exactly when nothing is in the way, else nothing changes |
| `Blobs.Disk.RefreshRow` | spark_pulse/blobs.py:184-201 | a row is left, re-moded or rewritten exactly as its content and mode on disk call for |
| `Blobs.Disk.Refresh` | spark_pulse/blobs.py:182-201 | all rows are written if and only if the scope fits; a run that stops has written the rows before the obstacle and removed nothing |
| `Blobs.Disk.Prune` | spark_pulse/blobs.py:208-214 | one reverse-sorted pass leaves exactly the wanted files and the directories above them |
| `Blobs.Disk.Materialize` | spark_pulse/blobs.py:172-215 | files and directories afterwards are exactly the scope's, with exactly the stale ones written, re-moded or removed; an empty scope changes nothing |
| `Blobs.MaterializeTwice` | spark_pulse/blobs.py:172-215 | whenever a run succeeds another does, changes no file or directory, and re-modes only rows with more than the nine bits |
| `BlobStore.Store.Put` | spark_pulse/blobs.py:113-140 | an accepted path's row is replaced with the content's digest, a refused one changes nothing |
| `BlobStore.Store.Select` | spark_pulse/blobs.py:182-183 | a scope's rows come back once each with the stored digests |
| `BlobStore.Store.ImportTree` | spark_pulse/blobs.py:218-237 | every file of the tree is stored under its path, counted once, other scopes untouched |
| `BlobStore.CopyThroughStore` | spark_pulse/blobs.py:172-237 | import into an empty scope then materialise into an empty directory reproduces every path, content and mode, and every directory that held a file |
| `Codec.SetOptionals` | spark_pulse/agent/codec.py:51-60 | exactly the fields the caller said something about become present, or the first unfit value is refused, all before it being fit |
| `Codec.AddPresent` | spark_pulse/agent/codec.py:433-436 | exactly the present fields become keyword arguments |
| `Codec.EncodeMetadata` | spark_pulse/agent/codec.py:102-117 | absent metadata is the default one; the six optional attributes are present unless None; a generation or rank outside 32 bits is refused |
| `Codec.DecodeMetadata` | spark_pulse/agent/codec.py:120-138 | absent fields take the attribute's own default |
| `CodecShapes.SilentMetadata` | spark_pulse/agent/codec.py:120-138 | a message that says nothing of the metadata reads back as the documented defaults |
| `Codec.MetadataRoundTripIff` | spark_pulse/agent/codec.py:102-138 | metadata survives if and only if no attribute with a default is None |
| `Codec.MetadataReencodesIff` | spark_pulse/agent/codec.py:102-138 | a message re-encodes to itself if and only if it carries every defaulted field |
| `RunCodec.GatherCollections` | spark_pulse/agent/codec.py:405-412 | exactly the non-empty collections are sent, items as strings, and a value of the wrong shape is refused |
| `RunCodec.EncodeRunContainer` | spark_pulse/agent/codec.py:389-423 | a call encodes if and only if every value fits and every keyword is carried; unknown keywords are named, never dropped |
| `CodecShapes.EncodableIff` | spark_pulse/agent/codec.py:361-423 | a call encodes if and only if each keyword and metadata attribute has the shape its name takes, written out for all 18 keywords and 6 attributes, and the two numbers fit 32 bits |
| `CodecShapes.EncodedSays` | spark_pulse/agent/codec.py:389-423 | keyword by keyword what the message holds: scalars as given, whole numbers in float fields as floats, lists item by item, maps key by key |
| `CodecShapes.EncodedHeader` | spark_pulse/agent/codec.py:389-423 | names, environment, metadata and command are each under their own heading |
| `RunCodec.DecodeRunContainer` | spark_pulse/agent/codec.py:426-447 | the field-by-field loops give just the present, the non-empty and the command |
| `CodecShapes.DecodedHeader` | spark_pulse/agent/codec.py:426-433 | the node is called with each heading of the message under its own name |
| `CodecShapes.DecodedSays` | spark_pulse/agent/codec.py:434-447 | keyword by keyword, what a received message calls the node with, and None for a command without a form |
| `RunCodec.RunRoundTrip` | spark_pulse/agent/codec.py:389-447 | a decoded call is the caller's less None and empty arguments, shell and argv kept apart, items as strings |
| `RunCodec.KwargsUnchangedIff` | spark_pulse/agent/codec.py:389-447 | keyword arguments come back unchanged if and only if each was already in that form |
| `RunCodec.RunReencodesIff` | spark_pulse/agent/codec.py:75-138 | any received message decodes to an encodable call, and to the same message if and only if its command has a form and its metadata is full |
| `RunCodec.EncodedTwiceIsSame` | spark_pulse/agent/codec.py:389-447 | what the encoder produced from metadata without such Nones re-encodes to itself |
| `LogTail.Stream` | spark_pulse/sse.py:57-86 | the generator's loop sends exactly the modelled events, poll by poll, and stops at the first final poll |
| `LogTail.SaidInOrder` | spark_pulse/sse.py:68-86 | a changed status is sent after all the lines of its own poll and before anything of a later one |
| `LogTail.WindowIs` | spark_pulse/sse.py:68-70 | a poll asks for the last 1000 raw lines, or all there are |
| `LogTail.StatusesFollow` | spark_pulse/sse.py:74-86 | a status is sent as soon as it is seen and not again until it has changed |
| `LogTail.NeverRepeats` | spark_pulse/sse.py:68-73 | what a poll sends is a suffix of what is new since the last, so no line is sent twice or out of order |
| `LogTail.ExactIff` | spark_pulse/sse.py:68-73 | the stream is gap-free at every poll if and only if at each nothing but blank lines has left the window or nothing but blank lines is new |
| `LogTail.ShortLogsAreExact` | spark_pulse/sse.py:57-86 | a log of at most 1000 raw lines is streamed exactly, however it is polled |
| `LogTail.SilentFromIff` | spark_pulse/sse.py:68-73 | the stream sends nothing from a poll on if and only if no later window holds more lines than had been seen by then |
| `LogTail.FullWindowStalls` | spark_pulse/sse.py:68-73 | where no raw line holds a separator of its own, nothing is ever sent again once 1000 lines have been seen |
| `LogTail.CutLinesGoOn` | spark_pulse/sse.py:68-73 | while the log fits the window, every piece of a new raw line is sent, however many lines have been seen |
| `Deadlines.OutlastsIff` | spark_pulse/agent/sync_service.py:140-161 | for each method, the bounds on the two timeouts under which the thread never gives up before the hub, and only under them |
| `Deadlines.AsShipped` | spark_pulse/agent/sync_service.py:327-402 | with the shipped settings every method meets that with the whole margin to spare, except the two that do not bound the hub |
| `Deadlines.FabricBlamesTheLoop` | spark_pulse/agent/sync_service.py:386-402 | those two give up first exactly when the node takes over 150 seconds, with the loop not behind at all |

## Left out

- Progress messages, heartbeats, liveness ages and epochs: they resolve no future and admit nobody.
- The executor and what commands do on a node: it appears as "produces one answer for a started id".
- Connections and futures are table entries keyed by identity, not heap objects; aliasing is equality
  of keys. The write and read loops of a session appear as the labels `Drain` and `ReadResult`.
- The session's first-message checks other than identity: a stream that does not begin with a Hello.
- AgentKeys.NodeFollowsSketch: a save is one step of a run; `InterruptedSave` covers one that dies
  part-way.
- AgentKeys.AcceptedIffNeverDialledStale: says when a node is accepted from its dials and renewals
  alone, so in these runs the operator does not deny, remove or re-enrol it, it stays on its machine and the
  writes that concern it succeed; AgentKeys.NodeFollowsSketch covers the rest.
- Reads that fail, and a commit whose outcome the caller cannot learn: a write fails or it does not.
- Import.MarkerIffOneImport: does not tell node rows from token rows; every record is keyed by name
  in one table.
- An unreadable or malformed ledger file, which stops a start before it touches the database.
- Schema.CreateAll: does not model SQLAlchemy's dependency order; it takes the tables in a fixed
  order, which is all the retry depends on.
- Blobs.Disk.Materialize: does not model symlinks, special files, what a `chmod` sets above the nine
  permission bits, or a directory that somebody else changes while a run is under way.
- BlobStore.Store.ImportTree: does not model the explicit list of paths it may be given.
- Blob digests as text and the length limits of database columns.
- Codec.SetOptionals: does not model what protobuf converts between numeric types beyond a whole
  number given to a float field, nor the rounding of floats.
- RunCodec.EncodeRunContainer: a dictionary given as the command is refused rather than walked, and
  the keys of a dictionary are strings already.
- The other message codecs (container info, exec results, images, pulls, caches): single expressions.
- LogTail.ExactIff: assumes the log only grows by whole lines, so not a container that starts over with
  an empty log, an error message in the log's place, or a last line without its end that is longer at
  the next poll.
- The waits inside the pull's cancel watcher: it sends a cancel and keeps waiting, which is `AskToStop`.
- TLS, certificates, PEM parsing, base64 and the key derivation: a bundle is its parsed keys, or
  unparsable.
- SSH bootstrap, host probing, engine rendering, routes, configuration and the user interface.
