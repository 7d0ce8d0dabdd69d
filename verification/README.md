# Verified model of the control plane's durable step machines

The agent-cloud control plane moves customer machines, SSH sessions, protected backups and delegated
grants through small database transactions, with provider, guest, signer and store calls between them.
A process may die between any two steps and any reply may be lost. This project models those step
machines in Dafny and proves what they keep over every run.

One database transaction is one atomic step. Replies of providers, guests, the signer and the object
store are arbitrary. Time is a non-decreasing number of milliseconds (microseconds in the gateway, where
rounding matters). Identifiers, digests and labels are opaque values.

How the modules fit together:

- `Prelude.dfy`: options, results, identifiers.
- `Shell.dfy`: the quoting of the SSH ProxyCommand against a model of POSIX token recognition
  (sections 2.2.1 and 2.2.2 of IEEE Std 1003.1, Shell Command Language).
- `Forest.dfy`, `Auth.dfy`: delegated grants as a forest, its depth-bounded walks, and the services that
  load, issue, list and revoke.
- `Gateway.dfy`: the lease protocol between control plane and access gateway over two clocks.
- `Sessions.dfy`, `SessionProofs.dfy`, `SessionTheorems.dfy`, `AccessService.dfy`: admission, one-shot
  signing, one-shot claim, leases and closure of SSH sessions.
- `BackupRecords.dfy`, `BackupMachine.dfy`, `BackupInvariants.dfy`, `BackupProofs.dfy`,
  `BackupTheorems.dfy`, `BackupLaws.dfy`, `Retention.dfy`, `BackupService.dfy`: capture, upload, restore, recovery, purge
  and retention of protected backups.
- `Quarantine.dfy`: backups and sessions over one database.
- `Journal.dfy`, `OperationMachine.dfy`, `OperationProofs.dfy`, `OperationService.dfy`: the provider
  effect journal, its evaluation, and the advance of machine operations.
- `Recovery.dfy`, `RecoveryLaws.dfy`, `RecoveryService.dfy`, `Inspection.dfy`, `Canonical.dfy`: the control
  fence, offline recovery, and the inspection that precedes resume.
- `Agreement.dfy`: the inspection over tables that the operation journals wrote.

The larger components have two layers. A state machine (`BackupMachine`, `Sessions`, `OperationMachine`,
`Recovery`) lists every committed step as an event; a step whose guard fails changes nothing, and
reachable states are those of arbitrary event sequences. Theorems are stated over all reachable states
and all runs. The service classes then mirror the source's methods statement by statement: they read and
write the tables in place, and each method is proved to produce exactly a sequence of those events, with
other processes' events between any two awaits. So each theorem holds inside every service method too.

What an operation decides is also stated apart from the guards that its code shares with the machine: the
laws named `...Exactly`, `BackupLaws`, `RecoveryLaws` and the services' own contracts speak of the rows'
columns and of the numbers in the source. Where a method awaits something, its contract names the tables
as they stood at each of its transactions (a `Reading`), with other requests' commits in between.

Results worth knowing before reading the code:

- The gateway measures leases in whole milliseconds that the control plane rounds down from its own
  clock. A connection can therefore pass its deadline by any part of a millisecond
  (`Gateway.DeadlineBoundIsTight`), never by one; `Gateway.OutlivesExactly` gives the exact condition.
- The control fence does not stop a mutation that started before its fence was lost: a customer admission
  can commit a live grant while the control plane is recovering (`Recovery.LateCommitSurvives`), and the
  inspection before resume does not look for it. What is withdrawn, exactly, is in
  `Recovery.RecoveringIsFenced`; `Recovery.OrderlyRecoveryIsFenced` says when nothing escapes.
- A restore reads its source by phase (`stored`), not by record state. That no download follows a
  submitted deletion rests on the shared worker lock together with "destroyed machines stay destroyed".
- The guard that retires a failed create looks at this operation's attempts and at live IP rows. That
  nothing live is left needs the invariant that a server row implies a create that was not rejected.
- The recovery inspection counts an allocation's IPs but not its servers. That a clean one still means one
  server per live allocation needs what every reachable operation journal keeps
  (`OperationProofs.TwoServersAreFlagged`, `Agreement.OneServerEach`).

## Model

| member | source | states |
|---|---|---|
| `Shell.ExpansionUndoesDoubling` | apps/cli/src/ssh.ts:146 | percent expansion returns any text whose percent signs were all doubled, whatever the tokens mean |
| `Shell.QuotedTextReadsBack` | apps/cli/src/ssh.ts:24 | a single-quoted argument, embedded quotes included, is read back by the shell tokeniser as that one word |
| `Shell.QuotedWordsReadBack` | apps/cli/src/ssh.ts:141-145 | a list of quoted arguments joined by spaces is read back as exactly that list |
| `Shell.ProxyCommandRunsExactly` | apps/cli/src/ssh.ts:141-146 | expanding and tokenising the ProxyCommand gives `exec` and the original arguments, for every list of arguments |
| `Forest.WithinNeverWidens` | apps/control/src/auth.ts:133-154 | whatever capability on whatever project a policy within another grants, the other grants too |
| `Forest.BoundedByEveryAncestor` | apps/control/src/auth.ts:133-191 | in a sound tree each grant is within every ancestor's account, expiry, capabilities, projects, sizes, regions, currency, machine limit and hourly limit, not only its parent's |
| `Forest.AuthorisedExactly` | apps/control/src/auth.ts:41-95 | in a sound forest a grant is authorised iff it is unexpired and neither it nor any ancestor is revoked |
| `Forest.AuthorisedIffWalkLive` | apps/control/src/auth.ts:41-95 | a live chain of at most 32 grants to a root exists iff the bounded walk of parents is one |
| `Forest.AncestryIsTheWalk` | apps/control/src/auth.ts:193-223 | the depth-bounded walk contains exactly the unbounded ancestors of a grant |
| `Forest.SubtreeIsComplete` | apps/control/src/access-closure.ts:17-30 | the depth-bounded recursive subtree query returns exactly the unbounded descendants |
| `Forest.DescendantsAreComplete` | apps/control/src/auth.ts:225-250 | listing and revoking reach exactly the grants that have the given one among their ancestors |
| `Forest.RevocationKeepsSound` | apps/control/src/auth.ts:193-223 | setting revocation marks keeps the tree's policy, expiry and depth invariants |
| `Forest.InsertionKeepsSound` | apps/control/src/auth.ts:156-191 | inserting a child within its live parent's policy and expiry, below depth 32, keeps them too |
| `Auth.StepKeepsInv` | apps/control/src/auth.ts:156-223 | every issue, sign-in, revocation, session and clock step keeps the forest invariant |
| `Auth.ReachableIsSound` | apps/control/src/auth.ts:133-191 | every grant tree that any run of steps can build is sound |
| `Auth.ReachablePoliciesNest` | apps/control/src/auth.ts:133-191 | in every forest that a run builds each grant is within every ancestor's capabilities, projects, sizes, regions, currency, machine and hourly limits |
| `Auth.ReachableDepth` | apps/control/src/auth.ts:156-191 | no credential that a run builds has more than 31 ancestors |
| `Auth.NewGrantIsLawful` | apps/control/src/customer-login.ts:103-186 | what each transaction that adds a grant demanded and wrote: an admission for a year at most, a sign-in for thirty days and within its admission, a child below a live manager and within it in every field |
| `Auth.SignInSucceeds` | apps/control/src/customer-login.ts:103-186 | a sign-in under a live admission with a minute left succeeds |
| `Auth.RevocationClosesExactly` | apps/control/src/auth.ts:193-223 | a revocation closes the sessions of the target's account under it and leaves every other row as it was |
| `Auth.RevokedForever` | apps/control/src/auth.ts:193-223 | in every later state of every run nothing under a revoked grant is authorised or has an open session, grants issued in between included |
| `Auth.RevocationScope` | apps/control/src/auth.ts:193-223 | a committed revocation takes authority from exactly the target and its descendants |
| `Auth.MarkedExactly` | apps/control/src/auth.ts:193-223 | one mark disables exactly the grants that have it among their ancestors |
| `Auth.RunOnlyGrows` | apps/control/src/customer-login.ts:161-186 | grants are never deleted, re-parented or un-revoked by any run |
| `Auth.ClimbsExactly` | apps/control/src/auth.ts:193-223 | the ownership climb of a revocation succeeds iff the target lies in the caller's own tree |
| `Auth.ScanChain` | apps/control/src/auth.ts:41-95 | the row loop accepts exactly a complete live chain and returns the least expiry on it |
| `Auth.IsInOwnTree` | apps/control/src/auth.ts:193-223 | the loop over parents decides exactly the depth-bounded climb from target to caller |
| `Auth.AuthService.LoadAuthority` | apps/control/src/auth.ts:41-95 | authority is loaded iff the grant is authorised, with the minimum expiry of its chain |
| `Auth.AuthService.IssueGrant` | apps/control/src/auth.ts:156-191 | a child is inserted iff the issuer is live, may manage grants, is above depth 32, and no field of the child's policy or expiry exceeds its own: a policy above it in any one field is refused as permission_denied, an expiry as invalid_input; otherwise nothing changes |
| `Auth.AuthService.RevokeGrant` | apps/control/src/auth.ts:193-223 | the target is marked and the sessions of its whole subtree closed, or the refusal changes nothing |
| `Auth.AuthService.CloseGrantAccess` | apps/control/src/access-closure.ts:17-30 | exactly the open sessions of the subtree's grants are closed |
| `Auth.AuthService.AdmitCustomer` | apps/control/src/customer-login.ts:30-94 | an anchor grant is created as one step of the forest |
| `Auth.AuthService.Login` | apps/control/src/customer-login.ts:103-186 | a session grant is inserted under the customer's live anchor, with its policy, for thirty days or until the anchor expires; the refusals in the rows' own fields |
| `Auth.AuthService.DisableCustomer` | apps/control/src/customer-login.ts:219-247 | the anchor is revoked and the sessions of its subtree closed |
| `Auth.AuthService.RenewCustomer` | apps/control/src/customer-login.ts:250-330 | the old anchor is revoked, its sessions closed, and a new anchor takes its place, or nothing changes |
| `Gateway.RunsStayBounded` | apps/access-gateway/src/server.ts:65-95 | every run of lease grants, lost, late and refused replies keeps the timer within both deadlines |
| `Gateway.OpenOnlyUnderAuthority` | apps/access-gateway/src/server.ts:65-95 | an open connection is less than a millisecond past its control-plane deadline and less than 15 s past a committed revocation, for any clock offset |
| `Gateway.HardDeadlineExactly` | apps/access-gateway/src/server.ts:188-200 | the value of the connection's hard deadline respects the session's deadline iff one of its leases was sent no later than the millisecond it read |
| `Gateway.OutlivesExactly` | apps/access-gateway/src/server.ts:188-200 | an open connection can be observed after the deadline iff its timer is due after it, and that iff none of its leases was timely and the last answered check was sent less than 15 s before the deadline |
| `Gateway.DeadlineBoundIsTight` | apps/control/src/access-sessions.ts:492-517 | for every deadline and clock offset each overrun below a millisecond occurs in some run |
| `Gateway.RevocationBoundIsTight` | apps/access-gateway/src/server.ts:188-200 | a check answered just before a revocation keeps its connection open for the whole 15 s |
| `Gateway.LeaseWithinDeadlineExactly` | apps/control/src/access-sessions.ts:492-517 | one lease ends by the deadline iff it was sent no later than the millisecond it read |
| `Gateway.ClosedStaysClosed` | apps/access-gateway/src/server.ts:179-187 | a stopped connection is never open again |
| `Gateway.AccessGateway.Stop` | apps/access-gateway/src/server.ts:179-187 | the connection is removed and reported once, and only if it was open |
| `Gateway.AccessGateway.Refresh` | apps/access-gateway/src/server.ts:188-200 | the hard deadline only shrinks; the timer is re-armed at most fifteen seconds after the check was sent, or the connection stopped and reported |
| `Gateway.AccessGateway.BeginUpgrade` | apps/access-gateway/src/server.ts:106-117 | a place is taken iff open connections and upgrades under way leave one, whatever runs in between |
| `Gateway.AccessGateway.Establish` | apps/access-gateway/src/server.ts:118-232 | a connection opens iff claim and check answered for it, the target was reached and it is still in time, with exactly that timer; the report of every other outcome |
| `Gateway.AccessGateway.SettleUpgrade` | apps/access-gateway/src/server.ts:243-245 | the place is given back once per upgrade, so open connections never exceed the maximum |
| `Gateway.AccessGateway.Heartbeat` | apps/access-gateway/src/server.ts:66-96 | each batch takes its own reply at its own instant while connections come and go; the first failed batch and all later ones extend nothing |
| `Gateway.AccessGateway.ApplyBatch` | apps/access-gateway/src/server.ts:80-86 | every connection of a batch is refreshed or stopped by its own lease, no other is touched |
| `Gateway.LastLeaseDecides` | apps/access-gateway/src/server.ts:80-95 | a connection takes the last lease under its identifier and stays iff that is its own session's and in time, with hard deadline and timer exactly |
| `Gateway.UnansweredStops` | apps/access-gateway/src/server.ts:80-86 | a reply without a lease for an open connection ends it |
| `Gateway.LeaseForIsLast` | apps/access-gateway/src/server.ts:80-82 | the map built from a reply holds the last lease of each connection |
| `Gateway.FirstLease` | apps/access-gateway/src/server.ts:139-141 | the lease found is one for exactly this session and connection |
| `BackupRecords.RetainUntil` | apps/control/src/backups.ts:132-135 | the retention instant is the first whole second at or after the period |
| `BackupTheorems.StepKeepsInv` | apps/control/src/backup-work.ts:215-562 | every admission, effect, reply, deletion, recovery and crash keeps every invariant of the backup tables |
| `BackupTheorems.RunKeepsInv` | apps/control/src/backup-work.ts:563-609 | hence every interleaving of them does |
| `BackupTheorems.PurgedObjectsAreUnneeded` | apps/control/src/backup-purges.ts:37-77 | purge_pending or purged implies every restore done or its target destroyed; no download follows a submitted deletion |
| `BackupTheorems.OnePut` | apps/control/src/backup-work.ts:285-294 | at most one PUT per backup over all runs and crashes, after its submission was saved |
| `BackupTheorems.OneRestoreSubmission` | apps/control/src/backup-work.ts:470-493 | at most one guest submission per restore, after beforeSubmit was saved |
| `BackupTheorems.CallsAreBounded` | apps/control/src/backup-work.ts:226-328 | at most 21 guest and store calls per backup, 11 per restore, and attempts never above five |
| `BackupTheorems.ReservationsCoverTheStore` | apps/control/src/backups.ts:113-126 | reserved bytes stay within both allowances, and cover every object that may exist until its absence is confirmed |
| `BackupTheorems.SettledIffStored` | apps/control/src/backup-work.ts:329-347 | captured, purge_pending and purged hold exactly in phase stored; the reservation in every phase |
| `BackupTheorems.DeletionWaitsForRetention` | apps/control/src/backup-retention.ts:22-54 | a DELETE is due only after the retention instant, for the purge that owns the backup |
| `BackupTheorems.IntegrityErrorsAreUnreachable` | apps/control/src/backup-purges.ts:44-50 | a receipt that does not match its row, a purge that lost its backup, and a live restore without a captured source never occur |
| `BackupTheorems.StepAdvances` | apps/control/src/backup-work.ts:226-420 | each write of a work column strictly decreases (phase, attempts left); envelope, receipt and purge never change |
| `BackupTheorems.RunAdvances` | apps/control/src/backup-work.ts:226-420 | so does every run, rows being only added |
| `BackupTheorems.WritesAreBounded` | apps/control/src/backup-records.ts:39-66 | the number of writes to one work column over any run is at most its measure |
| `BackupTheorems.RestoreWritesAreBounded` | apps/control/src/backup-records.ts:39-66 | the same of every restore: at most its measure |
| `BackupTheorems.InspectedDigestStaysValid` | apps/control/src/backup-recovery.ts:32-46 | a receipt digest once inspected is the digest at every later time |
| `BackupTheorems.RecoveryReplays` | apps/control/src/backup-recovery.ts:47-127 | a recovery stores the recorded envelope with its exact reservation, and repeating it changes nothing |
| `BackupTheorems.SubmittedStaysSubmitted` | apps/control/src/backup-work.ts:396-416 | a submitted restore never returns to prepare, and a restored one never changes |
| `BackupTheorems.PurgeIsIrrevocable` | apps/control/src/backup-purges.ts:79-122 | an admitted purge is never withdrawn and its backup never restorable again |
| `BackupLaws.EntersPurgeOnlySo` | apps/control/src/backup-purges.ts:79-223 | over every step: a backup enters a purge only by its owner's request, or by retention, and then it was scheduled, its period is over, and seven later days of its series are captured; either way captured, stored, released and needed by no restore |
| `BackupLaws.ExpiryExactly` | apps/control/src/backup-purges.ts:169-223 | retention admits a purge iff all of that holds, in the rows; the purge and the backup it leaves |
| `BackupLaws.RequestExactly` | apps/control/src/backup-purges.ts:125-160 | a customer's request admits a purge iff the backup is theirs, captured, stored, released and unneeded; the purge it leaves, due at its retention instant |
| `BackupLaws.PurgesAreLawful` | apps/control/src/backup-purges.ts:79-122 | in every reachable state a retention purge is of a scheduled backup past its period, and every purge is its backup's and its owner's |
| `BackupLaws.SealedAgrees` | apps/control/src/backup-work.ts:246-294 | in every reachable state the sealed envelope encrypts exactly the captured bytes, by length and digest, of this backup and recipe, into the file its upload intent names, within the limit |
| `BackupLaws.BackupsOwnTheirMachines` | apps/control/src/backups.ts:79-112 | in every reachable state a backup's machine belongs to the backup's account |
| `BackupLaws.CaptureAdmittedExactly` | apps/control/src/backups.ts:79-172 | a capture is admitted iff the machine is the account's own and ready, both allowances hold one more and the hour fewer than ten; the row it starts |
| `BackupInvariants.ReservedUpdate` | apps/control/src/backups.ts:113-126 | rewriting one row changes the summed reservations by exactly that row's difference |
| `BackupInvariants.QuotaKept` | apps/control/src/backup-work.ts:329-347 | a rewrite that reserves no more keeps both allowances |
| `Retention.NewestCount` | apps/control/src/backup-purges.ts:187-194 | the protected days are exactly seven, or all there are |
| `Retention.NewestAreLatest` | apps/control/src/backup-purges.ts:187-194 | and they are the last ones |
| `Retention.DroppingOldKeepsNewest` | apps/control/src/backup-purges.ts:187-194 | removing a day with seven later ones leaves the newest seven as they were |
| `Retention.ExpiryKeepsNewest` | apps/control/src/backup-purges.ts:206-223 | one retention admission, whatever named its candidate, keeps the seven newest days of every series and their backups |
| `Retention.RetentionKeepsSevenDays` | apps/control/src/backup-retention.ts:117-130 | so does every run of such admissions among any events except a new capture or a customer purge |
| `BackupService.BackupControl.AdvanceCapture` | apps/control/src/backup-work.ts:215-328 | one pass under the worker lock, exactly: for every phase and every combination of refused, lost and usable replies, the work column, the block or the receipt it leaves, and the calls it makes; a run of the state machine, forward only |
| `BackupService.BackupControl.CapturePhase` | apps/control/src/backup-work.ts:226-245 | the attempt is saved before the guest call, also if the process dies between them; the next phase is entered iff the capture names this backup and recipe within the admitted bytes |
| `BackupService.BackupControl.ReadPhase` | apps/control/src/backup-work.ts:246-284 | the attempt is saved before the guest is read; sealing succeeds iff size and hash are those captured and the intent names this backup and the sealed size, within the limit |
| `BackupService.BackupControl.UploadPhase` | apps/control/src/backup-work.ts:285-294 | the submission is saved before the one PUT; without a receipt only upload_submitted remains |
| `BackupService.BackupControl.RecoverPhase` | apps/control/src/backup-work.ts:295-317 | recovery is tried at most five times, each attempt saved first, and calls nothing but the recovery |
| `BackupService.BackupControl.SaveStoredWork` | apps/control/src/backup-work.ts:329-347 | receipt, exact reservation and captured record are one update |
| `BackupService.BackupControl.CleanupPhase` | apps/control/src/backup-work.ts:318-328 | staging is marked clean only after the removal was called and answered or the machine is gone; each try is one saved attempt, at most five |
| `BackupService.BackupControl.AdvanceRestore` | apps/control/src/backup-work.ts:355-506 | one pass, exactly: the row it leaves and the calls it makes for every phase, target state and reply; blocked if the target is gone |
| `BackupService.BackupControl.PreparePhase` | apps/control/src/backup-work.ts:417-462 | without attempts or authority blocked, without a key waiting at no cost; otherwise one paid download, and a submission only after it and a saved beforeSubmit |
| `BackupService.BackupControl.HandOver` | apps/control/src/backup-work.ts:463-506 | the guest submits only after a still authorised beforeSubmit was saved; a refusal blocks and calls nothing; the row that each reply leaves |
| `BackupService.BackupControl.SubmittedPhase` | apps/control/src/backup-work.ts:396-415 | an uncertain restore is inspected at most five times, each saved first; the row that each reply leaves |
| `BackupService.BackupControl.PublishRestore` | apps/control/src/backup-work.ts:530-562 | restore and verified source are published together or not at all |
| `BackupService.BackupControl.ApplyRecovery` | apps/control/src/backup-recovery.ts:47-127 | each outcome exactly when the source gives it, and the recovered row in full |
| `BackupService.BackupControl.AdvanceDeletion` | apps/control/src/backup-retention.ts:22-87 | only a due purge acts, its submission saved before the one call; each store reply leads to its own state and next instant (five minutes after a failure), and only absence to purged |
| `BackupService.BackupControl.CompletePurgeRow` | apps/control/src/backup-retention.ts:88-115 | bytes are released and both rows closed together |
| `BackupService.BackupControl.Totals` | apps/control/src/backups.ts:113-116 | the loop computes the account sum, the global sum and the recent count exactly |
| `BackupService.BackupControl.CaptureInTransaction` | apps/control/src/backups.ts:79-172 | admitted iff live, permitted, the account's own ready machine, both allowances hold a whole backup more and fewer than ten requests fell in the hour; or replayed; the inserted row and each refusal in full |
| `BackupService.BackupControl.RestoreInTransaction` | apps/control/src/backups.ts:173-253 | admitted iff the backup is the account's, captured and stored, with a new target; or replayed; each refusal |
| `BackupService.BackupControl.AssertPurgeable` | apps/control/src/backup-purges.ts:37-77 | decides the purge guard, in the columns of the rows |
| `BackupService.BackupControl.NothingPins` | apps/control/src/backup-purges.ts:59-75 | the loop finds a restore that still needs the object iff there is one |
| `BackupService.BackupControl.CountLaterDays` | apps/control/src/backup-purges.ts:187-193 | counts the distinct later UTC days on which the series has captured scheduled backups |
| `BackupService.BackupControl.RequestPurgeRow` | apps/control/src/backup-purges.ts:125-160 | admits a customer purge iff it is the account's captured, stored and released backup that no restore needs; replays or refuses otherwise; the inserted purge in full |
| `BackupService.BackupControl.AdmitExpired` | apps/control/src/backup-purges.ts:206-223 | admits iff the backup is scheduled, its period over, captured, stored, cleaned or its machine gone, no restore needs it, and seven later days of its series are captured: written out in the rows; the inserted purge in full |
| `BackupService.BackupControl.Await` | apps/control/src/backup-work.ts:215-328 | a reply arrives on unchanged work columns; a lost or dying call releases the lock |
| `SessionProofs.StepKeepsInv` | apps/control/src/access-sessions.ts:207-617 | every transaction of admission, issue, claim, check and closure keeps the session invariants |
| `SessionProofs.AdmissionKeepsLimits` | apps/control/src/access-sessions.ts:251-284 | an admission keeps both reservation limits now and both rate limits in every window |
| `SessionTheorems.ReservationsAreBounded` | apps/control/src/access-sessions.ts:251-284 | never more than 20 open reservations per account and 4 per grant, whichever deadline counts each |
| `SessionTheorems.AdmissionsArePaced` | apps/control/src/access-sessions.ts:251-284 | every five-minute window holds at most 60 admissions per account and 30 per grant |
| `SessionTheorems.PrefilterIsHarmless` | apps/control/src/access-sessions.ts:267-268 | the row filter of the counting query drops no counted row |
| `SessionTheorems.SignedAtMostOnce` | apps/control/src/access-sessions.ts:342-483 | one signing request per session over all passes and crashes |
| `SessionTheorems.OneLeasedConnection` | apps/control/src/access-sessions.ts:492-568 | all leases of a session name one connection identity and end by its hard deadline, an hour after admission at most |
| `SessionTheorems.DeadlinesHold` | apps/control/src/access-sessions.ts:251-303 | in every reachable state: ten seconds to an hour of lifetime, ninety seconds to issue, a ticket of at most a minute within both, claims only of issued sessions |
| `Quarantine.RunKeepsInv` | apps/control/src/backups.ts:282-293 | every run of both components keeps: a leased machine has no restore that is not restored |
| `Quarantine.LeasedTargetsAreRestored` | apps/control/src/backups.ts:282-293 | over the joint runs of backups and sessions, every restore whose target was ever leased is recorded restored |
| `SessionTheorems.TicketsAreUnique` | apps/control/src/access-sessions.ts:304-312 | tickets and request keys identify one session |
| `SessionTheorems.RunFollows` | apps/control/src/access-sessions.ts:342-617 | issuance moves only pending, attempted, final; connection only unclaimed, claimed, closed; a closed session is never leased again |
| `SessionTheorems.TicketClaimedOnce` | apps/control/src/access-sessions.ts:537-567 | after one claim no other claim of the ticket ever changes anything |
| `SessionTheorems.RevocationIsFinal` | apps/control/src/access-closure.ts:6-30 | closing the sessions of grants is permanent, also for sessions whose certificate is still being signed |
| `AccessService.Service.Admit` | apps/control/src/access-sessions.ts:207-322 | inserts iff the authority is live, request and ticket are new, ten seconds of lifetime remain and all four counts are below 60, 30, 20 and 4; replays the same request; refuses otherwise without change; the row in full |
| `AccessService.Service.CountReservations` | apps/control/src/access-sessions.ts:251-269 | the four filtered aggregates equal the four counts, written out over the rows |
| `AccessService.Service.FindRequest` | apps/control/src/access-sessions.ts:221-238 | finds the earlier request with this key iff there is one |
| `AccessService.Service.TicketTaken` | apps/control/src/access-sessions.ts:304-312 | decides whether a ticket hash is already bound |
| `AccessService.Service.PrepareTransaction` | apps/control/src/access-sessions.ts:349-386 | the pass continues iff the session is pending, unclaimed and in time and its authority and target stand; otherwise issuance is final, with the reason of the first failing test |
| `AccessService.Service.AttemptTransaction` | apps/control/src/access-sessions.ts:398-424 | the one attempt is saved iff authority, target, connection and deadlines still admit it; otherwise what the pass leaves |
| `AccessService.Service.PublishTransaction` | apps/control/src/access-sessions.ts:433-479 | issued iff a live certificate arrived in time for an unchanged, unclaimed session, for the address observed in this pass; the ticket deadline exactly; otherwise the reason |
| `AccessService.Service.Issue` | apps/control/src/access-sessions.ts:342-483 | one pass among other requests: which of its transactions are reached, and issued exactly if the last one admits a live certificate, for the address at which the guest was observed |
| `AccessService.Service.ClaimTicket` | apps/control/src/access-sessions.ts:518-568 | among other requests: leased iff the ticket is known, the authority stands at every reading, the guest was observed at the address in the session's issued certificate, and the ticket is unclaimed and in time; otherwise the refusal of the first test that fails |
| `AccessService.Service.ClaimTransaction` | apps/control/src/access-sessions.ts:537-567 | claimed and leased iff the first reading of the authority admits the claim and the second, some time later, validates the connection; otherwise the refusal, and everything rolled back |
| `AccessService.Service.Check` | apps/control/src/access-sessions.ts:569-584 | exactly the asked connections whose claim, authority and deadline stand at their own transaction are leased, in order; an omitted one did not |
| `AccessService.Service.CheckOne` | apps/control/src/access-sessions.ts:492-517 | the lease, iff the connection is the session's claimed one and in time; otherwise the refusal of the first test that fails |
| `AccessService.Service.CloseConnection` | apps/control/src/access-sessions.ts:585-616 | closes the exact connection, idempotently, and nothing else |
| `Journal.ClaimAllFlags` | apps/control/src/effect-journal.ts:286-305 | a claim pass is flagged iff some match has foreign labels or a refused row |
| `Journal.ClaimAllKeeps` | apps/control/src/effect-journal.ts:286-305 | claiming changes no existing row and adds only the matches |
| `Journal.Evaluator.Evaluate` | apps/control/src/effect-journal.ts:255-418 | what each confirmed command's observation shows, field by field (a power-off reads off, a power-on or reboot running, a resize the asked type, a create its type, region, IP, labels and running); when a command has failed; the ledger changes only by the claim pass |
| `Journal.Evaluator.JudgeIp` | apps/control/src/effect-journal.ts:353-373 | an IP command is confirmed exactly when the read shows its region, no assignment, auto-delete and its labels, or its absence |
| `Journal.Evaluator.JudgeServer` | apps/control/src/effect-journal.ts:374-418 | a server command is confirmed exactly when the read shows that command's own postcondition on its own server |
| `Journal.ChangesConfirmExactly` | apps/control/src/effect-journal.ts:374-418 | exactly when each power change, reboot and resize is confirmed, in the fields of the outcome and of the read |
| `Journal.DeletionsConfirmExactly` | apps/control/src/effect-journal.ts:255-418 | exactly when a deletion or the enabling of backups is confirmed, with cleanup's shortcut |
| `Journal.CreatesConfirmExactly` | apps/control/src/effect-journal.ts:276-418 | exactly when a server create is confirmed: a definite receipt of a server that reads as ordered, or an uncertain one's only owned match |
| `Journal.IpCreatesConfirmExactly` | apps/control/src/effect-journal.ts:276-373 | the same for an IP create |
| `Journal.Evaluator.ClaimMatches` | apps/control/src/effect-journal.ts:286-305 | every owned match is claimed even when the list cannot be accepted |
| `Journal.Evaluator.Claim` | apps/control/src/resource-journal.ts:38-79 | a claim is accepted iff the row is new or already ours and live |
| `Journal.Evaluator.CountDiscovered` | apps/control/src/effect-journal.ts:306-317 | counts the rows labelled with the operation |
| `OperationProofs.StepKeepsInv` | apps/control/src/advance-operation.ts:365-656 | every write of ticks, crashes, cleanup and admission keeps the journal invariants |
| `OperationProofs.NothingSentTwice` | apps/control/src/effect-journal.ts:204-234 | no attempt row is submitted twice |
| `OperationProofs.OneCreateEach` | apps/control/src/advance-operation.ts:304-308 | at most one server create and one IP create per machine |
| `OperationProofs.OnePendingAttempt` | apps/control/src/advance-operation.ts:304-308 | until cleanup takes over: one pending attempt, no repeated command and target, increasing sequence |
| `OperationProofs.SequencesHaveNoGaps` | apps/control/src/effect-journal.ts:204-215 | sequence numbers are exactly 1, 2, 3, ... within an operation |
| `OperationProofs.TerminalIsResolved` | apps/control/src/advance-operation.ts:408-443 | no operation is terminal while one of its attempts is pending |
| `OperationProofs.RetiredOwnsNothing` | apps/control/src/advance-operation.ts:137-157 | a retired allocation owns no live ledger row, server or IP |
| `OperationProofs.FailureRetiresSafely` | apps/control/src/advance-operation.ts:310-325 | on failure the allocation is retired only if every server create was definitively rejected |
| `OperationProofs.ConfirmedAttemptsAchieved` | apps/control/src/effect-journal.ts:255-491 | in every reachable state each recorded confirmation shows, field by field, what its command asked for on its own resource, or an absence that may settle it |
| `OperationProofs.AttemptsAreAsked` | apps/control/src/advance-operation.ts:446-632 | in every reachable journal an operation has only commands that its lifecycle asks for, with its own arguments, each on a row of this allocation; anything else deletes under an admitted cleanup |
| `OperationProofs.EffectsNameLiveRows` | apps/control/src/effect-journal.ts:70-165 | every effect that a step journals acts on a row of this allocation that is live at that moment |
| `OperationProofs.SucceededHasItsEffect` | apps/control/src/advance-operation.ts:100-227 | an operation that succeeded has its one effect confirmed, and the reading that confirmed it shows the server as asked |
| `OperationProofs.TwoServersAreFlagged` | apps/control/src/effect-journal.ts:284-320 | an allocation has two live server rows only while an effect is undecided or a cleanup is at work |
| `OperationProofs.CleanupOnlyDeletes` | apps/control/src/effect-journal.ts:167-203 | after a cleanup is admitted every effect of every later run is the deletion of a row that was live when it was journaled |
| `OperationProofs.RunFollows` | apps/control/src/effect-journal.ts:420-491 | receipts and resolutions are written once; absence and retirement are final |
| `OperationService.Operator.AdvanceLocked` | apps/control/src/advance-operation.ts:365-656 | one tick journals at most one effect, none while one is pending; it is a command of the operation's own lifecycle with its own type, region, labels and IP, on a live row of this allocation, and it is journaled when the operation has none yet; a tick ends or retires only as guarded |
| `OperationService.Operator.JournalEffect` | apps/control/src/effect-journal.ts:70-242 | the attempt is durable before it is sent, its receipt before any claim; it stays pending whatever happens |
| `OperationService.Operator.JournalAdmitted` | apps/control/src/effect-journal.ts:167-203 | inserted iff it deletes an exact live row under an admitted cleanup |
| `OperationService.Operator.ResolveEffect` | apps/control/src/effect-journal.ts:420-491 | a verdict is recorded once and only if the evaluation settles, with the observation that was read; it is withheld only if the ledger refuses the resource |
| `OperationService.Operator.BeginFailure` | apps/control/src/advance-operation.ts:310-325 | compensates with the error iff something is live and no VM is possible; otherwise fails with it, and retires iff nothing is live and no VM is possible |
| `OperationService.Operator.CompleteOperation` | apps/control/src/advance-operation.ts:100-227 | destroy ends only with nothing live; other commands only with the server and its admitted backups |
| `OperationService.Operator.CleanupIp` | apps/control/src/advance-operation.ts:327-363 | clean iff no live IP row remains; otherwise at most one deletion is journaled |
| `OperationService.Operator.EnsureBackups` | apps/control/src/advance-operation.ts:270-302 | a server is passed on only with the backups its offer admits |
| `OperationService.Operator.EffectOf` | apps/control/src/advance-operation.ts:304-308 | the first attempt of a kind, or none exists |
| `OperationService.Operator.ProceedCreate` | apps/control/src/advance-operation.ts:446-550 | the create branch: an IP in the asked region, then a server of the asked type and region on that live IP, then its backups, one effect at most, each under the operation's label |
| `OperationService.Operator.ProceedOther` | apps/control/src/advance-operation.ts:551-632 | the other branches: a reboot journals only a reboot of the read live server, a destroy only its deletion, a resize its type, each power change its own command |
| `OperationService.Operator.Handle` | apps/control/src/advance-operation.ts:633-655 | an error while an effect is pending only blocks; otherwise it begins failure |
| `OperationService.Operator.AdmitCleanup` | apps/control/src/cleanup-admission.ts:31-190 | admitted iff nothing but a create or a cleanup is active; a repeated key returns its operation |
| `Recovery.StepKeepsInv` | apps/control/src/control-recovery.ts:157-399 | every fence step, lost session, started and committed mutation and decision keeps the fence invariants |
| `Recovery.RecoveringIsFenced` | apps/control/src/control-recovery.ts:200-227 | while recovering no opened ready fence is held; every grant, session and schedule is withdrawn iff everything that straggling mutations committed since begin is |
| `Recovery.StragglersWereInFlight` | apps/control/src/control-fence.ts:60-80 | whatever commits while recovering was under way at begin under a lost fence, or comes from a process without a fence |
| `Recovery.LateCommitSurvives` | apps/control/src/customer-login.ts:30-94 | from every ready database a customer admission that outlives its fence leaves a live grant while recovering |
| `Recovery.OrderlyRecoveryIsFenced` | apps/control/src/control-recovery.ts:200-227 | if every process is fenced and no fence is lost under a mutation, nothing is live while recovering |
| `Recovery.HeldFenceIsReady` | apps/control/src/control-fence.ts:46-95 | while a ready fence's session lives the state is ready at its generation and no decision commits |
| `Recovery.CheckPassesExactly` | apps/control/src/control-fence.ts:80-94 | a check passes iff the lock is unlost and the private file still names the opened generation |
| `Recovery.NothingSurvivesBegin` | apps/control/src/control-recovery.ts:200-227 | nothing committed before begin is live after any later run, resume included, and no earlier fence passes again |
| `Recovery.DecisionsReplay` | apps/control/src/control-recovery.ts:170-182 | a saved decision is replayed or refused, never repeated |
| `Recovery.ResumeNeedsInspection` | apps/control/src/control-recovery.ts:365-388 | only a clean inspection of the tables and the inventory with the inspected digests leads from recovering to ready; every operation has then ended and every schedule is disabled |
| `Recovery.ResumeFindsAgreement` | apps/control/src/control-recovery.ts:365-388 | at resume machines match allocations and live ledger rows match the managed inventory, one to one |
| `Recovery.ResumeAdmitsStragglers` | apps/control/src/control-recovery.ts:365-388 | after resume a grant or session is live only if it straggled, and nothing is live iff every straggler was withdrawn |
| `Recovery.RunFollows` | apps/control/src/control-recovery.ts:200-227 | lost locks are never regained and withdrawn authority never returns |
| `RecoveryLaws.InitializeExactly` | apps/control/src/control-recovery.ts:188-199 | only an unoccupied database without a state row is declared ready |
| `RecoveryLaws.BeginExactly` | apps/control/src/control-recovery.ts:200-227 | a recovery begins iff no state row or one of another generation is there; every grant, session and schedule is then withdrawn and nothing else changes |
| `RecoveryLaws.ClosureExactly` | apps/control/src/control-recovery.ts:230-364 | a closure is admitted iff the operation is unfinished and as the operator saw it, no other effect on its machine is in flight, and every row, the server and every effect's resource is acknowledged once and absent; what it settles |
| `RecoveryLaws.ResumeExactly` | apps/control/src/control-recovery.ts:365-388 | the control plane resumes iff the inspection finds nothing, with the digests that the operator saw |
| `RecoveryService.ControlPlane.OpenFence` | apps/control/src/control-fence.ts:46-143 | a fence opens iff its lock was free and the inspection then finds the state at the generation in the private file; an opened fence holds its lock, a failed one holds nothing |
| `RecoveryService.ControlPlane.Inspect` | apps/control/src/control-fence.ts:80-94 | succeeds iff the fence stands at both readings, holds its lock at the second, and the state there names the generation that the file named at the first |
| `RecoveryService.ControlPlane.CheckFence` | apps/control/src/control-fence.ts:126-136 | passes iff an inspection succeeds at the same generation as at opening |
| `RecoveryService.ControlPlane.CloseFence` | apps/control/src/control-fence.ts:96-115 | afterwards the lock is not held |
| `RecoveryService.ControlPlane.StartMutation` | apps/control/src/worker.ts:40-46 | a mutation starts iff a check passes at that instant |
| `RecoveryService.ControlPlane.FinishMutation` | apps/control/src/customer-login.ts:41-85 | it commits whatever has become of the fence |
| `RecoveryService.ControlPlane.Decide` | apps/control/src/control-recovery.ts:157-399 | commits exactly the permitted decisions, replays exactly the saved ones, otherwise changes nothing; the refusals for a wrong generation, a held lock and a reused id |
| `RecoveryService.ControlPlane.Judge` | apps/control/src/control-recovery.ts:188-388 | refuses exactly what the current state and evidence do not permit |
| `RecoveryService.ControlPlane.RequiredResources` | apps/control/src/control-recovery.ts:254-285 | the map filled in the loops is rows, server and every effect's resource |
| `RecoveryService.ControlPlane.MayClose` | apps/control/src/control-recovery.ts:230-317 | decides exactly the closure guard |
| `Inspection.Inspect` | apps/control/src/control-recovery-inspection.ts:101-351 | the blocker list is empty exactly when the tables, the inventory and the backups are all clean |
| `Inspection.Bounded` | apps/control/src/control-recovery-inspection.ts:93-98 | a table of more than a thousand rows is cut there and always leaves a blocker |
| `Inspection.TablesCleanExactly` | apps/control/src/control-recovery-inspection.ts:101-188 | clean tables: none cut off, no operation or attempt under way, every allocated machine in its own unretired allocation |
| `Inspection.BackupsCleanExactly` | apps/control/src/control-recovery-inspection.ts:411-505 | clean backups: none cut off, every backup purged or stored, cleaned and verified, every restore done, no purge or schedule under way |
| `Inspection.ResourceOkExactly` | apps/control/src/control-recovery-inspection.ts:189-225 | a ledger row agrees iff an exact read finds what it says: nothing, or its resource under its labels |
| `Inspection.InUseExactly` | apps/control/src/control-recovery-inspection.ts:226-321 | an allocation in use agrees iff its machine names it, its live server row and a second read show the admitted type and region, and its IP is the one assigned to that server or none is needed |
| `Inspection.RetiredExactly` | apps/control/src/control-recovery-inspection.ts:226-240 | a retired allocation agrees iff none of its rows is live |
| `Inspection.FoundOkExactly` | apps/control/src/control-recovery-inspection.ts:323-351 | a found item agrees iff a live row of the provider names it and its labels carry the row's |
| `Inspection.InspectAllocation` | apps/control/src/control-recovery-inspection.ts:226-321 | one allocation adds a blocker iff it or its resources do not agree |
| `Inspection.InspectResources` | apps/control/src/control-recovery-inspection.ts:189-225 | one ledger row adds a blocker iff provider, presence or labels do not agree |
| `Inspection.InspectFound` | apps/control/src/control-recovery-inspection.ts:323-351 | managed inventory outside the live ledger adds a blocker |
| `Inspection.MachinesMatchAllocations` | apps/control/src/control-recovery-inspection.ts:168-188 | no blockers: allocated machines and unretired allocations are in bijection and agree |
| `Inspection.AllocationsOwnTheirResources` | apps/control/src/control-recovery-inspection.ts:226-321 | no blockers: retired allocations own nothing live; live ones own their server, and one IP exactly if it has one |
| `Inspection.LedgerMatchesInventory` | apps/control/src/control-recovery-inspection.ts:323-351 | no blockers and a complete search: live rows and managed inventory are in bijection with matching labels |
| `Inspection.ServersAgree` | apps/control/src/control-recovery-inspection.ts:323-351 | no blockers: an allocation has exactly one live server row iff the managed inventory holds exactly one server under its label |
| `Agreement.OneServerEach` | apps/control/src/control-recovery-inspection.ts:226-321 | over tables that a reachable journal wrote, no blockers mean exactly one live server row, the allocation's own, and one found server per live allocation |
| `Canonical.CanonicalExactly` | apps/control/src/control-recovery-inspection.ts:73-87 | canonical forms are equal exactly for values equal up to the order of object keys, at every depth |
| `Canonical.CanonKeepsMeaning` | apps/control/src/control-recovery-inspection.ts:73-87 | canonicalising changes nothing but key order |
| `Canonical.SortedUnique` | apps/control/src/control-recovery-inspection.ts:73-87 | the sorted form of a set of entries is unique |

## Left out

- HTTP routes, command-line wiring, schema parsing, audit rows and job enqueueing: plumbing around the steps.
- Cryptography, hashing, TLS, SSH, WebSocket framing and S3: digests and envelopes are injective abstract values, transports are arbitrary replies.
- Scratch files and fsync: a step may stop before its write, which the crash events cover.
- Loss of the database session that holds a worker, machine or session lock while its process goes on: a lock is held until its run ends or its process dies.
- The refusal of a machine lock that another process holds, which comes before anything of an access session is read: a claim or a check that meets it changes nothing.
- AccessService.Service.ClaimTicket: the network check and the observation of the guest fail with one refusal (resource_busy) in place of the provider's own errors.
- The body of the cleanup tick in machine-cleanup.ts: its effects, absences, resolutions and completion are events under the guards of the journal.
- Image builds, guest enrollment and renewal, hosting routes, and their domains of the recovery inspection: not part of this model.
- Price selection and budget admission of lifecycle.ts, and the price and limit checks before a fresh effect: one refusal parameter.
- Control closure of single provider attempts: modelled in `Recovery` on its own rows, not in the operation journal. Of an operator's recovery the journal has the closure of an uncertain create; the acknowledgements it asks for are not modelled.
- The delays and retry allowance of cleanup deletions: an admitted cleanup may repeat one.
- What a mutation's own transaction reads again before it commits, a session's grant for instance: in `Recovery` a commit is guarded by nothing, so it admits more stragglers than the code for sessions and schedules, and exactly its own for customer admissions.
- Byte limits and text frames of gateway connections are among the reasons for which one ends; a client that closes during its upgrade counts as a target not reached.
- The budget, paging and time limit of a retention run, backup listings, and schedule timing: they choose which modelled steps run.
- The paging of grant listings and the request counters of customer login: easy members.
- The account's currency row is taken from the anchor grant's policy.
- Foreign keys between an operation's tables: a closure in `Recovery` settles the operation's own rows.
- BackupService.BackupControl.Await: an attempt whose process dies between save and call is counted as a call not made, never as one made twice.
- Canonical.CanonicalExactly: object keys are compared by an abstract total order in place of the locale's.
