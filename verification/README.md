# Verified model of the agent gateway's core

A Dafny model of the parts of the repository that keep state, run a protocol, or parse and print text,
with proofs of what they promise. One module models one component; `dafny verify dfyconfig.toml` checks
them all.

Each stateful component is written twice: once as functions from a state to the next state, about which
runs and theorems are stated, and once as a class whose methods update fields in place, as the source
does, and are proved equal to those functions. A run is any sequence of operations (or of single steps,
where the source interleaves) with arbitrary inputs; what ports, git, clocks and the network answer is
part of the input. Fields called history are never read by the model's own steps.

| module | component |
|---|---|
| `OwnedLock`, `OwnedLockExclusion` | the owner-token directory lock: every file-system call its own step, then mutual exclusion |
| `ReplayBuffer`, `StreamDelivery` | the bounded terminal replay log, and its delivery to one connected client |
| `DeviceAuth` | pairing, refresh-token rotation, family revocation, access tokens |
| `TerminalSupervisor` | sessions, control leases, input, force close |
| `CommandApproval` | the confirm-class command gate: challenges, ledger, audit order |
| `LocalIntegration` | preview, confirm, merge, roll back, against a repository that changes between any two reads |
| `CanonicalJson` | the canonical rendering behind every stored fingerprint |
| `CommandDigest` | the text behind the digest of a command |
| `GitPath`, `Utf8` | git's C-style path quoting and record headers |
| `DiffParse`, `DiffGrammar` | the unified diff parser, and the texts it accepts |
| `DiffPrinted`, `DiffText` | diffs as git prints them, defined apart from the parser, and what it makes of them |
| `BindAddress`, `Decimal`, `Splitting` | IPv4 and IPv6 text, and which addresses may be bound |
| `AttemptJoin` | the attempt key and the cohort join |
| `SessionReview` | the host's diff caps, the projected snapshot, the client's clamp |
| `OutputSanitizer` | control stripping and the trigger hold of streamed output |
| `LocalProof` | the nonce cache of local proofs |
| `RateLimiter` | the sliding-window limiter |

Some promises need a condition. The model proves which one, and shows a run or an input for each way it
can fail:

- The lock excludes if and only if takeovers and heartbeats are one step each, records stay young, a release
  removes within the margin of its fence check and, where a rename may replace an empty directory as on
  POSIX, no takeover misreads the record it judges (`OwnedLockExclusion.ExclusionExactly`, with a run for each
  condition). The comment in `lock-steal.ts` says a rename onto an occupied path fails; the theorem does not
  need that.
- A takeover that removes a foreign lock directory saw the lock path occupied or failed to put it back,
  or could not read the record it had stolen (`OwnedLock.ForeignRemovalCause`); the last case removes a
  live directory although the path is free (`OwnedLockExclusion.MisreadDiscardsLiveDirectory`).
- A local force close refuses an unverified process as documented exactly when the session was not
  orphaned already; otherwise it asks for a transition the table does not have and ends in an internal
  error (`TerminalSupervisor.UnverifiedRefusedExactly`, reached by `RefusalCanFail`).
- A mutation runs at most once per idempotency key, retries after failures apart, when submissions of the
  key do not overlap and the ledger record does not grow old (`CommandApproval.OneRunPerKey`); either
  condition alone is not enough (`ExpiredClaimRunsTwice`, `OverlapRunsTwice`).
- The sanitizer's result is independent of chunking exactly when no chunk boundary falls inside a
  surrogate pair that directly follows an ESC (`OutputSanitizer.ConservesWhole`; `ChunkingCanMatter` has
  such a chunking).
- A local proof can never be accepted twice exactly when the nonce lifetime exceeds twice the clock skew
  (`LocalProof.NeverAcceptedTwice`); the defaults do.
- A diff that git prints is shown exactly when no record with hunks is about a file with a space in its name or
  moves one whose name is quoted: git puts a TAB behind such names, which the parser takes as part of the name.
  One such record refuses the whole review (`DiffPrinted.PrintedIsShownExactly`, `SpaceRefusesReview`). Records
  without hunks keep their spaces.

Where code and documentation disagree the model follows the code.

## Methods that follow their function

Methods without a loop that update fields in place. Each is proved to leave the state, and to give the answer, of
the function it is written beside; what that function promises is stated by the theorems below.

| class | source | methods, with their lines |
|---|---|---|
| `ReplayBuffer.TerminalReplayBuffer` | mobile-gateway/src/domain/terminal-replay-buffer.ts | `Create` 107-126, `Append` 145-171, `AppendLifecycle` 173-186, `ReplayAfter` 188-210 |
| `StreamDelivery.Connection` | mobile-gateway/src/application/terminal-stream-service.ts | `QueueEvent` 148-176, `SendNextReplayed` 178-215, `RunTask` 140-160, `CompleteSend` 140-215, `Acknowledge` 215-228 |
| `DeviceAuth.DeviceAuthService` | mobile-gateway/src/application/device-auth-service.ts | `RedeemPairingChallenge` 232-292, `RefreshTokens` 294-353, `RevokeOne` 410-427 |
| `TerminalSupervisor.Supervisor` | mobile-gateway/src/application/terminal-supervisor.ts | `Create` 56-195, `Write` 197-247, `Renew` 285-324, `InterruptSession` 326-362, `End` 364-428 |
| `TerminalSupervisor.Supervisor` | mobile-gateway/src/application/terminal-supervisor-local.ts | `ForceCloseLocally` 86-201 |
| `TerminalSupervisor.Supervisor` | mobile-gateway/src/application/terminal-supervisor-runtime.ts | `OnExit` 227-255 |
| `CommandApproval.CommandApprovalChallenges` | mobile-gateway/src/application/command-approval-challenges.ts | `Verify` 54-90, `MarkUsed` 92-95 |
| `LocalIntegration.LocalIntegrationService` | mobile-gateway/src/application/local-integration-service.ts | `PreviewIntegration` 174-205, `Confirm` 207-299, `AbortMerge` 337-352, `VerifyMergeCommit` 359-383 |
| `LocalIntegration.LocalIntegrationService` | mobile-gateway/src/application/local-integration-observe.ts | `TransitionTo` 150-180 |
| `OutputSanitizer.TerminalOutputSanitizer` | mobile-gateway/src/domain/terminal-output-sanitizer.ts | `Push` 197-224, `Flush` 226-234 |
| `RateLimiter.SlidingWindowRateLimiter` | mobile-gateway/src/domain/request-rate-limiter.ts | `ConsumeAttempt` 78-104 |

## Model

| member | source | states |
|---|---|---|
| `OwnedLock.EveryDirectoryInOnePlace` | src/shared/lock-steal.ts:73-104 | in every interleaving of single file-system calls of any number of processes, each lock directory is at the lock path, at exactly one private path, or removed: never lost, doubled or revived |
| `OwnedLock.ForeignRemovalCause` | src/shared/lock-steal.ts:73-104 | a takeover about to remove what it took holds a foreign record exactly when it saw the lock path occupied or its restoring rename failed, provided it could read the stolen record |
| `OwnedLock.RunConserves` | src/shared/lock-steal.ts:73-104 | what every event keeps: linear directories, distinct private paths, fresh owner tokens |
| `OwnedLockExclusion.ExclusionExactly` | src/shared/owned-lock.ts:203-338 | at most one process ever works, in runs of any number of processes, if and only if takeovers are single steps, heartbeats are single steps, records stay young, releases remove within the margin, and no takeover misreads a record where renames replace empty directories; dropping any one of them has a run that keeps the others |
| `OwnedLockExclusion.MutualExclusion` | src/shared/owned-lock.ts:203-313 | for any number of processes and any run under the assumptions listed in the module header, at most one process is inside `work()` |
| `OwnedLockExclusion.ReleaseRemovesOwn` | src/shared/owned-lock.ts:281-313 | a release that removes within the margin of its fence check removes the directory of its own claim, and nobody else is working or claiming |
| `OwnedLockExclusion.LockKeptFor` | src/shared/owned-lock.ts:144-180 | no other process's step changes the lock path under a holder whose record is young |
| `OwnedLockExclusion.SafeAfter` | src/shared/lock-steal.ts:73-104 | as long as every takeover reads the record it judges, none ever holds a foreign directory, so none is put back over another |
| `OwnedLockExclusion.MovesAreRuns` | src/shared/owned-lock.ts:203-338 | the runs of the exclusion theorem are runs of the fully interleaved system |
| `OwnedLockExclusion.TakeoverInterrupted` | src/shared/lock-steal.ts:73-104 | a run, fresh in every state: a process moves away the directory of another that has meanwhile taken over and entered, and a third enters |
| `OwnedLockExclusion.HeartBeatInterrupted` | src/shared/owned-lock.ts:203-280 | a run, fresh in every state: a heartbeat that writes after its process released gives the next holder an old record, which a third process takes over |
| `OwnedLockExclusion.MisreadReplaces` | src/shared/lock-steal.ts:85-104 | a run with whole takeovers and heartbeats, fresh in every state: a takeover that misread the record puts the dead directory back over an empty new one, and two processes enter |
| `OwnedLockExclusion.RecordAges` | src/shared/owned-lock.ts:144-180 | a run in which a working process lets its record grow old, and another takes over and works beside it |
| `OwnedLockExclusion.ReleaseLate` | src/shared/owned-lock.ts:281-313 | a run in which a process stops between the fence check and the removal of its release, then removes the directory of the next holder, and a third enters |
| `OwnedLockExclusion.MisreadDiscardsLiveDirectory` | src/shared/lock-steal.ts:92-104 | a concrete run: a takeover that cannot read the stolen record removes the directory of a working process while the lock path is free |
| `ReplayBuffer.SplitUtf8` | mobile-gateway/src/domain/terminal-replay-buffer.ts:82-100 | frames join to the input, cut no character, each fits the byte bound, and none could have taken the next character |
| `ReplayBuffer.SplitUnique` | mobile-gateway/src/domain/terminal-replay-buffer.ts:82-100 | there is only one such cut of a text |
| `ReplayBuffer.PruneLeast` | mobile-gateway/src/domain/terminal-replay-buffer.ts:128-143 | pruning evicts a prefix, as short as the bounds allow, after which no bound is exceeded |
| `ReplayBuffer.BoundsHold` | mobile-gateway/src/domain/terminal-replay-buffer.ts:128-186 | after any append the retained suffix obeys the count and byte bounds, and the log has gained exactly that event |
| `ReplayBuffer.AgeHolds` | mobile-gateway/src/domain/terminal-replay-buffer.ts:128-143 | with a clock that never steps back, nothing older than the age bound is retained |
| `ReplayBuffer.PushAllAppends` | mobile-gateway/src/domain/terminal-replay-buffer.ts:145-171 | appending frames adds exactly those frames in order with consecutive sequences, within the bounds |
| `ReplayBuffer.ReplayExact` | mobile-gateway/src/domain/terminal-replay-buffer.ts:188-210 | a replay is the whole log after the acknowledged event, or reports truncation exactly when the next event has been evicted |
| `ReplayBuffer.TerminalReplayBuffer.PruneEntries` | mobile-gateway/src/domain/terminal-replay-buffer.ts:128-143 | the stored entries and byte total stay the retained suffix of the unbounded log |
| `StreamDelivery.SentExactlyOnceInOrder` | mobile-gateway/src/application/terminal-stream-service.ts:130-228 | under every interleaving of replay sends, live events, acknowledgements and failures, the events sent are the log from the owed event on, each once and in order |
| `StreamDelivery.StartFollowsOrigin` | mobile-gateway/src/application/terminal-stream-service.ts:130-176 | without truncation the first event owed is the one after the acknowledged one |
| `StreamDelivery.WindowRespected` | mobile-gateway/src/application/terminal-stream-service.ts:130-228 | nothing is sent further than the window ahead of the last acknowledgement, and nothing unsent is ever acknowledged |
| `StreamDelivery.IdleMeansComplete` | mobile-gateway/src/application/terminal-stream-service.ts:130-228 | an open connection with nothing queued or in flight has sent everything ever published |
| `StreamDelivery.OpenTakesBufferReplay` | mobile-gateway/src/application/terminal-stream-service.ts:113-130 | the replay a connection opens with is what the bounded buffer answers |
| `StreamDelivery.Connection.LeaveReplay` | mobile-gateway/src/application/terminal-stream-service.ts:160-215 | becoming ready queues the held events in order |
| `DeviceAuth.OneActiveTokenPerFamily` | mobile-gateway/src/application/device-auth-service.ts:232-353 | in every run each refresh-token family has at most one active token |
| `DeviceAuth.ReuseKillsFamily` | mobile-gateway/src/application/device-auth-service.ts:181-194 | presenting a rotated token with a valid proof shuts its family down: nothing that happens later makes a token of it acceptable |
| `DeviceAuth.AcceptedAtMostOnce` | mobile-gateway/src/application/device-auth-service.ts:294-353 | no refresh token is exchanged twice in any run |
| `DeviceAuth.GenerationBumpEndsAccess` | mobile-gateway/src/application/device-auth-service.ts:355-398 | no access token issued before a generation bump ever authenticates again |
| `DeviceAuth.WhatRaisesGeneration` | mobile-gateway/src/application/device-auth-service.ts:181-427 | the operations that raise a generation are exactly device revocation and reuse of a rotated token of that device |
| `DeviceAuth.DeviceAuthService.RevokeRecords` | mobile-gateway/src/application/device-auth-service.ts:181-194 | the sweep revokes exactly the records of the device and family |
| `TerminalSupervisor.OneWritableSession` | mobile-gateway/src/application/terminal-supervisor-runtime.ts:167-189 | between operations of any run a session any fence could pass for is the active one, so there are never two |
| `TerminalSupervisor.InputWrittenOnce` | mobile-gateway/src/application/terminal-supervisor.ts:197-247 | each input id reaches the terminal of its session at most once |
| `TerminalSupervisor.RevokedNeverPasses` | mobile-gateway/src/domain/terminal-control-lease.ts:43-115 | once an operation has revoked a lease, no fence made for it before passes again, on any session, at any time |
| `TerminalSupervisor.ExpiredStaysExpired` | mobile-gateway/src/domain/terminal-control-lease.ts:43-107 | a lease that has run out is never extended |
| `TerminalSupervisor.LeaseOnlyAdvances` | mobile-gateway/src/domain/terminal-control-lease.ts:87-115 | over any run a session keeps its lease id and its generation never falls |
| `TerminalSupervisor.UnverifiedRefusedExactly` | mobile-gateway/src/application/terminal-supervisor-local.ts:95-165 | a force close of a session whose process cannot be verified orphans it, revokes its lease and reports `process_identity_unverified`, if and only if the session was not orphaned before; otherwise it is an internal error that changes nothing |
| `TerminalSupervisor.RefusalCanFail` | mobile-gateway/src/application/terminal-supervisor-local.ts:140-165 | a run that reaches the internal error: a failed interrupt, then a force close that meets another process |
| `TerminalSupervisor.HostFreedExactly` | mobile-gateway/src/application/terminal-supervisor-local.ts:105-201 | while an orphaned session holds the host, an operation frees it if and only if it is the exit of its process or a successful force close of the verified process at the revision the operator saw |
| `TerminalSupervisor.OrphanBlocksHost` | mobile-gateway/src/application/terminal-supervisor.ts:56-120 | over any run an orphaned session keeps the host and every new session is refused as busy, until one of those two happens |
| `TerminalSupervisor.Supervisor.RevokeLeases` | mobile-gateway/src/application/terminal-supervisor-local.ts:203-218 | exactly the leases of the device are revoked |
| `CommandApproval.RunsAreApproved` | mobile-gateway/src/application/command-approval-service.ts:187-299 | in every interleaving each run of a confirm-class mutation follows its own `allowed` record and a challenge issued for its device, key and digest, verified before expiry |
| `CommandApproval.OneRunPerKey` | mobile-gateway/src/application/command-approval-service.ts:187-299 | among submissions of one key that do not overlap, within one ledger lifetime, a mutation runs again only after its last run has failed |
| `CommandApproval.ReclaimedExactly` | mobile-gateway/src/application/command-approval-service.ts:373-390 | the key of a mutation that is still running is open to a new submission, after any other claim, exactly when the ledger lifetime has passed since its own claim |
| `CommandApproval.ExpiredClaimRunsTwice` | mobile-gateway/src/application/command-approval-service.ts:373-390 | a run without overlap, past the lifetime, in which two mutations of one key run at once |
| `CommandApproval.OverlapRunsTwice` | mobile-gateway/src/application/command-approval-service.ts:187-299 | a run of two overlapping submissions, within the lifetime, in which two mutations of one key run at once |
| `CommandApproval.ChallengesBackOneRun` | mobile-gateway/src/application/command-approval-service.ts:187-299 | no two runs share a challenge and no submission runs twice |
| `CommandApproval.BlockedNeverRuns` | mobile-gateway/src/domain/command-intent.ts:210-271 | no blocked-class command ever runs through the gate |
| `CommandApproval.KeyBelongs` | mobile-gateway/src/domain/command-intent.ts:181-208 | the keys a device may use are exactly its id, a colon and a counter of 1 to 20 digits, 16 to 160 characters in all |
| `CommandDigest.DigestDecides` | mobile-gateway/src/application/command-approval-contract.ts:97-129 | two commands have the same digest text if and only if they name the same action and project and their payloads, any supported JSON, are equal up to key order and undefined properties |
| `CommandDigest.DigestCovers` | mobile-gateway/src/application/command-approval-contract.ts:113-129 | for the closed payloads the digest texts of two commands are equal if and only if action, project and payload are: never because of, and never despite, the rest of the command |
| `CommandApproval.CommandApprovalChallenges.IssueChallenge` | mobile-gateway/src/application/command-approval-challenges.ts:97-122 | expired and used challenges are swept, and a full table refuses |
| `CommandApproval.Remember` | mobile-gateway/src/application/command-approval-service.ts:373-390 | the ledger drops exactly the records that have reached their lifetime, running or not, and refuses when full |
| `LocalIntegration.OneMergePerPreview` | mobile-gateway/src/application/local-integration-service.ts:207-299 | each preview leads to at most one `git merge`, of the previewed commit, right after the previewed head was read on a clean tree |
| `LocalIntegration.IntegratedMeansReadBack` | mobile-gateway/src/application/local-integration-service.ts:285-383 | `integrated` is recorded only right after HEAD was read back with exactly the previewed target head and source commit as parents |
| `LocalIntegration.ReturnMeansUntouchedOrRolledBack` | mobile-gateway/src/application/local-integration-service.ts:312-352 | `review_ready` is recorded only when the last look stopped the merge, or after a failed merge was aborted and HEAD read back equal to the previewed head |
| `LocalIntegration.MergeMeansApproved` | mobile-gateway/src/application/local-integration-service.ts:207-270 | a confirmation that merges was the first use of an unexpired preview, repeats what was shown, and everything shown was observed again with gates green for the merged commit |
| `LocalIntegration.LocalIntegrationService.IssuePreview` | mobile-gateway/src/application/local-integration-service.ts:161-172 | expired previews are swept and a new one stored unless too many are outstanding |
| `LocalIntegration.LocalIntegrationService.RecordReviewReady` | mobile-gateway/src/application/local-integration-observe.ts:191-220 | review transitions stop at the first refusal |
| `CanonicalJson.CanonicalDecides` | src/shared/json.ts:47-89 | two supported values render to the same text if and only if they are equal up to key order and undefined properties, undefined array entries counting as null |
| `CanonicalJson.PrintUnique` | src/shared/json.ts:55-89 | a rendered value determines the value and where it ends, whatever follows it |
| `CanonicalJson.MeaningDecides` | src/shared/json.ts:76-89 | equality up to key order is equality of the key-sorted, undefined-free trees |
| `CanonicalJson.StringRoundTrip` | src/shared/json.ts:59-87 | a reader of section 7 of RFC 8259 gets every string back from its escaped form and stops where it ends |
| `CanonicalJson.SortSorts` | src/shared/json.ts:83-87 | keys are sorted by UTF-16 units, without loss |
| `CanonicalJson.CanonicalJsonStringify` | src/shared/json.ts:47-53 | an unsupported value anywhere, or undefined at the root, is an error; otherwise the canonical text |
| `CanonicalJson.CanonicalArray` | src/shared/json.ts:76-78 | the array loop renders every entry in order |
| `CanonicalJson.CanonicalObject` | src/shared/json.ts:80-88 | the accumulating loop renders exactly the defined properties in key order |
| `GitPath.UnquoteExactly` | mobile-gateway/src/application/session-review-diff-text.ts:71-121 | unquoting yields a text exactly for its legal quoted spellings, when the text has no U+FFFD |
| `GitPath.UnquoteUndoesQuoting` | mobile-gateway/src/application/session-review-diff-text.ts:71-121 | unquoting undoes quoting for every path of Unicode scalars without U+FFFD, each character quoted in any way |
| `GitPath.UnquoteGitPath` | mobile-gateway/src/application/session-review-diff-text.ts:71-121 | the scan with its byte buffer computes exactly the specified decoding |
| `GitPath.ReadQuotedToken` | mobile-gateway/src/application/session-review-diff-text.ts:45-59 | a token ends at the first quote that is not escaped, or the text is refused |
| `GitPath.HeaderYieldsPath` | mobile-gateway/src/application/session-review-diff-text.ts:142-155 | the header printed for a path yields the path, plain (spaces included) or quoted in any way on either side |
| `GitPath.PlainHeader` | mobile-gateway/src/application/session-review-diff-text.ts:152-155 | unquoted names yield a path exactly when both sides spell it |
| `GitPath.QuotedHeader` | mobile-gateway/src/application/session-review-diff-text.ts:144-151 | two quoted names yield the second one, whatever the first |
| `GitPath.PathFromRecordHeader` | mobile-gateway/src/application/session-review-diff-text.ts:142-155 | the header is read as specified, refusals included |
| `Utf8.EncodeRead` | mobile-gateway/src/application/session-review-diff-text.ts:77-82 | reading the UTF-8 of a scalar (section 3 of RFC 3629) gives it back, whatever follows |
| `Utf8.ReadEncode` | mobile-gateway/src/application/session-review-diff-text.ts:77-82 | only the UTF-8 of a scalar is read as one: no overlong form, no surrogate |
| `BindAddress.Ipv4Exactly` | mobile-gateway/src/application/bind-address-policy.ts:94-107 | IPv4 parsing accepts exactly what printing four octets produces, and inverts it |
| `BindAddress.Ipv4Injective` | mobile-gateway/src/application/bind-address-policy.ts:94-107 | two IPv4 texts never name one address |
| `BindAddress.Ipv6Exactly` | mobile-gateway/src/application/bind-address-policy.ts:112-157 | IPv6 parsing accepts exactly the full and `::`-compressed texts of section 2.2 of RFC 4291 and yields the sixteen bytes they denote |
| `BindAddress.AllowedExactly` | mobile-gateway/src/application/bind-address-policy.ts:184-242 | a bind is allowed if and only if the port is unprivileged and the text denotes an address in a private block, without zone or embedded dotted quad |
| `BindAddress.Ipv4Classes` | mobile-gateway/src/application/bind-address-policy.ts:159-172 | each IPv4 class is a union of address blocks |
| `BindAddress.Ipv6Classes` | mobile-gateway/src/application/bind-address-policy.ts:174-182 | each IPv6 class is an address block |
| `BindAddress.ParseIpv4` | mobile-gateway/src/application/bind-address-policy.ts:94-107 | the octet loop computes the specified parse |
| `BindAddress.ConvertText` | mobile-gateway/src/application/bind-address-policy.ts:121-139 | the group loop computes the specified bytes |
| `BindAddress.ParseIpv6` | mobile-gateway/src/application/bind-address-policy.ts:112-157 | the halves are joined around at least one omitted group, or the text is refused |
| `AttemptJoin.KeyInjective` | src/application/analytics/attempt-identity-join.ts:81-90 | the attempt key is injective on the four trimmed fields |
| `AttemptJoin.NothingLost` | src/application/analytics/attempt-identity-join.ts:273-346 | after the join, records counted over all tasks plus excluded records are all usage records with a task id |
| `AttemptJoin.JoinAttemptScopedCohort` | src/application/analytics/attempt-identity-join.ts:338-346 | each task's totals are the sums over exactly the records whose attempt resolves to the task's arm, and the legacy counters count the rest |
| `AttemptJoin.UnambiguousKeepsAll` | src/application/analytics/attempt-identity-join.ts:330-337 | a task with at most one known attempt keeps the sums over all its records |
| `AttemptJoin.LatestPackDecides` | src/application/analytics/attempt-identity-join.ts:154-179 | the arm is that of a pack record no other is later than, ties to the later line, and every pack record counts as a dispatch |
| `AttemptJoin.AttemptMeansArm` | src/application/analytics/attempt-identity-join.ts:273-295 | an ambiguous task always has an arm |
| `AttemptJoin.AssignArms` | src/application/analytics/attempt-identity-join.ts:154-179 | the loop assigns every task its latest pack record |
| `AttemptJoin.SummarizeUsageByTask` | src/application/analytics/attempt-identity-join.ts:202-224 | the loop sums every task over all its records |
| `AttemptJoin.ContextIdentityKeysByTask` | src/application/analytics/attempt-identity-join.ts:234-248 | the attempts of a task are those its pack records name |
| `AttemptJoin.AssignmentArmByKey` | src/application/analytics/attempt-identity-join.ts:253-266 | the latest pack record of an attempt decides its arm |
| `AttemptJoin.SplitUsage` | src/application/analytics/attempt-identity-join.ts:301-312 | the records kept are exactly those that count |
| `AttemptJoin.CorrectAmbiguousTasks` | src/application/analytics/attempt-identity-join.ts:273-322 | correcting the ambiguous tasks one by one, in any order, leaves exactly the counted records in every total |
| `DiffPrinted.PrintedReadExactly` | mobile-gateway/src/application/session-review-diff-parse.ts:70-240 | for every list of records as git prints them (edits, creations, deletions, moves, copies; hunks, binary marks or nothing; names plain or quoted, a TAB behind a name with a space where git puts one; blank lines at the end) the parser gives exactly the listed files with all hunks, lines and counters, or the refusal of the first record that cannot be shown |
| `DiffPrinted.PrintedIsShownExactly` | mobile-gateway/src/application/session-review-diff-parse.ts:70-240 | under any path rule that refuses a TAB, a printed diff is accepted, each record shown as the file it is about, if and only if every path is allowed, no record with hunks is about a name with a space or has a quoted name with one on a name line, and no binary mark holds a line separator |
| `DiffPrinted.SpaceRefusesReview` | mobile-gateway/src/application/session-review-diff-parse.ts:167-174 | the one-line edit of `a b` refuses the whole diff as outside the working tree, and that of `é b`, which git quotes, as unreadable |
| `DiffPrinted.NameLineRead` | mobile-gateway/src/application/session-review-diff-text.ts:123-130 | what is read from a `---` or `+++` line: the path, with the TAB behind it if the name has a space, or nothing if such a name is quoted |
| `DiffPrinted.RepositoryRuleRefusesTabs` | mobile-gateway/src/application/repository-relative-path.ts:59-78 | the rule for repository-relative paths, or any stricter one, refuses a TAB |
| `DiffText.TextReadExactly` | mobile-gateway/src/application/session-review-diff-parse.ts:70-85 | the text of a printed diff, LF behind each line, content lines with or without a CR of their own, is read as the same records with exactly the final CR of each content line removed |
| `DiffText.TextIsShownExactly` | mobile-gateway/src/application/session-review-diff-parse.ts:70-240 | so such a text is accepted, and shown record by record, if and only if every record can be shown |
| `DiffGrammar.ParseExactly` | mobile-gateway/src/application/session-review-diff-parse.ts:70-240 | a diff is accepted exactly when it is a preamble and then records made of legal items, each line in one item, and the result is what the records describe |
| `DiffGrammar.NothingDropped` | mobile-gateway/src/application/session-review-diff-parse.ts:134-170 | of an accepted diff, every line behind a hunk header, as long as only lines of a hunk come between, whatever it looks like (a removed `-- x` included), and every other line that starts with a plus or a minus and is no file name line, is carried by the file of its record, unless that record is binary |
| `DiffGrammar.CountersMatch` | mobile-gateway/src/application/session-review-diff-parse.ts:60-75 | the counters of a parsed diff are the added and removed lines its files carry, and binary files carry none |
| `DiffGrammar.ReviewShowsEveryChange` | mobile-gateway/src/application/session-review-projection.ts:284-347 | from the text of a diff to the phone: the client clamps nothing, and an unmarked review shows as many added and removed lines as the diff has |
| `DiffParse.HeaderExactly` | mobile-gateway/src/application/session-review-diff-parse.ts:35-42 | a line opens a hunk exactly when it is the text of a hunk header and then anything |
| `DiffParse.ParseUnifiedDiff` | mobile-gateway/src/application/session-review-diff-parse.ts:70-240 | the parser's loops compute the specified reading, refusals included |
| `DiffParse.ReadRecordLines` | mobile-gateway/src/application/session-review-diff-parse.ts:118-212 | the loop over the lines of a record computes the specified reading |
| `DiffParse.ReadHunkBody` | mobile-gateway/src/application/session-review-diff-parse.ts:134-170 | the loop over a hunk takes every line it can, in order, and counts what it adds and removes |
| `SessionReview.ClampIsIdentity` | mobile-app/src/model/session-review-read.ts:178-268 | the client clamp is the identity on every snapshot the host projects |
| `SessionReview.CapsObeyed` | mobile-gateway/src/application/session-review-diff-parse.ts:253-315 | capped diffs obey the file, line and character budgets, account for every hunk, keep order, and are flagged as cut exactly when they are not the parsed files |
| `SessionReview.CappedHunks` | mobile-gateway/src/application/session-review-diff-parse.ts:266-302 | kept plus newly hidden hunks are all hunks, each kept one cut only at the end |
| `SessionReview.TruncatedExactly` | mobile-gateway/src/application/session-review-projection.ts:284-347 | unless the diff arrived cut, a snapshot is marked truncated exactly when it does not carry the parsed files |
| `SessionReview.CarryHunkLines` | mobile-gateway/src/application/session-review-diff-parse.ts:278-295 | the line loop spends the character budget as specified |
| `SessionReview.CapDiffFiles` | mobile-gateway/src/application/session-review-diff-parse.ts:253-315 | the nested loops share one line budget and one character budget over all files |
| `SessionReview.ClampDiffFile` | mobile-app/src/model/session-review-read.ts:178-211 | the client loop clamps one file as specified |
| `SessionReview.ClampSessionReviewSnapshot` | mobile-app/src/model/session-review-read.ts:221-268 | the client clamps files, paths and findings and touches no counter or digest |
| `OutputSanitizer.ConservesWhole` | mobile-gateway/src/domain/terminal-output-sanitizer.ts:120-223 | for every chunking before an overflow, the slices handed to redaction and then the held text are the stripped whole input, exactly when no boundary splits a surrogate pair behind an ESC |
| `OutputSanitizer.ChunkingCanMatter` | mobile-gateway/src/domain/terminal-output-sanitizer.ts:120-223 | under every set of rules, an ESC with half a surrogate pair and then the other half emit that half, while the same text in one chunk leaves nothing |
| `OutputSanitizer.StripConcat` | mobile-gateway/src/domain/terminal-output-sanitizer.ts:120-195 | stripping two chunks in turn is stripping them joined, except in that one case |
| `OutputSanitizer.TriggersHeld` | mobile-gateway/src/domain/terminal-output-sanitizer.ts:85-112 | any tail of the received text that could grow into a trigger opening is held back whole |
| `OutputSanitizer.TriggerTailFirst` | mobile-gateway/src/domain/terminal-output-sanitizer.ts:85-95 | the reported index is at or before every such tail |
| `OutputSanitizer.NoControlsSurvive` | mobile-gateway/src/domain/terminal-output-sanitizer.ts:120-195 | nothing handed to redaction or held contains a control character other than tab, LF and CR, in any run |
| `OutputSanitizer.OpenTriggerPrefixStart` | mobile-gateway/src/domain/terminal-output-sanitizer.ts:85-95 | the search from the longest tail down |
| `OutputSanitizer.TerminalOutputSanitizer.StripControls` | mobile-gateway/src/domain/terminal-output-sanitizer.ts:120-195 | the character loop computes the specified text and control state |
| `LocalProof.NeverAcceptedTwice` | mobile-gateway/src/application/local-control-auth.ts:94-132 | with a nondecreasing clock no proof header is ever accepted twice, if and only if the nonce lifetime exceeds twice the accepted skew |
| `LocalProof.DefaultsNeverAcceptTwice` | mobile-gateway/src/application/local-control-auth.ts:28-30 | the default options satisfy it |
| `LocalProof.CacheBoundedAndNoncesApart` | mobile-gateway/src/application/local-control-auth.ts:94-132 | the nonce cache never exceeds its bound, and accepted proofs with one nonce are a nonce lifetime apart |
| `LocalProof.LocalProofVerifier.Verify` | mobile-gateway/src/application/local-control-auth.ts:94-132 | freshness after the MAC, the sweep before the lookup, a full cache refused |
| `RateLimiter.NeverOverLimit` | mobile-gateway/src/domain/request-rate-limiter.ts:78-115 | no window of length `windowMs` contains more than `limit` allowed attempts of a key, despite eviction |
| `RateLimiter.TrackedBounded` | mobile-gateway/src/domain/request-rate-limiter.ts:95-102 | tracked keys never exceed the bound |
| `RateLimiter.WaitingSuffices` | mobile-gateway/src/domain/request-rate-limiter.ts:78-104 | after an over-limit denial, waiting the reported time lets the key through, unless its entry was evicted meanwhile and the tracker is full |
| `RateLimiter.WaitingMakesRoom` | mobile-gateway/src/domain/request-rate-limiter.ts:91-104 | after a denial because the tracker is full, waiting the reported time with no other attempt lets the key through |
| `RateLimiter.SlidingWindowRateLimiter.EvictExpired` | mobile-gateway/src/domain/request-rate-limiter.ts:106-115 | eviction drops exactly the keys without a live attempt |

## Left out

- OwnedLockExclusion.MutualExclusion: exclusion is claimed under the step and freshness assumptions in the module header; the fully interleaved protocol does not have it, as `ExclusionExactly` shows.
- OwnedLockExclusion.LockKeptFor: removing a directory is one step; a partial recursive removal is not modelled.
- StreamDelivery.SentExactlyOnceInOrder: one connection at a time; the WebSocket, heartbeat timers and frame encoding are parameters.
- DeviceAuth.GenerationBumpEndsAccess: hashes, MACs and signatures are symbolic and ids are fresh numbers; issuer, audience and scope checks on the host's own claims are left out.
- TerminalSupervisor.InputWrittenOnce: `handleOutput`, resizing and the persistence of the registry are left out; port answers are parameters.
- CommandApproval.OneRunPerKey: not claimed for overlapping submissions of one key, since the ledger lookup and the claim are separate steps; what a replay answers is not modelled, only that it never runs.
- CommandApproval.RunsAreApproved: in the runs the command digest is a constructor applied to what it covers, which `CommandDigest.DigestCovers` justifies up to the hash; UUID and payload shapes are not checked.
- CommandDigest.DigestDecides: keys that are array indices, which JavaScript would put before the sorted ones, are left out, as no closed payload has one.
- LocalIntegration.MergeMeansApproved: diff and gate digests are constructors applied to what they cover; gate evidence is given in the order its digest sorts it into, and a git process that cannot be started at all is left out.
- CanonicalJson.CanonicalDecides: values are taken after `toJSON`; a number is its ECMAScript decimal text, so `-0` and `0` are one number.
- GitPath.UnquoteExactly: how many replacement characters a malformed byte run becomes is not modelled, since any one refuses the path.
- AttemptJoin.JoinAttemptScopedCohort: token counts are whole numbers, so the rounding of large sums is not modelled.
- SessionReview.ClampIsIdentity: gate projection and the checks of the facts' shapes are left out.
- DiffParse.ParseUnifiedDiff: stripping control sequences and the rule for repository-relative paths are arbitrary functions, and both ways a text cannot be read are one failure; `ParseExactly` says when a diff is accepted, not which refusal comes first.
- DiffPrinted.PrintedReadExactly: how git writes a record is stated from its documented formats; combined diffs, `--binary` payloads and records of unmerged paths are left out, and paths are Unicode scalars without U+FFFD.
- OutputSanitizer.ConservesWhole: what the regular expressions redact and where they match is arbitrary, so nothing is claimed about redacted output.
- LocalProof.NeverAcceptedTwice: the MAC is a constructor applied to what it covers, and the instant a timestamp denotes is given with it.
- RateLimiter.WaitingSuffices: times are whole milliseconds.
- Sockets, PTY, TLS, HTTP routing, the composition root and the command-line tools are not part of this model.
- React and Expo screens, presenters and read controllers are left out: thin or single-branch.
- Cleanup rules of worktrees, `isAdvertisableHostName` and `splitByAttemptIdentity` are left out as easy.
