# A model of the MPC network in Dafny

This project models parts of a NEAR MPC network: the contract that runs its votes, keys and pending
requests, the attestation of its nodes, and three of its tools. It proves properties of them over all
inputs and all runs. `dafny verify dfyconfig.toml` checks the whole project.

| module | what it models |
|---|---|
| `Parameters`, `Domains`, `KeyEvents` | participants, thresholds, the domain registry, and one attempt at a key |
| `Lifecycle`, `LifecycleSafety`, `LifecycleRuns`, `Consent`, `DomainConsent` | the contract's phases (running, generating keys, resharing) and every run through them |
| `KeyEventIds`, `KeyEventReuse` | which key event ids can be started twice |
| `Progress`, `IdSpace` | what the participants can bring about from every phase, and who can still join |
| `Updates`, `UpdateRuns` | voting on contract updates |
| `Pending` | requests that yield, are resumed by a response, or time out |
| `ForeignPolicy`, `Migrations` | unanimous voting on the foreign-chain policy; node migration records |
| `ContractState`, `Contract` | the contract's whole state with its entry points as actions, and the contract object whose methods take them |
| `ContractRuns`, `CleanupRuns`, `MigrationRuns` | runs of the whole contract, where phases, updates and migrations meet |
| `Hex`, `TcbInfos`, `Felt` | base 16 (section 8 of RFC 4648), the TCB description and its interface form, Starknet field elements |
| `Replay`, `Attestation` | replaying RTMR3 from an event log; verifying an attestation and verifying it again |
| `Funding`, `FundingRuns`, `FundingEnds`, `FundAccounts` | the loop that funds accounts from several sources, and when it ends |
| `Runner`, `RunnerTrace`, `Runners` | the in-process scheduler of protocol parties, written twice in the source |
| `Manifests` | the breadth-first search for an image manifest (Image Index of the OCI Image Format Specification) |
| `AccessKeys` | doubling the access keys of an account |

How the model reads the source:

- A contract call that returns an error or panics is reverted as a whole, so a failed call leaves the state
  unchanged. Errors are kept apart only where something depends on it; `Panic` is one of them.
- A phase of the contract (`RunningState`, `InitializingState`, `ResharingState`) is a value: the source
  replaces it as a whole. The contract, the proposed updates, the pending requests, the migration records,
  the chain and the account are objects that are updated in place.
- A call's signer, predecessor and block height are parameters, and so is which nodes have a valid attestation.
  So are the faucet's accounts, random names and keys, and the registry's answers.
- SHA-384 and SHA-256 are arbitrary functions to 48 and 32 bytes, so nothing is assumed about collisions: where
  a property needs them, the lemma gives back the two strings that break the hash. Quote verification and the
  parsing of the app-compose text are arbitrary functions too.
- Counters are unbounded, except where the source's width shows: update ids (64 bits), participant ids (32
  bits), and the expiry time of an attestation (64 bits). Event types are hashed in little-endian order.
- Names, payloads and hex strings are the bytes of their UTF-8 form.

Where the source does not do what its comments or tests say:

- Epoch ids of cancelled resharings are meant never to be used again
  (`crates/contract/src/state/running.rs:39`, `crates/contract/tests/sandbox/vote.rs:582`). They are, after
  domains were added: `NextEpochFallsIff` says exactly at which call. `ReusedIff` says exactly when an id can then be
  started a second time, `ReusePossible` that every running contract with a domain can get there, and
  `StartedIdsDistinct` that no key event id is used twice in any other run.
- A vote left by a former participant counts again if that participant comes back, unless the best-effort cleanup
  ran in between: `CleanupSeenIff` says exactly when some continuation of the contract can tell, `RejoiningSeesCleanup`
  and `TrioSeesCleanup` give runs from a new contract, and `CleanupInvisible` says that nobody can tell while no
  former participant comes back.
- The timeout callback of a replaced request removes the entry of the newer one: `TimeoutRemovesNewerIff` has
  the exact calls, `NewerRequestLost` a run.
- The cleanup of orphaned migrations passes over accounts without a backup service: `CleanupLeavesIff`, with a run
  from a new contract in `OrphanLeftBehind` and `TrioLeavesOrphan`.
- An exhausted configured account keeps the funding loop turning forever (`ExhaustedAccountSpins`), even when nothing
  is owed (`OwingNothingSpins`). `EndsIff` and `BalancesDecide` say exactly for which balances before the loop this
  happens. With the faucet the loop ends if the accounts have the reserve to spend (`RunIsBounded`).
- `request_until_success` is documented to retry indefinitely, but it stops after `rpc_max_attempts`.
- A comment speaks of a threshold for adding domains; the code asks for all participants
  (`AddDomainsNeedsEveryone`).
- The bytes hashed for an event do not determine its name when names contain a colon: `SameFieldsIff`,
  `ColonIsAmbiguous`, and `RegisterFixesPayload` for what a register value fixes nevertheless; `OneReadingNeeded`
  shows that it does not fix payloads without that condition.

## Model

| member | source | states |
|---|---|---|
| `Parameters.ValidateThreshold` | crates/contract/src/primitives/thresholds.rs:56-72 | accepts exactly thresholds of at least 2, at most the number of shares and at least 60 percent of them, the percentage rounded up |
| `Parameters.ValidateParticipants` | crates/contract/src/primitives/participants.rs:104-121 | counting distinct ids and accounts decides exactly whether nobody appears twice and every id lies below the next one |
| `Parameters.ValidateParameters` | crates/contract/src/primitives/thresholds.rs:74-77 | accepts exactly coherent participants with a valid threshold |
| `Parameters.ScanMembers` | crates/contract/src/primitives/thresholds.rs:86-116 | one pass either finds a member that changes identity, or gives the number of members who stay and the exact extent of the newcomers' ids |
| `Parameters.ValidateIncomingProposal` | crates/contract/src/primitives/thresholds.rs:82-134 | accepts exactly the proposals where members who stay keep id and info, nobody takes an id in use, at least the threshold stays, and the newcomers' ids are precisely the range between the two next ids |
| `Parameters.ContiguousIsRange` | crates/contract/src/primitives/thresholds.rs:121-132 | comparing the count of new ids with their extent decides exactly whether they fill the range |
| `Parameters.FindId` | crates/contract/src/primitives/key_state.rs:156-164 | authenticates exactly the accounts that are participants, with the id of such a participant |
| `Parameters.Leader` | crates/contract/src/state/key_event.rs:83-98 | the leader is a participant with the lowest id |
| `Domains.AddDomains` | crates/contract/src/primitives/domain.rs:125-137 | appends exactly domains whose ids go on from the next id, and refuses all others |
| `Domains.FromRawValidated` | crates/contract/src/primitives/domain.rs:169-188 | comparing neighbours accepts exactly registries with increasing ids below the next id |
| `KeyEvents.StartKeepsValid` | crates/contract/src/state/key_event.rs:65-79 | starting an attempt never panics and keeps the event's invariant, epoch, domain and participants |
| `KeyEvents.VoteSuccessOutcome` | crates/contract/src/state/key_event.rs:116-141 | a success vote completes an attempt only when the voters are all the participants and their key is this one |
| `Lifecycle.UpdateInfo` | crates/contract/src/primitives/participants.rs:152-164 | the info of the first member with this account becomes the new one; no other info, and no account, id or position changes |
| `LifecycleSafety.InitIsValid` | crates/contract/src/lib.rs:1556-1598 | a contract that initialises is valid |
| `LifecycleSafety.InitRunningIsValid` | crates/contract/src/lib.rs:1604-1662 | a contract that initialises with keys is valid |
| `LifecycleSafety.AcceptedMeansEveryone` | crates/contract/src/state/running.rs:132-156 | new parameters are accepted exactly when every one of the proposed participants backs them, and at least the threshold of the backers are participants now |
| `LifecycleSafety.AddDomainsNeedsEveryone` | crates/contract/src/state/running.rs:162-199 | key generation starts exactly when every other participant already voted for these domains |
| `LifecycleSafety.VerifyTeeSucceeds` | crates/contract/src/lib.rs:1451-1509 | the resharing forced by expired attestations is always admissible, so a participant's call cannot fail |
| `LifecycleSafety.UpdateInfoIsValid` | crates/contract/src/lib.rs:2017-2087 | concluding a migration keeps the parameters valid and the identities unchanged |
| `LifecycleSafety.VotePkIsValid` | crates/contract/src/state/initializing.rs:72-102 | a public-key vote that succeeds leaves a valid phase, also when it moves on to the next domain or ends generation |
| `LifecycleSafety.VoteCancelKeygenIsValid` | crates/contract/src/state/initializing.rs:117-143 | cancelling key generation keeps the finished keys and leaves a valid phase |
| `LifecycleSafety.ReproposalIsValid` | crates/contract/src/state/resharing.rs:51-89 | voting for other parameters during a resharing never panics and leaves a valid phase |
| `LifecycleSafety.CancelResharingIsValid` | crates/contract/src/state/resharing.rs:159-182 | resharing is cancelled exactly by the call that brings the distinct requests of previous participants to the threshold |
| `LifecycleSafety.VoteResharedIsValid` | crates/contract/src/state/resharing.rs:115-150 | a reshared vote never indexes past the keys and leaves a valid phase |
| `LifecycleSafety.StepKeepsValid` | crates/contract/src/state.rs:65-169 | every call in every phase keeps the contract's invariant |
| `LifecycleRuns.RunKeepsValid` | crates/contract/src/state.rs:25-169 | the invariant holds after every sequence of calls by anybody |
| `LifecycleRuns.NeverPanics` | crates/contract/src/state.rs:65-169 | in a valid contract no call reaches an unwrap or an index that would panic |
| `LifecycleRuns.VoteResharedKeepsKeys` | crates/contract/src/state/resharing.rs:115-150 | resharing ends with the very keys it began with, position by position |
| `LifecycleRuns.RunKeepsKeys` | crates/contract/src/state.rs:25-169 | over every run, a key once in use keeps its position, domain and public key |
| `LifecycleRuns.PublicKeyNeverChanges` | crates/contract/src/primitives/key_state.rs:130-138 | the public key of a domain never changes and never disappears |
| `LifecycleRuns.DomainIdsNeverReused` | crates/contract/src/primitives/domain.rs:141-143 | an id given to a domain, even one deleted before it got a key, is never given to another |
| `LifecycleRuns.VoteIsConfirmed` | crates/contract/src/state/key_event.rs:290-309 | the completed set only names participants that confirmed this key in this attempt, and names all of them when the vote is the last |
| `LifecycleRuns.RunStaysBacked` | crates/contract/src/state/resharing.rs:115-150 | in every run all recorded confirmations and reshared keys are backed by calls that were made |
| `LifecycleRuns.NewKeyConfirmedByAll` | crates/contract/src/state/initializing.rs:72-102 | a key enters use only after every participant voted for that public key in that attempt |
| `LifecycleRuns.NewEpochConfirmedByAll` | crates/contract/src/state/resharing.rs:115-150 | a new epoch begins only after every new participant confirmed every key |
| `KeyEventIds.NextEpochFallsIff` | crates/contract/src/state/running.rs:116-127 | the next resharing epoch goes back exactly at a participant's vote for well-formed domains that every other participant already voted for, while a cancelled epoch is on record |
| `KeyEventIds.LastDomainVote` | crates/contract/src/state/running.rs:162-199 | such votes, recognised from the caller and the recorded votes alone, are exactly those that start key generation |
| `KeyEventIds.StepClock` | crates/contract/src/state/key_event.rs:65-79 | an attempt id that is started was not spent before and is spent from then on, unless the call forgets a cancelled epoch |
| `KeyEventIds.StartedIdsDistinct` | crates/contract/src/state/key_event.rs:65-79 | no key event id is started twice in a run where a cancelled epoch is never forgotten after an attempt later than the current keys was started |
| `KeyEventIds.NextEpochMonotoneIff` | crates/contract/src/state/running.rs:116-127 | over a run the next epoch never goes back exactly when no call forgets |
| `KeyEventReuse.ForgettingReuses` | crates/contract/src/state/running.rs:116-127 | from every valid state and at every block height: after a call that forgets a cancelled epoch, any attempt started before with an epoch later than the current keys can be started again |
| `KeyEventReuse.ReusedIff` | crates/contract/src/state/running.rs:36-60 | in a run that never did so before: after a call, some id can be started twice without adding further domains exactly when that call forgets a cancelled epoch although an attempt later than the current keys was started, and then so at every block height |
| `KeyEventReuse.ReusePossible` | crates/contract/src/state/running.rs:36-60 | every running contract that has a domain can get to start some id twice, at every block height and within one block |
| `Progress.CanAdopt` | crates/contract/src/state/running.rs:62-156 | from every running contract, whatever votes are on record and at every block height, every admissible proposal can be brought into force, with the same domains |
| `Progress.CanFinishResharing` | crates/contract/src/state/resharing.rs:115-150 | every resharing, however far it got and whether or not an attempt is still running, can be completed at every block height with the parameters and the epoch it began with |
| `Progress.CanClear` | crates/contract/src/state/key_event.rs:143-158 | an attempt that has not expired can be aborted, since somebody has not voted for it yet |
| `Progress.CanRepropose` | crates/contract/src/state/resharing.rs:51-89 | during every resharing every proposal admissible for the previous participants can replace the current one |
| `Progress.CanCancelResharing` | crates/contract/src/state/resharing.rs:159-182 | every resharing can be cancelled, back to the running state before it with its epoch on record |
| `Progress.CanCancelKeygen` | crates/contract/src/state/initializing.rs:117-143 | every key generation can be cancelled, keeping exactly the domains that have a key |
| `Progress.CanStartAny` | crates/contract/src/state/key_event.rs:65-79 | every attempt at a domain in use, with an epoch not before the next one, can be started |
| `IdSpace.StepStaysConfined` | crates/contract/src/primitives/thresholds.rs:82-134 | two participants of whom one has the last 32-bit id remain the only participants, whatever is called |
| `IdSpace.CanMakeRoom` | crates/contract/src/primitives/thresholds.rs:82-134 | from every other running contract the next id can be made free without anybody joining |
| `IdSpace.JoinIff` | crates/contract/src/primitives/thresholds.rs:82-134 | an outsider can become a participant over some run exactly when the contract is not of that form, and then at every block height |
| `Consent.ProposalAgreed` | crates/contract/src/primitives/votes.rs:16-48 | stored votes stay backed by successful calls, and with the last one every participant of the proposal has voted for it |
| `Consent.RunStaysAgreed` | crates/contract/src/state/running.rs:95-156 | in every run stored votes and the target of a resharing are backed by successful calls |
| `Consent.ParametersNeedConsent` | crates/contract/src/state/running.rs:62-156 | for the phase alone: the parameters in force change only to ones that every one of their participants voted for, or that re-verification by a participant left, or by that participant's own migration, which changes the participant's info alone; `MigrationRuns.ParametersNeedConsent` says to which info |
| `DomainConsent.AdmissibleHolders` | crates/contract/src/primitives/thresholds.rs:82-134 | in an admissible change of the participants no id changes hands |
| `DomainConsent.RemainingOwn` | crates/contract/src/primitives/domain.rs:229-241 | votes on domains, kept by participant id when the participants change, still belong to the accounts that cast them, provided no id changes hands |
| `DomainConsent.RunStaysBacked` | crates/contract/src/state/running.rs:162-199 | in every run a vote on domains recorded under a participant's id was cast by that participant's account |
| `DomainConsent.DomainsNeedConsent` | crates/contract/src/state/running.rs:162-199 | a domain enters the registry only at a vote after which every participant's own account has voted for exactly the domains added |
| `DomainConsent.EveryDomainAgreed` | crates/contract/src/state/running.rs:162-199 | so every domain ever in the registry was there at the beginning or agreed on by all who were participants when it was added |
| `Updates.ProposedUpdates.constructor` | crates/contract/src/update.rs:148-156 | no entries, no votes, first id 0 |
| `Updates.ProposedUpdates.Propose` | crates/contract/src/update.rs:164-171 | stores the update under the next id and moves it on, or fails unchanged when the 64-bit counter is used up |
| `Updates.ProposedUpdates.Vote` | crates/contract/src/update.rs:179-190 | replaces the voter's earlier vote; for an unknown id the earlier vote is removed all the same |
| `Updates.ProposedUpdates.DoUpdate` | crates/contract/src/update.rs:192-224 | hands out the update and clears entries and votes but not the id counter, or does nothing for an unknown id |
| `Updates.ProposedUpdates.RemoveVote` | crates/contract/src/update.rs:227-229 | removes that voter's vote and no other |
| `Updates.ProposedUpdates.RemoveVotes` | crates/contract/src/update.rs:232-236 | removes exactly the votes of these accounts |
| `Updates.ProposedUpdates.RemoveNonParticipantVotes` | crates/contract/src/update.rs:239-250 | keeps exactly the votes of participants |
| `Updates.ProposedUpdates.CountVotes` | crates/contract/src/lib.rs:1290-1301 | counts the participants whose vote is this id |
| `UpdateRuns.StoredVotesAreStanding` | crates/contract/src/update.rs:179-250 | a stored vote is exactly a vote in the call history that nothing has ended since |
| `UpdateRuns.StoredEntriesAreOpen` | crates/contract/src/update.rs:164-224 | a stored entry is exactly a proposal made since the last executed update |
| `UpdateRuns.IdsBelowNext` | crates/contract/src/update.rs:45-51 | after every run each vote names an entry, and every id ever handed out is below the next one |
| `UpdateRuns.IdsNeverReused` | crates/contract/src/update.rs:45-51 | ids increase over the whole run, across updates that clear everything |
| `UpdateRuns.ExecutionNeedsQuorum` | crates/contract/src/lib.rs:1270-1315 | a call executes an update exactly when it is a participant's vote for an open proposal that brings the distinct current participants standing behind it to the threshold |
| `UpdateRuns.RunKeepsNoneReady` | crates/contract/src/lib.rs:1270-1315 | with fixed participants and threshold, no open update ever has enough votes between calls |
| `UpdateRuns.CleanupBisimulation` | crates/contract/src/lib.rs:1514-1530 | while no former participant comes back, newcomers allowed, a run with and without its cleanups ends in states that agree on entries, ids and the votes of everybody who has not left, with the same outcomes |
| `UpdateRuns.CleanupInvisible` | crates/contract/src/lib.rs:1514-1530 | dropping every cleanup changes no result and no executed update in any run where no former participant comes back |
| `Pending.PendingRequests.Add` | crates/contract/src/lib.rs:163-167 | records the new promise for the request, replacing an older one |
| `Pending.PendingRequests.Answer` | crates/contract/src/lib.rs:714-721 | an accepted response takes the entry out and resumes exactly its promise |
| `Pending.PendingRequests.Return` | crates/contract/src/lib.rs:1770-1789 | passes the response on, or removes the entry of the request on a timeout |
| `Pending.RunIsSound` | crates/contract/src/lib.rs:163-193 | after every interleaving the pending map is injective and every pending promise is still waiting for that request, or has expired |
| `Pending.PendingIsLatest` | crates/contract/src/lib.rs:163-167 | a pending entry is always the one its latest request made |
| `Pending.PendingIff` | crates/contract/src/lib.rs:163-193 | an entry is pending exactly when its promise was issued for the request and since then there was no newer issue, no accepted response and no timed-out callback of any promise for it |
| `Pending.ResumesLatest` | crates/contract/src/lib.rs:714-721 | what is resumed belongs to the latest request for what was answered, and the response was accepted |
| `Pending.OverriddenNeverResumed` | crates/contract/src/lib.rs:312-329 | once a newer request has replaced it, a promise is never resumed |
| `Pending.ResumedAtMostOnce` | crates/contract/src/lib.rs:725-747 | no promise is resumed twice |
| `Pending.DeliveredResponse` | crates/contract/src/lib.rs:1795-1814 | a caller only gets a response accepted for its own request, and its delivery removes no pending entry |
| `Pending.TimeoutRemovesNewerIff` | crates/contract/src/lib.rs:1820-1839 | the timeout callback of a promise removes another one's entry exactly when a later call issued a newer promise for the same request and since then nothing replaced it, no response to it was accepted and no promise for it timed out |
| `Pending.NewerRequestLost` | crates/contract/src/lib.rs:1770-1789 | a run in which a waiting request can no longer be answered |
| `ForeignPolicy.CountVotes` | crates/contract/src/lib.rs:1019-1030 | the count reaches the number of participants exactly when all of them voted for this policy |
| `ForeignPolicy.StoredVotesAreStanding` | crates/contract/src/lib.rs:999-1038 | a stored vote is exactly the account's last recorded one since the policy last changed |
| `ForeignPolicy.AppliedNeedsEveryone` | crates/contract/src/lib.rs:999-1038 | the policy changes exactly at a participant's vote after which every participant's last vote is for it, and becomes that policy |
| `ForeignPolicy.NoUnanimityLeft` | crates/contract/src/lib.rs:999-1038 | with the same participants throughout, no unanimous policy is ever left unapplied |
| `Migrations.NodeMigrations.SetBackupServiceInfo` | crates/contract/src/node_migrations.rs:29-31 | sets that account's backup service and nothing else |
| `Migrations.NodeMigrations.SetDestinationNodeInfo` | crates/contract/src/node_migrations.rs:33-40 | sets that account's migration and nothing else |
| `Migrations.NodeMigrations.RemoveAccountData` | crates/contract/src/node_migrations.rs:42-45 | removes both records of the account and nothing else |
| `Migrations.NodeMigrations.RemoveMigration` | crates/contract/src/node_migrations.rs:47-49 | gives back and removes that account's migration |
| `Migrations.NodeMigrations.GetForAccount` | crates/contract/src/node_migrations.rs:51-64 | gives nothing exactly for accounts without a record of either kind |
| `Migrations.NodeMigrations.GetAll` | crates/contract/src/node_migrations.rs:66-86 | is the pointwise join of `GetForAccount` over both maps |
| `Migrations.NodeMigrations.CleanupOrphaned` | crates/contract/src/lib.rs:2091-2112 | removes from both maps exactly the non-participants that have a backup service |
| `Migrations.CleanupLeavesIff` | crates/contract/src/lib.rs:2091-2112 | no participant's records change, and what remains of a former participant is exactly a migration without a backup service |
| `ContractState.VotersAreDistinct` | crates/contract/src/state.rs:180-197 | in a valid contract no account votes twice |
| `ContractRuns.UpdatesNeedQuorum` | crates/contract/src/lib.rs:1270-1315 | over every run of a new contract, with voters and threshold taken from its phase, an update is executed exactly when a participant of the running contract votes for an open proposal and brings the distinct participants standing behind it to the threshold |
| `CleanupRuns.CleanupSeenIff` | crates/contract/src/lib.rs:1514-1530 | some continuation of the contract gives different replies with and without the cleanup exactly when the cleanup has a vote to remove and the contract is not closed to newcomers for good, and then so at every block height |
| `CleanupRuns.ClosedHides` | crates/contract/src/lib.rs:1514-1530 | in a closed contract votes of outsiders never matter |
| `CleanupRuns.RejoiningSeesCleanup` | crates/contract/src/lib.rs:1288-1306 | from a new contract, for every participant that an admissible proposal leaves out: a run after which the cleanup decides a later vote |
| `CleanupRuns.TrioSeesCleanup` | crates/contract/src/lib.rs:1288-1306 | so it is for three participants with threshold two |
| `MigrationRuns.MigrationIsOwn` | crates/contract/src/lib.rs:1974-2004 | over every run a stored migration is the one that the account itself asked for last |
| `MigrationRuns.ParametersNeedConsent` | crates/contract/src/lib.rs:2017-2087 | over every run the parameters in force change only with every new participant's vote, by a participant's re-verification, or when a participant concludes a migration, and then that participant's info becomes the one it itself gave last and nothing else changes |
| `MigrationRuns.OrphanLeftBehind` | crates/contract/src/lib.rs:2091-2112 | from a new contract, for every participant that an admissible proposal leaves out: a run after which its migration survives the cleanup of orphaned ones |
| `MigrationRuns.TrioLeavesOrphan` | crates/contract/src/lib.rs:2091-2112 | so it is for three participants with threshold two |
| `Contract.MpcContract.constructor` | crates/contract/src/lib.rs:1556-1598 | a new contract is valid, without votes or migrations, and accepts requests |
| `Contract.MpcContract.ProposeUpdate` | crates/contract/src/lib.rs:1227-1261 | is that action on the whole state |
| `Contract.MpcContract.VoteUpdate` | crates/contract/src/lib.rs:1270-1315 | is that action on the whole state: a failed vote reverts, and after a counted vote the update is there to execute |
| `Contract.MpcContract.RemoveUpdateVote` | crates/contract/src/lib.rs:1324-1331 | is that action on the whole state |
| `Contract.MpcContract.RemoveNonParticipantUpdateVotes` | crates/contract/src/lib.rs:1514-1530 | is that action on the whole state |
| `Contract.MpcContract.VoteForeignChainPolicy` | crates/contract/src/lib.rs:999-1038 | is that action on the whole state |
| `Contract.MpcContract.RegisterBackupService` | crates/contract/src/lib.rs:1940-1959 | is that action on the whole state: existing and prospective participants only |
| `Contract.MpcContract.StartNodeMigration` | crates/contract/src/lib.rs:1974-2001 | is that action on the whole state: participants of a running contract only |
| `Contract.MpcContract.ConcludeNodeMigration` | crates/contract/src/lib.rs:2017-2087 | is that action on the whole state: with the key and attestation of the recorded destination the participant moves there and the record goes; otherwise everything stays, the record included |
| `Contract.MpcContract.CleanupOrphanedNodeMigrations` | crates/contract/src/lib.rs:2091-2112 | cleans both maps against the accounts known to the phase, and fails only on an uninitialised contract with records |
| `Contract.MpcContract.VoteNewParameters` | crates/contract/src/lib.rs:924-974 | is that action on the whole state: refuses a proposal unless each of its participants has a valid attestation, and otherwise takes one step of the phase and keeps the contract valid |
| `Contract.MpcContract.VoteAddDomains` | crates/contract/src/lib.rs:983-994 | is that action on the whole state and keeps the contract valid |
| `Contract.MpcContract.VerifyTee` | crates/contract/src/lib.rs:1451-1509 | fails only for callers that are no participants; requests are accepted from then on exactly when at least the threshold of participants have a valid attestation |
| `Contract.MpcContract.KeyEventCall` | crates/contract/src/lib.rs:1043-1222 | starts, votes, aborts and cancellations are each that action on the whole state and keep the contract valid |
| `Hex.DecodeOfEncode` | crates/attestation/src/tcb_info.rs:183-187 | printing bytes and reading them back is the identity |
| `Hex.DecodeIff` | crates/attestation/src/tcb_info.rs:89-116 | a string can be read exactly when it is an even number of hex digits; printing the result changes only letter case |
| `Hex.FirstBadCharacter` | crates/attestation/src/tcb_info.rs:89-116 | a failure reports the first character that is no hex digit |
| `Hex.SameBytesIff` | crates/attestation/src/tcb_info.rs:89-116 | two readable strings read the same exactly when they differ at most in letter case |
| `Hex.HexBytesRoundTrip` | crates/attestation/src/tcb_info.rs:89-116 | a fixed-length field is accepted exactly when it has that many digit pairs, and survives both round trips |
| `TcbInfos.InternalRoundTrip` | crates/contract/src/dto_mapping.rs:288-341 | every description survives the trip to the interface and back, a missing image hash included |
| `TcbInfos.InterfaceRoundTrip` | crates/contract/src/dto_mapping.rs:133-202 | a description converts exactly when all its hex fields are well formed, and comes back changed in their letter case only |
| `Felt.ParsedNumber` | crates/foreign-chain-rpc-interfaces/src/starknet.rs:68-77 | a string is accepted exactly when, without its prefix, it is at most 64 hex digits; the 32 bytes stand for the same number |
| `Felt.SameFeltIff` | crates/foreign-chain-rpc-interfaces/src/starknet.rs:68-77 | two accepted strings are equal exactly when they stand for the same number, that is, differ only in prefix, letter case and leading zeros |
| `Replay.VerifyEventLogRtmr3` | crates/attestation/src/attestation.rs:147-183 | the loop accepts exactly logs whose RTMR3 events are all as they claim and chain up to the expected value, and otherwise reports the first failure |
| `Replay.RegisterBinds` | crates/attestation/src/attestation.rs:147-183 | two logs that replay to the same value measured the same bytes in the same order, or strings are given that collide or hash to the zero start value |
| `Replay.SameFieldsIff` | crates/attestation/src/attestation.rs:394-402 | events hashed from the same bytes have the same name and payload exactly when their names are equally long |
| `Replay.ColonFreeNames` | crates/attestation/src/attestation.rs:394-402 | names without a colon, and their payloads, are determined by the bytes |
| `Replay.ColonIsAmbiguous` | crates/attestation/src/attestation.rs:394-402 | with a colon in a name two different events are hashed from the same bytes |
| `Replay.SingleEventIff` | crates/attestation/src/attestation.rs:443-460 | a lookup gives an event exactly when it stands at the only matching position of the log |
| `Replay.OnlyMeasuredMatter` | crates/attestation/src/attestation.rs:153-182 | replay and lookup depend on the RTMR3 events alone |
| `Replay.RegisterFixesPayload` | crates/attestation/src/attestation.rs:147-183 | two logs with the same register value give the same payload for a name that one of them has a single reading of, or the hash is broken |
| `Replay.OneReadingNeeded` | crates/attestation/src/attestation.rs:147-183 | whatever the hash, there are two logs that replay to one register value and give different payloads for one name |
| `Replay.ColonFreeOneReading` | crates/attestation/src/attestation.rs:394-402 | logs whose names have no colon have a single reading of every such name they hold once |
| `Attestation.VerifyAnyMeasurements` | crates/attestation/src/attestation.rs:253-329 | the loop accepts exactly when report and TCB info agree and the measured registers and key-provider digest are one of the accepted sets |
| `Attestation.VerifyAppComposeIff` | crates/attestation/src/attestation.rs:345-376 | the check passes exactly when the measured payload decodes to the hash of the app-compose text and its configuration is the required one; its errors about the payload's form never occur |
| `Attestation.VerifyDstack` | crates/attestation/src/attestation.rs:120-143 | accepts exactly genuine attestations: up-to-date quote, right report data, log replaying to the reported register, app-compose and measurements as above |
| `Attestation.VerifyHash` | crates/mpc-attestation/src/attestation.rs:209-250 | accepts exactly listed hashes |
| `Attestation.Verify` | crates/mpc-attestation/src/attestation.rs:127-207 | accepts an attestation exactly when it is genuine, both its hashes are allowed and its expiry time fits 64 bits, and then stores exactly its hashes and that time; a mock exactly when each constraint it sets holds |
| `Attestation.VerifyDstackIff` | crates/mpc-attestation/src/attestation.rs:127-207 | what is stored on acceptance, and that acceptance is exactly genuineness, both hashes allowed and an expiry time within 64 bits |
| `Attestation.ReVerifiesForAWeek` | crates/mpc-attestation/src/attestation.rs:77-113 | an attestation accepted at t passes again at t' exactly when t' is at most t + 604800 and both hashes are on the current lists |
| `Attestation.VerifyMockIff` | crates/mpc-attestation/src/attestation.rs:252-307 | a mock passes exactly when each constraint it sets holds |
| `Attestation.AcceptedReVerifies` | crates/mpc-attestation/src/attestation.rs:77-207 | what was just accepted passes re-verification under the same inputs |
| `Attestation.ReVerifyMonotone` | crates/mpc-attestation/src/attestation.rs:77-113 | re-verification is monotone in both lists and anti-monotone in time |
| `Attestation.OnlyMeasuredEventsMatter` | crates/mpc-attestation/src/attestation.rs:127-207 | the whole result, errors included, depends on the RTMR3 events of the log alone |
| `Attestation.RegisterBindsIdentity` | crates/mpc-attestation/src/attestation.rs:127-207 | two attestations accepted at any times under any policies with the same reported RTMR3 value have the same app-compose text, image hash and launcher hash, or strings are given that break a hash |
| `Funding.FromExisting` | crates/devnet/src/funding.rs:35-43 | its refill bound is at most the desired balance |
| `Funding.NeedNeverUnderflows` | crates/devnet/src/funding.rs:78-93 | no need underflows for such entries, and a positive need is exactly what is missing |
| `FundingRuns.IterationKeepsSound` | crates/devnet/src/funding.rs:105-210 | one turn keeps the books: conservation per account, order of requests, reserves of all funders, new accounts distinct |
| `FundingRuns.RunIsSound` | crates/devnet/src/funding.rs:105-210 | so does every run, whatever the faucet answers |
| `FundingRuns.FinishedRunDelivers` | crates/devnet/src/funding.rs:105-210 | a finished run returns the accounts in request order, everything sent for a request went to its account and adds up to exactly its need, and every funder keeps the reserve |
| `FundingRuns.ProgressIff` | crates/devnet/src/funding.rs:105-160 | a turn lowers (total need, entries, sources) lexicographically exactly when there is a source in the queue or the one obtained has the reserve to spend |
| `FundingRuns.RunIsBounded` | crates/devnet/src/funding.rs:105-210 | when every source obtained has the reserve to spend, a run has at most twice the entries plus the sources plus the total need over the reserve turns |
| `FundingEnds.ExhaustedAccountSpins` | crates/devnet/src/funding.rs:105-160 | with an exhausted configured account and no other source no number of turns changes anything but the list of drained accounts |
| `FundingEnds.EndsIff` | crates/devnet/src/funding.rs:105-210 | with a configured account the runs from a state are bounded exactly when its balance lasts for what the queued sources leave over, which is a computation on balances and needs alone |
| `FundingEnds.SufficesIff` | crates/devnet/src/funding.rs:105-210 | for a configured account that is neither queued nor to be funded: its balance lasts exactly when it covers what the queue leaves over |
| `FundingEnds.CoversIff` | crates/devnet/src/funding.rs:148-165 | covering needs means having enough for all of them, and the reserve besides for all but the last |
| `FundingEnds.CoveringSuffices` | crates/devnet/src/funding.rs:105-210 | an account that covers all the needs lasts whatever sources are queued, itself included |
| `FundingEnds.OwnRequestIsFree` | crates/devnet/src/funding.rs:162-209 | an account that is to be funded itself can last without covering all the needs |
| `FundingEnds.BalancesDecide` | crates/devnet/src/funding.rs:49-210 | both, from the request list and the balances before the loop |
| `FundingEnds.OwingNothingSpins` | crates/devnet/src/funding.rs:105-160 | a request whose account needs nothing, with an empty configured account and no other source, keeps the loop turning forever |
| `FundAccounts.ComputeNeeds` | crates/devnet/src/funding.rs:77-95 | the needs of all entries in order, or failure if one cannot be computed |
| `FundAccounts.UsableBalances` | crates/devnet/src/funding.rs:54-70 | each source with what it can spend beyond the reserve |
| `FundAccounts.Refill` | crates/devnet/src/funding.rs:106-146 | the configured account again, or a new one from the faucet |
| `FundAccounts.PayFirst` | crates/devnet/src/funding.rs:162-209 | pays what the first source can of the first entry and puts back whichever is not used up |
| `FundAccounts.Turn` | crates/devnet/src/funding.rs:105-210 | one turn on the queues and the chain is one iteration of the specification and keeps the loop's invariant |
| `FundAccounts.FundAll` | crates/devnet/src/funding.rs:49-210 | refuses exactly when a need cannot be computed or more than 100 NEAR are asked for; otherwise the books are sound, and it ends with everything delivered, or spins at an exhausted configured account, or finds the faucet dry; with a configured account everything is delivered exactly when its balance before the call lasts, in closed form unless it is to be funded itself; a good faucet with as many accounts as the bound on turns never runs dry |
| `RunnerTrace.RunIsTidy` | crates/mpc-server/src/protocol.rs:32-89 | in every run outputs are the returns of the trace, and nobody is poked after returning |
| `RunnerTrace.FinishedOutputs` | crates/mpc-server/src/protocol.rs:32-89 | a finished run had distinct participants and its output holds each exactly once, with the value it returned |
| `RunnerTrace.BroadcastReaches` | crates/mpc-server/src/protocol.rs:57-63 | a broadcast reaches every other party once and not its sender |
| `RunnerTrace.DeliveredAsTraced` | crates/mpc-server/src/protocol.rs:32-89 | with distinct participants each party's state comes from its own pokes and exactly the messages addressed to it in the trace, in order |
| `Runners.RunCapturing` | crates/mpc-server/src/protocol.rs:17-90 | the nested loops give the outputs of the scheduler and the events of its trace |
| `Runners.RunInstrumented` | crates/mpc-demo-cli/src/protocol.rs:22-103 | the nested loops give the outputs of the scheduler and counters over its trace |
| `Runners.CountersAreFold` | crates/mpc-demo-cli/src/protocol.rs:9-14 | the counters are the fold of the recorded events: messages by kind, and bytes times recipients |
| `Runners.RunBoth` | crates/mpc-demo-cli/src/protocol.rs:22-103 | both runners end the same way with the same outputs, and one's counters are the fold of the other's events |
| `Manifests.BackoffNext` | tee_launcher/launcher.py:652-655 | the sleeps follow the closed form: the given interval, then at least one second growing by half up to a minute |
| `Manifests.RequestUntilSuccess` | tee_launcher/launcher.py:630-678 | gives the first answer with status 200 within the attempts, all earlier ones having failed, and gives up exactly when all fail |
| `Manifests.ScanIndex` | tee_launcher/launcher.py:725-731 | queues exactly the digests for amd64/linux in order, and raises exactly when an entry cannot be read |
| `Manifests.Visit` | tee_launcher/launcher.py:705-743 | one tag ends the search or queues its children |
| `Manifests.GetManifestDigest` | tee_launcher/launcher.py:681-744 | the queue finds what a search level by level finds: the first hit or exception in breadth-first order |
| `Manifests.StopsIffEnds` | tee_launcher/launcher.py:705-744 | the queue loop stops exactly when the level search ends |
| `Manifests.AcyclicEnds` | tee_launcher/launcher.py:705-744 | it ends on every registry whose indexes do not refer back to themselves |
| `Manifests.EndsIffOnGraph` | tee_launcher/launcher.py:705-744 | it ends exactly when some path leads to the wanted image or to an exception, or paths do not get arbitrarily long |
| `Manifests.FoundIsNearest` | tee_launcher/launcher.py:705-744 | what is found lies at the end of a path through amd64/linux index entries, and no shorter path ends the search |
| `Manifests.NotFoundIff` | tee_launcher/launcher.py:705-744 | nothing is found exactly when no path leads to the wanted image or to an exception |
| `AccessKeys.RoundsDouble` | crates/devnet/src/account.rs:312-347 | after k rounds there are as many keys as desired or the initial number doubled k times, whichever is less |
| `AccessKeys.ReachedIff` | crates/devnet/src/account.rs:312-347 | the desired number is reached exactly when there is a key to start from or none is wanted |
| `AccessKeys.OperatingAccount.constructor` | crates/devnet/src/account.rs:52-74 | usable keys and stored keys start out the same, place by place |
| `AccessKeys.OperatingAccount.Round` | crates/devnet/src/account.rs:322-346 | each of the first keys adds one new key, and both lists stay aligned |
| `AccessKeys.OperatingAccount.EnsureHaveNAccessKeys` | crates/devnet/src/account.rs:312-353 | ends with the desired number of keys after the least number of doublings that reaches it, earlier keys untouched, each new key added by an earlier one |

## Left out

- FundAll: the faucet is a finite supply of accounts, and instead of turning forever on an exhausted configured account the method returns `Spins`.
- RunCapturing: takes fuel, because a protocol whose parties all wait would keep it going forever; a run of any length is covered by enough fuel. The same holds for RunInstrumented.
- GetManifestDigest: the registry gives the same answers for a tag whenever it is asked during one search. The search is asked to end, because the source's loop does not end otherwise; `StopsIffEnds` states that nothing else is shut out.
- EnsureHaveNAccessKeys: asks for a key to start from, because the source's loop does not end without one when keys are wanted; `ReachedIff` states it.
- Transaction fees, the local record of operating accounts and the removal of drained accounts after the funding loop.
- The mathematics of key generation and signing, and the verification of signatures, quotes and certificates.
- Votes on image and launcher hashes, storage of attestations by TLS key, and the expiry of allowed hashes.
- Gas, deposits and refunds beyond the one flag whether a deposit covers an update, and events written to the log.
- Contract migration between versions, configuration fields, and the read-only views.
- Fetching the registry token before a manifest search.
- Reading the JSON of registry manifests and app-compose files beyond what is present or missing.
- Docker commands, environment filtering and platform checks of the launcher.
- Frontends, HTTP routes, command lines, RPC clients, load tests and deployment.
