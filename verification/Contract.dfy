/** The contract object: its fields, and the calls that change them in place. A call that fails
    leaves every field as it was. */
module Contract {
  import opened Common
  import opened Parameters
  import opened Domains
  import opened KeyEvents
  import opened Lifecycle
  import opened LifecycleSafety
  import opened ContractState
  import U = Updates
  import F = ForeignPolicy
  import M = Migrations

  /** Counting the members that pass decides whether all do. */
  lemma {:induction false} KeepsAll(ms: seq<Participant>, valid: set<AccountId>)
    ensures |KeepValid(ms, valid)| <= |ms|
    ensures |KeepValid(ms, valid)| == |ms| <==> Accounts(ms) <= valid
  {
    if ms != [] {
      assert ms == [ms[0]] + ms[1..];
      KeepsAll(ms[1..], valid);
      assert Accounts(ms) == {ms[0].account} + Accounts(ms[1..]);
    }
  }

  class MpcContract {
    var protocol: Phase
    const updates: U.ProposedUpdates
    var foreignChainPolicy: F.Policy
    var policyVotes: map<AccountId, F.Policy>
    const migrations: M.NodeMigrations
    var acceptRequests: bool

    constructor (parameters: ThresholdParameters)
      requires ValidParameters(parameters)
      ensures Initial(View()) && Ok(protocol) == Init(parameters) && acceptRequests
      ensures fresh(updates) && fresh(migrations)
    {
      InitIsValid(parameters);
      protocol := Running(NewRunning(EMPTY_REGISTRY, Keyset(0, []), parameters, map[]));
      foreignChainPolicy, policyVotes := map[], map[];
      updates := new U.ProposedUpdates();
      migrations := new M.NodeMigrations();
      acceptRequests := true;
    }

    ghost function View(): Whole
      reads this, updates, migrations
    {
      Whole(protocol, updates.State(), F.PolicyState(foreignChainPolicy, policyVotes),
            migrations.backupServicesInfo, migrations.ongoingMigrations)
    }

    // ---------- updates ----------

    method ProposeUpdate(caller: AccountId, args: U.ProposeUpdateArgs, depositCovered: bool)
      returns (r: Option<U.UpdateId>)
      modifies updates
      ensures (View(), Answered(if r.Some? then U.Proposed(r.value) else U.Rejected)) ==
              Act(old(View()), OnUpdates(caller, U.ProposeUpdate(args, depositCovered)))
    {
      if caller !in UpdateContext(protocol).voters { return None; }
      var update := U.ToUpdate(args);
      if update.None? || !depositCovered { return None; }
      r := updates.Propose(update.value);
    }

    /** The vote has removed the caller's earlier vote before it finds the id missing; failing then
        puts it back. After a counted vote the entry is there, so the update always goes through. */
    method VoteUpdate(caller: AccountId, id: U.UpdateId) returns (out: U.Outcome)
      modifies updates
      ensures (View(), Answered(out)) == Act(old(View()), OnUpdates(caller, U.VoteUpdate(id)))
    {
      if !protocol.Running? { return U.Rejected; }
      var ctx := UpdateContext(protocol);
      if caller !in ctx.voters { return U.Rejected; }
      var snapshot := updates.voteByParticipant;
      var ok := updates.Vote(id, caller);
      if !ok {
        updates.voteByParticipant := snapshot;
        return U.Rejected;
      }
      var n := updates.CountVotes(ctx.voters, id);
      if n < ctx.threshold { return U.Recorded; }
      var executed := updates.DoUpdate(id);
      assert executed.Some?;
      out := U.Executed(id, executed.value);
    }

    method RemoveUpdateVote(caller: AccountId) returns (ok: bool)
      modifies updates
      ensures (View(), Answered(if ok then U.VoteRemoved else U.Rejected)) ==
              Act(old(View()), OnUpdates(caller, U.RemoveUpdateVote))
    {
      if !protocol.Running? || caller !in UpdateContext(protocol).voters { return false; }
      updates.RemoveVote(caller);
      ok := true;
    }

    method RemoveNonParticipantUpdateVotes(caller: AccountId) returns (ok: bool)
      modifies updates
      ensures (View(), Answered(if ok then U.Cleaned else U.Rejected)) ==
              Act(old(View()), OnUpdates(caller, U.RemoveNonParticipantUpdateVotes))
    {
      if !protocol.Running? { return false; }
      updates.RemoveNonParticipantVotes(UpdateContext(protocol).voters);
      ok := true;
    }

    // ---------- foreign-chain policy ----------

    method VoteForeignChainPolicy(caller: AccountId, policy: F.Policy) returns (ok: bool)
      modifies this`foreignChainPolicy, this`policyVotes
      ensures (View(), if ok then Done else Failed) == Act(old(View()), OnPolicy(caller, policy))
    {
      var participants := AccountList(VotersOf(protocol).Members());
      if !protocol.Running? || caller !in participants { return false; }
      policyVotes := policyVotes[caller := policy];
      var n := F.CountVotes(participants, policyVotes, policy);
      if n == |participants| {
        foreignChainPolicy := policy;
        policyVotes := map[];
      }
      ok := true;
    }

    // ---------- node migrations ----------

    method RegisterBackupService(caller: AccountId, info: M.BackupServiceInfo) returns (ok: bool)
      modifies migrations
      ensures (View(), if ok then Done else Failed) == Act(old(View()), Action.RegisterBackupService(caller, info))
    {
      if caller !in KnownAccounts(protocol) { return false; }
      migrations.SetBackupServiceInfo(caller, info);
      ok := true;
    }

    method StartNodeMigration(caller: AccountId, destination: M.DestinationNodeInfo) returns (ok: bool)
      modifies migrations
      ensures (View(), if ok then Done else Failed) == Act(old(View()), Action.StartNodeMigration(caller, destination))
    {
      if !protocol.Running? || caller !in Accounts(protocol.run.parameters.Members()) { return false; }
      migrations.SetDestinationNodeInfo(caller, destination);
      ok := true;
    }

    /** The phase with the signer moved to the destination, if everything about it is in order. */
    method Moved(env: Env, destination: Option<M.DestinationNodeInfo>, signerKey: string, keyset: Keyset,
                 attested: bool)
      returns (s: Option<Phase>)
      ensures var r := Step(protocol, env, ConclusionOf(destination, signerKey, keyset, attested));
              s == if r.Ok? then Some(r.value) else None
    {
      if !protocol.Running? || env.signer !in Accounts(protocol.run.parameters.Members()) { return None; }
      if protocol.run.keyset != keyset { return None; }
      if destination.None? || destination.value.signerKey != signerKey || !attested { return None; }
      var r := protocol.run;
      var ps := r.parameters.participants;
      s := Some(Running(r.(parameters := r.parameters.(participants := ps.(
        members := UpdateInfo(ps.members, env.signer, destination.value.info))))));
    }

    /** The record is taken out before it is looked at; a failure after that puts it back. */
    method ConcludeNodeMigration(env: Env, signerKey: string, keyset: Keyset, destinationAttested: bool)
      returns (ok: bool)
      requires Valid(protocol)
      modifies this`protocol, migrations
      ensures Valid(protocol)
      ensures (View(), if ok then Done else Failed) ==
              Act(old(View()), Action.ConcludeNodeMigration(env, signerKey, keyset, destinationAttested))
    {
      var snapshot := migrations.ongoingMigrations;
      var destination := migrations.RemoveMigration(env.signer);
      StepKeepsValid(protocol, env, ConclusionOf(destination, signerKey, keyset, destinationAttested));
      var s := Moved(env, destination, signerKey, keyset, destinationAttested);
      if s.None? {
        migrations.ongoingMigrations := snapshot;
        return false;
      }
      protocol := s.value;
      ok := true;
    }

    /** Fails on an uninitialised contract that has a backup record to look at. */
    method CleanupOrphanedNodeMigrations() returns (ok: bool)
      modifies migrations
      ensures (View(), if ok then Done else Failed) == Act(old(View()), Action.CleanupOrphanedNodeMigrations)
    {
      if protocol.NotInitialized? && migrations.backupServicesInfo != map[] {
        assert migrations.backupServicesInfo.Keys != {};
        return false;
      }
      migrations.CleanupOrphaned(KnownAccounts(protocol));
      ok := true;
    }

    // ---------- protocol phases ----------

    predicate Attested(env: Env)
      reads this
    {
      env.attested && env.signer in Accounts(ActiveParticipants(protocol))
    }

    /** Checks and records a parameter vote on the running record `r`. */
    method Process(r: RunningState, env: Env, proposal: ThresholdParameters)
      returns (out: Result<(RunningState, bool), Error>)
      requires ValidRunning(r)
      ensures out == ProcessProposal(r, env, proposal)
    {
      var admissible := ValidateIncomingProposal(r.parameters, proposal);
      if !admissible { return Err(InvalidProposal); }
      if env.signer !in Accounts(proposal.Members()) { return Err(NotParticipant); }
      var current := Accounts(r.parameters.Members());
      if env.signer !in current && |Supporters(r.parametersVotes, proposal) * current| < r.parameters.threshold {
        return Err(VoterPending);
      }
      var votes := r.parametersVotes[env.signer := proposal];
      out := Ok((r.(parametersVotes := votes), |Supporters(votes, proposal)| == |proposal.Members()|));
    }

    /** A vote on a running contract; the result is the phase to move to. */
    method VoteWhileRunning(r: RunningState, env: Env, epoch: EpochId, proposal: ThresholdParameters)
      returns (out: Result<Phase, Error>)
      requires ValidRunning(r)
      ensures out == RunningVoteNewParameters(r, env, epoch, proposal)
    {
      if epoch != ProspectiveEpoch(r) { return Err(EpochMismatch); }
      var res := Process(r, env, proposal);
      if res.Err? { return Err(res.error); }
      out := Ok(if res.value.1 then TransitionToResharing(res.value.0, proposal) else Running(res.value.0));
    }

    /** A vote for a different proposal while one is being reshared to. */
    method VoteWhileResharing(x: ResharingState, env: Env, epoch: EpochId, proposal: ThresholdParameters)
      returns (out: Result<Phase, Error>)
      requires ValidResharing(x)
      ensures out == ReshareVoteNewParameters(x, env, epoch, proposal)
    {
      if epoch != x.resharingKey.epoch + 1 { return Err(EpochMismatch); }
      var res := Process(x.previous, env, proposal);
      if res.Err? { return Err(res.error); }
      var prev := res.value.0;
      if !res.value.1 { return Ok(Resharing(x.(previous := prev))); }
      out := Ok(Resharing(ResharingState(
        NewRunning(prev.domains, prev.keyset, prev.parameters, prev.addDomainsVotes), [],
        NewKeyEvent(x.resharingKey.epoch + 1, prev.domains.domains[0], proposal), {})));
    }

    /** `valid` holds the accounts with a valid attestation: a proposal with any other is refused. */
    method VoteNewParameters(env: Env, epoch: EpochId, proposal: ThresholdParameters, valid: set<AccountId>)
      returns (ok: bool)
      requires Valid(protocol)
      modifies this`protocol
      ensures Valid(protocol)
      ensures (View(), if ok then Done else Failed) ==
              Act(old(View()), OnPhase(env, Call.VoteNewParameters(epoch, proposal,
                Accounts(proposal.Members()) <= valid)))
    {
      StepKeepsValid(protocol, env, Call.VoteNewParameters(epoch, proposal, Accounts(proposal.Members()) <= valid));
      KeepsAll(proposal.Members(), valid);
      if |KeepValid(proposal.Members(), valid)| != |proposal.Members()| { return false; }
      var out := VoteAttested(env, epoch, proposal);
      if out.Err? { return false; }
      protocol := out.value;
      ok := true;
    }

    /** A vote for a proposal whose participants are all attested. */
    method VoteAttested(env: Env, epoch: EpochId, proposal: ThresholdParameters) returns (out: Result<Phase, Error>)
      requires Valid(protocol)
      ensures out == Step(protocol, env, Call.VoteNewParameters(epoch, proposal, true))
    {
      match protocol {
        case Running(r) => out := VoteWhileRunning(r, env, epoch, proposal);
        case Resharing(x) => out := VoteWhileResharing(x, env, epoch, proposal);
        case _ => out := Err(ProtocolState);
      }
    }

    method VoteAddDomains(env: Env, ds: seq<DomainConfig>) returns (ok: bool)
      requires Valid(protocol)
      modifies this`protocol
      ensures Valid(protocol)
      ensures (View(), if ok then Done else Failed) == Act(old(View()), OnPhase(env, Call.VoteAddDomains(ds)))
    {
      StepKeepsValid(protocol, env, Call.VoteAddDomains(ds));
      if !protocol.Running? || ds == [] { return false; }
      for i := 0 to |ds|
        invariant forall k :: 0 <= k < i ==> ValidSchemeForPurpose(ds[k])
      {
        if !ValidSchemeForPurpose(ds[i]) {
          assert ds[i] in ds;
          return false;
        }
      }
      var r := protocol.run;
      var me := FindId(r.parameters.Members(), env.signer);
      if me.None? { return false; }
      var votes := r.addDomainsVotes[me.value := ds];
      if |Supporters(votes, ds)| != |r.parameters.Members()| {
        protocol := Running(r.(addDomainsVotes := votes));
        return true;
      }
      var extended := AddDomains(r.domains, ds);
      if extended.None? { return false; }
      protocol := Initializing(InitializingState(extended.value, r.keyset.epoch, r.keyset.domains,
                                                 NewKeyEvent(r.keyset.epoch, ds[0], r.parameters), {}));
      ok := true;
    }

    /** Re-verification. Requests are accepted again exactly when at least `threshold` participants
        have a valid attestation; the call succeeds for every participant. */
    method VerifyTee(env: Env, valid: set<AccountId>) returns (r: Option<bool>)
      requires Valid(protocol)
      modifies this`protocol, this`acceptRequests
      ensures Valid(protocol)
      ensures r.Some? <==> old(protocol).Running? && env.signer in Accounts(old(protocol).run.parameters.Members())
      ensures (View(), if r.Some? then Done else Failed) == Act(old(View()), OnPhase(env, Call.VerifyTee(valid)))
      ensures r.Some? ==> acceptRequests == r.value
                          == (|KeepValid(old(protocol).run.parameters.Members(), valid)| >=
                            old(protocol).run.parameters.threshold)
      ensures r.None? ==> acceptRequests == old(acceptRequests)
    {
      StepKeepsValid(protocol, env, Call.VerifyTee(valid));
      if !protocol.Running? || env.signer !in Accounts(protocol.run.parameters.Members()) { return None; }
      var p := protocol.run.parameters;
      VerifyTeeSucceeds(protocol.run, env, valid);
      var kept := KeepValid(p.Members(), valid);
      if |kept| == |p.Members()| {
        acceptRequests := true;
        return Some(true);
      }
      if p.threshold > |kept| {
        acceptRequests := false;
        return Some(false);
      }
      acceptRequests := true;
      protocol := TransitionToResharing(protocol.run,
        ThresholdParameters(Participants(p.participants.nextId, kept), p.threshold));
      r := Some(true);
    }

    method KeyEventStep(env: Env, c: Call) returns (s: Result<Phase, Error>)
      requires NeedsAttestation(c) || c.VoteCancelResharing? || c.VoteCancelKeygen?
      ensures s == Step(protocol, env, c)
    {
      if NeedsAttestation(c) && !Attested(env) { return Err(NotAttested); }
      s := Err(ProtocolState);
      match protocol {
        case Initializing(i) => s := StepInitializing(i, env, c);
        case Resharing(x) => s := ReshareKeyEvent(x, env, c);
        case _ =>
      }
    }

    /** Calls on a key event: start, success votes, aborts and cancellations. */
    method KeyEventCall(env: Env, c: Call) returns (ok: bool)
      requires Valid(protocol)
      requires NeedsAttestation(c) || c.VoteCancelResharing? || c.VoteCancelKeygen?
      modifies this`protocol
      ensures Valid(protocol)
      ensures (View(), if ok then Done else Failed) == Act(old(View()), OnPhase(env, c))
    {
      StepKeepsValid(protocol, env, c);
      var s := KeyEventStep(env, c);
      if s.Err? { return false; }
      protocol := s.value;
      ok := true;
    }
  }
}
