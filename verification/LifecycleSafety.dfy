/** What every contract call keeps, whatever the phase: the invariant of the protocol phases, the
    quorums behind each transition, and the stability of the public keys. */
module LifecycleSafety {
  import opened Common
  import opened Parameters
  import opened Domains
  import opened KeyEvents
  import opened Lifecycle

  // ---------- the invariant ----------

  /** Every recorded parameter vote is cast by a member of the proposal it backs. */
  ghost predicate ValidVotes(votes: map<AccountId, ThresholdParameters>) {
    forall a :: a in votes ==> ValidParameters(votes[a]) && a in Accounts(votes[a].Members())
  }

  ghost predicate ValidRunning(r: RunningState) {
    && WellFormed(r.domains)
    && SameDomains(r.keyset.domains, r.domains.domains)
    && ValidParameters(r.parameters)
    && ValidVotes(r.parametersVotes)
    && r.addDomainsVotes.Keys <= Ids(r.parameters.Members())
    && (r.cancelledEpoch.Some? ==> r.keyset.epoch < r.cancelledEpoch.value && r.domains.domains != [])
  }

  ghost predicate ValidInitializing(s: InitializingState) {
    var n := |s.generatedKeys|;
    && WellFormed(s.domains)
    && n < |s.domains.domains|
    && SameDomains(s.generatedKeys, s.domains.domains[..n])
    && ValidKeyEvent(s.generatingKey)
    && s.generatingKey.domain == s.domains.domains[n]
    && s.generatingKey.epoch == s.epoch
    && s.cancelVotes <= Ids(s.generatingKey.parameters.Members())
    && |s.cancelVotes| < s.generatingKey.parameters.threshold
  }

  /** Same domain and same public key, whatever the attempt that produced the shares. */
  predicate SameKey(a: KeyForDomain, b: KeyForDomain) {
    a.domain == b.domain && a.key == b.key
  }

  predicate KeyPrefix(a: seq<KeyForDomain>, b: seq<KeyForDomain>) {
    |a| <= |b| && forall i :: 0 <= i < |a| ==> SameKey(a[i], b[i])
  }

  ghost predicate ValidResharing(s: ResharingState) {
    var n := |s.resharedKeys|;
    && ValidRunning(s.previous) && s.previous.cancelledEpoch.None?
    && n < |s.previous.domains.domains|
    && KeyPrefix(s.resharedKeys, s.previous.keyset.domains)
    && ValidKeyEvent(s.resharingKey)
    && s.resharingKey.domain == s.previous.domains.domains[n]
    && s.previous.keyset.epoch < s.resharingKey.epoch
    && s.cancellationRequests <= Accounts(s.previous.parameters.Members())
    && |s.cancellationRequests| < s.previous.parameters.threshold
  }

  ghost predicate Valid(s: Phase) {
    match s
    case NotInitialized => true
    case Initializing(i) => ValidInitializing(i)
    case Running(r) => ValidRunning(r)
    case Resharing(x) => ValidResharing(x)
  }

  lemma InitIsValid(parameters: ThresholdParameters)
    ensures Init(parameters).Ok? ==> Valid(Init(parameters).value)
  {
  }

  lemma InitRunningIsValid(domains: DomainRegistry, keyset: Keyset, parameters: ThresholdParameters)
    ensures InitRunning(domains, keyset, parameters).Ok? ==> Valid(InitRunning(domains, keyset, parameters).value)
  {
  }

  // ---------- quorums ----------

  /** A proposal is accepted exactly when every one of its participants backs it; at least
      `threshold` of them are participants now. */
  lemma AcceptedMeansEveryone(r: RunningState, env: Env, proposal: ThresholdParameters)
    requires ValidRunning(r)
    requires ProcessProposal(r, env, proposal).Ok?
    ensures var (r', accepted) := ProcessProposal(r, env, proposal).value;
            && ValidRunning(r')
            && (accepted <==> Supporters(r'.parametersVotes, proposal) == Accounts(proposal.Members()))
            && (accepted ==>
                  |Supporters(r'.parametersVotes, proposal) * Accounts(r.parameters.Members())| >=
                    r.parameters.threshold)
  {
    var (r', accepted) := ProcessProposal(r, env, proposal).value;
    var backers := Supporters(r'.parametersVotes, proposal);
    assert backers <= Accounts(proposal.Members());
    DistinctCardinality(proposal.Members());
    SubsetCardinality(backers, Accounts(proposal.Members()));
  }

  /** Key generation for new domains starts only when every current participant voted for exactly
      these domains. */
  lemma AddDomainsNeedsEveryone(r: RunningState, env: Env, ds: seq<DomainConfig>)
    requires ValidRunning(r)
    requires RunningVoteAddDomains(r, env, ds).Ok?
    ensures var s := RunningVoteAddDomains(r, env, ds).value;
            var me := FindId(r.parameters.Members(), env.signer);
            && me.Some?
            && (s.Initializing? <==> forall x :: x in Ids(r.parameters.Members()) && x != me.value ==>
                                       x in r.addDomainsVotes && r.addDomainsVotes[x] == ds)
  {
    var me := FindId(r.parameters.Members(), env.signer);
    var votes := r.addDomainsVotes[me.value := ds];
    var all := Ids(r.parameters.Members());
    assert Supporters(votes, ds) <= all;
    DistinctCardinality(r.parameters.Members());
    SubsetCardinality(Supporters(votes, ds), all);
    if Supporters(votes, ds) == all {
      forall x | x in all && x != me.value ensures x in r.addDomainsVotes && r.addDomainsVotes[x] == ds {
        assert x in Supporters(votes, ds);
      }
    } else {
      var x :| x in all && x !in Supporters(votes, ds);
      assert x != me.value;
    }
  }

  // ---------- the invariant is kept ----------

  lemma TransitionIsValid(r: RunningState, proposal: ThresholdParameters)
    requires ValidRunning(r)
    ensures ValidParameters(proposal) ==> Valid(TransitionToResharing(r, proposal))
  {
  }

  lemma {:induction false} KeepValidMembers(ms: seq<Participant>, valid: set<AccountId>)
    ensures var kept := KeepValid(ms, valid);
            && |kept| <= |ms|
            && forall p :: p in kept ==> p in ms && p.account in valid
  {
    if ms != [] {
      KeepValidMembers(ms[1..], valid);
    }
  }

  lemma {:induction false} KeepValidDistinct(ms: seq<Participant>, valid: set<AccountId>)
    requires DistinctAccounts(ms) && DistinctIds(ms)
    ensures var kept := KeepValid(ms, valid); DistinctAccounts(kept) && DistinctIds(kept)
  {
    if ms != [] {
      var rest := KeepValid(ms[1..], valid);
      KeepValidDistinct(ms[1..], valid);
      KeepValidMembers(ms[1..], valid);
      forall i | 0 <= i < |rest| ensures rest[i].account != ms[0].account && rest[i].id != ms[0].id {
        assert rest[i] in ms[1..];
        var j :| 0 <= j < |ms[1..]| && ms[1..][j] == rest[i];
        assert ms[j + 1] == rest[i];
      }
    }
  }

  /** The resharing forced by `verify_tee` is always admissible, so a participant's call on a
      running contract neither panics nor fails. */
  lemma VerifyTeeSucceeds(r: RunningState, env: Env, valid: set<AccountId>)
    requires ValidRunning(r)
    requires env.signer in Accounts(r.parameters.Members())
    ensures RunningVerifyTee(r, env, valid).Ok?
  {
    var ms := r.parameters.Members();
    var kept := KeepValid(ms, valid);
    KeepValidMembers(ms, valid);
    KeepValidDistinct(ms, valid);
    if r.parameters.threshold <= |kept| < |ms| {
      var proposal := ThresholdParameters(Participants(r.parameters.participants.nextId, kept), r.parameters.threshold);
      assert ValidParameters(proposal);
      forall p | p in kept ensures KeepsIdentity(ms, p) { assert p in ms; }
      DistinctCardinality(kept);
      assert Accounts(kept) * Accounts(ms) == Accounts(kept);
      assert NewIds(kept, Accounts(ms)) == {};
      assert Admissible(r.parameters, proposal);
    }
  }

  lemma UpdateInfoIsValid(t: ThresholdParameters, account: AccountId, info: ParticipantInfo)
    requires ValidParameters(t)
    ensures var ms := UpdateInfo(t.Members(), account, info);
            && ValidParameters(t.(participants := t.participants.(members := ms)))
            && Ids(ms) == Ids(t.Members()) && Accounts(ms) == Accounts(t.Members())
  {
  }

  lemma RunningStepsAreValid(r: RunningState, env: Env, c: Call)
    requires ValidRunning(r)
    ensures var s := StepRunning(r, env, c); s.Ok? ==> Valid(s.value)
  {
    var s := StepRunning(r, env, c);
    if s.Ok? {
      match c
      case VoteNewParameters(epoch, proposal, _) => ParametersVoteIsValid(r, env, epoch, proposal);
      case VerifyTee(valid) => VerifyTeeIsValid(r, env, valid);
      case ConcludeMigration(keyset, info, ready) => MigrationIsValid(r, env, keyset, info, ready);
      case VoteAddDomains(ds) =>
        if s.value.Initializing? {
          AddDomainsIsValid(r, env, ds);
        }
      case _ =>
    }
  }

  lemma ParametersVoteIsValid(r: RunningState, env: Env, epoch: EpochId, proposal: ThresholdParameters)
    requires ValidRunning(r) && RunningVoteNewParameters(r, env, epoch, proposal).Ok?
    ensures Valid(RunningVoteNewParameters(r, env, epoch, proposal).value)
  {
    AcceptedMeansEveryone(r, env, proposal);
    TransitionIsValid(ProcessProposal(r, env, proposal).value.0, proposal);
  }

  lemma VerifyTeeIsValid(r: RunningState, env: Env, valid: set<AccountId>)
    requires ValidRunning(r) && RunningVerifyTee(r, env, valid).Ok?
    ensures Valid(RunningVerifyTee(r, env, valid).value)
  {
    var kept := KeepValid(r.parameters.Members(), valid);
    TransitionIsValid(r, ThresholdParameters(Participants(r.parameters.participants.nextId, kept),
                                             r.parameters.threshold));
  }

  lemma MigrationIsValid(r: RunningState, env: Env, keyset: Keyset, info: ParticipantInfo, ready: bool)
    requires ValidRunning(r) && RunningConcludeMigration(r, env, keyset, info, ready).Ok?
    ensures Valid(RunningConcludeMigration(r, env, keyset, info, ready).value)
  {
    UpdateInfoIsValid(r.parameters, env.signer, info);
  }

  lemma AddDomainsIsValid(r: RunningState, env: Env, ds: seq<DomainConfig>)
    requires ValidRunning(r)
    requires RunningVoteAddDomains(r, env, ds).Ok? && RunningVoteAddDomains(r, env, ds).value.Initializing?
    ensures ValidInitializing(RunningVoteAddDomains(r, env, ds).value.init)
  {
  }

  lemma InitializingStepsAreValid(i: InitializingState, env: Env, c: Call)
    requires ValidInitializing(i)
    ensures var s := StepInitializing(i, env, c); s.Ok? ==> Valid(s.value)
  {
    match c
    case VotePk(id, key) => VotePkIsValid(i, env, id, key);
    case StartKeygen(id) => StartKeepsValid(i.generatingKey, env, id);
    case VoteCancelKeygen(next) => VoteCancelKeygenIsValid(i, env, next);
    case _ =>
  }

  lemma VotePkIsValid(i: InitializingState, env: Env, id: KeyEventId, key: PublicKey)
    requires ValidInitializing(i)
    ensures var s := InitVotePk(i, env, id, key); s.Ok? ==> Valid(s.value)
  {
    var s := InitVotePk(i, env, id, key);
    VoteSuccessOutcome(i.generatingKey, env, id, key);
    if s.Ok? && VoteSuccess(i.generatingKey, env, id, key).value.1 {
      var n := |i.generatedKeys|;
      var keys := i.generatedKeys + [KeyForDomain(id.domain, key, id.attempt)];
      assert SameDomains(keys, i.domains.domains[..n + 1]) by {
        forall k | 0 <= k < n + 1 ensures keys[k].domain == i.domains.domains[..n + 1][k].id {
          if k < n { assert i.domains.domains[..n][k] == i.domains.domains[..n + 1][k]; }
        }
      }
      if n + 1 == |i.domains.domains| {
        assert i.domains.domains[..n + 1] == i.domains.domains;
      }
    }
  }

  lemma VoteCancelKeygenIsValid(i: InitializingState, env: Env, next: DomainId)
    requires ValidInitializing(i)
    ensures var s := InitVoteCancel(i, env, next); s.Ok? ==> Valid(s.value)
  {
  }

  lemma ResharingStepsAreValid(x: ResharingState, env: Env, c: Call)
    requires ValidResharing(x)
    ensures var s := StepResharing(x, env, c); s.Ok? ==> Valid(s.value)
  {
    match c
    case VoteNewParameters(epoch, proposal, _) => ReproposalIsValid(x, env, epoch, proposal);
    case StartReshare(id) => StartKeepsValid(x.resharingKey, env, id);
    case VoteReshared(id) => VoteResharedIsValid(x, env, id);
    case VoteAbortKeyEvent(id) =>
    case VoteCancelResharing => CancelResharingIsValid(x, env);
    case _ =>
  }

  lemma ReproposalIsValid(x: ResharingState, env: Env, epoch: EpochId, proposal: ThresholdParameters)
    requires ValidResharing(x)
    ensures var s := ReshareVoteNewParameters(x, env, epoch, proposal);
            && s != Err(Panic)
            && (s.Ok? ==> Valid(s.value))
  {
    if ProcessProposal(x.previous, env, proposal).Ok? {
      AcceptedMeansEveryone(x.previous, env, proposal);
    }
  }

  /** Resharing is cancelled by the call that brings the distinct requests from the previous
      participants to `threshold`, and not before. */
  lemma CancelResharingIsValid(x: ResharingState, env: Env)
    requires ValidResharing(x)
    ensures var s := ReshareVoteCancel(x, env);
            s.Ok? ==> Valid(s.value)
                      && (s.value.Running? <==>
                          |x.cancellationRequests + {env.signer}| == x.previous.parameters.threshold)
  {
  }

  lemma VoteResharedIsValid(x: ResharingState, env: Env, id: KeyEventId)
    requires ValidResharing(x)
    ensures var s := ReshareVoteReshared(x, env, id);
            && s != Err(Panic)
            && (s.Ok? ==> Valid(s.value))
  {
    var n := |x.resharedKeys|;
    var previous := x.previous.keyset.domains;
    VoteSuccessOutcome(x.resharingKey, env, id, previous[n].key);
    var vote := VoteSuccess(x.resharingKey, env, id, previous[n].key);
    if vote.Ok? && vote.value.1 {
      var keys := x.resharedKeys + [KeyForDomain(id.domain, previous[n].key, id.attempt)];
      assert KeyPrefix(keys, previous);
    }
  }

  /** Every call keeps the invariant. */
  lemma StepKeepsValid(s: Phase, env: Env, c: Call)
    requires Valid(s)
    ensures Step(s, env, c).Ok? ==> Valid(Step(s, env, c).value)
  {
    match s
    case NotInitialized =>
    case Initializing(i) => InitializingStepsAreValid(i, env, c);
    case Running(r) => RunningStepsAreValid(r, env, c);
    case Resharing(x) => ResharingStepsAreValid(x, env, c);
  }
}
