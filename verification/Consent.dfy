/** Who agreed to the parameters in force: over every run of the contract, they change only to
    parameters that each of their participants voted for, or that re-verification forced. */
module Consent {
  import opened Common
  import opened Parameters
  import opened KeyEvents
  import opened Lifecycle
  import opened LifecycleSafety
  import opened LifecycleRuns

  /** The account successfully voted for these parameters. */
  ghost predicate Consented(made: set<CallRecord>, a: AccountId, p: ThresholdParameters) {
    exists epoch :: (a, VoteNewParameters(epoch, p, true)) in made
  }

  ghost predicate EveryoneConsented(made: set<CallRecord>, p: ThresholdParameters) {
    forall m :: m in p.Members() ==> Consented(made, m.account, p)
  }

  /** What re-verification makes of the current parameters: the members with a valid attestation. */
  function Purged(current: ThresholdParameters, valid: set<AccountId>): ThresholdParameters {
    ThresholdParameters(Participants(current.participants.nextId, KeepValid(current.Members(), valid)),
      current.threshold)
  }

  /** A participant's re-verification found exactly these members valid, and enough of them. */
  ghost predicate Forced(made: set<CallRecord>, current: ThresholdParameters, p: ThresholdParameters) {
    exists a, valid :: (a, VerifyTee(valid)) in made && a in Accounts(current.Members())
                       && p == Purged(current, valid) && |p.Members()| >= current.threshold
  }

  ghost predicate Justified(made: set<CallRecord>, current: ThresholdParameters, p: ThresholdParameters) {
    EveryoneConsented(made, p) || Forced(made, current, p)
  }

  ghost predicate VotesConsented(made: set<CallRecord>, votes: map<AccountId, ThresholdParameters>) {
    forall a :: a in votes ==> Consented(made, a, votes[a])
  }

  /** What the votes and targets stored in a phase say about the calls made. */
  ghost predicate Agreed(made: set<CallRecord>, s: Phase) {
    match s
    case Running(r) => VotesConsented(made, r.parametersVotes)
    case Resharing(x) =>
      && VotesConsented(made, x.previous.parametersVotes)
      && Justified(made, x.previous.parameters, x.resharingKey.parameters)
    case _ => true
  }

  /** A vote on new parameters: the votes stay backed by calls, and if it is the last one needed, every
      participant of the proposal has voted for it. */
  lemma ProposalAgreed(made: set<CallRecord>, r: RunningState, env: Env, epoch: EpochId, proposal: ThresholdParameters)
    requires ValidRunning(r) && ProcessProposal(r, env, proposal).Ok?
    requires VotesConsented(made, r.parametersVotes) && (env.signer, VoteNewParameters(epoch, proposal, true)) in made
    ensures var (r', accepted) := ProcessProposal(r, env, proposal).value;
            VotesConsented(made, r'.parametersVotes) && (accepted ==> EveryoneConsented(made, proposal))
  {
    var (r', accepted) := ProcessProposal(r, env, proposal).value;
    assert r'.parametersVotes == r.parametersVotes[env.signer := proposal];
    assert Consented(made, env.signer, proposal);
    AcceptedMeansEveryone(r, env, proposal);
    if accepted {
      BackersConsented(made, r'.parametersVotes, proposal);
    }
  }

  lemma BackersConsented(made: set<CallRecord>, votes: map<AccountId, ThresholdParameters>,
                         proposal: ThresholdParameters)
    requires VotesConsented(made, votes) && Supporters(votes, proposal) == Accounts(proposal.Members())
    ensures EveryoneConsented(made, proposal)
  {
    forall m | m in proposal.Members() ensures Consented(made, m.account, proposal) {
      assert m.account in Supporters(votes, proposal);
    }
  }

  /** The parameters in force changed from one phase to the next by consent, by force, or not at all. */
  ghost predicate Kept(made: set<CallRecord>, s: Phase, s': Phase) {
    Agreed(made, s') && (VotersOf(s') == VotersOf(s) || Justified(made, VotersOf(s), VotersOf(s')))
  }

  lemma TransitionKept(made: set<CallRecord>, r: RunningState, r': RunningState, proposal: ThresholdParameters)
    requires r'.parameters == r.parameters && Justified(made, r.parameters, proposal)
    ensures Kept(made, Running(r), TransitionToResharing(r', proposal))
  {
  }

  lemma RunningVoteKept(made: set<CallRecord>, r: RunningState, env: Env, epoch: EpochId, proposal: ThresholdParameters)
    requires ValidRunning(r) && RunningVoteNewParameters(r, env, epoch, proposal).Ok?
    requires VotesConsented(made, r.parametersVotes) && (env.signer, VoteNewParameters(epoch, proposal, true)) in made
    ensures Kept(made, Running(r), RunningVoteNewParameters(r, env, epoch, proposal).value)
  {
    ProposalAgreed(made, r, env, epoch, proposal);
    ProposalFrame(r, env, proposal);
    var (r', accepted) := ProcessProposal(r, env, proposal).value;
    if accepted {
      TransitionKept(made, r, r', proposal);
    }
  }

  lemma VerifyTeeKept(made: set<CallRecord>, r: RunningState, env: Env, valid: set<AccountId>)
    requires RunningVerifyTee(r, env, valid).Ok? && (env.signer, VerifyTee(valid)) in made
    requires VotesConsented(made, r.parametersVotes)
    ensures Kept(made, Running(r), RunningVerifyTee(r, env, valid).value)
  {
    var p := Purged(r.parameters, valid);
    if RunningVerifyTee(r, env, valid).value != Running(r) {
      assert Forced(made, r.parameters, p);
      TransitionKept(made, r, r, p);
    }
  }

  lemma RunningKept(made: set<CallRecord>, r: RunningState, env: Env, c: Call)
    requires ValidRunning(r) && StepRunning(r, env, c).Ok? && VotesConsented(made, r.parametersVotes)
             && (env.signer, c) in made
    requires !c.ConcludeMigration?
    ensures Kept(made, Running(r), StepRunning(r, env, c).value)
  {
    match c
    case VoteNewParameters(epoch, proposal, _) => RunningVoteKept(made, r, env, epoch, proposal);
    case VerifyTee(valid) => VerifyTeeKept(made, r, env, valid);
    case _ =>
  }

  lemma ReproposalKept(made: set<CallRecord>, x: ResharingState, env: Env, epoch: EpochId,
                       proposal: ThresholdParameters)
    requires ValidResharing(x) && ReshareVoteNewParameters(x, env, epoch, proposal).Ok? && Agreed(made, Resharing(x))
    requires (env.signer, VoteNewParameters(epoch, proposal, true)) in made
    ensures Kept(made, Resharing(x), ReshareVoteNewParameters(x, env, epoch, proposal).value)
  {
    ProposalAgreed(made, x.previous, env, epoch, proposal);
    ProposalFrame(x.previous, env, proposal);
  }

  lemma VoteResharedKept(made: set<CallRecord>, x: ResharingState, env: Env, id: KeyEventId)
    requires ValidResharing(x) && ReshareVoteReshared(x, env, id).Ok? && Agreed(made, Resharing(x))
    ensures Kept(made, Resharing(x), ReshareVoteReshared(x, env, id).value)
  {
    VoteSuccessOutcome(x.resharingKey, env, id, x.previous.keyset.domains[|x.resharedKeys|].key);
  }

  lemma ResharingKept(made: set<CallRecord>, x: ResharingState, env: Env, c: Call)
    requires ValidResharing(x) && StepResharing(x, env, c).Ok? && Agreed(made, Resharing(x)) && (env.signer, c) in made
    ensures Kept(made, Resharing(x), StepResharing(x, env, c).value)
  {
    match c
    case VoteNewParameters(epoch, proposal, _) => ReproposalKept(made, x, env, epoch, proposal);
    case VoteReshared(id) => VoteResharedKept(made, x, env, id);
    case StartReshare(id) => StartKeepsValid(x.resharingKey, env, id);
    case _ =>
  }

  lemma InitializingKept(made: set<CallRecord>, i: InitializingState, env: Env, c: Call)
    requires ValidInitializing(i) && StepInitializing(i, env, c).Ok?
    ensures Kept(made, Initializing(i), StepInitializing(i, env, c).value)
  {
    match c
    case VotePk(id, key) => VoteSuccessOutcome(i.generatingKey, env, id, key);
    case StartKeygen(id) => StartKeepsValid(i.generatingKey, env, id);
    case _ =>
  }

  lemma AgreedMonotone(made: set<CallRecord>, more: set<CallRecord>, s: Phase)
    requires Agreed(made, s) && made <= more
    ensures Agreed(more, s)
  {
  }

  lemma StepKept(made: set<CallRecord>, s: Phase, env: Env, c: Call)
    requires Valid(s) && Step(s, env, c).Ok? && Agreed(made, s) && !c.ConcludeMigration?
    ensures Kept(made + {(env.signer, c)}, s, Step(s, env, c).value)
  {
    var more := made + {(env.signer, c)};
    AgreedMonotone(made, more, s);
    match s
    case Running(r) => RunningKept(more, r, env, c);
    case Initializing(i) => InitializingKept(more, i, env, c);
    case Resharing(x) => ResharingKept(more, x, env, c);
    case _ =>
  }

  lemma MigrationKeepsVotes(s: Phase, env: Env, c: Call)
    requires Step(s, env, c).Ok? && c.ConcludeMigration?
    ensures s.Running? && Step(s, env, c).value.Running?
    ensures var r, r' := s.run, Step(s, env, c).value.run;
            r'.parametersVotes == r.parametersVotes && env.signer in Accounts(r.parameters.Members())
            && r'.parameters == r.parameters.(participants := r.parameters.participants.(
                 members := UpdateInfo(r.parameters.Members(), env.signer, c.info)))
  {
  }

  lemma {:induction false} RunStaysAgreed(s0: Phase, es: seq<Event>)
    requires Valid(s0) && s0.Running? && s0.run.parametersVotes == map[]
    ensures Agreed(Succeeded(s0, es), Run(s0, es))
    decreases |es|
  {
    if es != [] {
      var before, e := es[..|es| - 1], es[|es| - 1];
      RunStaysAgreed(s0, before);
      RunKeepsValid(s0, before);
      EventStaysAgreed(Succeeded(s0, before), Run(s0, before), e);
    }
  }

  lemma EventStaysAgreed(made: set<CallRecord>, s: Phase, e: Event)
    requires Valid(s) && Agreed(made, s)
    ensures Step(s, e.env, e.call).Ok? ==> Agreed(made + {(e.env.signer, e.call)}, Step(s, e.env, e.call).value)
  {
    if Step(s, e.env, e.call).Ok? {
      if e.call.ConcludeMigration? {
        MigrationKeepsVotes(s, e.env, e.call);
        AgreedMonotone(made, made + {(e.env.signer, e.call)}, s);
      } else {
        StepKept(made, s, e.env, e.call);
      }
    }
  }

  /** The parameters in force change only when every participant of the new ones voted for exactly them, or
      when a participant's re-verification left exactly these members, or when a participant concludes a
      migration, which changes that participant's own info and nothing else. */
  lemma ParametersNeedConsent(s0: Phase, es: seq<Event>, e: Event)
    requires Valid(s0) && s0.Running? && s0.run.parametersVotes == map[]
    ensures var s, s' := Run(s0, es), Apply(Run(s0, es), e);
            || VotersOf(s') == VotersOf(s)
            || Justified(Succeeded(s0, es + [e]), VotersOf(s), VotersOf(s'))
            || (e.call.ConcludeMigration? && e.env.signer in Accounts(VotersOf(s).Members()) && VotersOf(s') ==
                VotersOf(s).(participants := VotersOf(s).participants.(members :=
                  UpdateInfo(VotersOf(s).Members(), e.env.signer, e.call.info))))
  {
    var s := Run(s0, es);
    RunStaysAgreed(s0, es);
    RunKeepsValid(s0, es);
    assert (es + [e])[..|es|] == es;
    if Step(s, e.env, e.call).Ok? {
      if e.call.ConcludeMigration? {
        MigrationKeepsVotes(s, e.env, e.call);
      } else {
        StepKept(Succeeded(s0, es), s, e.env, e.call);
      }
    }
  }
}
