/** Who agreed to the domains in the registry: over every run of the contract, a domain enters it only after every
    participant's own account voted for it, although votes are recorded by participant id and outlive changes of
    the participants. */
module DomainConsent {
  import opened Common
  import opened Parameters
  import opened Domains
  import opened KeyEvents
  import opened Lifecycle
  import opened LifecycleSafety
  import opened LifecycleRuns

  type DomainVotes = map<ParticipantId, seq<DomainConfig>>

  /** A vote recorded under a member's id was cast by that member's account. */
  ghost predicate VotesOwn(made: set<CallRecord>, ms: seq<Participant>, votes: DomainVotes) {
    forall m :: m in ms && m.id in votes ==> (m.account, VoteAddDomains(votes[m.id])) in made
  }

  /** An id found in both lists belongs to the same account. */
  ghost predicate SameHolders(before: seq<Participant>, after: seq<Participant>) {
    forall m, n :: m in before && n in after && m.id == n.id ==> m.account == n.account
  }

  /** What the votes stored in a phase say about the calls made, now and after the resharing under way. */
  ghost predicate Backed(made: set<CallRecord>, s: Phase) {
    match s
    case Running(r) => VotesOwn(made, r.parameters.Members(), r.addDomainsVotes)
    case Resharing(x) =>
      && VotesOwn(made, x.previous.parameters.Members(), x.previous.addDomainsVotes)
      && SameHolders(x.previous.parameters.Members(), x.resharingKey.parameters.Members())
    case _ => true
  }

  // ---------- votes that outlive a change of the participants ----------

  lemma AdmissibleHolders(p: ThresholdParameters, q: ThresholdParameters)
    requires ValidParameters(p) && Admissible(p, q)
    ensures SameHolders(p.Members(), q.Members())
  {
    var ms := p.Members();
    forall m, n | m in ms && n in q.Members() && m.id == n.id ensures m.account == n.account {
      assert m.id in Ids(ms) && KeepsIdentity(ms, n);
      var i :| 0 <= i < |ms| && ms[i] == m;
      var j :| 0 <= j < |ms| && ms[j] == n;
      assert i == j;
    }
  }

  lemma RemainingOwn(made: set<CallRecord>, before: seq<Participant>, after: seq<Participant>, votes: DomainVotes)
    requires VotesOwn(made, before, votes) && votes.Keys <= Ids(before) && SameHolders(before, after)
    ensures VotesOwn(made, after, RemainingVotes(votes, after))
  {
    forall n | n in after && n.id in votes ensures (n.account, VoteAddDomains(votes[n.id])) in made {
      var m :| m in before && m.id == n.id;
      assert m.account == n.account;
    }
  }

  lemma TransitionBacked(made: set<CallRecord>, r: RunningState, q: ThresholdParameters)
    requires ValidRunning(r) && Backed(made, Running(r)) && Admissible(r.parameters, q)
    ensures Backed(made, TransitionToResharing(r, q))
  {
    AdmissibleHolders(r.parameters, q);
    RemainingOwn(made, r.parameters.Members(), q.Members(), r.addDomainsVotes);
  }

  // ---------- every call keeps votes backed ----------

  lemma ParametersVoteBacked(made: set<CallRecord>, r: RunningState, env: Env, epoch: EpochId,
                             q: ThresholdParameters)
    requires ValidRunning(r) && Backed(made, Running(r)) && RunningVoteNewParameters(r, env, epoch, q).Ok?
    ensures Backed(made, RunningVoteNewParameters(r, env, epoch, q).value)
  {
    AcceptedMeansEveryone(r, env, q);
    ProposalFrame(r, env, q);
    TransitionBacked(made, ProcessProposal(r, env, q).value.0, q);
  }

  lemma VerifyTeeBacked(made: set<CallRecord>, r: RunningState, env: Env, valid: set<AccountId>)
    requires ValidRunning(r) && Backed(made, Running(r)) && RunningVerifyTee(r, env, valid).Ok?
    ensures Backed(made, RunningVerifyTee(r, env, valid).value)
  {
    var kept := KeepValid(r.parameters.Members(), valid);
    var q := ThresholdParameters(Participants(r.parameters.participants.nextId, kept), r.parameters.threshold);
    if Admissible(r.parameters, q) {
      TransitionBacked(made, r, q);
    }
  }

  /** The signer's vote is recorded under the id of the signer, and nobody else's changes. */
  lemma DomainVoteBacked(made: set<CallRecord>, r: RunningState, env: Env, ds: seq<DomainConfig>)
    requires ValidRunning(r) && Backed(made, Running(r)) && RunningVoteAddDomains(r, env, ds).Ok?
    requires (env.signer, VoteAddDomains(ds)) in made
    ensures Backed(made, RunningVoteAddDomains(r, env, ds).value)
  {
    var ms := r.parameters.Members();
    SignerIsHolder(ms, env.signer);
  }

  lemma SignerIsHolder(ms: seq<Participant>, a: AccountId)
    requires DistinctIds(ms) && FindId(ms, a).Some?
    ensures forall m :: m in ms && m.id == FindId(ms, a).value ==> m.account == a
  {
    var q :| q in ms && q.account == a && FindId(ms, a) == Some(q.id);
    forall m | m in ms && m.id == q.id ensures m.account == a {
      var i :| 0 <= i < |ms| && ms[i] == m;
      var j :| 0 <= j < |ms| && ms[j] == q;
      assert i == j;
    }
  }

  lemma MigrationBacked(made: set<CallRecord>, r: RunningState, a: AccountId, info: ParticipantInfo)
    requires Backed(made, Running(r))
    ensures VotesOwn(made, UpdateInfo(r.parameters.Members(), a, info), r.addDomainsVotes)
  {
    var ms, ns := r.parameters.Members(), UpdateInfo(r.parameters.Members(), a, info);
    forall n | n in ns && n.id in r.addDomainsVotes
      ensures (n.account, VoteAddDomains(r.addDomainsVotes[n.id])) in made
    {
      var i :| 0 <= i < |ns| && ns[i] == n;
      assert ms[i] in ms;
    }
  }

  lemma RunningBacked(made: set<CallRecord>, r: RunningState, env: Env, c: Call)
    requires ValidRunning(r) && Backed(made, Running(r)) && StepRunning(r, env, c).Ok? && (env.signer, c) in made
    ensures Backed(made, StepRunning(r, env, c).value)
  {
    match c
    case VoteNewParameters(epoch, q, _) => ParametersVoteBacked(made, r, env, epoch, q);
    case VoteAddDomains(ds) => DomainVoteBacked(made, r, env, ds);
    case ConcludeMigration(_, info, _) => MigrationBacked(made, r, env.signer, info);
    case VerifyTee(valid) => VerifyTeeBacked(made, r, env, valid);
    case _ =>
  }

  lemma ReproposalBacked(made: set<CallRecord>, x: ResharingState, env: Env, epoch: EpochId, q: ThresholdParameters)
    requires ValidResharing(x) && Backed(made, Resharing(x)) && ReshareVoteNewParameters(x, env, epoch, q).Ok?
    ensures Backed(made, ReshareVoteNewParameters(x, env, epoch, q).value)
  {
    ProposalFrame(x.previous, env, q);
    AdmissibleHolders(x.previous.parameters, q);
  }

  lemma VoteResharedBacked(made: set<CallRecord>, x: ResharingState, env: Env, id: KeyEventId)
    requires ValidResharing(x) && Backed(made, Resharing(x)) && ReshareVoteReshared(x, env, id).Ok?
    ensures Backed(made, ReshareVoteReshared(x, env, id).value)
  {
    VoteSuccessOutcome(x.resharingKey, env, id, x.previous.keyset.domains[|x.resharedKeys|].key);
    RemainingOwn(made, x.previous.parameters.Members(), x.resharingKey.parameters.Members(),
                 x.previous.addDomainsVotes);
  }

  lemma ResharingBacked(made: set<CallRecord>, x: ResharingState, env: Env, c: Call)
    requires ValidResharing(x) && Backed(made, Resharing(x)) && StepResharing(x, env, c).Ok?
    ensures Backed(made, StepResharing(x, env, c).value)
  {
    match c
    case VoteNewParameters(epoch, q, _) => ReproposalBacked(made, x, env, epoch, q);
    case VoteReshared(id) => VoteResharedBacked(made, x, env, id);
    case StartReshare(id) => StartKeepsValid(x.resharingKey, env, id);
    case _ =>
  }

  /** Leaving key generation, whichever way, leaves no votes on domains. */
  lemma InitializingBacked(made: set<CallRecord>, i: InitializingState, env: Env, c: Call)
    requires StepInitializing(i, env, c).Ok?
    ensures Backed(made, StepInitializing(i, env, c).value)
  {
  }

  lemma BackedMonotone(made: set<CallRecord>, more: set<CallRecord>, s: Phase)
    requires Backed(made, s) && made <= more
    ensures Backed(more, s)
  {
  }

  lemma StepBacked(made: set<CallRecord>, s: Phase, env: Env, c: Call)
    requires Valid(s) && Step(s, env, c).Ok? && Backed(made, s)
    ensures Backed(made + {(env.signer, c)}, Step(s, env, c).value)
  {
    var more := made + {(env.signer, c)};
    BackedMonotone(made, more, s);
    match s
    case Running(r) => RunningBacked(more, r, env, c);
    case Initializing(i) => InitializingBacked(more, i, env, c);
    case Resharing(x) => ResharingBacked(more, x, env, c);
    case _ =>
  }

  /** In every run a vote on record under a participant's id was cast by that participant. */
  lemma {:induction false} RunStaysBacked(s0: Phase, es: seq<Event>)
    requires Valid(s0) && s0.Running? && s0.run.addDomainsVotes == map[]
    ensures Backed(Succeeded(s0, es), Run(s0, es))
    decreases |es|
  {
    if es != [] {
      var before, e := es[..|es| - 1], es[|es| - 1];
      RunStaysBacked(s0, before);
      RunKeepsValid(s0, before);
      if Step(Run(s0, before), e.env, e.call).Ok? {
        StepBacked(Succeeded(s0, before), Run(s0, before), e.env, e.call);
      }
    }
  }

  // ---------- a domain needs everyone ----------

  ghost predicate EveryoneVoted(made: set<CallRecord>, p: ThresholdParameters, ds: seq<DomainConfig>) {
    forall m :: m in p.Members() ==> (m.account, VoteAddDomains(ds)) in made
  }

  lemma LastVoteIsEveryones(made: set<CallRecord>, r: RunningState, env: Env, ds: seq<DomainConfig>)
    requires ValidRunning(r) && Backed(made, Running(r)) && (env.signer, VoteAddDomains(ds)) in made
    requires RunningVoteAddDomains(r, env, ds).Ok? && RunningVoteAddDomains(r, env, ds).value.Initializing?
    ensures EveryoneVoted(made, r.parameters, ds)
  {
    var ms := r.parameters.Members();
    AddDomainsNeedsEveryone(r, env, ds);
    SignerIsHolder(ms, env.signer);
    forall m | m in ms ensures (m.account, VoteAddDomains(ds)) in made {
      assert m.id in Ids(ms);
    }
  }

  /** Only a vote on domains brings a domain into the registry. */
  lemma NewDomainIsVoted(s: Phase, env: Env, c: Call, d: DomainConfig)
    requires Valid(s) && Step(s, env, c).Ok?
    requires d in Registry(Step(s, env, c).value).domains && d !in Registry(s).domains
    ensures s.Running? && c.VoteAddDomains? && Step(s, env, c).value.Initializing? && d in c.domains
  {
    match s
    case Initializing(i) => InitializingDomain(i, env, c);
    case Running(r) => RunningDomain(r, env, c, d);
    case Resharing(x) => ResharingKeepsKeys(x, env, c);
    case _ =>
  }

  lemma InitializingDomain(i: InitializingState, env: Env, c: Call)
    requires StepInitializing(i, env, c).Ok?
    ensures forall d :: d in Registry(StepInitializing(i, env, c).value).domains ==> d in i.domains.domains
  {
  }

  lemma RunningDomain(r: RunningState, env: Env, c: Call, d: DomainConfig)
    requires ValidRunning(r) && StepRunning(r, env, c).Ok?
    requires d in Registry(StepRunning(r, env, c).value).domains && d !in r.domains.domains
    ensures c.VoteAddDomains? && StepRunning(r, env, c).value.Initializing? && d in c.domains
  {
    RunningKeepsKeys(r, env, c);
  }

  /** Over every run a domain enters the registry only at a vote after which each participant's own account has
      voted for exactly the domains added. */
  lemma DomainsNeedConsent(s0: Phase, es: seq<Event>, e: Event, d: DomainConfig)
    requires Valid(s0) && s0.Running? && s0.run.addDomainsVotes == map[]
    requires d in Registry(Apply(Run(s0, es), e)).domains && d !in Registry(Run(s0, es)).domains
    ensures e.call.VoteAddDomains? && d in e.call.domains && Run(s0, es).Running?
    ensures EveryoneVoted(Succeeded(s0, es + [e]), Run(s0, es).run.parameters, e.call.domains)
  {
    var s := Run(s0, es);
    RunKeepsValid(s0, es);
    RunStaysBacked(s0, es);
    NewDomainIsVoted(s, e.env, e.call, d);
    var made := Succeeded(s0, es) + {(e.env.signer, e.call)};
    assert (es + [e])[..|es|] == es;
    BackedMonotone(Succeeded(s0, es), made, s);
    LastVoteIsEveryones(made, s.run, e.env, e.call.domains);
  }

  /** Call `k` of the run added the domain, and by then every participant had voted for it. */
  ghost predicate AgreedAt(s0: Phase, es: seq<Event>, k: nat, d: DomainConfig)
    requires k < |es|
  {
    var s := Run(s0, es[..k]);
    && s.Running? && es[k].call.VoteAddDomains? && d in es[k].call.domains
    && EveryoneVoted(Succeeded(s0, es[..k + 1]), s.run.parameters, es[k].call.domains)
  }

  /** Every domain in the registry was there at the beginning, or was agreed on by all who were participants when
      it was added. */
  lemma {:induction false} EveryDomainAgreed(s0: Phase, es: seq<Event>, d: DomainConfig) returns (k: nat)
    requires Valid(s0) && s0.Running? && s0.run.addDomainsVotes == map[]
    requires d in Registry(Run(s0, es)).domains && d !in Registry(s0).domains
    ensures k < |es| && AgreedAt(s0, es, k, d)
    decreases |es|
  {
    var n := |es| - 1;
    var before, e := es[..n], es[n];
    assert es == before + [e];
    if d in Registry(Run(s0, before)).domains {
      k := EveryDomainAgreed(s0, before, d);
      assert es[..k] == before[..k] && es[..k + 1] == before[..k + 1];
    } else {
      DomainsNeedConsent(s0, before, e, d);
      k := n;
      assert es[..n + 1] == es;
    }
  }
}
