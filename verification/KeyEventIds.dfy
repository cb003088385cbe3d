/** Key event ids over whole runs. The contract means an epoch id given to a cancelled resharing
    never to be used again, so that (epoch, domain, attempt) names one attempt for good. That holds
    up to the one transition that forgets the cancelled epoch. */
module KeyEventIds {
  import opened Common
  import opened Parameters
  import opened Domains
  import opened KeyEvents
  import opened Lifecycle
  import opened LifecycleSafety
  import opened LifecycleRuns

  /** The epoch the next resharing will get. */
  function NextEpoch(s: Phase): EpochId {
    match s
    case NotInitialized => 0
    case Initializing(i) => i.epoch + 1
    case Running(r) => ProspectiveEpoch(r)
    case Resharing(x) => x.resharingKey.epoch + 1
  }

  /** Every participant other than the signer has voted for exactly these domains. */
  predicate OthersVoted(r: RunningState, signer: AccountId, ds: seq<DomainConfig>) {
    var me := FindId(r.parameters.Members(), signer);
    me.Some? && forall x :: x in Ids(r.parameters.Members()) && x != me.value ==>
      x in r.addDomainsVotes && r.addDomainsVotes[x] == ds
  }

  /** A participant's vote for domains that may be added, the last one needed, while a cancelled epoch is
      on record. */
  predicate ForgetsCancelledEpoch(s: Phase, env: Env, c: Call) {
    && s.Running? && s.run.cancelledEpoch.Some? && c.VoteAddDomains?
    && c.domains != [] && (forall d :: d in c.domains ==> ValidSchemeForPurpose(d))
    && Contiguous(s.run.domains.nextDomainId, c.domains) && OthersVoted(s.run, env.signer, c.domains)
  }

  /** Such a vote succeeds and starts key generation, and no other vote on domains does. */
  lemma LastDomainVote(r: RunningState, env: Env, ds: seq<DomainConfig>)
    requires ValidRunning(r) && r.cancelledEpoch.Some?
    ensures ForgetsCancelledEpoch(Running(r), env, VoteAddDomains(ds)) <==>
            RunningVoteAddDomains(r, env, ds).Ok? && RunningVoteAddDomains(r, env, ds).value.Initializing?
  {
    if RunningVoteAddDomains(r, env, ds).Ok? {
      AddDomainsNeedsEveryone(r, env, ds);
    }
  }

  /** The next epoch goes back in exactly one case: domains are added after a cancelled resharing. */
  lemma NextEpochFallsIff(s: Phase, env: Env, c: Call)
    requires Valid(s) && Step(s, env, c).Ok?
    ensures NextEpoch(Step(s, env, c).value) < NextEpoch(s) <==> ForgetsCancelledEpoch(s, env, c)
  {
    match s
    case Initializing(i) => InitializingClock(i, env, c);
    case Running(r) => RunningClock(r, env, c);
    case Resharing(x) => ResharingClock(x, env, c);
    case _ =>
  }

  // ---------- a clock that every started id is behind ----------

  /** `id` was passed by this key event: an earlier domain, or an earlier attempt at this one. */
  predicate Passed(ke: KeyEvent, id: KeyEventId) {
    id.domain < ke.domain.id || (id.domain == ke.domain.id && id.attempt < ke.nextAttempt)
  }

  /** `id` cannot be started again from `s` on. */
  predicate Spent(s: Phase, id: KeyEventId) {
    match s
    case NotInitialized => false
    case Running(r) => id.epoch < ProspectiveEpoch(r) && id.domain < r.domains.nextDomainId
    case Initializing(i) =>
      id.epoch <= i.epoch && Passed(i.generatingKey, id)
        && (id.domain == i.generatingKey.domain.id ==> id.epoch == i.epoch)
    case Resharing(x) =>
      && id.domain < x.previous.domains.nextDomainId
      && (id.epoch < x.resharingKey.epoch || (id.epoch == x.resharingKey.epoch && Passed(x.resharingKey, id)))
  }

  ghost predicate StaysSpent(s: Phase, s': Phase) {
    forall id :: Spent(s, id) ==> Spent(s', id)
  }

  /** The id of the attempt that this call starts. */
  ghost function Started(s: Phase, env: Env, c: Call): Option<KeyEventId> {
    if (c.StartKeygen? || c.StartReshare?) && Step(s, env, c).Ok? then Some(c.id) else None
  }

  lemma TransitionClock(r: RunningState, proposal: ThresholdParameters)
    requires ValidRunning(r)
    ensures var s := TransitionToResharing(r, proposal);
            StaysSpent(Running(r), s) && NextEpoch(s) == ProspectiveEpoch(r) + 1
  {
  }

  lemma RunningClock(r: RunningState, env: Env, c: Call)
    requires ValidRunning(r) && StepRunning(r, env, c).Ok?
    ensures var s := StepRunning(r, env, c).value;
            && (NextEpoch(s) < ProspectiveEpoch(r) <==> ForgetsCancelledEpoch(Running(r), env, c))
            && (!ForgetsCancelledEpoch(Running(r), env, c) ==> StaysSpent(Running(r), s))
  {
    match c
    case VoteNewParameters(epoch, proposal, _) => ParametersVoteClock(r, env, epoch, proposal);
    case VerifyTee(valid) =>
      TransitionClock(r, ThresholdParameters(
        Participants(r.parameters.participants.nextId, KeepValid(r.parameters.Members(), valid)),
          r.parameters.threshold));
    case VoteAddDomains(ds) =>
      AddDomainsClock(r, env, ds);
      if r.cancelledEpoch.Some? {
        LastDomainVote(r, env, ds);
      }
    case _ =>
  }

  lemma ParametersVoteClock(r: RunningState, env: Env, epoch: EpochId, proposal: ThresholdParameters)
    requires ValidRunning(r) && RunningVoteNewParameters(r, env, epoch, proposal).Ok?
    ensures var s := RunningVoteNewParameters(r, env, epoch, proposal).value;
            NextEpoch(s) >= ProspectiveEpoch(r) && StaysSpent(Running(r), s)
  {
    ProposalFrame(r, env, proposal);
    VoteClock(r, ProcessProposal(r, env, proposal).value.0, proposal);
  }

  lemma VoteClock(r: RunningState, r': RunningState, proposal: ThresholdParameters)
    requires ValidRunning(r) && r' == r.(parametersVotes := r'.parametersVotes)
    ensures ProspectiveEpoch(r') == ProspectiveEpoch(r) && StaysSpent(Running(r), Running(r'))
    ensures var s := TransitionToResharing(r', proposal);
            NextEpoch(s) == ProspectiveEpoch(r) + 1 && StaysSpent(Running(r), s)
  {
  }

  lemma AddDomainsClock(r: RunningState, env: Env, ds: seq<DomainConfig>)
    requires ValidRunning(r) && RunningVoteAddDomains(r, env, ds).Ok?
    ensures var s := RunningVoteAddDomains(r, env, ds).value;
            && (NextEpoch(s) < ProspectiveEpoch(r) <==> r.cancelledEpoch.Some? && s.Initializing?)
            && (r.cancelledEpoch.None? || !s.Initializing? ==> StaysSpent(Running(r), s))
  {
  }

  lemma InitializingClock(i: InitializingState, env: Env, c: Call)
    requires ValidInitializing(i) && StepInitializing(i, env, c).Ok?
    ensures var s := StepInitializing(i, env, c).value;
            && NextEpoch(s) == i.epoch + 1
            && StaysSpent(Initializing(i), s)
            && (c.StartKeygen? ==> !Spent(Initializing(i), c.id) && Spent(s, c.id))
  {
    match c
    case VotePk(id, key) => VotePkClock(i, env, id, key);
    case _ =>
  }

  lemma VotePkClock(i: InitializingState, env: Env, id: KeyEventId, key: PublicKey)
    requires ValidInitializing(i) && InitVotePk(i, env, id, key).Ok?
    ensures var s := InitVotePk(i, env, id, key).value;
            NextEpoch(s) == i.epoch + 1 && StaysSpent(Initializing(i), s)
  {
  }

  lemma ResharingClock(x: ResharingState, env: Env, c: Call)
    requires ValidResharing(x) && StepResharing(x, env, c).Ok?
    ensures var s := StepResharing(x, env, c).value;
            && NextEpoch(s) >= x.resharingKey.epoch + 1
            && StaysSpent(Resharing(x), s)
            && (c.StartReshare? ==> !Spent(Resharing(x), c.id) && Spent(s, c.id))
  {
    match c
    case VoteNewParameters(epoch, proposal, _) => ReproposalClock(x, env, epoch, proposal);
    case VoteReshared(id) => VoteResharedClock(x, env, id);
    case _ =>
  }

  lemma ReproposalClock(x: ResharingState, env: Env, epoch: EpochId, proposal: ThresholdParameters)
    requires ValidResharing(x) && ReshareVoteNewParameters(x, env, epoch, proposal).Ok?
    ensures var s := ReshareVoteNewParameters(x, env, epoch, proposal).value;
            NextEpoch(s) >= x.resharingKey.epoch + 1 && StaysSpent(Resharing(x), s)
  {
    ReproposalFrame(x, env, epoch, proposal);
    SameOrLaterEpoch(x, ReshareVoteNewParameters(x, env, epoch, proposal).value.reshare);
  }

  lemma SameOrLaterEpoch(x: ResharingState, y: ResharingState)
    requires y.previous.domains == x.previous.domains
    requires y.resharingKey == x.resharingKey || y.resharingKey.epoch == x.resharingKey.epoch + 1
    ensures NextEpoch(Resharing(y)) >= x.resharingKey.epoch + 1 && StaysSpent(Resharing(x), Resharing(y))
  {
  }

  lemma VoteResharedClock(x: ResharingState, env: Env, id: KeyEventId)
    requires ValidResharing(x) && ReshareVoteReshared(x, env, id).Ok?
    ensures var s := ReshareVoteReshared(x, env, id).value;
            NextEpoch(s) == x.resharingKey.epoch + 1 && StaysSpent(Resharing(x), s)
  {
    VoteSuccessOutcome(x.resharingKey, env, id, x.previous.keyset.domains[|x.resharedKeys|].key);
    match ReshareVoteReshared(x, env, id).value
    case Resharing(y) => SameOrLaterDomain(x, y);
    case Running(r) => ResharedClock(x, r);
  }

  lemma SameOrLaterDomain(x: ResharingState, y: ResharingState)
    requires y.previous.domains == x.previous.domains && y.resharingKey.epoch == x.resharingKey.epoch
    requires var a, b := x.resharingKey, y.resharingKey;
             a.domain.id < b.domain.id || (a.domain == b.domain && a.nextAttempt == b.nextAttempt)
    ensures StaysSpent(Resharing(x), Resharing(y))
  {
  }

  lemma ResharedClock(x: ResharingState, r: RunningState)
    requires r.domains == x.previous.domains && ProspectiveEpoch(r) == x.resharingKey.epoch + 1
    ensures StaysSpent(Resharing(x), Running(r))
  {
  }

  /** A started id was not spent before and is spent from then on. */
  lemma StepClock(s: Phase, env: Env, c: Call)
    requires Valid(s) && Step(s, env, c).Ok? && !ForgetsCancelledEpoch(s, env, c)
    ensures StaysSpent(s, Step(s, env, c).value)
    ensures Started(s, env, c).Some? ==> !Spent(s, c.id) && Spent(Step(s, env, c).value, c.id)
  {
    match s
    case Initializing(i) => InitializingClock(i, env, c);
    case Running(r) => RunningClock(r, env, c);
    case Resharing(x) => ResharingClock(x, env, c);
    case _ =>
  }

  // ---------- runs ----------

  /** The ids of all attempts started in a run, in order. */
  ghost function StartedIds(s: Phase, es: seq<Event>): seq<KeyEventId>
    decreases |es|
  {
    if es == [] then []
    else
      var before, e := es[..|es| - 1], es[|es| - 1];
      var id := Started(Run(s, before), e.env, e.call);
      StartedIds(s, before) + if id.Some? then [id.value] else []
  }

  /** No call of the run adds domains while a cancelled epoch is on record. */
  ghost predicate NeverForgets(s: Phase, es: seq<Event>) {
    forall k :: 0 <= k < |es| ==> !ForgetsCancelledEpoch(Run(s, es[..k]), es[k].env, es[k].call)
  }

  /** The call forgets a cancelled epoch although an attempt later than the current keys has been started. */
  ghost predicate ForgetsStarted(s: Phase, es: seq<Event>, e: Event) {
    var s' := Run(s, es);
    && ForgetsCancelledEpoch(s', e.env, e.call)
    && exists id :: id in StartedIds(s, es) && id.epoch > s'.run.keyset.epoch
  }

  ghost predicate Careful(s: Phase, es: seq<Event>) {
    forall k :: 0 <= k < |es| ==> !ForgetsStarted(s, es[..k], es[k])
  }

  /** Forgetting does no harm to ids that are no later than the current keys. */
  lemma OlderStaySpent(r: RunningState, env: Env, ds: seq<DomainConfig>, id: KeyEventId)
    requires ValidRunning(r) && ForgetsCancelledEpoch(Running(r), env, VoteAddDomains(ds))
    requires Spent(Running(r), id) && id.epoch <= r.keyset.epoch
    ensures RunningVoteAddDomains(r, env, ds).Ok? && Spent(RunningVoteAddDomains(r, env, ds).value, id)
  {
    LastDomainVote(r, env, ds);
  }

  /** In careful runs no key event id is ever started twice. */
  lemma {:induction false} StartedIdsDistinct(s: Phase, es: seq<Event>)
    requires Valid(s) && Careful(s, es)
    ensures Injective(StartedIds(s, es))
    ensures forall id :: id in StartedIds(s, es) ==> Spent(Run(s, es), id)
    decreases |es|
  {
    if es != [] {
      var last := |es| - 1;
      var before, e := es[..last], es[last];
      forall k | 0 <= k < |before| ensures !ForgetsStarted(s, before[..k], before[k]) {
        assert before[..k] == es[..k];
      }
      StartedIdsDistinct(s, before);
      RunKeepsValid(s, before);
      assert !ForgetsStarted(s, es[..last], e);
      NextKeepsSpent(s, before, e);
    }
  }

  lemma NextKeepsSpent(s: Phase, before: seq<Event>, e: Event)
    requires Valid(Run(s, before)) && !ForgetsStarted(s, before, e)
    requires forall id :: id in StartedIds(s, before) ==> Spent(Run(s, before), id)
    ensures forall id :: id in StartedIds(s, before) ==> Spent(Apply(Run(s, before), e), id)
    ensures var id := Started(Run(s, before), e.env, e.call);
            id.Some? ==> id.value !in StartedIds(s, before) && Spent(Apply(Run(s, before), e), id.value)
  {
    var mid := Run(s, before);
    if Step(mid, e.env, e.call).Ok? {
      if ForgetsCancelledEpoch(mid, e.env, e.call) {
        forall id | id in StartedIds(s, before) ensures Spent(Apply(mid, e), id) {
          OlderStaySpent(mid.run, e.env, e.call.domains, id);
        }
      } else {
        StepClock(mid, e.env, e.call);
      }
    }
  }

  /** Over a run, the epoch of the next resharing never goes back exactly when no call forgets. */
  lemma NextEpochMonotoneIff(s: Phase, es: seq<Event>)
    requires Valid(s)
    ensures NeverForgets(s, es) <==>
            forall k :: 0 <= k < |es| ==> NextEpoch(Run(s, es[..k])) <= NextEpoch(Apply(Run(s, es[..k]), es[k]))
  {
    forall k | 0 <= k < |es|
      ensures ForgetsCancelledEpoch(Run(s, es[..k]), es[k].env, es[k].call) <==>
              NextEpoch(Run(s, es[..k])) > NextEpoch(Apply(Run(s, es[..k]), es[k]))
    {
      RunKeepsValid(s, es[..k]);
      var mid, e := Run(s, es[..k]), es[k];
      if Step(mid, e.env, e.call).Ok? {
        NextEpochFallsIff(mid, e.env, e.call);
      } else if ForgetsCancelledEpoch(mid, e.env, e.call) {
        LastDomainVote(mid.run, e.env, e.call.domains);
      }
    }
  }
}
