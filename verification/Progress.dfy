/** What the participants can bring about from every valid phase, by their own calls alone: adopt any
    admissible parameters, finish a resharing, cancel a key generation, reach any attempt of a resharing. */
module Progress {
  import opened Common
  import opened Parameters
  import opened Domains
  import opened KeyEvents
  import opened Lifecycle
  import opened LifecycleSafety
  import opened LifecycleRuns

  /** The height of the chain and the configured timeout. */
  datatype Now = Now(block: nat, timeout: nat)

  /** A call by an attested account. */
  function By(account: AccountId, now: Now, c: Call): Event {
    Event(Env(account, now.block, now.timeout, true), c)
  }

  ghost predicate AllAt(now: Now, es: seq<Event>) {
    forall i :: 0 <= i < |es| ==> es[i].env.block == now.block && es[i].env.timeout == now.timeout
  }

  lemma AllAtOn(now: Now, a: seq<Event>, b: seq<Event>)
    requires AllAt(now, a) && AllAt(now, b)
    ensures AllAt(now, a + b)
  {
  }

  /** None of the calls votes on domains, so none forgets a cancelled epoch, and none concludes a
      migration. */
  ghost predicate Plain(es: seq<Event>) {
    forall i :: 0 <= i < |es| ==> !es[i].call.VoteAddDomains? && !es[i].call.ConcludeMigration?
  }

  /** These plain calls, all at the same height, lead from `s` to `s'`. */
  ghost predicate Leads(now: Now, s: Phase, es: seq<Event>, s': Phase) {
    Run(s, es) == s' && Plain(es) && AllAt(now, es)
  }

  lemma LeadsOn(now: Now, s: Phase, a: seq<Event>, mid: Phase, b: seq<Event>, end: Phase)
    requires Leads(now, s, a, mid) && Leads(now, mid, b, end)
    ensures Leads(now, s, a + b, end)
  {
    RunCompose(s, a, b);
  }

  lemma LeadsOne(now: Now, s: Phase, e: Event, s': Phase)
    requires e.env.block == now.block && e.env.timeout == now.timeout
    requires Apply(s, e) == s' && !e.call.VoteAddDomains? && !e.call.ConcludeMigration?
    ensures Leads(now, s, [e], s')
  {
    RunOne(s, e);
  }

  lemma LeadsNowhere(now: Now, s: Phase)
    ensures Leads(now, s, [], s)
  {
  }

  lemma MemberFound(ms: seq<Participant>, p: Participant)
    requires DistinctAccounts(ms) && p in ms
    ensures FindId(ms, p.account) == Some(p.id) && p.account in Accounts(ms) && p.id in Ids(ms)
  {
    var q :| q in ms && q.account == p.account && FindId(ms, p.account) == Some(q.id);
    var i :| 0 <= i < |ms| && ms[i] == p;
    var j :| 0 <= j < |ms| && ms[j] == q;
    assert i == j;
  }

  lemma SelfAdmissible(p: ThresholdParameters)
    requires ValidParameters(p)
    ensures Admissible(p, p)
  {
    var ms := p.Members();
    DistinctCardinality(ms);
    assert Accounts(ms) * Accounts(ms) == Accounts(ms);
    forall q | q in ms ensures KeepsIdentity(ms, q) {
    }
    assert NewIds(ms, Accounts(ms)) == {};
  }

  // ---------- adopting parameters ----------

  /** Who votes next: a current participant that does not back the proposal yet; then a newcomer that does
      not; and if everybody does, anybody. */
  lemma NextVoter(r: RunningState, proposal: ThresholdParameters) returns (a: AccountId)
    requires ValidRunning(r) && Admissible(r.parameters, proposal)
    ensures forall block, timeout, attested :: ProcessProposal(r, Env(a, block, timeout, attested), proposal).Ok?
    ensures a in Supporters(r.parametersVotes, proposal) ==>
              Accounts(proposal.Members()) <= Supporters(r.parametersVotes, proposal)
  {
    var backers, proposed, current := Supporters(r.parametersVotes, proposal), Accounts(proposal.Members()),
      Accounts(r.parameters.Members());
    if x :| x in proposed * current && x !in backers {
      a := x;
    } else {
      assert proposed * current <= backers * current;
      SubsetCardinality(proposed * current, backers * current);
      if y :| y in proposed && y !in backers {
        a := y;
      } else {
        var m := proposal.Members()[0];
        assert m.account in proposed;
        a := m.account;
      }
    }
  }

  /** Proposed participants that do not back the proposal yet. */
  ghost function Missing(r: RunningState, proposal: ThresholdParameters): nat {
    |Accounts(proposal.Members()) - Supporters(r.parametersVotes, proposal)|
  }

  lemma OneLessMissing(proposed: set<AccountId>, before: set<AccountId>, a: AccountId)
    requires a in proposed && a !in before
    ensures |proposed - (before + {a})| < |proposed - before|
  {
    assert proposed - before == (proposed - (before + {a})) + {a};
  }

  lemma BackersAfter(votes: map<AccountId, ThresholdParameters>, a: AccountId, proposal: ThresholdParameters)
    ensures Supporters(votes[a := proposal], proposal) == Supporters(votes, proposal) + {a}
  {
  }

  lemma BackersAreProposed(r: RunningState, proposal: ThresholdParameters)
    requires ValidRunning(r)
    ensures Supporters(r.parametersVotes, proposal) <= Accounts(proposal.Members())
  {
  }

  /** One vote is accepted, or leaves one backer more. */
  lemma VoteAdvances(r: RunningState, proposal: ThresholdParameters, env: Env)
    requires ValidRunning(r) && ProcessProposal(r, env, proposal).Ok?
    requires env.signer in Supporters(r.parametersVotes, proposal) ==>
               Accounts(proposal.Members()) <= Supporters(r.parametersVotes, proposal)
    ensures var (r', accepted) := ProcessProposal(r, env, proposal).value;
            && ValidRunning(r') && r' == r.(parametersVotes := r'.parametersVotes)
            && (!accepted ==> Missing(r', proposal) < Missing(r, proposal))
  {
    AcceptedMeansEveryone(r, env, proposal);
    ProposalFrame(r, env, proposal);
    BackersAfter(r.parametersVotes, env.signer, proposal);
    if env.signer in Supporters(r.parametersVotes, proposal) {
      BackersAreProposed(ProcessProposal(r, env, proposal).value.0, proposal);
    } else {
      OneLessMissing(Accounts(proposal.Members()), Supporters(r.parametersVotes, proposal), env.signer);
    }
  }

  /** The next vote on a running record. */
  lemma NextVote(now: Now, r: RunningState, proposal: ThresholdParameters)
    returns (a: AccountId, r': RunningState, accepted: bool)
    requires ValidRunning(r) && Admissible(r.parameters, proposal)
    ensures ProcessProposal(r, By(a, now, VoteCancelResharing).env, proposal) == Ok((r', accepted))
    ensures ValidRunning(r') && r' == r.(parametersVotes := r'.parametersVotes)
    ensures !accepted ==> Missing(r', proposal) < Missing(r, proposal)
  {
    a := NextVoter(r, proposal);
    var env := By(a, now, VoteCancelResharing).env;
    VoteAdvances(r, proposal, env);
    r', accepted := ProcessProposal(r, env, proposal).value.0, ProcessProposal(r, env, proposal).value.1;
  }

  lemma RunningVoteIs(now: Now, r: RunningState, proposal: ThresholdParameters, a: AccountId, r': RunningState,
                      accepted: bool)
    requires ProcessProposal(r, By(a, now, VoteCancelResharing).env, proposal) == Ok((r', accepted))
    requires r' == r.(parametersVotes := r'.parametersVotes)
    ensures TransitionToResharing(r', proposal) == TransitionToResharing(r, proposal)
    ensures Leads(now, Running(r), [By(a, now, VoteNewParameters(ProspectiveEpoch(r), proposal, true))],
                  if accepted then TransitionToResharing(r, proposal) else Running(r'))
  {
    var e := By(a, now, VoteNewParameters(ProspectiveEpoch(r), proposal, true));
    SameTransition(r, r', proposal);
    ProposalStepIs(r, e.env, e.call.epoch, proposal);
    ProposalResult(r, e.env, proposal, r', accepted);
    LeadsOne(now, Running(r), e, if accepted then TransitionToResharing(r, proposal) else Running(r'));
  }

  lemma SameTransition(r: RunningState, r': RunningState, proposal: ThresholdParameters)
    requires r' == r.(parametersVotes := r'.parametersVotes)
    ensures TransitionToResharing(r', proposal) == TransitionToResharing(r, proposal)
  {
  }

  lemma ProposalResult(r: RunningState, env: Env, proposal: ThresholdParameters, r': RunningState, accepted: bool)
    requires ProcessProposal(r, env, proposal) == Ok((r', accepted))
    ensures RunningVoteNewParameters(r, env, ProspectiveEpoch(r), proposal) ==
            Ok(if accepted then TransitionToResharing(r', proposal) else Running(r'))
  {
  }

  lemma ProposalStepIs(r: RunningState, env: Env, epoch: EpochId, proposal: ThresholdParameters)
    ensures Step(Running(r), env, VoteNewParameters(epoch, proposal, true)) ==
            RunningVoteNewParameters(r, env, epoch, proposal)
  {
  }

  /** A running contract moves to any admissible parameters by the votes of their participants. */
  lemma {:induction false} CanPropose(now: Now, r: RunningState, proposal: ThresholdParameters) returns (es: seq<Event>)
    requires ValidRunning(r) && Admissible(r.parameters, proposal)
    ensures Leads(now, Running(r), es, TransitionToResharing(r, proposal))
    decreases Missing(r, proposal)
  {
    var a, r', accepted := NextVote(now, r, proposal);
    var e := By(a, now, VoteNewParameters(ProspectiveEpoch(r), proposal, true));
    RunningVoteIs(now, r, proposal, a, r', accepted);
    es := [e];
    if !accepted {
      var rest := CanPropose(now, r', proposal);
      LeadsOn(now, Running(r), [e], Running(r'), rest, TransitionToResharing(r, proposal));
      es := [e] + rest;
    }
  }

  /** The resharing that a vote for other parameters replaces `x` by. */
  function Replaced(x: ResharingState, proposal: ThresholdParameters): ResharingState
    requires x.previous.domains.domains != []
  {
    ResharingState(
      NewRunning(x.previous.domains, x.previous.keyset, x.previous.parameters, x.previous.addDomainsVotes), [],
      NewKeyEvent(x.resharingKey.epoch + 1, x.previous.domains.domains[0], proposal), {})
  }

  lemma ReproposalStepIs(x: ResharingState, env: Env, epoch: EpochId, proposal: ThresholdParameters)
    ensures Step(Resharing(x), env, VoteNewParameters(epoch, proposal, true)) ==
            ReshareVoteNewParameters(x, env, epoch, proposal)
  {
  }

  lemma ResharingVoteIs(now: Now, x: ResharingState, proposal: ThresholdParameters, a: AccountId, r': RunningState,
                        accepted: bool)
    requires ValidResharing(x) && ProcessProposal(x.previous, By(a, now, VoteCancelResharing).env, proposal) ==
             Ok((r', accepted))
    requires r' == x.previous.(parametersVotes := r'.parametersVotes)
    ensures Replaced(x.(previous := r'), proposal) == Replaced(x, proposal)
    ensures Leads(now, Resharing(x), [By(a, now, VoteNewParameters(x.resharingKey.epoch + 1, proposal, true))],
                  Resharing(if accepted then Replaced(x, proposal) else x.(previous := r')))
  {
    var e := By(a, now, VoteNewParameters(x.resharingKey.epoch + 1, proposal, true));
    ReproposalStepIs(x, e.env, e.call.epoch, proposal);
    LeadsOne(now, Resharing(x), e, ReshareVoteNewParameters(x, e.env, e.call.epoch, proposal).value);
  }

  lemma {:induction false} CanRepropose(now: Now, x: ResharingState, proposal: ThresholdParameters)
    returns (es: seq<Event>)
    requires ValidResharing(x) && Admissible(x.previous.parameters, proposal)
    ensures Leads(now, Resharing(x), es, Resharing(Replaced(x, proposal)))
    decreases Missing(x.previous, proposal)
  {
    var a, r', accepted := NextVote(now, x.previous, proposal);
    var e := By(a, now, VoteNewParameters(x.resharingKey.epoch + 1, proposal, true));
    ResharingVoteIs(now, x, proposal, a, r', accepted);
    es := [e];
    if !accepted {
      var x' := x.(previous := r');
      var rest := CanRepropose(now, x', proposal);
      LeadsOn(now, Resharing(x), [e], Resharing(x'), rest, Resharing(Replaced(x, proposal)));
      es := [e] + rest;
    }
  }

  // ---------- key generation ----------

  /** The running phase that a cancelled generation goes back to: the finished keys stay. */
  function Cancelled(i: InitializingState): RunningState {
    NewRunning(Retain(i.domains, |i.generatedKeys|), Keyset(i.epoch, i.generatedKeys), i.generatingKey.parameters,
      map[])
  }

  /** A participant that has not voted to cancel yet. */
  lemma NextCanceller(i: InitializingState) returns (p: Participant)
    requires ValidInitializing(i)
    ensures p in i.generatingKey.parameters.Members() && p.id !in i.cancelVotes
  {
    var ms := i.generatingKey.parameters.Members();
    DistinctCardinality(ms);
    var x := Missed(Ids(ms), i.cancelVotes);
    p :| p in ms && p.id == x;
  }

  lemma CancelVote(now: Now, i: InitializingState, p: Participant)
    requires ValidInitializing(i) && p in i.generatingKey.parameters.Members() && p.id !in i.cancelVotes
    ensures var votes := i.cancelVotes + {p.id};
            Leads(now, Initializing(i), [By(p.account, now, VoteCancelKeygen(i.domains.nextDomainId))],
                  if |votes| >= i.generatingKey.parameters.threshold then Running(Cancelled(i))
                  else Initializing(i.(cancelVotes := votes)))
  {
    var c := VoteCancelKeygen(i.domains.nextDomainId);
    var e := By(p.account, now, c);
    CancelVoteResult(i, p, e.env);
    InitializingStepIs(i, e.env, c);
    LeadsOne(now, Initializing(i), e, InitVoteCancel(i, e.env, i.domains.nextDomainId).value);
  }

  lemma CancelVoteResult(i: InitializingState, p: Participant, env: Env)
    requires ValidInitializing(i) && p in i.generatingKey.parameters.Members() && p.id !in i.cancelVotes
             && env.signer == p.account
    ensures var votes := i.cancelVotes + {p.id};
            InitVoteCancel(i, env, i.domains.nextDomainId) ==
            Ok(if |votes| >= i.generatingKey.parameters.threshold then Running(Cancelled(i))
               else Initializing(i.(cancelVotes := votes)))
  {
    MemberFound(i.generatingKey.parameters.Members(), p);
  }

  lemma InitializingStepIs(i: InitializingState, env: Env, c: Call)
    requires c.VoteCancelKeygen?
    ensures Step(Initializing(i), env, c) == InitVoteCancel(i, env, c.nextDomainId)
  {
  }

  /** Participants can always cancel the generation of keys. */
  lemma {:induction false} CanCancelKeygen(now: Now, i: InitializingState) returns (es: seq<Event>)
    requires ValidInitializing(i)
    ensures Leads(now, Initializing(i), es, Running(Cancelled(i)))
    decreases i.generatingKey.parameters.threshold - |i.cancelVotes|
  {
    var p := NextCanceller(i);
    CancelVote(now, i, p);
    var e, votes := By(p.account, now, VoteCancelKeygen(i.domains.nextDomainId)), i.cancelVotes + {p.id};
    es := [e];
    if |votes| < i.generatingKey.parameters.threshold {
      MemberFound(i.generatingKey.parameters.Members(), p);
      var i' := i.(cancelVotes := votes);
      var rest := CanCancelKeygen(now, i');
      LeadsOn(now, Initializing(i), [e], Initializing(i'), rest, Running(Cancelled(i)));
      es := [e] + rest;
    }
  }

  // ---------- one domain of a resharing ----------

  /** No attempt is running any more. */
  predicate Quiet(ke: KeyEvent, now: Now) { ke.instance.Some? ==> ke.instance.value.expiresOn <= now.block }

  function NextId(ke: KeyEvent): KeyEventId { KeyEventId(ke.epoch, ke.domain.id, ke.nextAttempt) }

  /** The key event with its next attempt just started. */
  function StartedAt(ke: KeyEvent, now: Now): KeyEvent {
    var inst := Instance(ke.nextAttempt, now.block, now.block + 1 + now.timeout, {}, None);
    ke.(instance := Some(inst), nextAttempt := ke.nextAttempt + 1)
  }

  /** The leader can start the next attempt once the one before has expired. */
  lemma CanStart(now: Now, x: ResharingState) returns (e: Event)
    requires ValidResharing(x) && Quiet(x.resharingKey, now)
    ensures e.call == StartReshare(NextId(x.resharingKey)) && Step(Resharing(x), e.env, e.call).Ok?
    ensures var y := x.(resharingKey := StartedAt(x.resharingKey, now));
            Leads(now, Resharing(x), [e], Resharing(y)) && ValidResharing(y)
  {
    var ke := x.resharingKey;
    var leader := Leader(ke.parameters.Members()).value;
    e := By(leader.account, now, StartReshare(NextId(ke)));
    MemberFound(ke.parameters.Members(), leader);
    StartResult(ke, e.env, now);
    ResharingStepIs(x, e.env, e.call);
    LeadsOne(now, Resharing(x), e, Resharing(x.(resharingKey := StartedAt(ke, now))));
  }

  lemma StartResult(ke: KeyEvent, env: Env, now: Now)
    requires Leader(ke.parameters.Members()).Some? && env.signer == Leader(ke.parameters.Members()).value.account
    requires Quiet(ke, now) && env.block == now.block && env.timeout == now.timeout
    ensures Start(ke, env, NextId(ke)) == Ok(StartedAt(ke, now))
  {
  }

  lemma ResharingStepIs(x: ResharingState, env: Env, c: Call)
    requires !c.VoteNewParameters? && env.attested && env.signer in Accounts(x.resharingKey.parameters.Members())
    ensures Step(Resharing(x), env, c) == ReshareKeyEvent(x, env, c)
  {
  }

  /** The attempt under way is live, and whoever voted did so for the domain's key. */
  ghost predicate Live(x: ResharingState, now: Now)
    requires |x.resharedKeys| < |x.previous.keyset.domains|
  {
    x.resharingKey.instance.Some? &&
    var inst := x.resharingKey.instance.value;
    now.block < inst.expiresOn && (inst.publicKey.Some? ==>
      inst.publicKey.value == x.previous.keyset.domains[|x.resharedKeys|].key)
  }

  /** What the last success vote of the attempt leads to. */
  function DomainDone(x: ResharingState): Phase
    requires |x.resharedKeys| < |x.previous.keyset.domains| && x.resharingKey.instance.Some?
  {
    var n, ke := |x.resharedKeys|, x.resharingKey;
    var keys := x.resharedKeys + [KeyForDomain(ke.domain.id, x.previous.keyset.domains[n].key,
      ke.instance.value.attempt)];
    if n + 1 < |x.previous.domains.domains| then
      Resharing(x.(resharedKeys := keys, resharingKey :=
        NewKeyEvent(ke.epoch, x.previous.domains.domains[n + 1], ke.parameters)))
    else Running(NewRunning(x.previous.domains, Keyset(ke.epoch, keys), ke.parameters, x.previous.addDomainsVotes))
  }

  /** The resharing with one more success vote. */
  function Voted(x: ResharingState, id: ParticipantId): ResharingState
    requires |x.resharedKeys| < |x.previous.keyset.domains| && x.resharingKey.instance.Some?
  {
    var inst := x.resharingKey.instance.value;
    x.(resharingKey := x.resharingKey.(instance := Some(inst.(
      publicKey := Some(x.previous.keyset.domains[|x.resharedKeys|].key), completed := inst.completed + {id}))))
  }

  lemma NextSuccess(ke: KeyEvent) returns (p: Participant)
    requires ValidKeyEvent(ke) && ke.instance.Some?
    ensures p in ke.parameters.Members() && p.id !in ke.instance.value.completed
  {
    var ms, done := ke.parameters.Members(), ke.instance.value.completed;
    DistinctCardinality(ms);
    var x := Missed(Ids(ms), done);
    p :| p in ms && p.id == x;
  }

  lemma SuccessVote(now: Now, x: ResharingState, p: Participant)
    requires ValidResharing(x) && Live(x, now)
    requires p in x.resharingKey.parameters.Members() && p.id !in x.resharingKey.instance.value.completed
    ensures var ke := x.resharingKey;
            var e := By(p.account, now, VoteReshared(KeyEventId(ke.epoch, ke.domain.id, ke.instance.value.attempt)));
            Leads(now, Resharing(x), [e],
                  if |ke.instance.value.completed + {p.id}| == |ke.parameters.Members()| then DomainDone(x)
                  else Resharing(Voted(x, p.id)))
  {
    var ke := x.resharingKey;
    var e := By(p.account, now, VoteReshared(KeyEventId(ke.epoch, ke.domain.id, ke.instance.value.attempt)));
    MemberFound(ke.parameters.Members(), p);
    SuccessResult(ke, p, e.env, x.previous.keyset.domains[|x.resharedKeys|].key);
    ResharingStepIs(x, e.env, e.call);
    LeadsOne(now, Resharing(x), e, ReshareVoteReshared(x, e.env, e.call.id).value);
  }

  lemma SuccessResult(ke: KeyEvent, p: Participant, env: Env, key: PublicKey)
    requires ke.instance.Some? && env.block < ke.instance.value.expiresOn && p.id !in ke.instance.value.completed
    requires FindId(ke.parameters.Members(), env.signer) == Some(p.id)
    requires ke.instance.value.publicKey.Some? ==> ke.instance.value.publicKey.value == key
    ensures var inst := ke.instance.value;
            VoteSuccess(ke, env, KeyEventId(ke.epoch, ke.domain.id, inst.attempt), key) ==
            Ok((ke.(instance := Some(inst.(publicKey := Some(key), completed := inst.completed + {p.id}))),
                |inst.completed + {p.id}| == |ke.parameters.Members()|))
  {
  }

  lemma VotedIsValid(now: Now, x: ResharingState, p: Participant)
    requires ValidResharing(x) && Live(x, now)
    requires p in x.resharingKey.parameters.Members() && p.id !in x.resharingKey.instance.value.completed
    requires |x.resharingKey.instance.value.completed + {p.id}| != |x.resharingKey.parameters.Members()|
    ensures var y := Voted(x, p.id); ValidResharing(y) && Live(y, now) && DomainDone(y) == DomainDone(x)
  {
    VotedIsValidEvent(x.resharingKey, p, x.previous.keyset.domains[|x.resharedKeys|].key);
  }

  lemma VotedIsValidEvent(ke: KeyEvent, p: Participant, key: PublicKey)
    requires ValidKeyEvent(ke) && ke.instance.Some? && p in ke.parameters.Members()
    requires |ke.instance.value.completed + {p.id}| != |ke.parameters.Members()|
    ensures var inst := ke.instance.value;
            ValidKeyEvent(ke.(instance := Some(inst.(publicKey := Some(key), completed := inst.completed + {p.id}))))
  {
    var ms, done := ke.parameters.Members(), ke.instance.value.completed;
    MemberFound(ms, p);
    DistinctCardinality(ms);
    SubsetCardinality(done + {p.id}, Ids(ms));
  }

  /** All participants vote for the attempt under way. */
  lemma {:induction false} CanFinishDomain(now: Now, x: ResharingState) returns (es: seq<Event>)
    requires ValidResharing(x) && Live(x, now)
    ensures Leads(now, Resharing(x), es, DomainDone(x))
    decreases |x.resharingKey.parameters.Members()| - |x.resharingKey.instance.value.completed|
  {
    var ke := x.resharingKey;
    var p := NextSuccess(ke);
    SuccessVote(now, x, p);
    es := [By(p.account, now, VoteReshared(KeyEventId(ke.epoch, ke.domain.id, ke.instance.value.attempt)))];
    if |ke.instance.value.completed + {p.id}| != |ke.parameters.Members()| {
      VotedIsValid(now, x, p);
      var rest := CanFinishDomain(now, Voted(x, p.id));
      LeadsOn(now, Resharing(x), es, Resharing(Voted(x, p.id)), rest, DomainDone(x));
      es := es + rest;
    }
  }

  /** An attempt under way can be aborted: somebody has not voted for it yet. */
  lemma CanAbort(now: Now, x: ResharingState) returns (e: Event)
    requires ValidResharing(x) && !Quiet(x.resharingKey, now)
    ensures Leads(now, Resharing(x), [e], Resharing(x.(resharingKey := x.resharingKey.(instance := None))))
  {
    var ke := x.resharingKey;
    var p := NextSuccess(ke);
    MemberFound(ke.parameters.Members(), p);
    e := By(p.account, now, VoteAbortKeyEvent(KeyEventId(ke.epoch, ke.domain.id, ke.instance.value.attempt)));
    AbortResult(ke, p, e.env, now);
    AbortStepIs(x, e.env, e.call.id, ke.(instance := None));
    LeadsOne(now, Resharing(x), e, Resharing(x.(resharingKey := ke.(instance := None))));
  }

  lemma AbortResult(ke: KeyEvent, p: Participant, env: Env, now: Now)
    requires !Quiet(ke, now) && env.block == now.block && p.id !in ke.instance.value.completed
    requires FindId(ke.parameters.Members(), env.signer) == Some(p.id)
    ensures VoteAbort(ke, env, KeyEventId(ke.epoch, ke.domain.id, ke.instance.value.attempt)) ==
            Ok(ke.(instance := None))
  {
  }

  lemma AbortStepIs(x: ResharingState, env: Env, id: KeyEventId, ke: KeyEvent)
    requires env.attested && env.signer in Accounts(x.resharingKey.parameters.Members())
    requires VoteAbort(x.resharingKey, env, id) == Ok(ke)
    ensures Apply(Resharing(x), Event(env, VoteAbortKeyEvent(id))) == Resharing(x.(resharingKey := ke))
  {
    ResharingStepIs(x, env, VoteAbortKeyEvent(id));
  }

  /** So no attempt need be waited for. */
  lemma CanClear(now: Now, x: ResharingState) returns (es: seq<Event>, y: ResharingState)
    requires ValidResharing(x)
    ensures Leads(now, Resharing(x), es, Resharing(y)) && ValidResharing(y) && Quiet(y.resharingKey, now)
    ensures y == x.(resharingKey := x.resharingKey.(instance := y.resharingKey.instance))
  {
    es, y := [], x;
    if Quiet(x.resharingKey, now) {
      LeadsNowhere(now, Resharing(x));
    } else {
      var e := CanAbort(now, x);
      es, y := [e], x.(resharingKey := x.resharingKey.(instance := None));
    }
  }

  /** From any valid resharing its participants can reshare the current domain, at any height. */
  lemma CanReshareDomain(now: Now, x: ResharingState) returns (es: seq<Event>, y: ResharingState)
    requires ValidResharing(x)
    ensures y == x.(resharingKey := StartedAt(x.resharingKey, now))
    ensures Leads(now, Resharing(x), es, DomainDone(y)) && Valid(DomainDone(y))
  {
    var first, x1 := CanClear(now, x);
    var e := CanStart(now, x1);
    y := x.(resharingKey := StartedAt(x.resharingKey, now));
    LeadsOn(now, Resharing(x), first, Resharing(x1), [e], Resharing(y));
    var rest := CanFinishDomain(now, y);
    LeadsOn(now, Resharing(x), first + [e], Resharing(y), rest, DomainDone(y));
    es := first + [e] + rest;
    RunKeepsValid(Resharing(x), es);
  }

  /** A resharing under way can always be finished by its participants: the contract is then running with the
      parameters reshared to, in the new epoch, with the same domains. */
  lemma {:induction false} CanFinishResharing(now: Now, x: ResharingState) returns (es: seq<Event>, r: RunningState)
    requires ValidResharing(x)
    ensures Leads(now, Resharing(x), es, Running(r)) && ValidRunning(r)
    ensures r.parameters == x.resharingKey.parameters && r.keyset.epoch == x.resharingKey.epoch
    ensures r.domains == x.previous.domains && r.parametersVotes == map[]
    decreases |x.previous.domains.domains| - |x.resharedKeys|
  {
    var y;
    es, y := CanReshareDomain(now, x);
    match DomainDone(y)
    case Running(r') => r := r';
    case Resharing(z) =>
      var rest;
      rest, r := CanFinishResharing(now, z);
      LeadsOn(now, Resharing(x), es, Resharing(z), rest, Running(r));
      es := es + rest;
  }

  /** Parameters that may be proposed can be brought into force by the votes of their participants. */
  lemma CanAdopt(now: Now, r: RunningState, proposal: ThresholdParameters) returns (es: seq<Event>, r': RunningState)
    requires ValidRunning(r) && Admissible(r.parameters, proposal)
    ensures Leads(now, Running(r), es, Running(r')) && ValidRunning(r')
    ensures r'.parameters == proposal && r'.domains == r.domains && r'.parametersVotes == map[]
  {
    es := CanPropose(now, r, proposal);
    RunKeepsValid(Running(r), es);
    match TransitionToResharing(r, proposal)
    case Running(r1) => r' := r1;
    case Resharing(x) =>
      var rest;
      rest, r' := CanFinishResharing(now, x);
      LeadsOn(now, Running(r), es, Resharing(x), rest, Running(r'));
      es := es + rest;
  }

  // ---------- any attempt of a resharing ----------

  /** Attempts at the current domain up to any number. */
  lemma {:induction false} CanReachAttempt(now: Now, x: ResharingState, attempt: AttemptId)
    returns (es: seq<Event>, y: ResharingState)
    requires ValidResharing(x) && x.resharingKey.nextAttempt <= attempt && Quiet(x.resharingKey, now)
    ensures Leads(now, Resharing(x), es, Resharing(y)) && ValidResharing(y) && Quiet(y.resharingKey, now)
    ensures NextId(y.resharingKey) == KeyEventId(x.resharingKey.epoch, x.resharingKey.domain.id, attempt)
    decreases attempt - x.resharingKey.nextAttempt
  {
    es, y := [], x;
    if x.resharingKey.nextAttempt < attempt {
      var e := CanStart(now, x);
      var z := x.(resharingKey := StartedAt(x.resharingKey, now));
      var f := CanAbort(now, z);
      var z' := z.(resharingKey := z.resharingKey.(instance := None));
      LeadsOn(now, Resharing(x), [e], Resharing(z), [f], Resharing(z'));
      var rest;
      rest, y := CanReachAttempt(now, z', attempt);
      LeadsOn(now, Resharing(x), [e] + [f], Resharing(z'), rest, Resharing(y));
      es := [e] + [f] + rest;
    } else {
      LeadsNowhere(now, Resharing(x));
    }
  }

  /** The domains before one of the registry can be reshared one after the other. */
  lemma {:induction false} CanReachDomain(now: Now, x: ResharingState, m: nat)
    returns (es: seq<Event>, y: ResharingState)
    requires ValidResharing(x) && |x.resharedKeys| <= m < |x.previous.domains.domains|
    requires |x.resharedKeys| == m ==> x.resharingKey.nextAttempt == 0
    ensures Leads(now, Resharing(x), es, Resharing(y)) && ValidResharing(y)
    ensures y.resharingKey.epoch == x.resharingKey.epoch && y.resharingKey.domain == x.previous.domains.domains[m]
    ensures y.resharingKey.nextAttempt == 0
    decreases m - |x.resharedKeys|
  {
    es, y := [], x;
    if |x.resharedKeys| < m {
      var s;
      es, s := CanReshareDomain(now, x);
      var z := DomainDone(s).reshare;
      var rest;
      rest, y := CanReachDomain(now, z, m);
      LeadsOn(now, Resharing(x), es, Resharing(z), rest, Resharing(y));
      es := es + rest;
    } else {
      LeadsNowhere(now, Resharing(x));
    }
  }

  /** Votes for the same parameters again move a resharing on, one epoch at a time. */
  lemma {:induction false} CanReachEpoch(now: Now, x: ResharingState, epoch: EpochId)
    returns (es: seq<Event>, y: ResharingState)
    requires ValidResharing(x) && x.resharingKey.epoch <= epoch && x.resharedKeys == []
             && x.resharingKey.nextAttempt == 0
    ensures Leads(now, Resharing(x), es, Resharing(y)) && ValidResharing(y)
    ensures y.resharingKey.epoch == epoch && y.resharedKeys == [] && y.resharingKey.nextAttempt == 0
    ensures y.previous.domains == x.previous.domains
    decreases epoch - x.resharingKey.epoch
  {
    es, y := [], x;
    if x.resharingKey.epoch < epoch {
      SelfAdmissible(x.previous.parameters);
      es := CanRepropose(now, x, x.previous.parameters);
      RunKeepsValid(Resharing(x), es);
      var z := Replaced(x, x.previous.parameters);
      var rest;
      rest, y := CanReachEpoch(now, z, epoch);
      LeadsOn(now, Resharing(x), es, Resharing(z), rest, Resharing(y));
      es := es + rest;
    } else {
      LeadsNowhere(now, Resharing(x));
    }
  }

  /** From a running contract any attempt of any later epoch can be reached and started, for every domain
      that has a key. */
  lemma CanStartAny(now: Now, r: RunningState, m: nat, id: KeyEventId)
    returns (es: seq<Event>, y: ResharingState, e: Event)
    requires ValidRunning(r) && m < |r.domains.domains| && r.domains.domains[m].id == id.domain
    requires ProspectiveEpoch(r) <= id.epoch
    ensures Leads(now, Running(r), es, Resharing(y)) && AllAt(now, [e])
    ensures e.call == StartReshare(id) && Step(Resharing(y), e.env, e.call).Ok?
  {
    SelfAdmissible(r.parameters);
    es := CanPropose(now, r, r.parameters);
    RunKeepsValid(Running(r), es);
    var x := TransitionToResharing(r, r.parameters).reshare;
    var more;
    var z;
    more, z := CanReachEpoch(now, x, id.epoch);
    LeadsOn(now, Running(r), es, Resharing(x), more, Resharing(z));
    es := es + more;
    var w;
    more, w := CanReachDomain(now, z, m);
    LeadsOn(now, Running(r), es, Resharing(z), more, Resharing(w));
    es := es + more;
    more, y := CanReachAttempt(now, w, id.attempt);
    LeadsOn(now, Running(r), es, Resharing(w), more, Resharing(y));
    es := es + more;
    e := CanStart(now, y);
  }

  // ---------- cancelling a resharing ----------

  function Back(x: ResharingState): RunningState {
    x.previous.(cancelledEpoch := Some(x.resharingKey.epoch))
  }

  lemma CancelResharingVote(now: Now, x: ResharingState, a: AccountId)
    requires ValidResharing(x) && a in Accounts(x.previous.parameters.Members())
    ensures var requests := x.cancellationRequests + {a};
            Leads(now, Resharing(x), [By(a, now, VoteCancelResharing)],
                  if |requests| >= x.previous.parameters.threshold then Running(Back(x))
                  else Resharing(x.(cancellationRequests := requests)))
  {
    var e := By(a, now, VoteCancelResharing);
    LeadsOne(now, Resharing(x), e, ReshareVoteCancel(x, e.env).value);
  }

  /** The previous participants can always cancel a resharing. */
  lemma {:induction false} CanCancelResharing(now: Now, x: ResharingState) returns (es: seq<Event>)
    requires ValidResharing(x)
    ensures Leads(now, Resharing(x), es, Running(Back(x)))
    decreases x.previous.parameters.threshold - |x.cancellationRequests|
  {
    DistinctCardinality(x.previous.parameters.Members());
    var a := Missed(Accounts(x.previous.parameters.Members()), x.cancellationRequests);
    CancelResharingVote(now, x, a);
    es := [By(a, now, VoteCancelResharing)];
    var requests := x.cancellationRequests + {a};
    if |requests| < x.previous.parameters.threshold {
      var y := x.(cancellationRequests := requests);
      var rest := CanCancelResharing(now, y);
      LeadsOn(now, Resharing(x), es, Resharing(y), rest, Running(Back(x)));
      es := es + rest;
    }
  }
}
