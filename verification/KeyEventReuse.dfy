/** When a key event id is used twice: exactly when a call forgets a cancelled epoch although an attempt
    later than the current keys has been started. Then the participants can start every such attempt again. */
module KeyEventReuse {
  import opened Common
  import opened Parameters
  import opened Domains
  import opened KeyEvents
  import opened Lifecycle
  import opened LifecycleSafety
  import opened LifecycleRuns
  import opened KeyEventIds
  import P = Progress

  lemma {:induction false} StartedCompose(s: Phase, a: seq<Event>, b: seq<Event>)
    ensures StartedIds(s, a + b) == StartedIds(s, a) + StartedIds(Run(s, a), b)
    decreases |b|
  {
    if b == [] {
      assert a + b == a;
    } else {
      var last := |b| - 1;
      assert (a + b)[..|a + b| - 1] == a + b[..last] && (a + b)[|a + b| - 1] == b[last];
      RunCompose(s, a, b[..last]);
      StartedCompose(s, a, b[..last]);
    }
  }

  // ---------- started ids belong to domains with keys ----------

  /** The epoch of the keys in use. */
  function KeyEpoch(s: Phase): EpochId {
    match s
    case NotInitialized => 0
    case Initializing(i) => i.epoch
    case Running(r) => r.keyset.epoch
    case Resharing(x) => x.previous.keyset.epoch
  }

  predicate HasKey(s: Phase, d: DomainId) {
    exists i :: 0 <= i < |ActiveKeys(s)| && ActiveKeys(s)[i].domain == d
  }

  /** Keys of this epoch or later are in use, or the attempt was at the key of a domain in use. */
  predicate Placed(s: Phase, id: KeyEventId) { id.epoch <= KeyEpoch(s) || HasKey(s, id.domain) }

  lemma KeyEpochGrows(s: Phase, env: Env, c: Call)
    requires Valid(s) && Step(s, env, c).Ok?
    ensures KeyEpoch(s) <= KeyEpoch(Step(s, env, c).value)
  {
    match s
    case Initializing(i) =>
    case Running(r) => RunningKeyEpoch(r, env, c);
    case Resharing(x) => ResharingKeyEpoch(x, env, c);
    case _ =>
  }

  lemma RunningKeyEpoch(r: RunningState, env: Env, c: Call)
    requires ValidRunning(r) && StepRunning(r, env, c).Ok?
    ensures r.keyset.epoch <= KeyEpoch(StepRunning(r, env, c).value)
  {
    match c
    case VoteNewParameters(epoch, proposal, _) => ProposalKeyEpoch(r, env, epoch, proposal);
    case _ =>
  }

  lemma ProposalKeyEpoch(r: RunningState, env: Env, epoch: EpochId, proposal: ThresholdParameters)
    requires RunningVoteNewParameters(r, env, epoch, proposal).Ok?
    ensures r.keyset.epoch <= KeyEpoch(RunningVoteNewParameters(r, env, epoch, proposal).value)
  {
    ProposalFrame(r, env, proposal);
  }

  lemma ResharingKeyEpoch(x: ResharingState, env: Env, c: Call)
    requires ValidResharing(x) && StepResharing(x, env, c).Ok?
    ensures x.previous.keyset.epoch <= KeyEpoch(StepResharing(x, env, c).value)
  {
    match c
    case VoteNewParameters(epoch, proposal, _) => ReproposalFrame(x, env, epoch, proposal);
    case VoteReshared(id) => VoteResharedKeyEpoch(x, env, id);
    case _ =>
  }

  lemma VoteResharedKeyEpoch(x: ResharingState, env: Env, id: KeyEventId)
    requires ValidResharing(x) && ReshareVoteReshared(x, env, id).Ok?
    ensures x.previous.keyset.epoch <= KeyEpoch(ReshareVoteReshared(x, env, id).value)
  {
    VoteSuccessOutcome(x.resharingKey, env, id, x.previous.keyset.domains[|x.resharedKeys|].key);
  }

  lemma PlacedStays(s: Phase, env: Env, c: Call, id: KeyEventId)
    requires Valid(s) && Step(s, env, c).Ok? && Placed(s, id)
    ensures Placed(Step(s, env, c).value, id)
  {
    KeyEpochGrows(s, env, c);
    StepKeepsKeys(s, env, c);
    if HasKey(s, id.domain) {
      var i :| 0 <= i < |ActiveKeys(s)| && ActiveKeys(s)[i].domain == id.domain;
      assert SameKey(ActiveKeys(s)[i], ActiveKeys(Step(s, env, c).value)[i]);
    }
  }

  lemma StartedIsPlaced(s: Phase, env: Env, c: Call)
    requires Valid(s) && Started(s, env, c).Some?
    ensures Placed(s, c.id)
  {
    if s.Resharing? {
      var n := |s.reshare.resharedKeys|;
      assert ActiveKeys(s)[n].domain == s.reshare.resharingKey.domain.id;
    }
  }

  lemma {:induction false} StartedArePlaced(s: Phase, es: seq<Event>, id: KeyEventId)
    requires Valid(s) && id in StartedIds(s, es)
    ensures Placed(Run(s, es), id)
    decreases |es|
  {
    var before, e := es[..|es| - 1], es[|es| - 1];
    RunKeepsValid(s, before);
    var mid := Run(s, before);
    if id in StartedIds(s, before) {
      StartedArePlaced(s, before, id);
    } else {
      StartedIsPlaced(mid, e.env, e.call);
    }
    if Step(mid, e.env, e.call).Ok? {
      PlacedStays(mid, e.env, e.call, id);
    }
  }

  // ---------- forgetting lets every later id be used again ----------

  /** Cancelling the generation that the forgetting call starts leaves domains and keys as they were. */
  lemma AddingBegins(r: RunningState, env: Env, ds: seq<DomainConfig>) returns (i: InitializingState)
    requires ValidRunning(r) && ForgetsCancelledEpoch(Running(r), env, VoteAddDomains(ds))
    ensures Step(Running(r), env, VoteAddDomains(ds)) == Ok(Initializing(i)) && ValidInitializing(i)
    ensures P.Cancelled(i).domains.domains == r.domains.domains
            && ProspectiveEpoch(P.Cancelled(i)) == r.keyset.epoch + 1
  {
    LastDomainVote(r, env, ds);
    AddDomainsIsValid(r, env, ds);
    i := RunningVoteAddDomains(r, env, ds).value.init;
  }

  /** The generation that the forgetting call starts can be cancelled, and then any later attempt at a
      domain with a key be started. */
  lemma CanStartAgain(now: P.Now, r: RunningState, env: Env, ds: seq<DomainConfig>, id: KeyEventId)
    returns (more: seq<Event>, e: Event)
    requires ValidRunning(r) && ForgetsCancelledEpoch(Running(r), env, VoteAddDomains(ds))
    requires id.epoch > r.keyset.epoch && HasKey(Running(r), id.domain)
    ensures var s := Step(Running(r), env, VoteAddDomains(ds));
            && s.Ok? && P.Plain(more + [e]) && P.AllAt(now, more + [e])
            && Started(Run(s.value, more), e.env, e.call) == Some(id)
  {
    var i := AddingBegins(r, env, ds);
    var cancel := P.CanCancelKeygen(now, i);
    RunKeepsValid(Initializing(i), cancel);
    var r' := P.Cancelled(i);
    var m :| 0 <= m < |r.keyset.domains| && r.keyset.domains[m].domain == id.domain;
    var es, y, start := P.CanStartAny(now, r', m, id);
    P.LeadsOn(now, Initializing(i), cancel, Running(r'), es, Resharing(y));
    more, e := cancel + es, start;
  }

  lemma AppendedTwice(a: seq<KeyEventId>, b: seq<KeyEventId>, id: KeyEventId)
    requires id in a
    ensures !Injective(a + b + [id])
  {
    var i :| 0 <= i < |a| && a[i] == id;
    var all := a + b + [id];
    assert all[i] == all[|all| - 1];
  }

  /** After the forgetting call the participants can start that very id again, at any height of the chain. */
  lemma ForgettingReuses(now: P.Now, s0: Phase, es: seq<Event>, e: Event, id: KeyEventId) returns (more: seq<Event>)
    requires Valid(s0) && ForgetsCancelledEpoch(Run(s0, es), e.env, e.call)
    requires id in StartedIds(s0, es) && id.epoch > Run(s0, es).run.keyset.epoch
    ensures P.Plain(more) && P.AllAt(now, more) && !Injective(StartedIds(s0, es + [e] + more))
  {
    RunKeepsValid(s0, es);
    StartedArePlaced(s0, es, id);
    var r := Run(s0, es).run;
    var next, start := CanStartAgain(now, r, e.env, e.call.domains, id);
    more := next + [start];
    AfterCall(s0, es, e, id);
    StartedTwice(s0, es + [e], next, start, id);
  }

  lemma AfterCall(s0: Phase, es: seq<Event>, e: Event, id: KeyEventId)
    ensures Run(s0, es + [e]) == Apply(Run(s0, es), e)
    ensures id in StartedIds(s0, es) ==> id in StartedIds(s0, es + [e])
  {
    assert (es + [e])[..|es|] == es;
  }

  lemma StartedTwice(s0: Phase, es: seq<Event>, next: seq<Event>, start: Event, id: KeyEventId)
    requires id in StartedIds(s0, es) && Started(Run(Run(s0, es), next), start.env, start.call) == Some(id)
    ensures !Injective(StartedIds(s0, es + (next + [start])))
  {
    var mid := Run(s0, es);
    StartedCompose(s0, es, next + [start]);
    assert (next + [start])[..|next|] == next;
    AppendedTwice(StartedIds(s0, es), StartedIds(mid, next), id);
    assert StartedIds(s0, es) + (StartedIds(mid, next) + [id]) == StartedIds(s0, es) + StartedIds(mid, next) + [id];
  }

  lemma StaysCareful(s0: Phase, es: seq<Event>, e: Event, more: seq<Event>)
    requires Careful(s0, es) && !ForgetsStarted(s0, es, e) && P.Plain(more)
    ensures Careful(s0, es + [e] + more)
  {
    var all := es + [e] + more;
    forall k | 0 <= k < |all| ensures !ForgetsStarted(s0, all[..k], all[k]) {
      if k < |es| {
        assert all[..k] == es[..k] && all[k] == es[k];
      } else if k == |es| {
        assert all[..k] == es && all[k] == e;
      } else {
        assert all[k] == more[k - |es| - 1];
      }
    }
  }

  /** Exactly when ids stop being unique: after a careful run, a next call makes it possible for an id to be
      started twice without any further vote on domains if and only if it forgets a cancelled epoch although an
      attempt later than the current keys has been started; and then so at any height of the chain. */
  lemma ReusedIff(now: P.Now, s0: Phase, es: seq<Event>, e: Event)
    requires Valid(s0) && Careful(s0, es)
    ensures ForgetsStarted(s0, es, e) <==>
            exists more :: P.Plain(more) && !Injective(StartedIds(s0, es + [e] + more))
    ensures ForgetsStarted(s0, es, e) ==>
            exists more :: P.Plain(more) && P.AllAt(now, more) && !Injective(StartedIds(s0, es + [e] + more))
  {
    if ForgetsStarted(s0, es, e) {
      var id :| id in StartedIds(s0, es) && id.epoch > Run(s0, es).run.keyset.epoch;
      var more := ForgettingReuses(now, s0, es, e, id);
    } else {
      forall more | P.Plain(more) ensures Injective(StartedIds(s0, es + [e] + more)) {
        StaysCareful(s0, es, e, more);
        StartedIdsDistinct(s0, es + [e] + more);
      }
    }
  }

  // ---------- and it can happen to every contract with a domain ----------

  /** Participants whose recorded vote is not for these domains. */
  ghost function Undecided(r: RunningState, ds: seq<DomainConfig>): set<ParticipantId> {
    set x | x in Ids(r.parameters.Members()) && !(x in r.addDomainsVotes && r.addDomainsVotes[x] == ds)
  }

  predicate Addable(r: RunningState, ds: seq<DomainConfig>) {
    ds != [] && (forall d :: d in ds ==> ValidSchemeForPurpose(d)) && Contiguous(r.domains.nextDomainId, ds)
  }

  /** A vote that is not the last one needed is recorded. */
  lemma DomainVoteRecorded(now: P.Now, r: RunningState, p: Participant, ds: seq<DomainConfig>)
    requires ValidRunning(r) && p in r.parameters.Members() && !OthersVoted(r, p.account, ds) && Addable(r, ds)
    ensures Apply(Running(r), P.By(p.account, now, VoteAddDomains(ds))) ==
            Running(r.(addDomainsVotes := r.addDomainsVotes[p.id := ds]))
  {
    var env := P.By(p.account, now, VoteAddDomains(ds)).env;
    P.MemberFound(r.parameters.Members(), p);
    assert RunningVoteAddDomains(r, env, ds).Ok?;
    AddDomainsNeedsEveryone(r, env, ds);
  }

  lemma OneLessUndecided(r: RunningState, r': RunningState, id: ParticipantId, ds: seq<DomainConfig>)
    requires id in Undecided(r, ds) && r' == r.(addDomainsVotes := r.addDomainsVotes[id := ds])
    ensures |Undecided(r', ds)| < |Undecided(r, ds)|
  {
    assert Undecided(r, ds) == Undecided(r', ds) + {id};
  }

  /** One more vote for the domains, when more than one is missing. */
  lemma NextDomainVote(now: P.Now, r: RunningState, ds: seq<DomainConfig>) returns (e: Event, r': RunningState)
    requires ValidRunning(r) && Addable(r, ds)
    requires forall p :: p in r.parameters.Members() ==> !OthersVoted(r, p.account, ds)
    ensures Run(Running(r), [e]) == Running(r') && P.AllAt(now, [e])
    ensures ValidRunning(r') && r' == r.(addDomainsVotes := r'.addDomainsVotes)
    ensures |Undecided(r', ds)| < |Undecided(r, ds)|
  {
    var q := SomeUndecided(r, ds);
    e, r' := P.By(q.account, now, VoteAddDomains(ds)), r.(addDomainsVotes := r.addDomainsVotes[q.id := ds]);
    DomainVoteRecorded(now, r, q, ds);
    OneLessUndecided(r, r', q.id, ds);
    RunOne(Running(r), e);
  }

  /** The participants can vote for new domains until one vote is missing. */
  lemma {:induction false} CanAlmostAdd(now: P.Now, r: RunningState, ds: seq<DomainConfig>)
    returns (es: seq<Event>, r': RunningState, p: Participant)
    requires ValidRunning(r) && Addable(r, ds)
    ensures Run(Running(r), es) == Running(r') && P.AllAt(now, es) && ValidRunning(r')
    ensures r' == r.(addDomainsVotes := r'.addDomainsVotes) && OthersVoted(r', p.account, ds)
    decreases |Undecided(r, ds)|
  {
    if q :| q in r.parameters.Members() && OthersVoted(r, q.account, ds) {
      es, r', p := [], r, q;
    } else {
      var e, mid := NextDomainVote(now, r, ds);
      var rest;
      rest, r', p := CanAlmostAdd(now, mid, ds);
      RunCompose(Running(r), [e], rest);
      P.AllAtOn(now, [e], rest);
      es := [e] + rest;
    }
  }

  lemma SomeUndecided(r: RunningState, ds: seq<DomainConfig>) returns (q: Participant)
    requires ValidRunning(r) && forall p :: p in r.parameters.Members() ==> !OthersVoted(r, p.account, ds)
    ensures q in r.parameters.Members() && q.id in Undecided(r, ds)
  {
    var ms := r.parameters.Members();
    P.MemberFound(ms, ms[0]);
    assert !OthersVoted(r, ms[0].account, ds);
    var x :| x in Ids(ms) && x != ms[0].id && !(x in r.addDomainsVotes && r.addDomainsVotes[x] == ds);
    q :| q in ms && q.id == x;
  }

  /** Two ids are the same: from every running contract that has a domain, the participants can start an
      attempt, cancel that resharing, vote to add a domain, and start the very same attempt once more. They need
      not wait for a single block. */
  lemma ReusePossible(now: P.Now, r: RunningState) returns (es: seq<Event>)
    requires ValidRunning(r) && r.domains.domains != []
    ensures P.AllAt(now, es) && !Injective(StartedIds(Running(r), es))
  {
    var s0 := Running(r);
    var id := KeyEventId(ProspectiveEpoch(r), r.domains.domains[0].id, 0);
    var a, x := StartAndCancel(now, r, id);
    var ds := [DomainConfig(x.domains.nextDomainId, Secp256k1, Sign)];
    var b, y, p := CanAlmostAdd(now, x, ds);
    RunCompose(s0, a, b);
    StartedCompose(s0, a, b);
    var e := P.By(p.account, now, VoteAddDomains(ds));
    assert ForgetsCancelledEpoch(Running(y), e.env, e.call);
    var more := ForgettingReuses(now, s0, a + b, e, id);
    es := a + b + [e] + more;
  }

  lemma StartAndCancel(now: P.Now, r: RunningState, id: KeyEventId) returns (es: seq<Event>, r': RunningState)
    requires ValidRunning(r) && r.domains.domains != []
    requires id == KeyEventId(ProspectiveEpoch(r), r.domains.domains[0].id, 0)
    ensures Run(Running(r), es) == Running(r') && ValidRunning(r') && id in StartedIds(Running(r), es)
    ensures P.AllAt(now, es) && r'.cancelledEpoch == Some(id.epoch)
  {
    var a, y := StartFirst(now, r, id);
    var b := P.CanCancelResharing(now, y);
    RunCompose(Running(r), a, b);
    StartedCompose(Running(r), a, b);
    es, r' := a + b, P.Back(y);
    RunKeepsValid(Running(r), es);
  }

  lemma StartFirst(now: P.Now, r: RunningState, id: KeyEventId) returns (es: seq<Event>, y: ResharingState)
    requires ValidRunning(r) && r.domains.domains != []
    requires id == KeyEventId(ProspectiveEpoch(r), r.domains.domains[0].id, 0)
    ensures Run(Running(r), es) == Resharing(y) && ValidResharing(y) && id in StartedIds(Running(r), es)
    ensures P.AllAt(now, es) && y.resharingKey.epoch == id.epoch
  {
    var a, x, e := P.CanStartAny(now, r, 0, id);
    RunKeepsValid(Running(r), a);
    y := StartResult(x, e.env, id);
    es := a + [e];
    assert es[..|a|] == a;
  }

  lemma StartResult(x: ResharingState, env: Env, id: KeyEventId) returns (y: ResharingState)
    requires ValidResharing(x) && Step(Resharing(x), env, StartReshare(id)).Ok?
    ensures Step(Resharing(x), env, StartReshare(id)) == Ok(Resharing(y)) && ValidResharing(y)
    ensures y.resharingKey.epoch == id.epoch
  {
    StepKeepsValid(Resharing(x), env, StartReshare(id));
    y := Step(Resharing(x), env, StartReshare(id)).value.reshare;
  }
}
