/** Participant ids have 32 bits, and newcomers get the next ones. Two participants of whom one has the very last
    id are a dead end: nobody can join any more, and neither of the two can leave. Every other contract can make
    room for a newcomer. */
module IdSpace {
  import opened Common
  import opened Parameters
  import opened Domains
  import opened KeyEvents
  import opened Lifecycle
  import opened LifecycleSafety
  import opened LifecycleRuns
  import P = Progress

  const LAST_ID: ParticipantId := U32_SIZE - 2

  predicate Closed(p: ThresholdParameters) { |p.Members()| == 2 && LAST_ID in Ids(p.Members()) }

  /** Closed, with these two participants. */
  predicate ClosedTo(p: ThresholdParameters, who: set<AccountId>) { Closed(p) && Accounts(p.Members()) == who }

  // ---------- nobody joins and nobody leaves ----------

  lemma NobodyJoins(p: ThresholdParameters, q: ThresholdParameters)
    requires ValidParameters(p) && Closed(p) && Admissible(p, q)
    ensures Accounts(q.Members()) <= Accounts(p.Members())
  {
    var m :| m in p.Members() && m.id == LAST_ID;
    assert p.participants.nextId == LAST_ID + 1;
    assert IdRange(LAST_ID + 1, q.participants.nextId) == {};
    forall n | n in q.Members() ensures n.account in Accounts(p.Members()) {
      assert n.account !in Accounts(p.Members()) ==> n.id in NewIds(q.Members(), Accounts(p.Members()));
    }
  }

  lemma ClosedStays(p: ThresholdParameters, q: ThresholdParameters)
    requires ValidParameters(p) && Closed(p) && Admissible(p, q)
    ensures ClosedTo(q, Accounts(p.Members()))
  {
    NobodyJoins(p, q);
    DistinctCardinality(p.Members());
    DistinctCardinality(q.Members());
    SubsetCardinality(Accounts(q.Members()), Accounts(p.Members()));
    var m :| m in p.Members() && m.id == LAST_ID;
    assert m.account in Accounts(q.Members());
    var n :| n in q.Members() && n.account == m.account;
    SameMember(p, m, n);
  }

  lemma SameMember(p: ThresholdParameters, m: Participant, n: Participant)
    requires ValidParameters(p) && m in p.Members() && n.account == m.account && KeepsIdentity(p.Members(), n)
    ensures n == m
  {
    assert m.account in Accounts(p.Members());
    P.MemberFound(p.Members(), m);
    var i :| 0 <= i < |p.Members()| && p.Members()[i] == m;
    var j :| 0 <= j < |p.Members()| && p.Members()[j] == n;
    assert i == j;
  }

  /** All parameters of the phase are closed, with these two participants. */
  predicate Confined(s: Phase, who: set<AccountId>) {
    match s
    case NotInitialized => false
    case Initializing(i) => ClosedTo(i.generatingKey.parameters, who)
    case Running(r) => ClosedTo(r.parameters, who)
    case Resharing(x) => ClosedTo(x.previous.parameters, who) && ClosedTo(x.resharingKey.parameters, who)
  }

  lemma TransitionStaysConfined(r: RunningState, q: ThresholdParameters, who: set<AccountId>)
    requires ValidRunning(r) && ClosedTo(r.parameters, who) && Admissible(r.parameters, q)
    ensures Confined(TransitionToResharing(r, q), who)
  {
    ClosedStays(r.parameters, q);
  }

  lemma ParametersVoteStaysConfined(r: RunningState, env: Env, epoch: EpochId, q: ThresholdParameters,
                                    who: set<AccountId>)
    requires ValidRunning(r) && ClosedTo(r.parameters, who) && RunningVoteNewParameters(r, env, epoch, q).Ok?
    ensures Confined(RunningVoteNewParameters(r, env, epoch, q).value, who)
  {
    ClosedStays(r.parameters, q);
  }

  lemma RunningStaysConfined(r: RunningState, env: Env, c: Call, who: set<AccountId>)
    requires ValidRunning(r) && ClosedTo(r.parameters, who) && StepRunning(r, env, c).Ok?
    ensures Confined(StepRunning(r, env, c).value, who)
  {
    match c
    case VoteNewParameters(epoch, q, _) => ParametersVoteStaysConfined(r, env, epoch, q, who);
    case VoteAddDomains(ds) => DomainVoteStaysConfined(r, env, ds, who);
    case ConcludeMigration(_, info, _) => UpdateInfoIsValid(r.parameters, env.signer, info);
    case VerifyTee(valid) => VerifyTeeStaysConfined(r, env, valid, who);
    case _ =>
  }

  lemma DomainVoteStaysConfined(r: RunningState, env: Env, ds: seq<DomainConfig>, who: set<AccountId>)
    requires ClosedTo(r.parameters, who) && RunningVoteAddDomains(r, env, ds).Ok?
    ensures Confined(RunningVoteAddDomains(r, env, ds).value, who)
  {
  }

  lemma VerifyTeeStaysConfined(r: RunningState, env: Env, valid: set<AccountId>, who: set<AccountId>)
    requires ValidRunning(r) && ClosedTo(r.parameters, who) && RunningVerifyTee(r, env, valid).Ok?
    ensures Confined(RunningVerifyTee(r, env, valid).value, who)
  {
    var kept := KeepValid(r.parameters.Members(), valid);
    var q := ThresholdParameters(Participants(r.parameters.participants.nextId, kept), r.parameters.threshold);
    if Admissible(r.parameters, q) {
      TransitionStaysConfined(r, q, who);
    }
  }

  lemma ReproposalStaysConfined(x: ResharingState, env: Env, epoch: EpochId, q: ThresholdParameters,
                                who: set<AccountId>)
    requires ValidResharing(x) && Confined(Resharing(x), who) && ReshareVoteNewParameters(x, env, epoch, q).Ok?
    ensures Confined(ReshareVoteNewParameters(x, env, epoch, q).value, who)
  {
    ClosedStays(x.previous.parameters, q);
  }

  lemma ResharingStaysConfined(x: ResharingState, env: Env, c: Call, who: set<AccountId>)
    requires ValidResharing(x) && Confined(Resharing(x), who) && StepResharing(x, env, c).Ok?
    ensures Confined(StepResharing(x, env, c).value, who)
  {
    match c
    case VoteNewParameters(epoch, q, _) => ReproposalStaysConfined(x, env, epoch, q, who);
    case VoteReshared(id) =>
      VoteSuccessOutcome(x.resharingKey, env, id, x.previous.keyset.domains[|x.resharedKeys|].key);
    case _ =>
  }

  lemma InitializingStaysConfined(i: InitializingState, env: Env, c: Call, who: set<AccountId>)
    requires ValidInitializing(i) && Confined(Initializing(i), who) && StepInitializing(i, env, c).Ok?
    ensures Confined(StepInitializing(i, env, c).value, who)
  {
    match c
    case VotePk(id, key) => VoteSuccessOutcome(i.generatingKey, env, id, key);
    case _ =>
  }

  /** In a closed contract no call ever changes who the participants are. */
  lemma StepStaysConfined(s: Phase, env: Env, c: Call, who: set<AccountId>)
    requires Valid(s) && Confined(s, who) && Step(s, env, c).Ok?
    ensures Confined(Step(s, env, c).value, who)
  {
    match s
    case Initializing(i) => InitializingStaysConfined(i, env, c, who);
    case Running(r) => RunningStaysConfined(r, env, c, who);
    case Resharing(x) => ResharingStaysConfined(x, env, c, who);
  }

  // ---------- making room ----------

  /** The same members, or some of them, with a next id that they allow, can be proposed when enough stay. */
  lemma FewerAdmissible(p: ThresholdParameters, q: ThresholdParameters)
    requires ValidParameters(p) && ValidParameters(q)
    requires forall m :: m in q.Members() ==> m in p.Members()
    requires |q.Members()| >= p.threshold
    ensures Admissible(p, q)
  {
    var ms, ns := p.Members(), q.Members();
    DistinctCardinality(ns);
    assert Accounts(ns) * Accounts(ms) == Accounts(ns);
    assert NewIds(ns, Accounts(ms)) == {};
  }

  /** Everybody but one, and one less next id. */
  function Without(p: ThresholdParameters, i: nat): ThresholdParameters
    requires i < |p.Members()| && |p.Members()| > 1
  {
    ThresholdParameters(Participants(LAST_ID, p.Members()[..i] + p.Members()[i + 1..]), |p.Members()| - 1)
  }

  lemma LastCanLeave(p: ThresholdParameters, i: nat)
    requires ValidParameters(p) && |p.Members()| > 2 && i < |p.Members()| && p.Members()[i].id == LAST_ID
    ensures ValidParameters(Without(p, i)) && forall m :: m in Without(p, i).Members() ==> m in p.Members()
  {
    var ms, ns := p.Members(), Without(p, i).Members();
    forall k | 0 <= k < |ns| ensures ns[k] == ms[if k < i then k else k + 1] {
    }
  }

  /** From every contract that is not closed its participants can get to one where the next id is free, without
      anybody joining. */
  lemma CanMakeRoom(now: P.Now, r: RunningState) returns (es: seq<Event>, r': RunningState)
    requires ValidRunning(r) && !Closed(r.parameters)
    ensures P.Leads(now, Running(r), es, Running(r')) && ValidRunning(r')
    ensures r'.parameters.participants.nextId <= LAST_ID
    ensures Accounts(r'.parameters.Members()) <= Accounts(r.parameters.Members())
  {
    var p := r.parameters;
    if p.participants.nextId <= LAST_ID {
      P.LeadsNowhere(now, Running(r));
      return [], r;
    }
    if LAST_ID !in Ids(p.Members()) {
      var q := p.(participants := Participants(LAST_ID, p.Members()));
      LowerNextId(p);
      es, r' := P.CanAdopt(now, r, q);
    } else {
      es, r' := LastOneLeaves(now, r);
    }
  }

  lemma LowerNextId(p: ThresholdParameters)
    requires ValidParameters(p) && LAST_ID !in Ids(p.Members())
    ensures Admissible(p, p.(participants := Participants(LAST_ID, p.Members())))
  {
    var q := p.(participants := Participants(LAST_ID, p.Members()));
    forall m | m in q.Members() ensures m.id < LAST_ID {
      assert m.id in Ids(p.Members()) && m.id < p.participants.nextId;
    }
    FewerAdmissible(p, q);
  }

  lemma LastOneLeaves(now: P.Now, r: RunningState) returns (es: seq<Event>, r': RunningState)
    requires ValidRunning(r) && |r.parameters.Members()| > 2 && LAST_ID in Ids(r.parameters.Members())
    ensures P.Leads(now, Running(r), es, Running(r')) && ValidRunning(r')
    ensures r'.parameters.participants.nextId == LAST_ID
    ensures Accounts(r'.parameters.Members()) <= Accounts(r.parameters.Members())
  {
    var p := r.parameters;
    var ms := p.Members();
    var m :| m in ms && m.id == LAST_ID;
    var i :| 0 <= i < |ms| && ms[i] == m;
    var q := p.(threshold := |ms| - 1);
    FewerAdmissible(p, q);
    var a, mid := P.CanAdopt(now, r, q);
    LastCanLeave(q, i);
    FewerAdmissible(q, Without(q, i));
    var b;
    b, r' := P.CanAdopt(now, mid, Without(q, i));
    P.LeadsOn(now, Running(r), a, Running(mid), b, Running(r'));
    es := a + b;
  }

  // ---------- joining ----------

  /** The same participants with `a` as a newcomer, and everybody needed. */
  function Joined(p: ThresholdParameters, a: AccountId): ThresholdParameters
    requires p.participants.nextId <= LAST_ID
  {
    var next := p.participants.nextId;
    ThresholdParameters(
      Participants(next + 1, p.Members() + [Participant(a, next, ParticipantInfo("", ""))]), |p.Members()| + 1)
  }

  lemma JoinedIsValid(p: ThresholdParameters, a: AccountId)
    requires ValidParameters(p) && a !in Accounts(p.Members()) && p.participants.nextId <= LAST_ID
    ensures ValidParameters(Joined(p, a))
  {
    var ms, next := p.Members(), p.participants.nextId;
    forall i | 0 <= i < |ms| ensures ms[i].account != a && ms[i].id != next {
      assert ms[i] in ms && ms[i].account in Accounts(ms);
    }
  }

  lemma JoinedKeepsMember(p: ThresholdParameters, a: AccountId, m: Participant)
    requires ValidParameters(p) && a !in Accounts(p.Members()) && p.participants.nextId <= LAST_ID
    requires m in Joined(p, a).Members()
    ensures KeepsIdentity(p.Members(), m)
  {
    if m in p.Members() {
      assert m.account in Accounts(p.Members());
    }
  }

  lemma JoinedStay(p: ThresholdParameters, a: AccountId)
    requires ValidParameters(p) && p.participants.nextId <= LAST_ID
    ensures |Accounts(Joined(p, a).Members()) * Accounts(p.Members())| >= p.threshold
  {
    var ms, newcomer := p.Members(), Participant(a, p.participants.nextId, ParticipantInfo("", ""));
    AccountsAppend(ms, newcomer);
    assert (Accounts(ms) + {a}) * Accounts(ms) == Accounts(ms);
    DistinctCardinality(ms);
  }

  lemma JoinedNewIds(p: ThresholdParameters, a: AccountId)
    requires ValidParameters(p) && a !in Accounts(p.Members()) && p.participants.nextId <= LAST_ID
    ensures NewIds(Joined(p, a).Members(), Accounts(p.Members())) ==
            IdRange(p.participants.nextId, p.participants.nextId + 1)
  {
    var ms, next := p.Members(), p.participants.nextId;
    NewIdsAppend(ms, Participant(a, next, ParticipantInfo("", "")), Accounts(ms));
    assert NewIds(ms, Accounts(ms)) == {};
    assert IdRange(next, next + 1) == {next};
  }

  lemma JoinedIsAdmissible(p: ThresholdParameters, a: AccountId)
    requires ValidParameters(p) && a !in Accounts(p.Members()) && p.participants.nextId <= LAST_ID
    ensures Admissible(p, Joined(p, a))
  {
    JoinedIsValid(p, a);
    JoinedStay(p, a);
    JoinedNewIds(p, a);
    forall m | m in Joined(p, a).Members() ensures KeepsIdentity(p.Members(), m) {
      JoinedKeepsMember(p, a, m);
    }
  }

  /** These calls make `a` a participant. */
  ghost predicate Joins(r: RunningState, es: seq<Event>, a: AccountId) {
    a in Accounts(VotersOf(Run(Running(r), es)).Members())
  }

  /** Over some run an outsider can become a participant, exactly when the contract is not closed; and then so
      at any height of the chain. */
  lemma JoinIff(now: P.Now, r: RunningState, a: AccountId)
    requires ValidRunning(r) && a !in Accounts(r.parameters.Members())
    ensures (exists es :: Joins(r, es, a)) <==> !Closed(r.parameters)
    ensures !Closed(r.parameters) ==> exists es :: P.AllAt(now, es) && Joins(r, es, a)
  {
    if Closed(r.parameters) {
      forall es ensures !Joins(r, es, a) {
        RunStaysConfined(Running(r), es, Accounts(r.parameters.Members()));
      }
    } else {
      var es := CanJoin(now, r, a);
    }
  }

  lemma CanJoin(now: P.Now, r: RunningState, a: AccountId) returns (es: seq<Event>)
    requires ValidRunning(r) && a !in Accounts(r.parameters.Members()) && !Closed(r.parameters)
    ensures P.AllAt(now, es) && Joins(r, es, a)
  {
    var first, r1 := CanMakeRoom(now, r);
    var p := r1.parameters;
    JoinedIsAdmissible(p, a);
    var more, r2 := P.CanAdopt(now, r1, Joined(p, a));
    P.LeadsOn(now, Running(r), first, Running(r1), more, Running(r2));
    AccountsAppend(p.Members(), Participant(a, p.participants.nextId, ParticipantInfo("", "")));
    es := first + more;
  }

  lemma {:induction false} RunStaysConfined(s: Phase, es: seq<Event>, who: set<AccountId>)
    requires Valid(s) && Confined(s, who)
    ensures Confined(Run(s, es), who)
    decreases |es|
  {
    if es != [] {
      var before, e := es[..|es| - 1], es[|es| - 1];
      RunStaysConfined(s, before, who);
      RunKeepsValid(s, before);
      if Step(Run(s, before), e.env, e.call).Ok? {
        StepStaysConfined(Run(s, before), e.env, e.call, who);
      }
    }
  }
}
