/** Runs of the whole contract: what is proved of each part holds with the contexts that the phases supply,
    and the parts meet in what only the whole can show. */
module ContractRuns {
  import opened Common
  import opened Parameters
  import opened KeyEvents
  import opened Lifecycle
  import opened LifecycleSafety
  import opened LifecycleRuns
  import opened ContractState
  import U = Updates
  import R = UpdateRuns
  import M = Migrations
  import P = Progress

  // ---------- the parts of a run ----------

  /** The phase call that an action makes. */
  function PhaseEvent(w: Whole, a: Action): Option<Event> {
    match a
    case OnPhase(env, c) => if c.ConcludeMigration? then None else Some(Event(env, c))
    case ConcludeNodeMigration(env, signerKey, keyset, attested) =>
      Some(Event(env, ConclusionOf(M.Lookup(w.ongoing, env.signer), signerKey, keyset, attested)))
    case _ => None
  }

  ghost function PhaseEvents(w: Whole, actions: seq<Action>): seq<Event> {
    if actions == [] then []
    else
      var before := actions[..|actions| - 1];
      var e := PhaseEvent(RunAll(w, before), actions[|actions| - 1]);
      PhaseEvents(w, before) + if e.Some? then [e.value] else []
  }

  /** The update calls, each under the phase it was made in. */
  ghost function UpdateEvents(w: Whole, actions: seq<Action>): seq<U.Event> {
    if actions == [] then []
    else
      var before, a := actions[..|actions| - 1], actions[|actions| - 1];
      UpdateEvents(w, before) +
      if a.OnUpdates? then [U.Event(UpdateContext(RunAll(w, before).phase), a.caller, a.update)] else []
  }

  lemma ActOnPhase(w: Whole, a: Action)
    ensures Act(w, a).0.phase == if PhaseEvent(w, a).Some? then Apply(w.phase, PhaseEvent(w, a).value) else w.phase
  {
  }

  lemma {:induction false} PhasesProject(w: Whole, actions: seq<Action>)
    ensures RunAll(w, actions).phase == Run(w.phase, PhaseEvents(w, actions))
  {
    if actions != [] {
      var before, a := actions[..|actions| - 1], actions[|actions| - 1];
      PhasesProject(w, before);
      ActOnPhase(RunAll(w, before), a);
      var e, es := PhaseEvent(RunAll(w, before), a), PhaseEvents(w, before);
      if e.Some? {
        RunCompose(w.phase, es, [e.value]);
        RunOne(Run(w.phase, es), e.value);
      } else {
        assert es + [] == es;
      }
    }
  }

  lemma {:induction false} UpdatesProject(w: Whole, actions: seq<Action>)
    ensures RunAll(w, actions).updates == U.End(w.updates, UpdateEvents(w, actions))
  {
    if actions != [] {
      var before, a := actions[..|actions| - 1], actions[|actions| - 1];
      UpdatesProject(w, before);
      var es := UpdateEvents(w, before);
      if a.OnUpdates? {
        U.OneMore(w.updates, es, U.Event(UpdateContext(RunAll(w, before).phase), a.caller, a.update));
      } else {
        assert es + [] == es;
      }
    }
  }

  lemma RunIsValid(w: Whole, actions: seq<Action>)
    requires Valid(w.phase)
    ensures Valid(RunAll(w, actions).phase)
  {
    PhasesProject(w, actions);
    RunKeepsValid(w.phase, PhaseEvents(w, actions));
  }

  /** Over every run of the contract an update is executed exactly when a participant of the running contract
      votes for an open proposal and brings the distinct participants standing behind it to the threshold. */
  lemma UpdatesNeedQuorum(w: Whole, actions: seq<Action>, caller: AccountId, id: U.UpdateId, u: U.Update)
    requires Initial(w)
    ensures var w', es := RunAll(w, actions), UpdateEvents(w, actions);
            var ctx, outs := UpdateContext(w'.phase), U.Outcomes(U.EMPTY_UPDATES, es);
            Act(w', OnUpdates(caller, U.VoteUpdate(id))).1 == Answered(U.Executed(id, u)) <==>
            && w'.phase.Running? && caller in ctx.voters && R.Open(es, outs, id, u)
            && |R.StandingFor(es, outs, U.Event(ctx, caller, U.VoteUpdate(id)), id)| >=
               w'.phase.run.parameters.threshold
  {
    var w', es := RunAll(w, actions), UpdateEvents(w, actions);
    RunIsValid(w, actions);
    VotersAreDistinct(w'.phase);
    UpdatesProject(w, actions);
    R.ExecutionNeedsQuorum(es, U.Event(UpdateContext(w'.phase), caller, U.VoteUpdate(id)), id, u);
  }

  // ---------- prolonging runs ----------

  lemma {:induction false} RunOn(w: Whole, a: seq<Action>, b: seq<Action>)
    ensures RunAll(w, a + b) == RunAll(RunAll(w, a), b)
    ensures Replies(w, a + b) == Replies(w, a) + Replies(RunAll(w, a), b)
    decreases |b|
  {
    if b == [] {
      assert a + b == a;
    } else {
      var last := |b| - 1;
      assert (a + b)[..|a + b| - 1] == a + b[..last] && (a + b)[|a + b| - 1] == b[last];
      RunOn(w, a, b[..last]);
    }
  }

  lemma RunOneAction(w: Whole, a: Action)
    ensures RunAll(w, [a]) == Act(w, a).0 && Replies(w, [a]) == [Act(w, a).1]
  {
    assert [a][..0] == [];
  }

  /** Phase calls as actions on the contract. */
  function Lifted(es: seq<Event>): seq<Action> {
    seq(|es|, i requires 0 <= i < |es| => OnPhase(es[i].env, es[i].call))
  }

  /** The action is made at this height, where that matters. */
  predicate AtHeight(now: P.Now, a: Action) {
    match a
    case OnPhase(env, _) => env.block == now.block && env.timeout == now.timeout
    case ConcludeNodeMigration(env, _, _, _) => env.block == now.block && env.timeout == now.timeout
    case _ => true
  }

  ghost predicate ActedAt(now: P.Now, actions: seq<Action>) {
    forall i :: 0 <= i < |actions| ==> AtHeight(now, actions[i])
  }

  /** Plain phase calls change the phase and nothing else, and are answered according to the phase. */
  lemma {:induction false} LiftedRun(w: Whole, es: seq<Event>)
    requires P.Plain(es)
    ensures RunAll(w, Lifted(es)) == w.(phase := Run(w.phase, es))
    decreases |es|
  {
    if es != [] {
      var before, e := es[..|es| - 1], es[|es| - 1];
      LiftedRun(w, before);
      assert Lifted(es)[..|es| - 1] == Lifted(before);
    }
  }

  lemma SameReply(w: Whole, v: Whole, e: Event)
    requires w.phase == v.phase
    ensures Act(w, OnPhase(e.env, e.call)).1 == Act(v, OnPhase(e.env, e.call)).1
  {
  }

  lemma LiftedSamePhase(w: Whole, v: Whole, es: seq<Event>)
    requires P.Plain(es) && w.phase == v.phase
    ensures RunAll(w, Lifted(es)).phase == RunAll(v, Lifted(es)).phase
  {
    LiftedRun(w, es);
    LiftedRun(v, es);
  }

  lemma {:induction false} LiftedReplies(w: Whole, v: Whole, es: seq<Event>)
    requires P.Plain(es) && w.phase == v.phase
    ensures Replies(w, Lifted(es)) == Replies(v, Lifted(es))
    decreases |es|
  {
    if es != [] {
      var before, e := es[..|es| - 1], es[|es| - 1];
      LiftedReplies(w, v, before);
      LiftedSamePhase(w, v, before);
      assert Lifted(es)[..|es| - 1] == Lifted(before);
      SameReply(RunAll(w, Lifted(before)), RunAll(v, Lifted(before)), e);
    }
  }

  // ---------- three participants, one of whom leaves ----------

  const X := Participant("x", 0, ParticipantInfo("ux", "kx"))
  const Y := Participant("y", 1, ParticipantInfo("uy", "ky"))
  const Z := Participant("z", 2, ParticipantInfo("uz", "kz"))
  const TRIO := ThresholdParameters(Participants(3, [X, Y, Z]), 2)
  const DUO := ThresholdParameters(Participants(3, [Y, Z]), 2)

  lemma TrioAccounts()
    ensures Accounts(TRIO.Members()) == {"x", "y", "z"} && Accounts(DUO.Members()) == {"y", "z"}
    ensures ValidParameters(TRIO) && ValidParameters(DUO)
  {
    var ms, ns := TRIO.Members(), DUO.Members();
    assert ms[0] == X && ms[1] == Y && ms[2] == Z && ns[0] == Y && ns[1] == Z;
  }

  lemma TrioCanShrink()
    ensures ValidParameters(TRIO) && Admissible(TRIO, DUO) && "x" !in Accounts(DUO.Members())
  {
    TrioAccounts();
    assert {"y", "z"} * {"x", "y", "z"} == {"y", "z"} && |{"y", "z"}| == 2;
    assert NewIds(DUO.Members(), {"x", "y", "z"}) == {};
    assert Y in TRIO.Members() by { assert TRIO.Members()[1] == Y; }
    assert Z in TRIO.Members() by { assert TRIO.Members()[2] == Z; }
  }
}
