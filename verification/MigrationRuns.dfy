/** Node migrations over runs of the whole contract: whose record moves a participant, and which records are
    left behind. */
module MigrationRuns {
  import opened Common
  import opened Parameters
  import opened KeyEvents
  import opened Lifecycle
  import opened LifecycleSafety
  import opened LifecycleRuns
  import opened ContractState
  import opened ContractRuns
  import Consent
  import M = Migrations
  import P = Progress

  /** The account's last successful start of a migration named this destination, at action `k`. */
  ghost predicate StartedAt(actions: seq<Action>, replies: seq<Reply>, k: nat, a: AccountId, d: M.DestinationNodeInfo)
    requires k < |actions| == |replies|
  {
    && actions[k] == StartNodeMigration(a, d) && replies[k] == Done
    && forall j :: k < j < |actions| && actions[j].StartNodeMigration? && actions[j].caller == a ==> replies[j] != Done
  }

  /** A stored migration is the one its account itself asked for last. */
  lemma {:induction false} MigrationIsOwn(w: Whole, actions: seq<Action>, a: AccountId) returns (k: nat)
    requires w.ongoing == map[] && a in RunAll(w, actions).ongoing
    ensures k < |actions| && StartedAt(actions, Replies(w, actions), k, a, RunAll(w, actions).ongoing[a])
  {
    var before, act, reply, own := LastMigration(w, actions, a);
    if own {
      k := |before|;
    } else {
      k := MigrationIsOwn(w, before, a);
      StartedStays(before, Replies(w, before), act, reply, k, a, RunAll(w, before).ongoing[a]);
    }
  }

  lemma LastMigration(w: Whole, actions: seq<Action>, a: AccountId)
    returns (before: seq<Action>, act: Action, reply: Reply, own: bool)
    requires w.ongoing == map[] && a in RunAll(w, actions).ongoing
    ensures actions == before + [act] && Replies(w, actions) == Replies(w, before) + [reply]
    ensures var d := RunAll(w, actions).ongoing[a];
            if own then act == StartNodeMigration(a, d) && reply == Done
            else a in RunAll(w, before).ongoing && RunAll(w, before).ongoing[a] == d && !Starts(act, reply, a)
  {
    before, act := actions[..|actions| - 1], actions[|actions| - 1];
    reply := Act(RunAll(w, before), act).1;
    own := MigrationSource(RunAll(w, before), act, a);
  }

  predicate Starts(act: Action, reply: Reply, a: AccountId) {
    act.StartNodeMigration? && act.caller == a && reply == Done
  }

  /** A migration is on record because this action started it, or because it was there before. */
  lemma MigrationSource(w: Whole, act: Action, a: AccountId) returns (own: bool)
    requires a in Act(w, act).0.ongoing
    ensures own ==> act == StartNodeMigration(a, Act(w, act).0.ongoing[a]) && Act(w, act).1 == Done
    ensures !own ==> a in w.ongoing && w.ongoing[a] == Act(w, act).0.ongoing[a] && !Starts(act, Act(w, act).1, a)
  {
    own := act.StartNodeMigration? && act.caller == a && Act(w, act).1 == Done;
  }

  lemma StartedStays(actions: seq<Action>, replies: seq<Reply>, act: Action, reply: Reply, k: nat, a: AccountId,
                     d: M.DestinationNodeInfo)
    requires k < |actions| == |replies| && StartedAt(actions, replies, k, a, d)
    requires !Starts(act, reply, a)
    ensures StartedAt(actions + [act], replies + [reply], k, a, d)
  {
  }

  lemma PhaseEventsNext(w: Whole, actions: seq<Action>, act: Action)
    ensures var e := PhaseEvent(RunAll(w, actions), act);
            PhaseEvents(w, actions + [act]) == PhaseEvents(w, actions) + if e.Some? then [e.value] else []
  {
    assert (actions + [act])[..|actions|] == actions;
  }

  /** `p` with the member of this account moved to the destination. */
  function MovedTo(p: ThresholdParameters, a: AccountId, d: M.DestinationNodeInfo): ThresholdParameters {
    p.(participants := p.participants.(members := UpdateInfo(p.Members(), a, d.info)))
  }

  /** The last start of a migration by this participant is what the parameters changed by. */
  ghost predicate MovedByOwnRecord(actions: seq<Action>, replies: seq<Reply>, act: Action, p: ThresholdParameters,
                                   p': ThresholdParameters)
    requires |actions| == |replies|
  {
    && act.ConcludeNodeMigration? && act.env.signer in Accounts(p.Members())
    && exists k, d ::
         0 <= k < |actions| && StartedAt(actions, replies, k, act.env.signer, d)
         && p' == MovedTo(p, act.env.signer, d)
  }

  lemma ConclusionMoves(w: Whole, act: Action)
    requires act.ConcludeNodeMigration? && Act(w, act).1 == Done
    ensures w.phase.Running? && act.env.signer in w.ongoing && act.env.signer in Accounts(VotersOf(w.phase).Members())
    ensures VotersOf(Act(w, act).0.phase) == MovedTo(VotersOf(w.phase), act.env.signer, w.ongoing[act.env.signer])
  {
  }

  /** Over every run of the contract the parameters in force change only when every participant of the new ones
      voted for exactly them, when a participant's re-verification left exactly these members, or when a
      participant concludes a migration: then that participant's info becomes the one that it itself gave last
      when it started the migration, and nothing else changes. */
  lemma ParametersNeedConsent(w: Whole, actions: seq<Action>, act: Action)
    requires Initial(w)
    ensures var mid := RunAll(w, actions);
            var p, p' := VotersOf(mid.phase), VotersOf(Act(mid, act).0.phase);
            || p' == p
            || Consent.Justified(Succeeded(w.phase, PhaseEvents(w, actions + [act])), p, p')
            || MovedByOwnRecord(actions, Replies(w, actions), act, p, p')
  {
    if act.ConcludeNodeMigration? {
      MoveNeedsOwnRecord(w, actions, act);
    } else {
      VoteNeedsConsent(w, actions, act);
    }
  }

  lemma MoveNeedsOwnRecord(w: Whole, actions: seq<Action>, act: Action)
    requires w.ongoing == map[] && act.ConcludeNodeMigration?
    ensures var mid := RunAll(w, actions);
            || Act(mid, act).0.phase == mid.phase
            || MovedByOwnRecord(actions, Replies(w, actions), act, VotersOf(mid.phase), VotersOf(Act(mid, act).0.phase))
  {
    var mid := RunAll(w, actions);
    if Act(mid, act).1 == Done {
      ConclusionMoves(mid, act);
      var k := MigrationIsOwn(w, actions, act.env.signer);
    }
  }

  lemma VoteNeedsConsent(w: Whole, actions: seq<Action>, act: Action)
    requires Initial(w) && !act.ConcludeNodeMigration?
    ensures var mid := RunAll(w, actions);
            var p, p' := VotersOf(mid.phase), VotersOf(Act(mid, act).0.phase);
            p' == p || Consent.Justified(Succeeded(w.phase, PhaseEvents(w, actions + [act])), p, p')
  {
    var s, e := AsPhaseEvent(w, actions, act);
    if e.Some? {
      Consent.ParametersNeedConsent(w.phase, PhaseEvents(w, actions), e.value);
    }
  }

  /** The action as a call on the phase reached so far, or no such call. */
  lemma AsPhaseEvent(w: Whole, actions: seq<Action>, act: Action) returns (s: Phase, e: Option<Event>)
    requires !act.ConcludeNodeMigration?
    ensures s == Run(w.phase, PhaseEvents(w, actions)) == RunAll(w, actions).phase
    ensures e.Some? ==> !e.value.call.ConcludeMigration?
    ensures Act(RunAll(w, actions), act).0.phase == if e.Some? then Apply(s, e.value) else s
    ensures PhaseEvents(w, actions + [act]) == PhaseEvents(w, actions) + if e.Some? then [e.value] else []
  {
    s, e := Run(w.phase, PhaseEvents(w, actions)), PhaseEvent(RunAll(w, actions), act);
    ActOnPhase(RunAll(w, actions), act);
    PhasesProject(w, actions);
    PhaseEventsNext(w, actions, act);
  }

  /** A migration can be left behind: a participant starts one without having a backup service, the contract
      moves on without that participant, and the cleanup of orphaned migrations passes the record over. */
  lemma OrphanLeftBehind(now: P.Now, w0: Whole, a: AccountId, d: M.DestinationNodeInfo, p: ThresholdParameters)
    returns (actions: seq<Action>)
    requires Initial(w0) && a in Accounts(w0.phase.run.parameters.Members())
    requires Admissible(w0.phase.run.parameters, p) && a !in Accounts(p.Members())
    ensures var w := RunAll(w0, actions + [CleanupOrphanedNodeMigrations]);
            && w.phase.Running? && w.phase.run.parameters == p && ActedAt(now, actions)
            && a !in KnownAccounts(w.phase) && a in w.ongoing && w.ongoing[a] == d
  {
    var w1 := RunAll(w0, [StartNodeMigration(a, d)]);
    StartRecorded(w0, a, d);
    var es, r := P.CanAdopt(now, w0.phase.run, p);
    actions := [StartNodeMigration(a, d)] + Lifted(es);
    RunOn(w0, [StartNodeMigration(a, d)], Lifted(es));
    LiftedRun(w1, es);
    RunOn(w0, actions, [CleanupOrphanedNodeMigrations]);
    CleanupPassesOver(w1.(phase := Running(r)), a);
  }

  lemma StartRecorded(w: Whole, a: AccountId, d: M.DestinationNodeInfo)
    requires w.phase.Running? && a in Accounts(w.phase.run.parameters.Members())
    ensures RunAll(w, [StartNodeMigration(a, d)]) == w.(ongoing := w.ongoing[a := d])
  {
    RunOneAction(w, StartNodeMigration(a, d));
  }

  lemma CleanupPassesOver(w: Whole, a: AccountId)
    requires w.phase.Running? && a in w.ongoing && a !in w.backups
    ensures var w' := RunAll(w, [CleanupOrphanedNodeMigrations]);
            w'.phase == w.phase && a in w'.ongoing && w'.ongoing[a] == w.ongoing[a]
  {
    RunOneAction(w, CleanupOrphanedNodeMigrations);
  }

  /** From a new contract with three participants and threshold two. */
  lemma TrioLeavesOrphan(now: P.Now, w0: Whole, d: M.DestinationNodeInfo)
    requires Initial(w0) && w0.phase.run.parameters == TRIO
    ensures exists actions ::
              var w := RunAll(w0, actions + [CleanupOrphanedNodeMigrations]);
              ActedAt(now, actions) && "x" !in KnownAccounts(w.phase) && "x" in w.ongoing && w.ongoing["x"] == d
  {
    TrioCanShrink();
    TrioAccounts();
    var actions := OrphanLeftBehind(now, w0, "x", d, DUO);
  }
}
