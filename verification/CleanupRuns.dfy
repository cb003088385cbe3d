/** Whether anybody can tell, in a run of the whole contract, that the votes of former participants were
    cleaned up. */
module CleanupRuns {
  import opened Common
  import opened Parameters
  import opened KeyEvents
  import opened Lifecycle
  import opened LifecycleSafety
  import opened LifecycleRuns
  import opened ContractState
  import opened ContractRuns
  import opened IdSpace
  import U = Updates
  import R = UpdateRuns
  import P = Progress

  // ---------- who can tell that votes were cleaned up ----------

  /** The contract after a cleanup of update votes. */
  ghost function Cleaned(w: Whole): Whole {
    w.(updates := w.updates.(votes := U.Restrict(w.updates.votes, UpdateContext(w.phase).voters)))
  }

  /** Everybody in `ms` votes for `id` in turn. */
  function AllVote(ctx: U.Context, ms: seq<AccountId>, id: U.UpdateId): seq<U.Event> {
    seq(|ms|, i requires 0 <= i < |ms| => U.Event(ctx, ms[i], U.VoteUpdate(id)))
  }

  lemma {:induction false} TallyBounds(members: seq<AccountId>, votes: map<AccountId, U.UpdateId>, id: U.UpdateId)
    ensures U.Tally(members, votes, id) <= |members|
    ensures (forall a :: a in members ==> a in votes && votes[a] == id) ==> U.Tally(members, votes, id) == |members|
  {
    if members != [] {
      var rest := members[..|members| - 1];
      TallyBounds(rest, votes, id);
      assert members == rest + [members[|members| - 1]];
    }
  }

  lemma TallyWithLast(ms: seq<AccountId>, a: AccountId, votes: map<AccountId, U.UpdateId>, id: U.UpdateId)
    ensures U.Tally(ms + [a], votes, id) == U.Tally(ms, votes, id) + if a in votes && votes[a] == id then 1 else 0
  {
    assert (ms + [a])[..|ms|] == ms;
  }

  /** A context where unanimity of `ms` and `a` is needed. */
  predicate AllNeeded(ctx: U.Context, ms: seq<AccountId>, a: AccountId) {
    ctx.running && ctx.voters == ms + [a] && ctx.threshold == |ms| + 1
  }

  lemma NextVote(u: U.UpdateState, ctx: U.Context, ms: seq<AccountId>, id: U.UpdateId, k: nat)
    requires k < |ms|
    ensures var es, next := AllVote(ctx, ms[..k], id), AllVote(ctx, ms[..k + 1], id);
            var (s, out) := U.Step(U.End(u, es), U.Event(ctx, ms[k], U.VoteUpdate(id)));
            U.End(u, next) == s && U.Outcomes(u, next) == U.Outcomes(u, es) + [out]
  {
    var es, e := AllVote(ctx, ms[..k], id), U.Event(ctx, ms[k], U.VoteUpdate(id));
    assert AllVote(ctx, ms[..k + 1], id) == es + [e];
    U.OneMore(u, es, e);
  }

  /** Without a vote by `a` nobody else's vote is enough. */
  lemma VoteIsRecorded(s: U.UpdateState, ctx: U.Context, ms: seq<AccountId>, a: AccountId, id: U.UpdateId, m: AccountId)
    requires AllNeeded(ctx, ms, a) && a !in ms && a !in s.votes && id in s.entries && m in ms
    ensures U.Step(s, U.Event(ctx, m, U.VoteUpdate(id))) == (s.(votes := s.votes[m := id]), U.Recorded)
  {
    TallyWithLast(ms, a, s.votes[m := id], id);
    TallyBounds(ms, s.votes[m := id], id);
  }

  ghost predicate AllRecorded(outs: seq<U.Outcome>) { forall i :: 0 <= i < |outs| ==> outs[i] == U.Recorded }

  lemma {:induction false} NeverExecuted(u: U.UpdateState, ctx: U.Context, ms: seq<AccountId>, a: AccountId,
                                         id: U.UpdateId, k: nat)
    requires AllNeeded(ctx, ms, a) && a !in ms && a !in u.votes && id in u.entries && k <= |ms|
    ensures var es := AllVote(ctx, ms[..k], id);
            U.End(u, es).entries == u.entries && a !in U.End(u, es).votes && AllRecorded(U.Outcomes(u, es))
  {
    if k > 0 {
      NeverExecuted(u, ctx, ms, a, id, k - 1);
      NextVote(u, ctx, ms, id, k - 1);
      VoteIsRecorded(U.End(u, AllVote(ctx, ms[..k - 1], id)), ctx, ms, a, id, ms[k - 1]);
    }
  }

  /** The first `k` members and `a` stand behind `id`, which is open. */
  ghost predicate StillVoting(s: U.UpdateState, ms: seq<AccountId>, k: nat, a: AccountId, id: U.UpdateId) {
    && k <= |ms| && id in s.entries && a in s.votes && s.votes[a] == id
    && forall i :: 0 <= i < k ==> ms[i] in s.votes && s.votes[ms[i]] == id
  }

  lemma VoteGoesOn(s: U.UpdateState, ctx: U.Context, ms: seq<AccountId>, k: nat, a: AccountId, id: U.UpdateId)
    requires AllNeeded(ctx, ms, a) && a !in ms && k < |ms| && StillVoting(s, ms, k, a, id)
    ensures var (s', out) := U.Step(s, U.Event(ctx, ms[k], U.VoteUpdate(id)));
            out.Executed? || (k + 1 < |ms| && StillVoting(s', ms, k + 1, a, id))
  {
    var votes := s.votes[ms[k] := id];
    TallyWithLast(ms, a, votes, id);
    TallyBounds(ms, votes, id);
    assert k + 1 == |ms| ==> forall m :: m in ms ==> m in votes && votes[m] == id;
  }

  ghost predicate SomeExecuted(outs: seq<U.Outcome>) { exists i :: 0 <= i < |outs| && outs[i].Executed? }

  /** With one, and everybody else voting, some vote executes an update. */
  lemma {:induction false} ExecutedAtLast(u: U.UpdateState, ctx: U.Context, ms: seq<AccountId>, a: AccountId,
                                          id: U.UpdateId, k: nat)
    requires AllNeeded(ctx, ms, a) && a !in ms && StillVoting(u, ms, 0, a, id) && k <= |ms|
    ensures var es := AllVote(ctx, ms[..k], id);
            SomeExecuted(U.Outcomes(u, es)) || ((k < |ms| || k == 0) && StillVoting(U.End(u, es), ms, k, a, id))
  {
    if k > 0 {
      ExecutedAtLast(u, ctx, ms, a, id, k - 1);
      NextVote(u, ctx, ms, id, k - 1);
      var es := AllVote(ctx, ms[..k - 1], id);
      if !SomeExecuted(U.Outcomes(u, es)) {
        VoteGoesOn(U.End(u, es), ctx, ms, k - 1, a, id);
      }
      LaterExecuted(U.Outcomes(u, es), U.Step(U.End(u, es), U.Event(ctx, ms[k - 1], U.VoteUpdate(id))).1);
    }
  }

  lemma LaterExecuted(outs: seq<U.Outcome>, out: U.Outcome)
    ensures SomeExecuted(outs + [out]) <==> SomeExecuted(outs) || out.Executed?
  {
    if i :| 0 <= i < |outs| && outs[i].Executed? {
      assert (outs + [out])[i].Executed?;
    }
    if out.Executed? {
      assert (outs + [out])[|outs|].Executed?;
    }
  }

  lemma OutcomesDiffer(u: U.UpdateState, v: U.UpdateState, ctx: U.Context, ms: seq<AccountId>, a: AccountId,
                       id: U.UpdateId)
    requires AllNeeded(ctx, ms, a) && a !in ms && ms != [] && StillVoting(u, ms, 0, a, id)
    requires id in v.entries && a !in v.votes
    ensures U.Outcomes(u, AllVote(ctx, ms, id)) != U.Outcomes(v, AllVote(ctx, ms, id))
  {
    assert ms[..|ms|] == ms;
    NeverExecuted(v, ctx, ms, a, id, |ms|);
    ExecutedAtLast(u, ctx, ms, a, id, |ms|);
  }

  /** Update calls as actions on a contract whose phase gives their context. */
  lemma {:induction false} VotesAsActions(w: Whole, ms: seq<AccountId>, id: U.UpdateId)
    ensures var es := AllVote(UpdateContext(w.phase), ms, id);
            var actions := seq(|ms|, i requires 0 <= i < |ms| => OnUpdates(ms[i], U.VoteUpdate(id)));
            && RunAll(w, actions) == w.(updates := U.End(w.updates, es))
            && forall i :: 0 <= i < |ms| ==> Replies(w, actions)[i] == Answered(U.Outcomes(w.updates, es)[i])
  {
    if ms != [] {
      var last := |ms| - 1;
      VotesAsActions(w, ms[..last], id);
      var es := AllVote(UpdateContext(w.phase), ms, id);
      var actions := seq(|ms|, i requires 0 <= i < |ms| => OnUpdates(ms[i], U.VoteUpdate(id)));
      assert es[..last] == AllVote(UpdateContext(w.phase), ms[..last], id);
      assert actions[..last] == seq(last, i requires 0 <= i < last => OnUpdates(ms[..last][i], U.VoteUpdate(id)));
    }
  }

  /** There is a vote to clean up, and its voter can still come back. */
  predicate CanTell(w: Whole)
    requires w.phase.Running?
  {
    (exists a :: a in w.updates.votes && a !in UpdateContext(w.phase).voters) && !Closed(w.phase.run.parameters)
  }

  /** These actions are answered differently after a cleanup. */
  ghost predicate Seen(w: Whole, actions: seq<Action>) { Replies(w, actions) != Replies(Cleaned(w), actions) }

  ghost predicate SeenAt(now: P.Now, w: Whole, actions: seq<Action>) { ActedAt(now, actions) && Seen(w, actions) }

  /** Exactly when a cleanup of update votes can be told from its absence, now or later: when it has a vote to
      remove, and the contract is not closed for good. For the voter can then become a participant again, and its
      old vote counts, at any height of the chain. */
  lemma CleanupSeenIff(now: P.Now, w: Whole)
    requires w.phase.Running? && Valid(w.phase) && R.Sound(w.updates)
    ensures (exists actions :: Seen(w, actions)) <==> CanTell(w)
    ensures CanTell(w) ==> exists actions :: SeenAt(now, w, actions)
  {
    if CanTell(w) {
      var a :| a in w.updates.votes && a !in UpdateContext(w.phase).voters;
      var actions := MakeRoomAndRejoin(now, w, a);
    } else {
      forall actions ensures !Seen(w, actions) {
        NobodyCanTell(w, actions);
      }
    }
  }

  lemma NobodyCanTell(w: Whole, actions: seq<Action>)
    requires w.phase.Running? && Valid(w.phase) && !CanTell(w)
    ensures !Seen(w, actions)
  {
    if Closed(w.phase.run.parameters) {
      CleanupAgrees(w);
      ClosedHides(w, Cleaned(w), Accounts(w.phase.run.parameters.Members()), actions);
    } else {
      assert U.Restrict(w.updates.votes, UpdateContext(w.phase).voters) == w.updates.votes;
      assert Cleaned(w) == w;
    }
  }

  // ---------- nobody can tell in a closed contract ----------

  /** Two contracts that differ at most in update votes of outsiders, where outsiders stay outside. */
  ghost predicate Alike(w: Whole, v: Whole, who: set<AccountId>) {
    Valid(w.phase) && Confined(w.phase, who) && v == w.(updates := v.updates) && R.Agree(who, w.updates, v.updates)
  }

  lemma VotersAreMembers(s: Phase)
    ensures Elements(UpdateContext(s).voters) == Accounts(VotersOf(s).Members())
  {
    var ms := VotersOf(s).Members();
    assert forall i :: 0 <= i < |ms| ==> AccountList(ms)[i] == ms[i].account && ms[i] in ms;
  }

  lemma CleanupAgrees(w: Whole)
    requires w.phase.Running? && Valid(w.phase) && Closed(w.phase.run.parameters)
    ensures Alike(w, Cleaned(w), Accounts(w.phase.run.parameters.Members()))
  {
    VotersAreMembers(w.phase);
  }

  lemma PhaseStaysAlike(w: Whole, v: Whole, who: set<AccountId>, act: Action)
    requires Alike(w, v, who) && !act.OnUpdates?
    ensures Act(w, act).1 == Act(v, act).1 && Alike(Act(w, act).0, Act(v, act).0, who)
  {
    var e := PhaseEvent(w, act);
    ActOnPhase(w, act);
    if e.Some? && Step(w.phase, e.value.env, e.value.call).Ok? {
      StepKeepsValid(w.phase, e.value.env, e.value.call);
      StepStaysConfined(w.phase, e.value.env, e.value.call, who);
    }
  }

  lemma UpdateStaysAlike(w: Whole, v: Whole, who: set<AccountId>, act: Action)
    requires Alike(w, v, who) && act.OnUpdates?
    ensures Act(w, act).1 == Act(v, act).1 && Alike(Act(w, act).0, Act(v, act).0, who)
  {
    VotersAreMembers(w.phase);
    R.StepKeepsAgreement(w.updates, v.updates, U.Event(UpdateContext(w.phase), act.caller, act.update));
  }

  lemma {:induction false} ClosedHides(w: Whole, v: Whole, who: set<AccountId>, actions: seq<Action>)
    requires Alike(w, v, who)
    ensures Replies(w, actions) == Replies(v, actions) && Alike(RunAll(w, actions), RunAll(v, actions), who)
  {
    if actions != [] {
      var before, act := actions[..|actions| - 1], actions[|actions| - 1];
      ClosedHides(w, v, who, before);
      if act.OnUpdates? {
        UpdateStaysAlike(RunAll(w, before), RunAll(v, before), who, act);
      } else {
        PhaseStaysAlike(RunAll(w, before), RunAll(v, before), who, act);
      }
    }
  }

  // ---------- somebody can in any other ----------

  /** The participants make room for one more; then the former participant rejoins. */
  lemma MakeRoomAndRejoin(now: P.Now, w: Whole, a: AccountId) returns (actions: seq<Action>)
    requires w.phase.Running? && Valid(w.phase) && R.Sound(w.updates) && !Closed(w.phase.run.parameters)
    requires a in w.updates.votes && a !in UpdateContext(w.phase).voters
    ensures SeenAt(now, w, actions)
  {
    var v := Cleaned(w);
    var es, r := CanMakeRoom(now, w.phase.run);
    LiftedRun(w, es);
    LiftedRun(v, es);
    LiftedReplies(w, v, es);
    var w1, v1 := w.(phase := Running(r)), v.(phase := Running(r));
    NotAVoter(w.phase.run.parameters, a);
    VotersAreMembers(w1.phase);
    var more := RejoinAndVote(now, w1, v1, a);
    RunOn(w, Lifted(es), more);
    RunOn(v, Lifted(es), more);
    actions := Lifted(es) + more;
    SuffixesDiffer(Replies(w, Lifted(es)), Replies(w1, more), Replies(v1, more));
  }

  /** The former participant rejoins and everybody else votes as it once did. */
  lemma RejoinAndVote(now: P.Now, w: Whole, v: Whole, a: AccountId) returns (actions: seq<Action>)
    requires w.phase.Running? && Valid(w.phase) && w.phase.run.parameters.participants.nextId <= LAST_ID
    requires v == w.(updates := v.updates) && a !in UpdateContext(w.phase).voters
    requires a in w.updates.votes && w.updates.votes[a] in w.updates.entries
    requires a !in v.updates.votes && w.updates.votes[a] in v.updates.entries
    ensures ActedAt(now, actions) && Replies(w, actions) != Replies(v, actions)
  {
    var p := w.phase.run.parameters;
    NotAVoter(p, a);
    JoinedIsAdmissible(p, a);
    var es, r := P.CanAdopt(now, w.phase.run, Joined(p, a));
    var w1, v1 := w.(phase := Running(r)), v.(phase := Running(r));
    var votes := OldVoteDecides(w1, v1, p, a);
    LiftedRun(w, es);
    LiftedRun(v, es);
    LiftedReplies(w, v, es);
    RunOn(w, Lifted(es), votes);
    RunOn(v, Lifted(es), votes);
    SuffixesDiffer(Replies(w, Lifted(es)), Replies(w1, votes), Replies(v1, votes));
    LiftedThenVotes(now, es, votes);
    actions := Lifted(es) + votes;
  }

  /** Once it has rejoined, the votes of everybody else tell whether its old vote is there. */
  lemma OldVoteDecides(w: Whole, v: Whole, p: ThresholdParameters, a: AccountId) returns (votes: seq<Action>)
    requires p.participants.nextId <= LAST_ID && ValidParameters(p) && a !in AccountList(p.Members())
    requires w.phase.Running? && w.phase.run.parameters == Joined(p, a) && v.phase == w.phase
    requires a in w.updates.votes && w.updates.votes[a] in w.updates.entries
    requires a !in v.updates.votes && w.updates.votes[a] in v.updates.entries
    ensures forall i :: 0 <= i < |votes| ==> votes[i].OnUpdates?
    ensures Replies(w, votes) != Replies(v, votes)
  {
    var ms, id := AccountList(p.Members()), w.updates.votes[a];
    votes := seq(|ms|, i requires 0 <= i < |ms| => OnUpdates(ms[i], U.VoteUpdate(id)));
    VotesAsActions(w, ms, id);
    VotesAsActions(v, ms, id);
    JoinedContext(p, a, w.phase.run);
    OutcomesDiffer(w.updates, v.updates, UpdateContext(w.phase), ms, a, id);
    RepliesDiffer(w, v, ms, id, votes);
  }

  lemma LiftedThenVotes(now: P.Now, es: seq<Event>, votes: seq<Action>)
    requires P.AllAt(now, es) && forall i :: 0 <= i < |votes| ==> votes[i].OnUpdates?
    ensures ActedAt(now, Lifted(es) + votes)
  {
  }

  lemma VotesThenLifted(now: P.Now, votes: seq<Action>, es: seq<Event>)
    requires P.AllAt(now, es) && forall i :: 0 <= i < |votes| ==> votes[i].OnUpdates?
    ensures ActedAt(now, votes + Lifted(es))
  {
  }

  lemma NotAVoter(p: ThresholdParameters, a: AccountId)
    requires a !in AccountList(p.Members())
    ensures a !in Accounts(p.Members())
  {
    var ms := p.Members();
    forall m | m in ms ensures m.account != a {
      var i :| 0 <= i < |ms| && ms[i] == m;
      assert AccountList(ms)[i] == m.account;
    }
  }

  lemma JoinedContext(p: ThresholdParameters, a: AccountId, r: RunningState)
    requires p.participants.nextId <= LAST_ID && r.parameters == Joined(p, a)
    ensures AllNeeded(UpdateContext(Running(r)), AccountList(p.Members()), a)
  {
  }

  lemma RepliesDiffer(w: Whole, v: Whole, ms: seq<AccountId>, id: U.UpdateId, votes: seq<Action>)
    requires w.phase == v.phase && votes == seq(|ms|, i requires 0 <= i < |ms| => OnUpdates(ms[i], U.VoteUpdate(id)))
    requires var es := AllVote(UpdateContext(w.phase), ms, id);
             && U.Outcomes(w.updates, es) != U.Outcomes(v.updates, es)
             && (forall i :: 0 <= i < |ms| ==> Replies(w, votes)[i] == Answered(U.Outcomes(w.updates, es)[i]))
             && (forall i :: 0 <= i < |ms| ==> Replies(v, votes)[i] == Answered(U.Outcomes(v.updates, es)[i]))
    ensures Replies(w, votes) != Replies(v, votes)
  {
    var es := AllVote(UpdateContext(w.phase), ms, id);
    var outs, outs' := U.Outcomes(w.updates, es), U.Outcomes(v.updates, es);
    var i :| 0 <= i < |outs| && outs[i] != outs'[i];
    assert Replies(w, votes)[i] != Replies(v, votes)[i];
  }

  lemma SuffixesDiffer(a: seq<Reply>, b: seq<Reply>, c: seq<Reply>)
    requires b != c
    ensures a + b != a + c
  {
    assert (a + b)[|a|..] == b && (a + c)[|a|..] == c;
  }

  // ---------- such a state is reachable ----------

  /** A participant proposes an update and votes for it; then the contract moves on to parameters without it.
      The vote stays, and whether it is cleaned up decides about a later update. */
  lemma RejoiningSeesCleanup(now: P.Now, w0: Whole, a: AccountId, p: ThresholdParameters)
    returns (actions: seq<Action>, more: seq<Action>)
    requires Initial(w0) && a in UpdateContext(w0.phase).voters
    requires Admissible(w0.phase.run.parameters, p) && a !in Accounts(p.Members()) && !Closed(p)
    ensures var w := RunAll(w0, actions);
            && w.phase.Running? && w.phase.run.parameters == p
            && ActedAt(now, actions) && SeenAt(now, w, more)
  {
    var propose := OnUpdates(a, U.ProposeUpdate(U.ProposeUpdateArgs(None, Some("config")), true));
    var vote := OnUpdates(a, U.VoteUpdate(0));
    var w1 := AfterFirstVote(w0, a);
    var es, r := P.CanAdopt(now, w0.phase.run, p);
    actions := [propose, vote] + Lifted(es);
    RunOn(w0, [propose, vote], Lifted(es));
    LiftedRun(w1, es);
    var w := w1.(phase := Running(r));
    forall i | 0 <= i < |p.Members()| ensures p.Members()[i].account != a {
      assert p.Members()[i] in p.Members();
    }
    VotesThenLifted(now, [propose, vote], es);
    more := MakeRoomAndRejoin(now, w, a);
  }

  lemma AfterFirstVote(w0: Whole, a: AccountId) returns (w: Whole)
    requires Initial(w0) && a in UpdateContext(w0.phase).voters
    ensures w == RunAll(w0, [OnUpdates(a, U.ProposeUpdate(U.ProposeUpdateArgs(None, Some("config")), true)),
            OnUpdates(a, U.VoteUpdate(0))])
    ensures w == w0.(updates := w.updates) && R.Sound(w.updates) && a in w.updates.votes
  {
    var propose := OnUpdates(a, U.ProposeUpdate(U.ProposeUpdateArgs(None, Some("config")), true));
    var vote, both := OnUpdates(a, U.VoteUpdate(0)), [propose, OnUpdates(a, U.VoteUpdate(0))];
    assert both[..1] == [propose] && both[1] == vote;
    RunOneAction(w0, propose);
    var ctx := UpdateContext(w0.phase);
    var u1 := U.UpdateState(map[0 := U.Config("config")], map[], 1);
    assert Act(w0, propose).0 == w0.(updates := u1);
    OneVote(ctx.voters, map[a := 0], 0, a);
    w := w0.(updates := u1.(votes := map[a := 0]));
    assert Act(w0.(updates := u1), vote).0 == w;
  }

  lemma {:induction false} OneVote(members: seq<AccountId>, votes: map<AccountId, U.UpdateId>, id: U.UpdateId,
                                   a: AccountId)
    requires votes.Keys == {a} && Injective(members)
    ensures U.Tally(members, votes, id) <= 1
    ensures a !in members ==> U.Tally(members, votes, id) == 0
  {
    if members != [] {
      var rest := members[..|members| - 1];
      OneVote(rest, votes, id, a);
      assert members == rest + [members[|members| - 1]];
    }
  }

  /** From a new contract with three participants and threshold two. */
  lemma TrioSeesCleanup(now: P.Now, w0: Whole)
    requires Initial(w0) && w0.phase.run.parameters == TRIO
    ensures exists actions, more ::
              ActedAt(now, actions) && RunAll(w0, actions).phase.Running? && SeenAt(now, RunAll(w0, actions), more)
  {
    TrioCanShrink();
    assert AccountList(TRIO.Members())[0] == "x";
    var actions, more := RejoiningSeesCleanup(now, w0, "x", DUO);
  }
}
