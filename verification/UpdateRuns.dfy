/** Update voting over whole runs: what the stored votes and entries mean in terms of the calls
    made, the quorum behind every executed update, and that the cleanup of stale votes is
    invisible. */
module UpdateRuns {
  import opened Common
  import opened Updates

  // ---------- the stored state, read off the history ----------

  /** This call ends whatever support `a` gave before it: an update is executed, `a` votes again or
      withdraws, or a cleanup finds `a` outside the participants. */
  predicate EndsSupport(e: Event, out: Outcome, a: AccountId) {
    || out.Executed?
    || (e.caller == a && (out.Recorded? || out.VoteRemoved?))
    || (out.Cleaned? && a !in e.ctx.voters)
  }

  /** `a` voted for `id` and nothing since has ended that. */
  ghost predicate Supports(es: seq<Event>, outs: seq<Outcome>, a: AccountId, id: UpdateId)
    requires |es| == |outs|
  {
    exists k :: 0 <= k < |es| && SupportedSince(es, outs, k, a, id)
  }

  ghost predicate SupportedSince(es: seq<Event>, outs: seq<Outcome>, k: nat, a: AccountId, id: UpdateId)
    requires k < |es| == |outs|
  {
    && es[k].caller == a && es[k].call == VoteUpdate(id) && outs[k] == Recorded
    && forall j :: k < j < |es| ==> !EndsSupport(es[j], outs[j], a)
  }

  /** `id` was given to a proposal of `u` and no update has been executed since. */
  ghost predicate Open(es: seq<Event>, outs: seq<Outcome>, id: UpdateId, u: Update)
    requires |es| == |outs|
  {
    exists k :: 0 <= k < |es| && OpenSince(es, outs, k, id, u)
  }

  ghost predicate OpenSince(es: seq<Event>, outs: seq<Outcome>, k: nat, id: UpdateId, u: Update)
    requires k < |es| == |outs|
  {
    && es[k].call.ProposeUpdate? && ToUpdate(es[k].call.args) == Some(u) && outs[k] == Proposed(id)
    && forall j :: k < j < |es| ==> !outs[j].Executed?
  }

  lemma SupportStep(es: seq<Event>, outs: seq<Outcome>, e: Event, out: Outcome, a: AccountId, id: UpdateId)
    requires |es| == |outs|
    ensures Supports(es + [e], outs + [out], a, id) <==>
            || (e.caller == a && e.call == VoteUpdate(id) && out == Recorded)
            || (Supports(es, outs, a, id) && !EndsSupport(e, out, a))
  {
    var es', outs' := es + [e], outs + [out];
    if e.caller == a && e.call == VoteUpdate(id) && out == Recorded {
      assert SupportedSince(es', outs', |es|, a, id);
    }
    if Supports(es, outs, a, id) && !EndsSupport(e, out, a) {
      var k :| 0 <= k < |es| && SupportedSince(es, outs, k, a, id);
      assert SupportedSince(es', outs', k, a, id);
    }
    if Supports(es', outs', a, id) {
      var k :| 0 <= k < |es'| && SupportedSince(es', outs', k, a, id);
      if k < |es| {
        assert !EndsSupport(es'[|es|], outs'[|es|], a);
        forall j | k < j < |es| ensures !EndsSupport(es[j], outs[j], a) {
          assert !EndsSupport(es'[j], outs'[j], a);
        }
        assert SupportedSince(es, outs, k, a, id);
      }
    }
  }

  lemma OpenStep(es: seq<Event>, outs: seq<Outcome>, e: Event, out: Outcome, id: UpdateId, u: Update)
    requires |es| == |outs|
    ensures Open(es + [e], outs + [out], id, u) <==>
            || (e.call.ProposeUpdate? && ToUpdate(e.call.args) == Some(u) && out == Proposed(id))
            || (Open(es, outs, id, u) && !out.Executed?)
  {
    var es', outs' := es + [e], outs + [out];
    if e.call.ProposeUpdate? && ToUpdate(e.call.args) == Some(u) && out == Proposed(id) {
      assert OpenSince(es', outs', |es|, id, u);
    }
    if Open(es, outs, id, u) && !out.Executed? {
      var k :| 0 <= k < |es| && OpenSince(es, outs, k, id, u);
      assert OpenSince(es', outs', k, id, u);
    }
    if Open(es', outs', id, u) {
      var k :| 0 <= k < |es'| && OpenSince(es', outs', k, id, u);
      if k < |es| {
        assert !outs'[|es|].Executed?;
        forall j | k < j < |es| ensures !outs[j].Executed? { assert !outs'[j].Executed?; }
        assert OpenSince(es, outs, k, id, u);
      }
    }
  }

  ghost predicate VotedFor(s: UpdateState, a: AccountId, id: UpdateId) { a in s.votes && s.votes[a] == id }
  ghost predicate HasEntry(s: UpdateState, id: UpdateId, u: Update) { id in s.entries && s.entries[id] == u }

  lemma VoteStep(s: UpdateState, e: Event, a: AccountId, id: UpdateId)
    ensures var (s', out) := Step(s, e);
            VotedFor(s', a, id) <==>
            || (e.caller == a && e.call == VoteUpdate(id) && out == Recorded)
            || (VotedFor(s, a, id) && !EndsSupport(e, out, a))
  {
  }

  lemma EntryStep(s: UpdateState, e: Event, id: UpdateId, u: Update)
    requires forall x :: x in s.entries ==> x < s.nextId
    ensures var (s', out) := Step(s, e);
            HasEntry(s', id, u) <==>
            || (e.call.ProposeUpdate? && ToUpdate(e.call.args) == Some(u) && out == Proposed(id))
            || (HasEntry(s, id, u) && !out.Executed?)
  {
  }

  /** A stored vote is exactly a vote still standing in the history. */
  lemma {:induction false} StoredVotesAreStanding(es: seq<Event>, a: AccountId, id: UpdateId)
    ensures VotedFor(End(EMPTY_UPDATES, es), a, id) <==> Supports(es, Outcomes(EMPTY_UPDATES, es), a, id)
    decreases |es|
  {
    if es != [] {
      var before, e := es[..|es| - 1], es[|es| - 1];
      var s, outs := End(EMPTY_UPDATES, before), Outcomes(EMPTY_UPDATES, before);
      StoredVotesAreStanding(before, a, id);
      assert es == before + [e] && Outcomes(EMPTY_UPDATES, es) == outs + [Step(s, e).1];
      SupportStep(before, outs, e, Step(s, e).1, a, id);
      VoteStep(s, e, a, id);
    }
  }

  /** A stored entry is exactly a proposal made since the last execution. */
  lemma {:induction false} StoredEntriesAreOpen(es: seq<Event>, id: UpdateId, u: Update)
    ensures HasEntry(End(EMPTY_UPDATES, es), id, u) <==> Open(es, Outcomes(EMPTY_UPDATES, es), id, u)
    decreases |es|
  {
    if es != [] {
      var before, e := es[..|es| - 1], es[|es| - 1];
      var s, outs := End(EMPTY_UPDATES, before), Outcomes(EMPTY_UPDATES, before);
      StoredEntriesAreOpen(before, id, u);
      assert es == before + [e] && Outcomes(EMPTY_UPDATES, es) == outs + [Step(s, e).1];
      OpenStep(before, outs, e, Step(s, e).1, id, u);
      IdsBelowNext(before);
      EntryStep(s, e, id, u);
    }
  }

  // ---------- ids ----------

  /** Votes name existing entries and every id in use lies below the next one. */
  ghost predicate Sound(s: UpdateState) {
    && (forall a :: a in s.votes ==> s.votes[a] in s.entries)
    && (forall id :: id in s.entries ==> id < s.nextId)
  }

  lemma StepKeepsSound(s: UpdateState, e: Event)
    requires Sound(s)
    ensures Sound(Step(s, e).0) && s.nextId <= Step(s, e).0.nextId
  {
  }

  lemma {:induction false} IdsBelowNext(es: seq<Event>)
    ensures Sound(End(EMPTY_UPDATES, es))
    ensures forall k :: 0 <= k < |es| && Outcomes(EMPTY_UPDATES, es)[k].Proposed? ==>
              Outcomes(EMPTY_UPDATES, es)[k].id < End(EMPTY_UPDATES, es).nextId
    decreases |es|
  {
    if es != [] {
      var before := es[..|es| - 1];
      IdsBelowNext(before);
      StepKeepsSound(End(EMPTY_UPDATES, before), es[|es| - 1]);
    }
  }

  ghost predicate IncreasingIds(outs: seq<Outcome>) {
    forall i, j :: 0 <= i < j < |outs| && outs[i].Proposed? && outs[j].Proposed? ==> outs[i].id < outs[j].id
  }

  /** An id is handed out once, even across executions that clear every entry. */
  lemma {:induction false} IdsNeverReused(es: seq<Event>)
    ensures IncreasingIds(Outcomes(EMPTY_UPDATES, es))
    decreases |es|
  {
    if es != [] {
      var before := es[..|es| - 1];
      IdsNeverReused(before);
      IdsBelowNext(before);
      var outs := Outcomes(EMPTY_UPDATES, before);
      var out := Step(End(EMPTY_UPDATES, before), es[|es| - 1]).1;
      assert IncreasingIds(outs + [out]);
    }
  }

  // ---------- quorums ----------

  /** Members of the list that vote for `id`. */
  function Backers(members: seq<AccountId>, votes: map<AccountId, UpdateId>, id: UpdateId): set<AccountId> {
    set a | a in members && a in votes && votes[a] == id
  }

  lemma {:induction false} TallyCountsBackers(members: seq<AccountId>, votes: map<AccountId, UpdateId>, id: UpdateId)
    requires Injective(members)
    ensures Tally(members, votes, id) == |Backers(members, votes, id)|
  {
    if members == [] {
      assert Backers(members, votes, id) == {};
    } else {
      var last := |members| - 1;
      var rest, a := members[..last], members[last];
      assert members == rest + [a];
      assert a !in rest;
      TallyCountsBackers(rest, votes, id);
      assert Backers(members, votes, id) ==
             Backers(rest, votes, id) + if a in votes && votes[a] == id then {a} else {};
    }
  }

  /** Participants that stand behind `id` once the caller's vote is in. */
  ghost function StandingFor(es: seq<Event>, outs: seq<Outcome>, e: Event, id: UpdateId): set<AccountId>
    requires |es| == |outs|
  {
    set a | a in e.ctx.voters && (a == e.caller || Supports(es, outs, a, id))
  }

  /** An update is executed exactly when the caller's vote brings the distinct current participants
      standing behind an open id to the threshold; it is the update proposed under that id. Votes
      left by former participants never count. */
  lemma ExecutionNeedsQuorum(es: seq<Event>, e: Event, id: UpdateId, u: Update)
    requires Injective(e.ctx.voters)
    ensures var outs := Outcomes(EMPTY_UPDATES, es);
            Step(End(EMPTY_UPDATES, es), e).1 == Executed(id, u) <==>
            && e.call == VoteUpdate(id) && e.ctx.running && e.caller in e.ctx.voters
            && Open(es, outs, id, u)
            && |StandingFor(es, outs, e, id)| >= e.ctx.threshold
  {
    var s, outs := End(EMPTY_UPDATES, es), Outcomes(EMPTY_UPDATES, es);
    StoredEntriesAreOpen(es, id, u);
    if e.call == VoteUpdate(id) {
      var votes := s.votes[e.caller := id];
      TallyCountsBackers(e.ctx.voters, votes, id);
      forall a ensures Supports(es, outs, a, id) <==> VotedFor(s, a, id) {
        StoredVotesAreStanding(es, a, id);
      }
      if e.caller in e.ctx.voters {
        assert Backers(e.ctx.voters, votes, id) == StandingFor(es, outs, e, id);
      }
    }
  }

  /** While the participants stay the same, no open id is left with enough votes. */
  ghost predicate NoneReady(s: UpdateState, ctx: Context) {
    forall id :: id in s.entries ==> Tally(ctx.voters, s.votes, id) < ctx.threshold
  }

  lemma {:induction false} TallyMonotone(members: seq<AccountId>, v: map<AccountId, UpdateId>,
                                         w: map<AccountId, UpdateId>, id: UpdateId)
    requires forall a :: a in members && a in v && v[a] == id ==> a in w && w[a] == id
    ensures Tally(members, v, id) <= Tally(members, w, id)
  {
    if members != [] {
      TallyMonotone(members[..|members| - 1], v, w, id);
    }
  }

  lemma {:induction false} NoVotesNoTally(members: seq<AccountId>, v: map<AccountId, UpdateId>, id: UpdateId)
    requires forall a :: a in v ==> v[a] != id
    ensures Tally(members, v, id) == 0
  {
    if members != [] {
      NoVotesNoTally(members[..|members| - 1], v, id);
    }
  }

  lemma StepKeepsNoneReady(s: UpdateState, e: Event)
    requires Sound(s) && NoneReady(s, e.ctx) && e.ctx.threshold >= 1
    ensures NoneReady(Step(s, e).0, e.ctx)
  {
    var s' := Step(s, e).0;
    forall id | id in s'.entries ensures Tally(e.ctx.voters, s'.votes, id) < e.ctx.threshold {
      if id !in s.entries {
        NoVotesNoTally(e.ctx.voters, s'.votes, id);
      } else if e.call != VoteUpdate(id) {
        TallyMonotone(e.ctx.voters, s'.votes, s.votes, id);
      }
    }
  }

  lemma {:induction false} RunKeepsNoneReady(ctx: Context, es: seq<Event>)
    requires ctx.threshold >= 1 && forall e :: e in es ==> e.ctx == ctx
    ensures NoneReady(End(EMPTY_UPDATES, es), ctx)
    decreases |es|
  {
    if es != [] {
      var before := es[..|es| - 1];
      RunKeepsNoneReady(ctx, before);
      IdsBelowNext(before);
      StepKeepsNoneReady(End(EMPTY_UPDATES, before), es[|es| - 1]);
    }
  }

  // ---------- the cleanup is invisible ----------

  predicate IsCleanup(e: Event) { e.call.RemoveNonParticipantUpdateVotes? }

  function WithoutCleanup(es: seq<Event>): seq<Event> {
    if es == [] then []
    else WithoutCleanup(es[..|es| - 1]) + if IsCleanup(es[|es| - 1]) then [] else [es[|es| - 1]]
  }

  /** Outcomes of the calls that are not cleanups. */
  function VisibleOutcomes(s: UpdateState, es: seq<Event>): seq<Outcome> {
    if es == [] then []
    else VisibleOutcomes(s, es[..|es| - 1])
         + if IsCleanup(es[|es| - 1]) then [] else [Step(End(s, es[..|es| - 1]), es[|es| - 1]).1]
  }

  /** Nobody who has left the voters comes back: whoever may vote at two calls may vote at every call
      between them. Newcomers are welcome at any time. */
  ghost predicate NobodyReturns(es: seq<Event>) {
    forall i, j, k, a :: 0 <= i < j < k < |es| && a in es[i].ctx.voters && a in es[k].ctx.voters ==>
      a in es[j].ctx.voters
  }

  /** Everybody who has been a voter. */
  function Known(es: seq<Event>): set<AccountId> {
    if es == [] then {} else Known(es[..|es| - 1]) + Elements(es[|es| - 1].ctx.voters)
  }

  /** Those of them who have left. */
  function Gone(es: seq<Event>): set<AccountId> {
    if es == [] then {}
    else Gone(es[..|es| - 1]) + (Known(es[..|es| - 1]) - Elements(es[|es| - 1].ctx.voters))
  }

  lemma {:induction false} KnownAt(es: seq<Event>, a: AccountId) returns (i: nat)
    requires a in Known(es)
    ensures i < |es| && a in es[i].ctx.voters
  {
    i := |es| - 1;
    if a !in es[i].ctx.voters {
      i := KnownAt(es[..|es| - 1], a);
    }
  }

  lemma {:induction false} GoneAt(es: seq<Event>, a: AccountId) returns (i: nat, j: nat)
    requires a in Gone(es)
    ensures i < j < |es| && a in es[i].ctx.voters && a !in es[j].ctx.voters
  {
    var before := es[..|es| - 1];
    if a in Gone(before) {
      i, j := GoneAt(before, a);
    } else {
      i := KnownAt(before, a);
      j := |es| - 1;
    }
  }

  lemma VotersNotGone(es: seq<Event>)
    requires es != [] && NobodyReturns(es)
    ensures Elements(es[|es| - 1].ctx.voters) !! Gone(es[..|es| - 1])
    ensures NobodyReturns(es[..|es| - 1])
  {
    var before, e := es[..|es| - 1], es[|es| - 1];
    forall a | a in Gone(before) ensures a !in e.ctx.voters {
      var i, j := GoneAt(before, a);
      assert a in es[i].ctx.voters && a !in es[j].ctx.voters;
    }
  }

  /** The states differ at most in votes of accounts outside `members`. */
  ghost predicate Agree(members: set<AccountId>, s: UpdateState, t: UpdateState) {
    && s.entries == t.entries && s.nextId == t.nextId
    && forall a :: a in members ==> (a in s.votes <==> a in t.votes) && (a in s.votes ==> s.votes[a] == t.votes[a])
  }

  lemma {:induction false} AgreeingTally(members: seq<AccountId>, v: map<AccountId, UpdateId>,
                                         w: map<AccountId, UpdateId>, id: UpdateId)
    requires forall a :: a in members ==> (a in v <==> a in w) && (a in v ==> v[a] == w[a])
    ensures Tally(members, v, id) == Tally(members, w, id)
  {
    TallyMonotone(members, v, w, id);
    TallyMonotone(members, w, v, id);
  }

  lemma StepKeepsAgreement(s: UpdateState, t: UpdateState, e: Event)
    requires Agree(Elements(e.ctx.voters), s, t)
    ensures Step(s, e).1 == Step(t, e).1
    ensures Agree(Elements(e.ctx.voters), Step(s, e).0, Step(t, e).0)
  {
    if e.call.VoteUpdate? && e.caller in e.ctx.voters {
      forall a | a in e.ctx.voters ensures a in Elements(e.ctx.voters) {}
      AgreeingTally(e.ctx.voters, s.votes[e.caller := e.call.id], t.votes[e.caller := e.call.id], e.call.id);
    }
  }

  /** The two states agree on entries, ids and the votes of everybody who has not left, and every vote
      belongs to somebody who has been a voter. */
  ghost predicate Bisimilar(known: set<AccountId>, gone: set<AccountId>, s: UpdateState, t: UpdateState) {
    && s.votes.Keys <= known && t.votes.Keys <= known
    && Agree(known - gone, s, t)
  }

  lemma CleanupKeepsAgreement(s: UpdateState, t: UpdateState, e: Event)
    requires IsCleanup(e) && Agree(Elements(e.ctx.voters), s, t)
    ensures Agree(Elements(e.ctx.voters), Step(s, e).0, t)
  {
  }

  lemma OnlyVotersVote(s: UpdateState, e: Event)
    ensures Step(s, e).0.votes.Keys <= s.votes.Keys + Elements(e.ctx.voters)
  {
  }

  lemma VotersAgree(known: set<AccountId>, gone: set<AccountId>, s: UpdateState, t: UpdateState, e: Event)
    requires Bisimilar(known, gone, s, t) && Elements(e.ctx.voters) !! gone
    ensures Agree(Elements(e.ctx.voters), s, t)
  {
    forall a | a in Elements(e.ctx.voters) && a !in known ensures a !in s.votes && a !in t.votes {
    }
  }

  /** Whoever has not left after the call may vote at it, or never has. */
  lemma StillBisimilar(known: set<AccountId>, gone: set<AccountId>, s: UpdateState, t: UpdateState, e: Event)
    requires s.votes.Keys <= known + Elements(e.ctx.voters) && t.votes.Keys <= known + Elements(e.ctx.voters)
    requires Agree(Elements(e.ctx.voters), s, t)
    ensures var voters := Elements(e.ctx.voters);
            Bisimilar(known + voters, gone + (known - voters), s, t)
  {
  }

  /** As long as nobody who has left comes back, a run with cleanups and the same run without them stay
      bisimilar, and every other call has the same outcome in both. */
  lemma {:induction false} CleanupBisimulation(es: seq<Event>)
    requires NobodyReturns(es)
    ensures Bisimilar(Known(es), Gone(es), End(EMPTY_UPDATES, es), End(EMPTY_UPDATES, WithoutCleanup(es)))
    ensures VisibleOutcomes(EMPTY_UPDATES, es) == Outcomes(EMPTY_UPDATES, WithoutCleanup(es))
    decreases |es|
  {
    if es != [] {
      var before, e := es[..|es| - 1], es[|es| - 1];
      VotersNotGone(es);
      CleanupBisimulation(before);
      var full, lean := End(EMPTY_UPDATES, before), End(EMPTY_UPDATES, WithoutCleanup(before));
      VotersAgree(Known(before), Gone(before), full, lean, e);
      OnlyVotersVote(full, e);
      OnlyVotersVote(lean, e);
      if IsCleanup(e) {
        assert WithoutCleanup(es) == WithoutCleanup(before);
        CleanupKeepsAgreement(full, lean, e);
        StillBisimilar(Known(before), Gone(before), Step(full, e).0, lean, e);
      } else {
        OneMore(EMPTY_UPDATES, WithoutCleanup(before), e);
        StepKeepsAgreement(full, lean, e);
        StillBisimilar(Known(before), Gone(before), Step(full, e).0, Step(lean, e).0, e);
      }
    }
  }

  /** Dropping every cleanup from a run changes no result and no executed update, as long as nobody who
      has left the participants comes back. */
  lemma CleanupInvisible(es: seq<Event>)
    requires NobodyReturns(es)
    ensures VisibleOutcomes(EMPTY_UPDATES, es) == Outcomes(EMPTY_UPDATES, WithoutCleanup(es))
  {
    CleanupBisimulation(es);
  }
}
