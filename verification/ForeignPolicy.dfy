/** The foreign-chain policy, changed only by unanimous vote (lib.rs, `vote_foreign_chain_policy`). */
module ForeignPolicy {
  import opened Common

  /** Chain name to the RPC providers allowed for it. */
  type Policy = map<string, set<string>>

  datatype PolicyState = PolicyState(policy: Policy, votes: map<AccountId, Policy>)

  const NO_POLICY := PolicyState(map[], map[])

  datatype Event = Event(running: bool, participants: seq<AccountId>, caller: AccountId, policy: Policy)

  datatype Outcome = Rejected | Recorded | Applied

  function Tally(members: seq<AccountId>, votes: map<AccountId, Policy>, policy: Policy): nat {
    if members == [] then 0
    else
      var last := members[|members| - 1];
      Tally(members[..|members| - 1], votes, policy) + if last in votes && votes[last] == policy then 1 else 0
  }

  method CountVotes(members: seq<AccountId>, votes: map<AccountId, Policy>, policy: Policy) returns (n: nat)
    ensures n == |members| <==> forall a :: a in members ==> a in votes && votes[a] == policy
    ensures n == Tally(members, votes, policy)
  {
    n := 0;
    for i := 0 to |members|
      invariant n == Tally(members[..i], votes, policy)
    {
      assert members[..i + 1][..i] == members[..i];
      if members[i] in votes && votes[members[i]] == policy { n := n + 1; }
    }
    assert members[..|members|] == members;
    TallyIsFull(members, votes, policy);
  }

  function Step(s: PolicyState, e: Event): (PolicyState, Outcome) {
    if !e.running || e.caller !in e.participants then (s, Rejected)
    else
      var votes := s.votes[e.caller := e.policy];
      if Tally(e.participants, votes, e.policy) == |e.participants| then (PolicyState(e.policy, map[]), Applied)
      else (s.(votes := votes), Recorded)
  }

  function End(es: seq<Event>): PolicyState
    decreases |es|
  {
    if es == [] then NO_POLICY else Step(End(es[..|es| - 1]), es[|es| - 1]).0
  }

  function Outcomes(es: seq<Event>): (outs: seq<Outcome>)
    ensures |outs| == |es|
    decreases |es|
  {
    if es == [] then [] else Outcomes(es[..|es| - 1]) + [Step(End(es[..|es| - 1]), es[|es| - 1]).1]
  }

  lemma {:induction false} TallyIsFull(members: seq<AccountId>, votes: map<AccountId, Policy>, policy: Policy)
    ensures Tally(members, votes, policy) <= |members|
    ensures Tally(members, votes, policy) == |members| <==>
            forall a :: a in members ==> a in votes && votes[a] == policy
  {
    if members != [] {
      var rest := members[..|members| - 1];
      TallyIsFull(rest, votes, policy);
      assert members == rest + [members[|members| - 1]];
    }
  }

  /** `a`'s last vote was for `p`, and no policy has been applied since. */
  ghost predicate Wants(es: seq<Event>, outs: seq<Outcome>, a: AccountId, p: Policy)
    requires |es| == |outs|
  {
    exists k :: 0 <= k < |es| && WantsSince(es, outs, k, a, p)
  }

  ghost predicate WantsSince(es: seq<Event>, outs: seq<Outcome>, k: nat, a: AccountId, p: Policy)
    requires k < |es| == |outs|
  {
    && es[k].caller == a && es[k].policy == p && outs[k].Recorded?
    && forall j :: k < j < |es| ==> !outs[j].Applied? && (es[j].caller == a ==> !outs[j].Recorded?)
  }

  lemma WantsStep(es: seq<Event>, outs: seq<Outcome>, e: Event, out: Outcome, a: AccountId, p: Policy)
    requires |es| == |outs|
    ensures Wants(es + [e], outs + [out], a, p) <==>
            || (e.caller == a && e.policy == p && out.Recorded?)
            || (Wants(es, outs, a, p) && !out.Applied? && (e.caller == a ==> !out.Recorded?))
  {
    var es', outs' := es + [e], outs + [out];
    if e.caller == a && e.policy == p && out.Recorded? {
      assert WantsSince(es', outs', |es|, a, p);
    }
    if Wants(es, outs, a, p) && !out.Applied? && (e.caller == a ==> !out.Recorded?) {
      var k :| 0 <= k < |es| && WantsSince(es, outs, k, a, p);
      assert WantsSince(es', outs', k, a, p);
    }
    if Wants(es', outs', a, p) {
      var k :| 0 <= k < |es'| && WantsSince(es', outs', k, a, p);
      if k < |es| {
        assert !outs'[|es|].Applied? && (es'[|es|].caller == a ==> !outs'[|es|].Recorded?);
        forall j | k < j < |es| ensures !outs[j].Applied? && (es[j].caller == a ==> !outs[j].Recorded?) {
          assert !outs'[j].Applied? && (es'[j].caller == a ==> !outs'[j].Recorded?);
        }
        assert WantsSince(es, outs, k, a, p);
      }
    }
  }

  lemma {:induction false} StoredVotesAreStanding(es: seq<Event>, a: AccountId, p: Policy)
    ensures (a in End(es).votes && End(es).votes[a] == p) <==> Wants(es, Outcomes(es), a, p)
    decreases |es|
  {
    if es != [] {
      var before, e := es[..|es| - 1], es[|es| - 1];
      StoredVotesAreStanding(before, a, p);
      assert es == before + [e] && Outcomes(es) == Outcomes(before) + [Step(End(before), e).1];
      WantsStep(before, Outcomes(before), e, Step(End(before), e).1, a, p);
    }
  }

  /** The policy changes exactly at a participant's vote after which every current participant's
      last vote is for that policy, whatever others have voted; it then becomes that policy. */
  lemma AppliedNeedsEveryone(es: seq<Event>, e: Event)
    ensures var outs := Outcomes(es);
            Step(End(es), e).1.Applied? <==>
            && e.running && e.caller in e.participants
            && forall a :: a in e.participants && a != e.caller ==> Wants(es, outs, a, e.policy)
    ensures Step(End(es), e).0.policy == if Step(End(es), e).1.Applied? then e.policy else End(es).policy
  {
    var votes := End(es).votes[e.caller := e.policy];
    TallyIsFull(e.participants, votes, e.policy);
    forall a ensures Wants(es, Outcomes(es), a, e.policy) <==> a in End(es).votes && End(es).votes[a] == e.policy {
      StoredVotesAreStanding(es, a, e.policy);
    }
  }

  ghost predicate Unanimous(s: PolicyState, participants: seq<AccountId>, p: Policy) {
    forall a :: a in participants ==> a in s.votes && s.votes[a] == p
  }

  /** No policy has the vote of every participant. */
  ghost predicate NoneUnanimous(s: PolicyState, participants: seq<AccountId>) {
    forall p :: !Unanimous(s, participants, p)
  }

  /** With the same participants throughout, no unanimous policy is ever left unapplied. */
  lemma {:induction false} NoUnanimityLeft(es: seq<Event>, participants: seq<AccountId>)
    requires participants != [] && forall e :: e in es ==> e.participants == participants
    ensures NoneUnanimous(End(es), participants)
    decreases |es|
  {
    if es == [] {
      assert participants[0] in participants;
      assert forall p :: !Unanimous(NO_POLICY, participants, p);
    } else {
      var before, e := es[..|es| - 1], es[|es| - 1];
      NoUnanimityLeft(before, participants);
      StepKeepsNoneUnanimous(End(before), e);
    }
  }

  lemma StepKeepsNoneUnanimous(s: PolicyState, e: Event)
    requires NoneUnanimous(s, e.participants)
    ensures NoneUnanimous(Step(s, e).0, e.participants)
  {
    var (s', out) := Step(s, e);
    forall p ensures !Unanimous(s', e.participants, p) {
      assert !Unanimous(s, e.participants, p);
      TallyIsFull(e.participants, s'.votes, p);
      if out.Applied? { assert e.caller in e.participants && s'.votes == map[]; }
    }
  }
}
