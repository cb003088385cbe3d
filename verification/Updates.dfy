/** Proposing, voting for and executing contract updates (update.rs, and the update entry points of
    lib.rs). `UpdateState` is the value of a `ProposedUpdates` object; `Step` is one contract call
    on it, reverted as a whole when it fails. */
module Updates {
  import opened Common

  type UpdateId = nat

  datatype Update = Contract(code: seq<byte>) | Config(config: string)
  datatype ProposeUpdateArgs = ProposeUpdateArgs(code: Option<seq<byte>>, config: Option<string>)

  datatype UpdateState = UpdateState(
    entries: map<UpdateId, Update>, votes: map<AccountId, UpdateId>, nextId: UpdateId)

  const EMPTY_UPDATES := UpdateState(map[], map[], 0)

  /** Exactly one of code and config. */
  function ToUpdate(args: ProposeUpdateArgs): Option<Update> {
    match (args.code, args.config)
    case (Some(code), None) => Some(Contract(code))
    case (None, Some(config)) => Some(Config(config))
    case _ => None
  }

  /** How many of `members` currently vote for `id`. */
  function Tally(members: seq<AccountId>, votes: map<AccountId, UpdateId>, id: UpdateId): nat {
    if members == [] then 0
    else
      var last := members[|members| - 1];
      Tally(members[..|members| - 1], votes, id) + if last in votes && votes[last] == id then 1 else 0
  }

  function Restrict(votes: map<AccountId, UpdateId>, members: seq<AccountId>): map<AccountId, UpdateId> {
    map a | a in votes && a in members :: votes[a]
  }

  class ProposedUpdates {
    var voteByParticipant: map<AccountId, UpdateId>
    var entries: map<UpdateId, Update>
    var id: UpdateId

    ghost function State(): UpdateState
      reads this
    {
      UpdateState(entries, voteByParticipant, id)
    }

    constructor ()
      ensures State() == EMPTY_UPDATES
    {
      voteByParticipant, entries, id := map[], map[], 0;
    }

    /** `None` when the 64-bit id counter would overflow, which panics. */
    method Propose(update: Update) returns (r: Option<UpdateId>)
      modifies this
      ensures old(id) >= U64_MAX ==> r == None && State() == old(State())
      ensures old(id) < U64_MAX ==>
              r == Some(old(id))
              && State() == old(State()).(entries := old(entries)[old(id) := update], nextId := old(id) + 1)
    {
      if id >= U64_MAX { return None; }
      var generated := id;
      id := id + 1;
      entries := entries[generated := update];
      r := Some(generated);
    }

    /** The voter's earlier vote goes even when the id is unknown; the caller then fails, which
        reverts it. */
    method Vote(update: UpdateId, voter: AccountId) returns (ok: bool)
      modifies this`voteByParticipant
      ensures ok <==> update in entries
      ensures voteByParticipant == if ok then old(voteByParticipant)[voter := update]
              else old(voteByParticipant) - {voter}
    {
      RemoveVote(voter);
      if update !in entries { return false; }
      voteByParticipant := voteByParticipant[voter := update];
      ok := true;
    }

    method DoUpdate(update: UpdateId) returns (executed: Option<Update>)
      modifies this
      ensures id == old(id)
      ensures update !in old(entries) ==> executed == None && State() == old(State())
      ensures update in old(entries) ==>
              executed == Some(old(entries)[update]) && State() == UpdateState(map[], map[], id)
    {
      if update !in entries { return None; }
      executed := Some(entries[update]);
      entries := map[];
      voteByParticipant := map[];
    }

    method RemoveVote(voter: AccountId)
      modifies this`voteByParticipant
      ensures voteByParticipant == old(voteByParticipant) - {voter}
    {
      voteByParticipant := voteByParticipant - {voter};
    }

    method RemoveVotes(accounts: seq<AccountId>)
      modifies this`voteByParticipant
      ensures voteByParticipant == old(voteByParticipant) - Elements(accounts)
    {
      for i := 0 to |accounts|
        invariant voteByParticipant == old(voteByParticipant) - Elements(accounts[..i])
      {
        RemoveVote(accounts[i]);
        assert accounts[..i + 1] == accounts[..i] + [accounts[i]];
      }
      assert accounts[..|accounts|] == accounts;
    }

    method RemoveNonParticipantVotes(participants: seq<AccountId>)
      modifies this`voteByParticipant
      ensures voteByParticipant == Restrict(old(voteByParticipant), participants)
    {
      var nonParticipants: seq<AccountId> := [];
      var keys := voteByParticipant.Keys;
      while keys != {}
        invariant keys <= voteByParticipant.Keys
        invariant forall a :: a in nonParticipants <==> a in voteByParticipant.Keys - keys && a !in participants
        decreases keys
      {
        var a :| a in keys;
        keys := keys - {a};
        if a !in participants { nonParticipants := nonParticipants + [a]; }
      }
      RemoveVotes(nonParticipants);
    }

    method CountVotes(members: seq<AccountId>, update: UpdateId) returns (n: nat)
      ensures n == Tally(members, voteByParticipant, update)
    {
      n := 0;
      for i := 0 to |members|
        invariant n == Tally(members[..i], voteByParticipant, update)
      {
        assert members[..i + 1][..i] == members[..i];
        if members[i] in voteByParticipant && voteByParticipant[members[i]] == update { n := n + 1; }
      }
      assert members[..|members|] == members;
    }
  }

  // ---------- contract calls ----------

  /** What the protocol phase contributes: whether it is running, whom it lets vote (while running,
      its participants) and the threshold. */
  datatype Context = Context(running: bool, voters: seq<AccountId>, threshold: nat)

  datatype Call =
    | ProposeUpdate(args: ProposeUpdateArgs, depositCovered: bool)
    | VoteUpdate(id: UpdateId)
    | RemoveUpdateVote
    | RemoveNonParticipantUpdateVotes

  datatype Outcome =
    | Rejected
    | Proposed(id: UpdateId)
    | Recorded
    | Executed(id: UpdateId, update: Update)
    | VoteRemoved
    | Cleaned

  datatype Event = Event(ctx: Context, caller: AccountId, call: Call)

  function Step(s: UpdateState, e: Event): (UpdateState, Outcome) {
    var mayVote := e.caller in e.ctx.voters;
    match e.call
    case ProposeUpdate(args, covered) =>
      var update := ToUpdate(args);
      if !mayVote || update.None? || !covered || s.nextId >= U64_MAX then (s, Rejected)
      else (s.(entries := s.entries[s.nextId := update.value], nextId := s.nextId + 1), Proposed(s.nextId))
    case VoteUpdate(id) =>
      if !e.ctx.running || !mayVote || id !in s.entries then (s, Rejected)
      else
        var votes := s.votes[e.caller := id];
        if Tally(e.ctx.voters, votes, id) < e.ctx.threshold then (s.(votes := votes), Recorded)
        else (UpdateState(map[], map[], s.nextId), Executed(id, s.entries[id]))
    case RemoveUpdateVote =>
      if !e.ctx.running || !mayVote then (s, Rejected) else (s.(votes := s.votes - {e.caller}), VoteRemoved)
    case RemoveNonParticipantUpdateVotes =>
      if !e.ctx.running then (s, Rejected) else (s.(votes := Restrict(s.votes, e.ctx.voters)), Cleaned)
  }

  function End(s: UpdateState, es: seq<Event>): UpdateState
    decreases |es|
  {
    if es == [] then s else Step(End(s, es[..|es| - 1]), es[|es| - 1]).0
  }

  function Outcomes(s: UpdateState, es: seq<Event>): (outs: seq<Outcome>)
    ensures |outs| == |es|
    decreases |es|
  {
    if es == [] then []
    else Outcomes(s, es[..|es| - 1]) + [Step(End(s, es[..|es| - 1]), es[|es| - 1]).1]
  }

  lemma OneMore(s: UpdateState, es: seq<Event>, e: Event)
    ensures End(s, es + [e]) == Step(End(s, es), e).0
    ensures Outcomes(s, es + [e]) == Outcomes(s, es) + [Step(End(s, es), e).1]
  {
  }
}
