/** Delivery and outputs over every run of the runner, finished or not. */
module RunnerTrace {
  import opened Common
  import opened Runner

  function Names<S>(parties: Parties<S>): (r: seq<Participant>)
    ensures |r| == |parties| && forall i :: 0 <= i < |r| ==> r[i] == parties[i].0
  {
    seq(|parties|, i requires 0 <= i < |parties| => parties[i].0)
  }

  /** Whom a trace entry is addressed to: for a broadcast all but the sender, in order. */
  function ToParties<T>(names: seq<Participant>, e: Entry<T>): seq<Participant>
    requires e.party < |names|
  {
    match e.action
    case SendMany(_) => names[..e.party] + names[e.party + 1..]
    case SendPrivate(to, _) => [to]
    case _ => []
  }

  // ---------- outputs ----------

  /** What the trace says was returned, in order. */
  function OutputsOf<T>(names: seq<Participant>, log: seq<Entry<T>>): seq<(Participant, T)> {
    if log == [] then []
    else
      var e := log[|log| - 1];
      OutputsOf(names, log[..|log| - 1])
        + if e.action.Return? && e.party < |names| then [(names[e.party], e.action.output)] else []
  }

  ghost predicate DistinctOut<T>(out: seq<(Participant, T)>) {
    forall i, j :: 0 <= i < j < |out| ==> out[i].0 != out[j].0
  }

  ghost predicate KnownOut<T>(out: seq<(Participant, T)>, names: seq<Participant>) {
    forall i :: 0 <= i < |out| ==> out[i].0 in names
  }

  /** After a party returns, it is not poked again. */
  ghost predicate SilentAfterReturn<T>(log: seq<Entry<T>>) {
    forall a, b :: 0 <= a < b < |log| && log[a].action.Return? ==> log[a].party != log[b].party
  }

  ghost predicate Tidy<S, T>(s: Sched<S, T>, names: seq<Participant>) {
    && WellFormed(s, |names|) && Names(s.parties) == names
    && DistinctOut(s.out) && KnownOut(s.out, names)
    && s.out == OutputsOf(names, s.log)
    && (s.driving ==> !Returned(s.out, names[s.turn]))
    && (forall a :: 0 <= a < |s.log| ==> s.log[a].party < |names|)
    && (forall a :: 0 <= a < |s.log| && s.log[a].action.Return? ==> Returned(s.out, names[s.log[a].party]))
    && SilentAfterReturn(s.log)
  }

  lemma StepTidy<S, T>(proto: Protocol<S, T>, s: Sched<S, T>, names: seq<Participant>)
    requires Tidy(s, names)
    ensures Step(proto, s).Active? ==> Tidy(Step(proto, s).sched, names)
  {
    if Step(proto, s).Active? {
      var s' := Step(proto, s).sched;
      if s.driving {
        StepKeepsNames(proto, s);
        StepWellFormed(proto, s, |names|);
        assert Names(s'.parties) == names;
        PokeShape(proto, s);
        PokeTidy(s, s', names, s'.log[|s.log|]);
      }
    }
  }

  /** What a poke that does not fail does to everything but the parties' states. */
  lemma PokeShape<S, T>(proto: Protocol<S, T>, s: Sched<S, T>)
    requires s.turn < |s.parties| && s.driving && Step(proto, s).Active?
    ensures proto.poke(s.parties[s.turn].1).Some?
    ensures var s', action := Step(proto, s).sched, proto.poke(s.parties[s.turn].1).value.0;
            && s'.log == s.log + [Entry(s.round, s.turn, action)]
            && s'.out == s.out + (if action.Return? then [(s.parties[s.turn].0, action.output)] else [])
            && (s'.driving ==> s'.turn == s.turn && !action.Return?)
  {
  }

  /** The part of `Tidy` that a poke by the party in turn touches. */
  lemma PokeTidy<S, T>(s: Sched<S, T>, s': Sched<S, T>, names: seq<Participant>, e: Entry<T>)
    requires Tidy(s, names) && WellFormed(s', |names|) && Names(s'.parties) == names
    requires s.driving && s'.log == s.log + [e] && e.party == s.turn
    requires s'.out == s.out + if e.action.Return? then [(names[s.turn], e.action.output)] else []
    requires s'.driving ==> s'.turn == s.turn && !e.action.Return?
    ensures Tidy(s', names)
  {
    assert s'.log[..|s.log|] == s.log;
    forall a | 0 <= a < |s'.log| && s'.log[a].action.Return? ensures Returned(s'.out, names[s'.log[a].party]) {
      if a < |s.log| {
        assert s'.log[a] == s.log[a];
        var i :| 0 <= i < |s.out| && s.out[i].0 == names[s.log[a].party];
        assert s'.out[i] == s.out[i];
      } else {
        assert s'.out[|s.out|].0 == names[s.turn];
      }
    }
    forall a, b | 0 <= a < b < |s'.log| && s'.log[a].action.Return? ensures s'.log[a].party != s'.log[b].party {
      assert s'.log[a] == s.log[a];
      if b < |s.log| { assert s'.log[b] == s.log[b]; }
    }
  }

  lemma {:induction false} RunIsTidy<S, T>(proto: Protocol<S, T>, parties: Parties<S>, n: nat)
    ensures var r := Run(proto, parties, n);
            r.Active? || r.Finished? ==> Tidy(r.sched, Names(parties))
  {
    if n > 0 {
      RunIsTidy(proto, parties, n - 1);
      var before := Run(proto, parties, n - 1);
      if before.Active? {
        StepTidy(proto, before.sched, Names(parties));
        StepWellFormed(proto, before.sched, |parties|);
      }
    }
  }

  /** A finished run has distinct participants, and its output holds each of them exactly once, with
      the value it returned; nobody was poked after returning. */
  lemma FinishedOutputs<S, T>(proto: Protocol<S, T>, parties: Parties<S>, n: nat)
    requires Run(proto, parties, n).Finished?
    ensures var s, names := Run(proto, parties, n).sched, Names(parties);
            && Injective(names)
            && Injective(Names(s.out)) && Elements(Names(s.out)) == Elements(names) && |s.out| == |names|
            && s.out == OutputsOf(names, s.log)
            && SilentAfterReturn(s.log)
  {
    RunIsTidy(proto, parties, n);
    var s, names := Run(proto, parties, n).sched, Names(parties);
    FinishedIsFull(proto, parties, n);
    var outNames := Names(s.out);
    CardinalityIsLength(outNames);
    CardinalityIsLength(names);
    assert Elements(outNames) <= Elements(names);
    SubsetCardinality(Elements(outNames), Elements(names));
  }

  lemma {:induction false} FinishedIsFull<S, T>(proto: Protocol<S, T>, parties: Parties<S>, n: nat)
    requires Run(proto, parties, n).Finished?
    ensures |Run(proto, parties, n).sched.out| >= |parties|
  {
    if n > 0 && Run(proto, parties, n - 1).Finished? {
      FinishedIsFull(proto, parties, n - 1);
    }
  }

  // ---------- deliveries ----------

  /** What a party experiences: a poke, with its answer, or a message. */
  datatype Stimulus<T> = Poked(action: Action<T>) | Got(from: Participant, message: Message)

  /** The part of one trace entry that concerns party `j`. */
  function Share<T>(names: seq<Participant>, e: Entry<T>, j: nat): seq<Stimulus<T>>
    requires e.party < |names| && j < |names|
  {
    (if e.party == j then [Poked(e.action)] else [])
    + if names[j] in ToParties(names, e) then [Got(names[e.party], e.action.message)] else []
  }

  /** The trace as party `j` sees it. */
  function View<T>(names: seq<Participant>, log: seq<Entry<T>>, j: nat): seq<Stimulus<T>>
    requires j < |names| && forall a :: 0 <= a < |log| ==> log[a].party < |names|
  {
    if log == [] then [] else View(names, log[..|log| - 1], j) + Share(names, log[|log| - 1], j)
  }

  /** The state after these stimuli, if every answer was as given and no call failed. */
  ghost function Feed<S, T>(proto: Protocol<S, T>, state: S, stimuli: seq<Stimulus<T>>): Option<S> {
    if stimuli == [] then Some(state)
    else
      match Feed(proto, state, stimuli[..|stimuli| - 1])
      case None => None
      case Some(st) => React(proto, st, stimuli[|stimuli| - 1])
  }

  ghost function React<S, T>(proto: Protocol<S, T>, st: S, x: Stimulus<T>): Option<S> {
    match x
    case Poked(action) =>
      var r := proto.poke(st);
      if r.Some? && r.value.0 == action then Some(r.value.1) else None
    case Got(from, m) => proto.message(st, from, m)
  }

  lemma FeedOne<S, T>(proto: Protocol<S, T>, state: S, xs: seq<Stimulus<T>>, x: Stimulus<T>)
    ensures Feed(proto, state, xs + [x]) ==
            var r := Feed(proto, state, xs);
            if r.None? then None else React(proto, r.value, x)
  {
  }

  /** A broadcast hands the message once to every other party and leaves the sender alone. */
  lemma {:induction false} BroadcastReaches<S, T>(proto: Protocol<S, T>, parties: Parties<S>, i: nat, m: Message,
                                                  j: nat)
    requires i < |parties| && j <= |parties|
    ensures var r := Broadcast(proto, parties, i, m, j);
            r.Some? ==>
              && |r.value| == |parties|
              && (forall k :: 0 <= k < j && k != i ==>
                 proto.message(parties[k].1, parties[i].0, m) == Some(r.value[k].1))
              && (forall k :: 0 <= k < |parties| && (k == i || k >= j) ==> r.value[k] == parties[k])
  {
    if j > 0 {
      BroadcastReaches(proto, parties, i, m, j - 1);
    }
  }

  ghost predicate Faithful<S, T>(proto: Protocol<S, T>, parties: Parties<S>, s: Sched<S, T>, j: nat)
    requires j < |parties| == |s.parties| && forall a :: 0 <= a < |s.log| ==> s.log[a].party < |parties|
  {
    Feed(proto, parties[j].1, View(Names(parties), s.log, j)) == Some(s.parties[j].1)
  }

  ghost predicate FaithfulRun<S, T>(proto: Protocol<S, T>, parties: Parties<S>, s: Sched<S, T>, j: nat) {
    && j < |parties| == |s.parties| && (forall a :: 0 <= a < |s.log| ==> s.log[a].party < |parties|)
    && Faithful(proto, parties, s, j)
  }

  /** Feeding a party its share of one entry: its own poke first, then the message. */
  lemma FeedShare<S, T>(proto: Protocol<S, T>, names: seq<Participant>, state0: S, seen: seq<Stimulus<T>>,
                        e: Entry<T>, j: nat,
                        before: S, poked: S, after: S)
    requires e.party < |names| && j < |names| && Feed(proto, state0, seen) == Some(before)
    requires if e.party == j then proto.poke(before) == Some((e.action, poked)) else poked == before
    requires if names[j] in ToParties(names, e)
             then proto.message(poked, names[e.party], e.action.message) == Some(after)
             else after == poked
    ensures Feed(proto, state0, seen + Share(names, e, j)) == Some(after)
  {
    var mid := seen + if e.party == j then [Poked(e.action)] else [];
    if e.party == j {
      FeedOne(proto, state0, seen, Poked(e.action));
    } else {
      assert mid == seen;
    }
    if names[j] in ToParties(names, e) {
      FeedOne(proto, state0, mid, Got(names[e.party], e.action.message));
      assert seen + Share(names, e, j) == mid + [Got(names[e.party], e.action.message)];
    } else {
      assert seen + Share(names, e, j) == mid;
    }
  }

  lemma ViewAppend<T>(names: seq<Participant>, log: seq<Entry<T>>, e: Entry<T>, j: nat)
    requires j < |names| && e.party < |names| && forall a :: 0 <= a < |log| ==> log[a].party < |names|
    ensures View(names, log + [e], j) == View(names, log, j) + Share(names, e, j)
  {
  }

  /** A scheduler state reached by one entry, as far as party `j` goes. */
  lemma EntryFaithful<S, T>(proto: Protocol<S, T>, parties: Parties<S>, s: Sched<S, T>, s': Sched<S, T>, e: Entry<T>,
                            poked: S, j: nat)
    requires FaithfulRun(proto, parties, s, j) && |s'.parties| == |parties|
    requires e.party < |parties| && s'.log == s.log + [e]
    requires if e.party == j then proto.poke(s.parties[j].1) == Some((e.action, poked)) else poked == s.parties[j].1
    requires if Names(parties)[j] in ToParties(Names(parties), e)
             then proto.message(poked, Names(parties)[e.party], e.action.message) == Some(s'.parties[j].1)
             else s'.parties[j].1 == poked
    ensures FaithfulRun(proto, parties, s', j)
  {
    var names := Names(parties);
    ViewAppend(names, s.log, e, j);
    FeedShare(proto, names, parties[j].1, View(names, s.log, j), e, j, s.parties[j].1, poked, s'.parties[j].1);
  }

  /** One poke, seen by party `j`. */
  lemma PokeFaithful<S, T>(proto: Protocol<S, T>, parties: Parties<S>, s: Sched<S, T>, j: nat)
    requires WellFormed(s, |parties|) && Names(s.parties) == Names(parties) && Injective(Names(parties))
             && j < |parties|
    requires s.turn < |parties| && s.driving && Step(proto, s).Active?
    requires FaithfulRun(proto, parties, s, j)
    ensures FaithfulRun(proto, parties, Step(proto, s).sched, j)
  {
    PokeShape(proto, s);
    AddressedReaches(proto, Names(parties), s, j);
    var (action, state) := proto.poke(s.parties[s.turn].1).value;
    var poked := if s.turn == j then state else s.parties[j].1;
    EntryFaithful(proto, parties, s, Step(proto, s).sched, Entry(s.round, s.turn, action), poked, j);
  }

  /** After a poke, exactly the parties it is addressed to have received its message, once. */
  lemma AddressedReaches<S, T>(proto: Protocol<S, T>, names: seq<Participant>, s: Sched<S, T>, j: nat)
    requires WellFormed(s, |names|) && Names(s.parties) == names && Injective(names) && j < |names|
    requires s.turn < |names| && s.driving && Step(proto, s).Active?
    ensures var (action, state) := proto.poke(s.parties[s.turn].1).value;
            var poked := s.parties[s.turn := (s.parties[s.turn].0, state)];
            var s' := Step(proto, s).sched;
            |s'.parties| == |names| &&
            if names[j] in ToParties(names, Entry(s.round, s.turn, action))
            then Some(s'.parties[j].1) == proto.message(poked[j].1, names[s.turn], action.message)
            else s'.parties[j] == poked[j]
  {
    var (action, state) := proto.poke(s.parties[s.turn].1).value;
    var poked := s.parties[s.turn := (s.parties[s.turn].0, state)];
    match action
    case SendMany(m) =>
      BroadcastReaches(proto, poked, s.turn, m, |names|);
      OthersExclude(names, s.turn, j);
    case _ =>
  }

  lemma OthersExclude(names: seq<Participant>, i: nat, j: nat)
    requires Injective(names) && i < |names| && j < |names|
    ensures names[j] in names[..i] + names[i + 1..] <==> j != i
  {
  }

  /** In every run with distinct participants, each party's state is what its pokes and exactly the
      messages addressed to it, in the order of the trace, make of its initial state: nothing is
      lost, duplicated, reordered or delivered to its own sender by broadcast. */
  lemma {:induction false} DeliveredAsTraced<S, T>(proto: Protocol<S, T>, parties: Parties<S>, n: nat, j: nat)
    requires Injective(Names(parties)) && j < |parties|
    ensures StatusFaithful(proto, parties, Run(proto, parties, n), j)
  {
    if n == 0 {
      StartFaithful(proto, parties, j);
    } else {
      DeliveredAsTraced(proto, parties, n - 1, j);
      RunIsTidy(proto, parties, n - 1);
      NextStatusFaithful(proto, parties, Run(proto, parties, n - 1), Run(proto, parties, n), j);
    }
  }

  ghost predicate StatusFaithful<S, T>(proto: Protocol<S, T>, parties: Parties<S>, r: Status<S, T>, j: nat) {
    r.Active? || r.Finished? ==> FaithfulRun(proto, parties, r.sched, j)
  }

  lemma NextStatusFaithful<S, T>(proto: Protocol<S, T>, parties: Parties<S>, before: Status<S, T>,
                                 after: Status<S, T>, j: nat)
    requires Injective(Names(parties)) && StatusFaithful(proto, parties, before, j)
    requires before.Active? ==> Tidy(before.sched, Names(parties)) && after == Step(proto, before.sched)
    requires !before.Active? ==> after == before
    ensures StatusFaithful(proto, parties, after, j)
  {
    if before.Active? {
      StepFaithful(proto, parties, before.sched, j);
    }
  }

  lemma StartFaithful<S, T>(proto: Protocol<S, T>, parties: Parties<S>, j: nat)
    requires j < |parties|
    ensures FaithfulRun(proto, parties, Start<S, T>(parties), j)
  {
  }

  lemma StepFaithful<S, T>(proto: Protocol<S, T>, parties: Parties<S>, s: Sched<S, T>, j: nat)
    requires Tidy(s, Names(parties)) && Injective(Names(parties)) && FaithfulRun(proto, parties, s, j)
    ensures var r := Step(proto, s);
            r.Active? || r.Finished? ==> FaithfulRun(proto, parties, r.sched, j)
  {
    StepWellFormed(proto, s, |parties|);
    if s.turn < |parties| && s.driving && Step(proto, s).Active? {
      PokeFaithful(proto, parties, s, j);
    }
  }
}
