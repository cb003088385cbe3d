/** The in-process runner of protocol participants (mpc-server/src/protocol.rs and
    mpc-demo-cli/src/protocol.rs): a round-robin scheduler that drives each party until it waits or
    finishes and routes its messages. Here it is one small-step machine; the two nested-loop runners
    are proved equal to it in module Runners. */
module Runner {
  import opened Common

  type Participant = nat
  type Message = seq<byte>

  datatype Action<T> = Wait | SendMany(message: Message) | SendPrivate(to: Participant, message: Message)
    | Return(output: T)

  /** A protocol implementation: both calls may fail (`None`). */
  datatype Protocol<!S, !T> = Protocol(
    poke: S -> Option<(Action<T>, S)>,
    message: (S, Participant, Message) -> Option<S>)

  type Parties<S> = seq<(Participant, S)>

  /** A poke: in which round, of which party, and what it answered. */
  datatype Entry<T> = Entry(round: nat, party: nat, action: Action<T>)

  /** `turn` is the party looked at; at the number of parties the round is over. `driving` says that
      the inner loop is on that party. */
  datatype Sched<S, T> = Sched(
    parties: Parties<S>, out: seq<(Participant, T)>, log: seq<Entry<T>>, round: nat, turn: nat, driving: bool)

  datatype Status<S, T> = Active(sched: Sched<S, T>) | Finished(sched: Sched<S, T>) | ProtocolError | Panic

  predicate Returned<T>(out: seq<(Participant, T)>, p: Participant) {
    exists i :: 0 <= i < |out| && out[i].0 == p
  }

  /** The index a participant is looked up under; the last one, should it appear twice. */
  function IndexOf<S>(parties: Parties<S>, p: Participant): (r: Option<nat>)
    ensures r.Some? ==> r.value < |parties| && parties[r.value].0 == p
    ensures r.None? ==> forall i :: 0 <= i < |parties| ==> parties[i].0 != p
  {
    if parties == [] then None
    else if parties[|parties| - 1].0 == p then Some(|parties| - 1)
    else IndexOf(parties[..|parties| - 1], p)
  }

  function Deliver<S, T>(proto: Protocol<S, T>, parties: Parties<S>, j: nat, from: Participant,
                         m: Message): Option<Parties<S>>
    requires j < |parties|
  {
    match proto.message(parties[j].1, from, m)
    case None => None
    case Some(state) => Some(parties[j := (parties[j].0, state)])
  }

  /** Delivers to every party below `j` except the sender. */
  function Broadcast<S, T>(proto: Protocol<S, T>, parties: Parties<S>, i: nat, m: Message,
                           j: nat): (r: Option<Parties<S>>)
    requires i < |parties| && j <= |parties|
    ensures r.Some? ==> |r.value| == |parties|
  {
    if j == 0 then Some(parties)
    else
      match Broadcast(proto, parties, i, m, j - 1)
      case None => None
      case Some(ps) => if j - 1 == i then Some(ps) else Deliver(proto, ps, j - 1, parties[i].0, m)
  }

  function Step<S, T>(proto: Protocol<S, T>, s: Sched<S, T>): Status<S, T>
    requires s.turn <= |s.parties|
  {
    var size := |s.parties|;
    if s.turn == size then
      if |s.out| < size then Active(s.(round := s.round + 1, turn := 0)) else Finished(s)
    else if !s.driving then
      if Returned(s.out, s.parties[s.turn].0) then Active(s.(turn := s.turn + 1)) else Active(s.(driving := true))
    else
      match proto.poke(s.parties[s.turn].1)
      case None => ProtocolError
      case Some((action, state)) =>
        var (i, me) := (s.turn, s.parties[s.turn].0);
        var s1 := s.(parties := s.parties[i := (me, state)], log := s.log + [Entry(s.round, i, action)]);
        match action
        case Wait => Active(s1.(turn := i + 1, driving := false))
        case Return(r) => Active(s1.(out := s.out + [(me, r)], turn := i + 1, driving := false))
        case SendMany(m) =>
          (match Broadcast(proto, s1.parties, i, m, size)
           case None => ProtocolError
           case Some(ps) => Active(s1.(parties := ps)))
        case SendPrivate(to, m) =>
          var j := IndexOf(s1.parties, to);
          if j.None? then Panic
          else
            match Deliver(proto, s1.parties, j.value, me, m)
            case None => ProtocolError
            case Some(ps) => Active(s1.(parties := ps))
  }

  /** Before the first round. */
  function Start<S, T>(parties: Parties<S>): Sched<S, T> {
    Sched(parties, [], [], 0, |parties|, false)
  }

  ghost predicate WellFormed<S, T>(s: Sched<S, T>, size: nat) {
    |s.parties| == size && s.turn <= size && (s.driving ==> s.turn < size)
  }

  lemma StepWellFormed<S, T>(proto: Protocol<S, T>, s: Sched<S, T>, size: nat)
    requires WellFormed(s, size)
    ensures Step(proto, s).Active? ==> WellFormed(Step(proto, s).sched, size)
    ensures Step(proto, s).Finished? ==> Step(proto, s).sched == s
  {
  }

  /** Where `n` steps lead. */
  function Run<S, T>(proto: Protocol<S, T>, parties: Parties<S>, n: nat): (r: Status<S, T>)
    ensures r.Active? || r.Finished? ==> WellFormed(r.sched, |parties|)
  {
    if n == 0 then Active(Start(parties))
    else
      var before := Run(proto, parties, n - 1);
      if before.Active? then
        StepWellFormed(proto, before.sched, |parties|);
        Step(proto, before.sched)
      else before
  }

  // ---------- what never changes ----------

  ghost predicate SameNames<S>(a: Parties<S>, b: Parties<S>) {
    |a| == |b| && forall i :: 0 <= i < |a| ==> a[i].0 == b[i].0
  }

  lemma {:induction false} BroadcastKeepsNames<S, T>(proto: Protocol<S, T>, parties: Parties<S>, i: nat, m: Message,
                                                     j: nat)
    requires i < |parties| && j <= |parties|
    ensures var r := Broadcast(proto, parties, i, m, j);
            r.Some? ==> SameNames(parties, r.value)
  {
    if j > 0 {
      BroadcastKeepsNames(proto, parties, i, m, j - 1);
    }
  }

  lemma StepKeepsNames<S, T>(proto: Protocol<S, T>, s: Sched<S, T>)
    requires WellFormed(s, |s.parties|)
    ensures Step(proto, s).Active? ==> SameNames(s.parties, Step(proto, s).sched.parties)
  {
    if s.turn < |s.parties| && s.driving {
      match proto.poke(s.parties[s.turn].1)
      case None =>
      case Some((action, state)) =>
        if action.SendMany? {
          BroadcastKeepsNames(proto, s.parties[s.turn := (s.parties[s.turn].0, state)], s.turn, action.message,
            |s.parties|);
        }
    }
  }

  lemma {:induction false} RunKeepsNames<S, T>(proto: Protocol<S, T>, parties: Parties<S>, n: nat)
    ensures var r := Run(proto, parties, n);
            r.Active? || r.Finished? ==> SameNames(parties, r.sched.parties)
  {
    if n > 0 {
      RunKeepsNames(proto, parties, n - 1);
      var before := Run(proto, parties, n - 1);
      if before.Active? {
        StepKeepsNames(proto, before.sched);
      }
    }
  }
}
