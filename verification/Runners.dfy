/** The two runners as written, with nested loops: `run_capturing` of the server records every message
    as an event, `run_instrumented` of the demo keeps counters. `fuel` bounds the scheduler steps,
    since a protocol may wait or talk for ever. */
module Runners {
  import opened Common
  import opened Runner
  import opened RunnerTrace

  datatype ProtocolEvent = ProtocolEvent(
    round: nat, fromParty: Participant, toType: string, toParties: seq<Participant>, bytes: nat,
    description: string, detail: string)

  datatype Stats = Stats(rounds: nat, broadcastCount: nat, privateCount: nat, totalBytes: nat)

  datatype Outcome<T, X> = Completed(out: seq<(Participant, T)>, extra: X) | Failed | Panicked | OutOfFuel

  type Describe = (nat, string) -> (string, string)

  // ---------- what the runners report, as functions of the trace ----------

  function EventOf<T>(names: seq<Participant>, e: Entry<T>, describe: Describe): seq<ProtocolEvent>
    requires e.party < |names|
  {
    match e.action
    case SendMany(m) =>
      var d := describe(e.round, "broadcast");
      [ProtocolEvent(e.round, names[e.party], "broadcast", ToParties(names, e), |m|, d.0, d.1)]
    case SendPrivate(to, m) =>
      var d := describe(e.round, "private");
      [ProtocolEvent(e.round, names[e.party], "private", [to], |m|, d.0, d.1)]
    case _ => []
  }

  ghost predicate Indexed<T>(names: seq<Participant>, log: seq<Entry<T>>) {
    forall a :: 0 <= a < |log| ==> log[a].party < |names|
  }

  function EventsOf<T>(names: seq<Participant>, log: seq<Entry<T>>, describe: Describe): seq<ProtocolEvent>
    requires Indexed(names, log)
  {
    if log == [] then [] else EventsOf(names, log[..|log| - 1], describe) + EventOf(names, log[|log| - 1], describe)
  }

  /** One more recorded event; its bytes count once per recipient. */
  function Plus(s: Stats, e: ProtocolEvent): Stats {
    Stats(s.rounds,
          s.broadcastCount + if e.toType == "broadcast" then 1 else 0,
          s.privateCount + if e.toType == "private" then 1 else 0,
          s.totalBytes + e.bytes * |e.toParties|)
  }

  /** Counters read off recorded events. */
  function StatsOf(rounds: nat, events: seq<ProtocolEvent>): Stats {
    if events == [] then Stats(rounds, 0, 0, 0) else Plus(StatsOf(rounds, events[..|events| - 1]), events[|events| - 1])
  }

  /** One more poke, as the demo counts it. */
  function Counted<T>(stats: Stats, size: nat, action: Action<T>): Stats
    requires size > 0
  {
    match action
    case SendMany(m) => stats.(broadcastCount := stats.broadcastCount + 1,
      totalBytes := stats.totalBytes + |m| * (size - 1))
    case SendPrivate(_, m) => stats.(privateCount := stats.privateCount + 1, totalBytes := stats.totalBytes + |m|)
    case _ => stats
  }

  function CountedAll<T>(rounds: nat, size: nat, log: seq<Entry<T>>): Stats {
    if log == [] || size == 0 then Stats(rounds, 0, 0, 0)
    else Counted(CountedAll(rounds, size, log[..|log| - 1]), size, log[|log| - 1].action)
  }

  // ---------- shared steps ----------

  lemma {:induction false} RunStable<S, T>(proto: Protocol<S, T>, parties: Parties<S>, k: nat, n: nat)
    requires k <= n && !Run(proto, parties, k).Active?
    ensures Run(proto, parties, n) == Run(proto, parties, k)
  {
    if k < n {
      RunStable(proto, parties, k, n - 1);
    }
  }

  method Lookup<S>(parties: Parties<S>) returns (indices: map<Participant, nat>)
    ensures forall p :: IndexOf(parties, p) == if p in indices then Some(indices[p]) else None
  {
    indices := map[];
    for i := 0 to |parties|
      invariant forall p :: IndexOf(parties[..i], p) == if p in indices then Some(indices[p]) else None
    {
      assert parties[..i + 1][..i] == parties[..i];
      indices := indices[parties[i].0 := i];
    }
    assert parties[..|parties|] == parties;
  }

  lemma {:induction false} SameNamesSameIndex<S>(a: Parties<S>, b: Parties<S>, p: Participant)
    requires SameNames(a, b)
    ensures IndexOf(a, p) == IndexOf(b, p)
  {
    if a != [] {
      SameNamesSameIndex(a[..|a| - 1], b[..|b| - 1], p);
    }
  }

  method DeliverToOthers<S, T>(proto: Protocol<S, T>, parties: Parties<S>, i: nat, m: Message)
    returns (r: Option<Parties<S>>)
    requires i < |parties|
    ensures r == Broadcast(proto, parties, i, m, |parties|)
  {
    var ps := parties;
    for j := 0 to |parties|
      invariant Broadcast(proto, parties, i, m, j) == Some(ps)
    {
      if i != j {
        var state := proto.message(ps[j].1, parties[i].0, m);
        if state.None? {
          BroadcastFails(proto, parties, i, m, j + 1, |parties|);
          return None;
        }
        ps := ps[j := (ps[j].0, state.value)];
      }
    }
    r := Some(ps);
  }

  lemma {:induction false} BroadcastFails<S, T>(proto: Protocol<S, T>, parties: Parties<S>, i: nat, m: Message,
                                                j: nat, k: nat)
    requires i < |parties| && j <= k <= |parties| && Broadcast(proto, parties, i, m, j).None?
    ensures Broadcast(proto, parties, i, m, k).None?
  {
    if j < k {
      BroadcastFails(proto, parties, i, m, j, k - 1);
    }
  }

  /** What handling one answer of a party leads to: it goes on, its turn ends, or the run fails. */
  datatype Handled<S, T> = GoesOn(parties: Parties<S>) | TurnEnds | Outputs(output: T) | Fails | Panics

  /** The scheduler after a poke of party `i` that was handled like this. */
  function Handle<S, T>(s: Sched<S, T>, i: nat, action: Action<T>, state: S, h: Handled<S, T>): Status<S, T>
    requires i < |s.parties|
  {
    var s1 := s.(parties := s.parties[i := (s.parties[i].0, state)], log := s.log + [Entry(s.round, i, action)]);
    match h
    case GoesOn(ps) => Active(s1.(parties := ps))
    case TurnEnds => Active(s1.(turn := i + 1, driving := false))
    case Outputs(r) => Active(s1.(out := s.out + [(s.parties[i].0, r)], turn := i + 1, driving := false))
    case Fails => ProtocolError
    case Panics => Panic
  }

  /** One turn of the inner loop after the poke: route the message. */
  method Route<S, T>(proto: Protocol<S, T>, indices: map<Participant, nat>, ghost s: Sched<S, T>, parties: Parties<S>,
                     i: nat, action: Action<T>, state: S)
    returns (h: Handled<S, T>)
    requires s.parties == parties && s.turn == i < |parties| && s.driving
    requires forall p :: IndexOf(parties, p) == if p in indices then Some(indices[p]) else None
    requires proto.poke(parties[i].1) == Some((action, state))
    ensures Step(proto, s) == Handle(s, i, action, state, h)
    ensures h.GoesOn? <==> (action.SendMany? || action.SendPrivate?) && Step(proto, s).Active?
    ensures h.TurnEnds? <==> action.Wait?
    ensures h.Outputs? ==> action == Return(h.output)
    ensures h.GoesOn? ==> SameNames(parties, h.parties)
  {
    var ps := parties[i := (parties[i].0, state)];
    match action
    case Wait => h := TurnEnds;
    case Return(r) => h := Outputs(r);
    case SendMany(m) =>
      var sent := DeliverToOthers(proto, ps, i, m);
      BroadcastKeepsNames(proto, ps, i, m, |ps|);
      h := if sent.None? then Fails else GoesOn(sent.value);
    case SendPrivate(to, m) =>
      SameNamesSameIndex(parties, ps, to);
      if to !in indices { return Panics; }
      var j := indices[to];
      var received := proto.message(ps[j].1, parties[i].0, m);
      h := if received.None? then Fails else GoesOn(ps[j := (ps[j].0, received.value)]);
  }

  /** The scheduler is here after `used` steps. */
  ghost predicate At<S, T>(proto: Protocol<S, T>, parties0: Parties<S>, used: int, s: Sched<S, T>) {
    used >= 0 && Run(proto, parties0, used) == Active(s) && SameNames(parties0, s.parties)
      && Indexed(Names(parties0), s.log)
  }

  lemma Advance<S, T>(proto: Protocol<S, T>, parties0: Parties<S>, used: int, s: Sched<S, T>)
    requires At(proto, parties0, used, s)
    ensures s.turn <= |s.parties| && Run(proto, parties0, used + 1) == Step(proto, s)
    ensures Step(proto, s).Active? ==> At(proto, parties0, used + 1, Step(proto, s).sched)
  {
    StepWellFormed(proto, s, |parties0|);
    StepKeepsNames(proto, s);
    RunIsTidy(proto, parties0, used + 1);
  }

  /** A report of the run after exactly `fuel` steps. */
  ghost function Report<S, T, X>(r: Status<S, T>, extra: X): Outcome<T, X> {
    match r
    case Active(_) => OutOfFuel
    case Finished(s) => Completed(s.out, extra)
    case ProtocolError => Failed
    case Panic => Panicked
  }

  ghost function FinalLog<S, T>(r: Status<S, T>): seq<Entry<T>> {
    if r.Finished? then r.sched.log else []
  }

  lemma EventsAppend<T>(names: seq<Participant>, log: seq<Entry<T>>, e: Entry<T>, describe: Describe)
    requires Indexed(names, log) && e.party < |names|
    ensures Indexed(names, log + [e])
    ensures EventsOf(names, log + [e], describe) == EventsOf(names, log, describe) + EventOf(names, e, describe)
  {
  }

  /** The variables both runners share. */
  datatype Vars<S, T> = Vars(ps: Parties<S>, out: seq<(Participant, T)>, round: nat, fuel: nat)

  /** The variables agree with the scheduler state reached by the fuel used so far. */
  ghost predicate Tracks<S, T>(proto: Protocol<S, T>, parties0: Parties<S>, fuel0: nat, v: Vars<S, T>, s: Sched<S, T>,
                               turn: nat, driving: bool)
  {
    v.fuel <= fuel0 && At(proto, parties0, fuel0 - v.fuel, s) && s == Sched(v.ps, v.out, s.log, v.round, turn, driving)
  }

  ghost predicate Finds<S>(parties0: Parties<S>, indices: map<Participant, nat>) {
    forall p :: IndexOf(parties0, p) == if p in indices then Some(indices[p]) else None
  }

  lemma FindsAlways<S>(parties0: Parties<S>, ps: Parties<S>, indices: map<Participant, nat>)
    requires Finds(parties0, indices) && SameNames(parties0, ps)
    ensures Finds(ps, indices)
  {
    forall p ensures IndexOf(ps, p) == if p in indices then Some(indices[p]) else None {
      SameNamesSameIndex(parties0, ps, p);
    }
  }

  /** How a run that stops inside a turn is reported. */
  datatype Stop = GoOn | StopFailed | StopPanicked | StopFuel

  ghost predicate Stopped<S, T>(proto: Protocol<S, T>, parties0: Parties<S>, fuel0: nat, stop: Stop) {
    match stop
    case GoOn => true
    case StopFailed => Run(proto, parties0, fuel0) == ProtocolError
    case StopPanicked => Run(proto, parties0, fuel0) == Panic
    case StopFuel => Run(proto, parties0, fuel0).Active?
  }

  /** The variables after a poke that did not end the run. */
  function AfterPoke<S, T>(v: Vars<S, T>, i: nat, state: S, h: Handled<S, T>): Vars<S, T>
    requires i < |v.ps| && v.fuel > 0 && !h.Fails? && !h.Panics?
  {
    v.(fuel := v.fuel - 1,
       ps := if h.GoesOn? then h.parties else v.ps[i := (v.ps[i].0, state)],
       out := if h.Outputs? then v.out + [(v.ps[i].0, h.output)] else v.out)
  }

  lemma PokeTracks<S, T>(proto: Protocol<S, T>, parties0: Parties<S>, fuel0: nat, v: Vars<S, T>, s: Sched<S, T>, i: nat,
                         action: Action<T>, state: S, h: Handled<S, T>)
    requires Tracks(proto, parties0, fuel0, v, s, i, true) && i < |v.ps| && v.fuel > 0 && !h.Fails? && !h.Panics?
    requires s.turn <= |s.parties| && Step(proto, s) == Handle(s, i, action, state, h)
    requires At(proto, parties0, fuel0 - v.fuel + 1, Step(proto, s).sched)
    ensures Step(proto, s).sched.log == s.log + [Entry(v.round, i, action)]
    ensures Tracks(proto, parties0, fuel0, AfterPoke(v, i, state, h), Step(proto, s).sched,
                   if h.GoesOn? then i else i + 1, h.GoesOn?)
  {
  }

  /** One poke of party `i` and what follows from it; `driving` says whether its turn goes on. */
  method Poke<S, T>(proto: Protocol<S, T>, ghost parties0: Parties<S>, indices: map<Participant, nat>, ghost fuel0: nat,
                       v: Vars<S, T>, ghost s: Sched<S, T>, i: nat)
    returns (stop: Stop, action: Option<Action<T>>, v': Vars<S, T>, ghost s': Sched<S, T>, driving: bool)
    requires Finds(parties0, indices) && i < |parties0| && Tracks(proto, parties0, fuel0, v, s, i, true)
    ensures Stopped(proto, parties0, fuel0, stop)
    ensures stop.GoOn? ==>
              && action.Some? && v'.round == v.round && v'.fuel == v.fuel - 1
              && s'.log == s.log + [Entry(v.round, i, action.value)]
              && Tracks(proto, parties0, fuel0, v', s', if driving then i else i + 1, driving)
  {
    action, v', s', driving := None, v, s, false;
    if v.fuel == 0 { return StopFuel, action, v', s', driving; }
    var used: nat := fuel0 - v.fuel;
    Advance(proto, parties0, used, s);
    var poked := proto.poke(v.ps[i].1);
    if poked.None? {
      RunStable(proto, parties0, used + 1, fuel0);
      return StopFailed, action, v', s', driving;
    }
    FindsAlways(parties0, v.ps, indices);
    var h := Route(proto, indices, s, v.ps, i, poked.value.0, poked.value.1);
    if h.Fails? || h.Panics? {
      RunStable(proto, parties0, used + 1, fuel0);
      return if h.Fails? then StopFailed else StopPanicked, action, v', s', driving;
    }
    PokeTracks(proto, parties0, fuel0, v, s, i, poked.value.0, poked.value.1, h);
    stop, action, driving := GoOn, Some(poked.value.0), h.GoesOn?;
    s' := Step(proto, s).sched;
    v' := AfterPoke(v, i, poked.value.1, h);
  }

  /** The head of the outer loop: not everybody is done, so a round begins. */
  method NextRound<S, T>(ghost proto: Protocol<S, T>, ghost parties0: Parties<S>, ghost fuel0: nat, v: Vars<S, T>,
                         ghost s: Sched<S, T>)
    returns (stop: Stop, v': Vars<S, T>, ghost s': Sched<S, T>)
    requires Tracks(proto, parties0, fuel0, v, s, |parties0|, false) && |v.out| < |parties0|
    ensures Stopped(proto, parties0, fuel0, stop)
    ensures stop.GoOn? ==> v'.fuel < v.fuel && s'.log == s.log && Tracks(proto, parties0, fuel0, v', s', 0, false)
  {
    v', s' := v, s;
    if v.fuel == 0 { return StopFuel, v', s'; }
    Advance(proto, parties0, fuel0 - v.fuel, s);
    stop, v', s' := GoOn, v.(fuel := v.fuel - 1, round := v.round + 1), Step(proto, s).sched;
  }

  /** The head of the round's loop: a party that has returned is passed over. */
  method LookAt<S, T>(ghost proto: Protocol<S, T>, ghost parties0: Parties<S>, ghost fuel0: nat, v: Vars<S, T>,
                      ghost s: Sched<S, T>, i: nat)
    returns (stop: Stop, done: bool, v': Vars<S, T>, ghost s': Sched<S, T>)
    requires Tracks(proto, parties0, fuel0, v, s, i, false) && i < |parties0|
    ensures Stopped(proto, parties0, fuel0, stop)
    ensures stop.GoOn? ==>
            v'.fuel < v.fuel && s'.log == s.log
            && Tracks(proto, parties0, fuel0, v', s', if done then i + 1 else i, !done)
  {
    done, v', s' := false, v, s;
    if v.fuel == 0 { return StopFuel, done, v', s'; }
    Advance(proto, parties0, fuel0 - v.fuel, s);
    stop, done, v', s' := GoOn, Returned(v.out, v.ps[i].0), v.(fuel := v.fuel - 1), Step(proto, s).sched;
  }

  /** Everybody is done: the run is over, unless the fuel ran out just then. */
  method LastStep<S, T>(ghost proto: Protocol<S, T>, ghost parties0: Parties<S>, ghost fuel0: nat, v: Vars<S, T>,
                        ghost s: Sched<S, T>)
    returns (done: bool)
    requires Tracks(proto, parties0, fuel0, v, s, |parties0|, false) && |v.out| >= |parties0|
    ensures Run(proto, parties0, fuel0) == if done then Finished(s) else Active(s)
  {
    done := v.fuel > 0;
    if done {
      Advance(proto, parties0, fuel0 - v.fuel, s);
      RunStable(proto, parties0, fuel0 - v.fuel + 1, fuel0);
    }
  }

  // ---------- run_capturing ----------

  ghost predicate Captures<T>(names: seq<Participant>, log: seq<Entry<T>>, describe: Describe,
                              events: seq<ProtocolEvent>)
  {
    Indexed(names, log) && events == EventsOf(names, log, describe)
  }

  /** The innermost loop: drives party `i` until it waits or finishes. */
  method DriveCapturing<S, T>(proto: Protocol<S, T>, parties0: Parties<S>, indices: map<Participant, nat>,
                              describe: Describe, ghost fuel0: nat,
                              v0: Vars<S, T>, events0: seq<ProtocolEvent>, ghost s0: Sched<S, T>, i: nat)
    returns (stop: Stop, v: Vars<S, T>, events: seq<ProtocolEvent>, ghost s: Sched<S, T>)
    requires Finds(parties0, indices) && i < |parties0| && Tracks(proto, parties0, fuel0, v0, s0, i, true)
    requires Captures(Names(parties0), s0.log, describe, events0)
    ensures Stopped(proto, parties0, fuel0, stop)
    ensures stop.GoOn? ==>
              && v.fuel < v0.fuel && v.round == v0.round
              && Tracks(proto, parties0, fuel0, v, s, i + 1, false)
                 && Captures(Names(parties0), s.log, describe, events)
  {
    var names := Names(parties0);
    v, events, s := v0, events0, s0;
    var driving := true;
    while driving
      invariant v.round == v0.round && v.fuel <= v0.fuel && (!driving ==> v.fuel < v0.fuel)
      invariant Tracks(proto, parties0, fuel0, v, s, if driving then i else i + 1, driving)
      invariant Captures(names, s.log, describe, events)
      decreases v.fuel, driving
    {
      var action;
      ghost var log := s.log;
      stop, action, v, s, driving := Poke(proto, parties0, indices, fuel0, v, s, i);
      if !stop.GoOn? { return; }
      EventsAppend(names, log, Entry(v.round, i, action.value), describe);
      match action.value {
        case SendMany(m) =>
          var toParties := names[..i] + names[i + 1..];
          var d := describe(v.round, "broadcast");
          events := events + [ProtocolEvent(v.round, names[i], "broadcast", toParties, |m|, d.0, d.1)];
        case SendPrivate(to, m) =>
          var d := describe(v.round, "private");
          events := events + [ProtocolEvent(v.round, names[i], "private", [to], |m|, d.0, d.1)];
        case _ =>
      }
    }
    stop := GoOn;
  }

  /** Party `i`'s turn, unless it has returned. */
  method TurnCapturing<S, T>(proto: Protocol<S, T>, parties0: Parties<S>, indices: map<Participant, nat>,
                             describe: Describe, ghost fuel0: nat,
                             v0: Vars<S, T>, events0: seq<ProtocolEvent>, ghost s0: Sched<S, T>, i: nat)
    returns (stop: Stop, v: Vars<S, T>, events: seq<ProtocolEvent>, ghost s: Sched<S, T>)
    requires Finds(parties0, indices) && i < |parties0| && Tracks(proto, parties0, fuel0, v0, s0, i, false)
    requires Captures(Names(parties0), s0.log, describe, events0)
    ensures Stopped(proto, parties0, fuel0, stop)
    ensures stop.GoOn? ==>
              && v.fuel < v0.fuel
              && Tracks(proto, parties0, fuel0, v, s, i + 1, false)
                 && Captures(Names(parties0), s.log, describe, events)
  {
    var done;
    events := events0;
    stop, done, v, s := LookAt(proto, parties0, fuel0, v0, s0, i);
    if stop.GoOn? && !done {
      stop, v, events, s := DriveCapturing(proto, parties0, indices, describe, fuel0, v, events, s, i);
    }
  }

  /** One round: every party that has not returned gets its turn. */
  method RoundCapturing<S, T>(proto: Protocol<S, T>, parties0: Parties<S>, indices: map<Participant, nat>,
                              describe: Describe, ghost fuel0: nat,
                              v0: Vars<S, T>, events0: seq<ProtocolEvent>, ghost s0: Sched<S, T>)
    returns (stop: Stop, v: Vars<S, T>, events: seq<ProtocolEvent>, ghost s: Sched<S, T>)
    requires Finds(parties0, indices) && Tracks(proto, parties0, fuel0, v0, s0, |parties0|, false)
             && |v0.out| < |parties0|
    requires Captures(Names(parties0), s0.log, describe, events0)
    ensures Stopped(proto, parties0, fuel0, stop)
    ensures stop.GoOn? ==>
              && v.fuel < v0.fuel
              && Tracks(proto, parties0, fuel0, v, s, |parties0|, false)
                 && Captures(Names(parties0), s.log, describe, events)
  {
    events := events0;
    stop, v, s := NextRound(proto, parties0, fuel0, v0, s0);
    if !stop.GoOn? { return; }
    for i := 0 to |parties0|
      invariant stop.GoOn? && v.fuel < v0.fuel
      invariant Tracks(proto, parties0, fuel0, v, s, i, false) && Captures(Names(parties0), s.log, describe, events)
    {
      stop, v, events, s := TurnCapturing(proto, parties0, indices, describe, fuel0, v, events, s, i);
      if !stop.GoOn? { return; }
    }
  }

  /** `run_capturing`: the outputs, and the events the trace contains. */
  method RunCapturing<S, T>(proto: Protocol<S, T>, parties0: Parties<S>, describe: Describe, fuel0: nat)
    returns (r: Outcome<T, seq<ProtocolEvent>>)
    ensures var status := Run(proto, parties0, fuel0);
            && Indexed(Names(parties0), FinalLog(status))
            && r == Report(status, EventsOf(Names(parties0), FinalLog(status), describe))
  {
    RunIsTidy(proto, parties0, fuel0);
    var indices := Lookup(parties0);
    var v: Vars<S, T>, events: seq<ProtocolEvent> := Vars(parties0, [], 0, fuel0), [];
    ghost var s: Sched<S, T> := Start(parties0);
    while |v.out| < |parties0|
      invariant Tracks(proto, parties0, fuel0, v, s, |parties0|, false)
                && Captures(Names(parties0), s.log, describe, events)
      decreases v.fuel
    {
      var stop;
      stop, v, events, s := RoundCapturing(proto, parties0, indices, describe, fuel0, v, events, s);
      if !stop.GoOn? { return StopReport(stop); }
    }
    var done := LastStep(proto, parties0, fuel0, v, s);
    r := if done then Completed(v.out, events) else OutOfFuel;
  }

  function StopReport<T, X>(stop: Stop): Outcome<T, X> {
    match stop
    case StopFailed => Failed
    case StopPanicked => Panicked
    case _ => OutOfFuel
  }

  // ---------- run_instrumented ----------

  /** The counters of the messages so far; `rounds` is filled in at the end of each round. */
  ghost predicate Counts<T>(size: nat, log: seq<Entry<T>>, stats: Stats) {
    stats == CountedAll(stats.rounds, size, log)
  }

  lemma {:induction false} RoundsKept<T>(rounds: nat, size: nat, log: seq<Entry<T>>)
    ensures CountedAll(rounds, size, log).rounds == rounds
  {
    if log != [] && size > 0 {
      RoundsKept(rounds, size, log[..|log| - 1]);
    }
  }

  lemma CountOneMore<T>(size: nat, log: seq<Entry<T>>, stats: Stats, e: Entry<T>)
    requires Counts(size, log, stats) && size > 0
    ensures Counts(size, log + [e], Counted(stats, size, e.action))
  {
  }

  method DriveInstrumented<S, T>(proto: Protocol<S, T>, parties0: Parties<S>, indices: map<Participant, nat>,
                                 ghost fuel0: nat,
                                 v0: Vars<S, T>, stats0: Stats, ghost s0: Sched<S, T>, i: nat)
    returns (stop: Stop, v: Vars<S, T>, stats: Stats, ghost s: Sched<S, T>)
    requires Finds(parties0, indices) && i < |parties0| && Tracks(proto, parties0, fuel0, v0, s0, i, true)
    requires Counts(|parties0|, s0.log, stats0)
    ensures Stopped(proto, parties0, fuel0, stop)
    ensures stop.GoOn? ==>
              && v.fuel < v0.fuel && v.round == v0.round
              && Tracks(proto, parties0, fuel0, v, s, i + 1, false) && Counts(|parties0|, s.log, stats)
  {
    v, stats, s := v0, stats0, s0;
    var driving := true;
    while driving
      invariant v.round == v0.round && v.fuel <= v0.fuel && (!driving ==> v.fuel < v0.fuel)
      invariant Tracks(proto, parties0, fuel0, v, s, if driving then i else i + 1, driving)
      invariant Counts(|parties0|, s.log, stats)
      decreases v.fuel, driving
    {
      var action;
      ghost var log := s.log;
      stop, action, v, s, driving := Poke(proto, parties0, indices, fuel0, v, s, i);
      if !stop.GoOn? { return; }
      CountOneMore(|parties0|, log, stats, Entry(v.round, i, action.value));
      stats := Counted(stats, |parties0|, action.value);
    }
    stop := GoOn;
  }

  method TurnInstrumented<S, T>(proto: Protocol<S, T>, parties0: Parties<S>, indices: map<Participant, nat>,
                                ghost fuel0: nat,
                                v0: Vars<S, T>, stats0: Stats, ghost s0: Sched<S, T>, i: nat)
    returns (stop: Stop, v: Vars<S, T>, stats: Stats, ghost s: Sched<S, T>)
    requires Finds(parties0, indices) && i < |parties0| && Tracks(proto, parties0, fuel0, v0, s0, i, false)
    requires Counts(|parties0|, s0.log, stats0)
    ensures Stopped(proto, parties0, fuel0, stop)
    ensures stop.GoOn? ==>
              && v.fuel < v0.fuel
              && Tracks(proto, parties0, fuel0, v, s, i + 1, false) && Counts(|parties0|, s.log, stats)
  {
    var done;
    stats := stats0;
    stop, done, v, s := LookAt(proto, parties0, fuel0, v0, s0, i);
    if stop.GoOn? && !done {
      stop, v, stats, s := DriveInstrumented(proto, parties0, indices, fuel0, v, stats, s, i);
    }
  }

  method RoundInstrumented<S, T>(proto: Protocol<S, T>, parties0: Parties<S>, indices: map<Participant, nat>,
                                 ghost fuel0: nat,
                                 v0: Vars<S, T>, stats0: Stats, ghost s0: Sched<S, T>)
    returns (stop: Stop, v: Vars<S, T>, stats: Stats, ghost s: Sched<S, T>)
    requires Finds(parties0, indices) && Tracks(proto, parties0, fuel0, v0, s0, |parties0|, false)
             && |v0.out| < |parties0|
    requires Counts(|parties0|, s0.log, stats0)
    ensures Stopped(proto, parties0, fuel0, stop)
    ensures stop.GoOn? ==>
              && v.fuel < v0.fuel && stats.rounds == v.round
              && Tracks(proto, parties0, fuel0, v, s, |parties0|, false) && Counts(|parties0|, s.log, stats)
  {
    stats := stats0;
    stop, v, s := NextRound(proto, parties0, fuel0, v0, s0);
    if !stop.GoOn? { return; }
    for i := 0 to |parties0|
      invariant stop.GoOn? && v.fuel < v0.fuel
      invariant Tracks(proto, parties0, fuel0, v, s, i, false) && Counts(|parties0|, s.log, stats)
    {
      stop, v, stats, s := TurnInstrumented(proto, parties0, indices, fuel0, v, stats, s, i);
      if !stop.GoOn? { return; }
    }
    RoundsOnly(v.round, stats.rounds, |parties0|, s.log);
    stats := stats.(rounds := v.round);
  }

  lemma {:induction false} RoundsOnly<T>(a: nat, b: nat, size: nat, log: seq<Entry<T>>)
    ensures CountedAll(a, size, log) == CountedAll(b, size, log).(rounds := a)
  {
    if log != [] && size > 0 {
      RoundsOnly(a, b, size, log[..|log| - 1]);
    }
  }

  /** `run_instrumented`: the same outputs, and counters over the trace. */
  method RunInstrumented<S, T>(proto: Protocol<S, T>, parties0: Parties<S>, fuel0: nat)
    returns (r: Outcome<T, Stats>)
    ensures var status := Run(proto, parties0, fuel0);
            r == Report(status, CountedAll(if status.Finished? then status.sched.round else 0, |parties0|,
                                           FinalLog(status)))
  {
    RunIsTidy(proto, parties0, fuel0);
    var indices := Lookup(parties0);
    var v: Vars<S, T>, stats := Vars(parties0, [], 0, fuel0), Stats(0, 0, 0, 0);
    ghost var s: Sched<S, T> := Start(parties0);
    while |v.out| < |parties0|
      invariant Tracks(proto, parties0, fuel0, v, s, |parties0|, false) && Counts(|parties0|, s.log, stats)
      invariant stats.rounds == v.round
      decreases v.fuel
    {
      var stop;
      stop, v, stats, s := RoundInstrumented(proto, parties0, indices, fuel0, v, stats, s);
      if !stop.GoOn? { return StopReport(stop); }
    }
    var done := LastStep(proto, parties0, fuel0, v, s);
    r := if done then Completed(v.out, stats) else OutOfFuel;
  }

  // ---------- the two runners are one scheduler ----------

  lemma StatsAppend(rounds: nat, events: seq<ProtocolEvent>, e: ProtocolEvent)
    ensures StatsOf(rounds, events + [e]) == Plus(StatsOf(rounds, events), e)
  {
  }

  lemma EventCounts<T>(stats: Stats, names: seq<Participant>, e: Entry<T>, describe: Describe)
    requires e.party < |names|
    ensures var ev := EventOf(names, e, describe);
            Counted(stats, |names|, e.action) == if ev == [] then stats else Plus(stats, ev[0])
    ensures |EventOf(names, e, describe)| <= 1
  {
  }

  /** Counting pokes gives what reading the recorded events gives, however these are labelled. */
  lemma {:induction false} CountersAreFold<T>(rounds: nat, names: seq<Participant>, log: seq<Entry<T>>,
                                              describe: Describe)
    requires Indexed(names, log)
    ensures CountedAll(rounds, |names|, log) == StatsOf(rounds, EventsOf(names, log, describe))
  {
    if log != [] {
      var before, e := log[..|log| - 1], log[|log| - 1];
      CountersAreFold(rounds, names, before, describe);
      var events, ev := EventsOf(names, before, describe), EventOf(names, e, describe);
      EventCounts(CountedAll(rounds, |names|, before), names, e, describe);
      assert EventsOf(names, log, describe) == events + ev;
      if ev == [] {
        assert events + ev == events;
      } else {
        assert ev == [ev[0]];
        StatsAppend(rounds, events, ev[0]);
      }
    }
  }

  /** On the same protocol, parties and fuel both runners end the same way with the same outputs, and
      the counters of one are the fold of the events of the other. */
  method RunBoth<S, T>(proto: Protocol<S, T>, parties0: Parties<S>, describe: Describe, fuel0: nat)
    returns (captured: Outcome<T, seq<ProtocolEvent>>, counted: Outcome<T, Stats>)
    ensures captured.Completed? <==> counted.Completed?
    ensures captured.Failed? <==> counted.Failed?
    ensures captured.Panicked? <==> counted.Panicked?
    ensures captured.Completed? ==>
              captured.out == counted.out && counted.extra == StatsOf(counted.extra.rounds, captured.extra)
  {
    captured := RunCapturing(proto, parties0, describe, fuel0);
    counted := RunInstrumented(proto, parties0, fuel0);
    ghost var status := Run(proto, parties0, fuel0);
    CountersAreFold(if status.Finished? then status.sched.round else 0, Names(parties0), FinalLog(status), describe);
    RoundsKept(if status.Finished? then status.sched.round else 0, |parties0|, FinalLog(status));
  }
}
