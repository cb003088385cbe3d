/** The funding allocator over every run of its loop: conservation, order, the reserve, and a bound on its
    turns. */
module FundingRuns {
  import opened Common
  import opened Funding

  /** What was asked for: the request list, the needs computed for it, and the balances then. */
  datatype Job = Job(desired: seq<AccountToFund>, needs: seq<nat>, start: Ledger)

  // ---------- the invariant ----------

  /** Whoever paid anything still holds the reserve. */
  ghost predicate FundersKeepReserve(s: State) {
    forall i :: 0 <= i < |s.log| && s.log[i].amount > 0 ==> Balance(s.ledger, s.log[i].from) >= RESERVE
  }

  /** Every balance is what it was, or was granted, plus what came in minus what went out. */
  ghost predicate Booked(job: Job, s: State) {
    forall a :: Balance(s.ledger, a) + Flow(s.log, From(a)) == Balance(job.start + s.granted, a) + Flow(s.log, To(a))
  }

  /** An account that can answer a request: the one named, or one that did not exist at the start. */
  predicate Answers(job: Job, request: AccountToFund, a: AccountId) {
    match request
    case NewAccount(_, _) => a !in job.start
    case ExistingAccount(id, _, _) => a == id
  }

  /** Requests already answered got exactly their need. */
  ghost predicate Finished(job: Job, s: State)
    requires |s.funded| <= |job.desired| == |job.needs|
  {
    forall i :: 0 <= i < |s.funded| ==>
      Answers(job, job.desired[i], s.funded[i]) && Flow(s.log, Slot(i)) == job.needs[i]
  }

  /** The request being answered got all but what its queue entry says. */
  ghost predicate FrontOwed(job: Job, s: State)
    requires |s.funded| + |s.todo| == |job.desired| == |job.needs|
  {
    s.todo != [] ==>
      var n := |s.funded|;
      && Flow(s.log, Slot(n)) + s.todo[0].1 == job.needs[n]
      && (s.todo[0].0 == job.desired[n]
          || (s.todo[0].0.ExistingAccount? && Answers(job, job.desired[n], s.todo[0].0.account)))
  }

  /** The requests after it wait untouched. */
  ghost predicate RestWaits(job: Job, s: State)
    requires |s.funded| + |s.todo| == |job.desired| == |job.needs|
  {
    var n := |s.funded|;
    && (forall j :: 1 <= j < |s.todo| ==> s.todo[j] == (job.desired[n + j], job.needs[n + j]))
    && (forall i :: 0 <= i < |s.log| ==> s.log[i].slot <= n)
  }

  ghost predicate InOrder(job: Job, s: State) {
    && |s.funded| + |s.todo| == |job.desired| == |job.needs|
    && Finished(job, s) && FrontOwed(job, s) && RestWaits(job, s)
  }

  /** Money sent plus money still owed is what was asked for. */
  ghost predicate Balanced(job: Job, s: State) {
    Flow(s.log, Any) + Total(s.todo) == Sum(job.needs)
  }

  /** Accounts in the books are on chain. */
  ghost predicate OnChain(job: Job, s: State) {
    && job.start.Keys + s.granted.Keys <= s.ledger.Keys
    && job.start.Keys !! s.granted.Keys
    && forall i :: 0 <= i < |s.log| ==> s.log[i].from in s.ledger && s.log[i].to in s.ledger
  }

  /** Answers found so far, with the account of a request that is only partly paid. */
  function Reached(s: State): seq<AccountId> {
    s.funded + if s.todo != [] && s.todo[0].0.ExistingAccount? then [s.todo[0].0.account] else []
  }

  /** Two requests for new accounts never share one. */
  ghost predicate NewOnesDistinct(job: Job, s: State) {
    var reached := Reached(s);
    && |reached| <= |job.desired|
    && (forall i :: 0 <= i < |reached| && job.desired[i].NewAccount? ==> reached[i] in s.ledger)
    && (forall i, j :: 0 <= i < j < |reached| && job.desired[i].NewAccount? && job.desired[j].NewAccount? ==>
       reached[i] != reached[j])
  }

  /** What was sent for a request went to the account that answers it. */
  ghost predicate Addressed(s: State) {
    forall i :: 0 <= i < |s.log| ==> s.log[i].slot < |Reached(s)| && s.log[i].to == Reached(s)[s.log[i].slot]
  }

  ghost predicate Sound(job: Job, s: State) {
    && SourcesCovered(s) && FundersKeepReserve(s) && Booked(job, s) && InOrder(job, s)
    && OnChain(job, s) && Balanced(job, s) && NewOnesDistinct(job, s) && Addressed(s)
  }

  lemma {:induction false} LaterSlotsEmpty(log: seq<Transfer>, n: nat, slot: nat)
    requires n < slot && forall i :: 0 <= i < |log| ==> log[i].slot <= n
    ensures Flow(log, Slot(slot)) == 0
  {
    if log != [] {
      LaterSlotsEmpty(log[..|log| - 1], n, slot);
    }
  }

  lemma {:induction false} StrangersHaveNoFlow(log: seq<Transfer>, ledger: Ledger, a: AccountId)
    requires a !in ledger && forall i :: 0 <= i < |log| ==> log[i].from in ledger && log[i].to in ledger
    ensures Flow(log, From(a)) == 0 && Flow(log, To(a)) == 0
  {
    if log != [] {
      StrangersHaveNoFlow(log[..|log| - 1], ledger, a);
    }
  }

  // ---------- one turn keeps it ----------

  ghost predicate CanPay(s: State) {
    SourcesCovered(s) && s.sources != [] && s.todo != [] && s.sources[0].1 >= RESERVE
  }

  lemma GrantKeepsBooks(job: Job, s: State, a: AccountId, grant: nat)
    requires Booked(job, s) && OnChain(job, s) && FundersKeepReserve(s) && a !in s.ledger
    ensures var r := s.(ledger := s.ledger[a := grant], granted := s.granted[a := grant]);
            Booked(job, r) && OnChain(job, r) && FundersKeepReserve(r)
  {
  }

  lemma RefillKeepsSound(job: Job, provided: Option<AccountId>, s: State, inp: Input)
    requires Sound(job, s) && FreshInput(s, inp)
    ensures var r := Refilled(provided, s, inp);
            Sound(job, r) && inp.name !in r.ledger
  {
    RefillCovers(provided, s, inp);
    if s.sources == [] && provided.None? {
      GrantKeepsBooks(job, s, inp.faucet, inp.faucetBalance);
    }
  }

  lemma PaymentKeepsReserve(s: State, name: AccountId)
    requires CanPay(s) && FundersKeepReserve(s)
    ensures FundersKeepReserve(Paid(s, name))
  {
  }

  lemma PaymentKeepsBooks(job: Job, s: State, name: AccountId)
    requires CanPay(s) && Booked(job, s) && OnChain(job, s)
    ensures Booked(job, Paid(s, name)) && OnChain(job, Paid(s, name))
  {
    var s' := Paid(s, name);
    if s'.log != s.log {
      var t := s'.log[|s.log|];
      assert s'.log == s.log + [t];
      forall a
        ensures Balance(s'.ledger, a) + Flow(s'.log, From(a)) ==
                Balance(job.start + s'.granted, a) + Flow(s'.log, To(a))
      {
        FlowAppend(s.log, t, From(a));
        FlowAppend(s.log, t, To(a));
        assert Balance(s.ledger, a) + Flow(s.log, From(a)) == Balance(job.start + s.granted, a) + Flow(s.log, To(a));
      }
    }
  }

  lemma TotalAfterPayment(s: State, name: AccountId)
    requires CanPay(s)
    ensures Total(s.todo) == Total(Paid(s, name).todo) + Min(s.sources[0].1, s.todo[0].1)
  {
    if s.todo[0].1 > s.sources[0].1 {
      PartialShape(s, name);
      assert Paid(s, name).todo[1..] == s.todo[1..];
    } else {
      FullShape(s, name);
    }
  }

  lemma PaymentKeepsBalance(job: Job, s: State, name: AccountId)
    requires CanPay(s) && Balanced(job, s)
    ensures Balanced(job, Paid(s, name))
  {
    var t := PaidLog(s, name);
    FlowAppend(s.log, t, Any);
    TotalAfterPayment(s, name);
  }

  /** The transfers for request `n`, the latest one there is, have grown by `amount`, and no others. */
  ghost predicate Gains(log: seq<Transfer>, log': seq<Transfer>, n: nat, amount: nat) {
    && Flow(log', Slot(n)) == Flow(log, Slot(n)) + amount
    && (forall i :: 0 <= i < n ==> Flow(log', Slot(i)) == Flow(log, Slot(i)))
    && Flow(log', Slot(n + 1)) == 0
    && (forall i :: 0 <= i < |log'| ==> log'[i].slot <= n)
  }

  /** A payment adds its amount to the current slot and to no other. */
  lemma PaymentFlow(job: Job, s: State, name: AccountId)
    requires InOrder(job, s) && CanPay(s)
    ensures Gains(s.log, Paid(s, name).log, |s.funded|, Min(s.sources[0].1, s.todo[0].1))
  {
    var t := PaidLog(s, name);
    SlotGains(s.log, t, |s.funded|);
    LaterSlotsEmpty(s.log, |s.funded|, |s.funded| + 1);
  }

  /** A payment is on the log, unless nothing is owed. */
  lemma PaidLog(s: State, name: AccountId) returns (t: Transfer)
    requires CanPay(s)
    ensures t.slot == |s.funded| && t.amount == Min(s.sources[0].1, s.todo[0].1)
    ensures Paid(s, name).log == s.log + [t] || (Paid(s, name).log == s.log && t.amount == 0)
  {
    t := Transfer(|s.funded|, s.sources[0].0, Target(s.todo[0].0, name), Min(s.sources[0].1, s.todo[0].1));
  }

  lemma SlotGains(log: seq<Transfer>, t: Transfer, n: nat)
    requires t.slot == n && forall i :: 0 <= i < |log| ==> log[i].slot <= n
    ensures Gains(log, log + [t], n, t.amount)
  {
    forall i: nat ensures Flow(log + [t], Slot(i)) == Flow(log, Slot(i)) + if i == n then t.amount else 0 {
      FlowAppend(log, t, Slot(i));
    }
    LaterSlotsEmpty(log, n, n + 1);
  }

  lemma PartialKeepsOrder(job: Job, s: State, name: AccountId)
    requires InOrder(job, s) && CanPay(s) && name !in job.start && s.todo[0].1 > s.sources[0].1
    ensures InOrder(job, Paid(s, name))
  {
    PaymentFlow(job, s, name);
    PartialShape(s, name);
    StillInOrder(job, s, Paid(s, name), Target(s.todo[0].0, name), s.sources[0].1);
  }

  lemma PartialShape(s: State, name: AccountId)
    requires CanPay(s) && s.todo[0].1 > s.sources[0].1
    ensures var (account, need) := s.todo[0];
            && Paid(s, name).funded == s.funded
            && Paid(s, name).todo ==
               [(ExistingAccount(Target(account, name), 0, 0), need - s.sources[0].1)] + s.todo[1..]
  {
  }

  /** Part of what the front request asks for has arrived. */
  lemma StillInOrder(job: Job, s: State, s': State, target: AccountId, paid: nat)
    requires InOrder(job, s) && s.todo != [] && paid <= s.todo[0].1
    requires s'.todo == [(ExistingAccount(target, 0, 0), s.todo[0].1 - paid)] + s.todo[1..] && s'.funded == s.funded
    requires Answers(job, job.desired[|s.funded|], target)
    requires Gains(s.log, s'.log, |s.funded|, paid)
    ensures InOrder(job, s')
  {
  }

  lemma FullKeepsOrder(job: Job, s: State, name: AccountId)
    requires InOrder(job, s) && CanPay(s) && name !in job.start && s.todo[0].1 <= s.sources[0].1
    ensures InOrder(job, Paid(s, name))
  {
    PaymentFlow(job, s, name);
    FullShape(s, name);
    NextInOrder(job, s, Paid(s, name), Target(s.todo[0].0, name));
  }

  lemma FullShape(s: State, name: AccountId)
    requires CanPay(s) && s.todo[0].1 <= s.sources[0].1
    ensures Paid(s, name).todo == s.todo[1..] && Paid(s, name).funded == s.funded + [Target(s.todo[0].0, name)]
  {
  }

  /** The front request is finished and the queue moves up. */
  lemma NextInOrder(job: Job, s: State, s': State, target: AccountId)
    requires InOrder(job, s) && s.todo != []
    requires s'.todo == s.todo[1..] && s'.funded == s.funded + [target]
    requires Answers(job, job.desired[|s.funded|], target)
    requires Gains(s.log, s'.log, |s.funded|, s.todo[0].1)
    ensures InOrder(job, s')
  {
  }

  lemma PaymentKeepsNewOnes(job: Job, s: State, name: AccountId)
    requires NewOnesDistinct(job, s) && InOrder(job, s) && CanPay(s) && name !in s.ledger
    ensures NewOnesDistinct(job, Paid(s, name))
  {
    var s', n := Paid(s, name), |s.funded|;
    var target := Target(s.todo[0].0, name);
    var before, after := Reached(s), Reached(s');
    assert after[..n] == s.funded == before[..n] && after[n] == target;
    assert forall a :: a in s.ledger ==> a in s'.ledger;
    forall i | 0 <= i < |after| && job.desired[i].NewAccount?
      ensures after[i] in s'.ledger
      ensures i <= n
    {
      if i < n {
        assert before[i] == after[i];
      }
    }
    forall i, j | 0 <= i < j < |after| && job.desired[i].NewAccount? && job.desired[j].NewAccount?
      ensures after[i] != after[j]
    {
      assert after[i] == before[i];
      if j == n && s.todo[0].0.ExistingAccount? { assert before[n] == target; }
    }
  }

  lemma PaymentKeepsAddressed(s: State, name: AccountId)
    requires CanPay(s) && Addressed(s)
    ensures Addressed(Paid(s, name))
  {
  }

  lemma IterationKeepsSound(job: Job, provided: Option<AccountId>, s: State, inp: Input)
    requires Sound(job, s) && FreshInput(s, inp) && s.todo != []
    ensures SourcesCovered(Refilled(provided, s, inp))
    ensures Sound(job, Iterate(provided, s, inp))
  {
    RefillKeepsSound(job, provided, s, inp);
    var r := Refilled(provided, s, inp);
    if r.sources[0].1 >= RESERVE {
      PaymentKeepsSound(job, r, inp.name);
    } else {
      DiscardKeepsSound(job, r);
    }
  }

  lemma PaymentKeepsSound(job: Job, s: State, name: AccountId)
    requires Sound(job, s) && CanPay(s) && name !in s.ledger
    ensures Sound(job, Paid(s, name))
  {
    PaymentCovers(s, name);
    PaymentKeepsReserve(s, name);
    PaymentKeepsBooks(job, s, name);
    PaymentKeepsBalance(job, s, name);
    PaymentKeepsNewOnes(job, s, name);
    PaymentKeepsAddressed(s, name);
    if s.todo[0].1 > s.sources[0].1 {
      PartialKeepsOrder(job, s, name);
    } else {
      FullKeepsOrder(job, s, name);
    }
  }

  lemma DiscardKeepsSound(job: Job, s: State)
    requires Sound(job, s) && s.sources != []
    ensures Sound(job, Discarded(s))
  {
  }

  // ---------- runs ----------

  function Pairs(desired: seq<AccountToFund>, needs: seq<nat>): seq<(AccountToFund, nat)>
    requires |desired| == |needs|
  {
    seq(|desired|, i requires 0 <= i < |desired| => (desired[i], needs[i]))
  }

  function Begin(job: Job, sources: seq<(AccountId, nat)>): State
    requires |job.desired| == |job.needs|
  {
    State(job.start, sources, Pairs(job.desired, job.needs), [], [], map[], [])
  }

  lemma {:induction false} TotalOfPairs(desired: seq<AccountToFund>, needs: seq<nat>)
    requires |desired| == |needs|
    ensures Total(Pairs(desired, needs)) == Sum(needs)
  {
    if desired != [] {
      assert Pairs(desired, needs)[1..] == Pairs(desired[1..], needs[1..]);
      TotalOfPairs(desired[1..], needs[1..]);
    }
  }

  /** The accounts asked for exist, and the needs are the ones computed from the first balances. */
  ghost predicate WellPosed(job: Job) {
    && |job.desired| == |job.needs|
    && forall i :: 0 <= i < |job.desired| ==> Need(job.start, job.desired[i]) == Some(job.needs[i])
  }

  lemma BeginIsSound(job: Job, sources: seq<(AccountId, nat)>)
    requires WellPosed(job) && SourcesCovered(Begin(job, sources))
    ensures Sound(job, Begin(job, sources))
  {
    TotalOfPairs(job.desired, job.needs);
  }

  /** `inputs` lead the loop through `states`; it may still be going on. */
  ghost predicate IsRun(provided: Option<AccountId>, states: seq<State>, inputs: seq<Input>) {
    && |states| == |inputs| + 1
    && forall k :: 0 <= k < |inputs| ==> IsTurn(provided, states[k], inputs[k], states[k + 1])
  }

  ghost predicate IsTurn(provided: Option<AccountId>, s: State, inp: Input, s': State) {
    && s.todo != [] && FreshInput(s, inp)
    && SourcesCovered(Refilled(provided, s, inp)) && s' == Iterate(provided, s, inp)
  }

  lemma {:induction false} RunIsSound(job: Job, provided: Option<AccountId>, states: seq<State>, inputs: seq<Input>,
                                      k: nat)
    requires IsRun(provided, states, inputs) && Sound(job, states[0]) && k < |states|
    ensures Sound(job, states[k])
  {
    if k > 0 {
      RunIsSound(job, provided, states, inputs, k - 1);
      NextIsSound(job, provided, states, inputs, k - 1);
    }
  }

  lemma NextIsSound(job: Job, provided: Option<AccountId>, states: seq<State>, inputs: seq<Input>, k: nat)
    requires IsRun(provided, states, inputs) && k < |inputs| && Sound(job, states[k])
    ensures Sound(job, states[k + 1])
  {
    TurnKeepsSound(job, provided, states[k], inputs[k], states[k + 1]);
  }

  lemma TurnKeepsSound(job: Job, provided: Option<AccountId>, s: State, inp: Input, s': State)
    requires Sound(job, s) && IsTurn(provided, s, inp, s')
    ensures Sound(job, s')
  {
    IterationKeepsSound(job, provided, s, inp);
  }

  /** What a finished run has done, whatever happened on the way: one account per request, in the
      order asked; each got exactly its need over all its payments; nothing else was sent; every
      payer kept the reserve; every balance is accounted for. */
  ghost predicate Delivered(job: Job, s: State) {
    && |s.funded| == |job.desired| == |job.needs|
    && (forall i :: 0 <= i < |s.funded| ==>
          Answers(job, job.desired[i], s.funded[i]) && Flow(s.log, Slot(i)) == job.needs[i])
    && (forall i, j :: 0 <= i < j < |s.funded| && job.desired[i].NewAccount? && job.desired[j].NewAccount? ==>
       s.funded[i] != s.funded[j])
    && (forall i :: 0 <= i < |s.log| ==> s.log[i].slot < |s.funded| && s.log[i].to == s.funded[s.log[i].slot])
    && Flow(s.log, Any) == Sum(job.needs)
    && FundersKeepReserve(s) && Booked(job, s)
  }

  lemma FinishedRunDelivers(job: Job, provided: Option<AccountId>, states: seq<State>, inputs: seq<Input>)
    requires IsRun(provided, states, inputs) && Sound(job, states[0]) && states[|inputs|].todo == []
    ensures Delivered(job, states[|inputs|])
  {
    RunIsSound(job, provided, states, inputs, |inputs|);
    SoundDelivers(job, states[|inputs|]);
  }

  lemma SoundDelivers(job: Job, s: State)
    requires Sound(job, s) && s.todo == []
    ensures Delivered(job, s)
  {
  }

  // ---------- termination ----------

  /** Less money owed; or as much, with fewer requests; or the same, with fewer sources. */
  predicate Smaller(s': State, s: State) {
    || Total(s'.todo) < Total(s.todo)
    || (Total(s'.todo) == Total(s.todo) && |s'.todo| < |s.todo|)
    || (Total(s'.todo) == Total(s.todo) && |s'.todo| == |s.todo| && |s'.sources| < |s.sources|)
  }

  lemma PaymentIsSmaller(s: State, name: AccountId)
    requires CanPay(s)
    ensures Total(Paid(s, name).todo) < Total(s.todo)
            || (Total(Paid(s, name).todo) == Total(s.todo) && |Paid(s, name).todo| < |s.todo|)
  {
    TotalAfterPayment(s, name);
  }

  /** A turn makes progress exactly when there is a source in the queue or the one obtained for it has
      at least the reserve to spend; otherwise it only adds to the list of drained accounts. */
  lemma ProgressIff(provided: Option<AccountId>, s: State, inp: Input)
    requires s.todo != [] && SourcesCovered(s)
    ensures SourcesCovered(Refilled(provided, s, inp))
    ensures Smaller(Iterate(provided, s, inp), s) <==>
            s.sources != [] || Refilled(provided, s, inp).sources[0].1 >= RESERVE
    ensures s.sources == [] && Refilled(provided, s, inp).sources[0].1 < RESERVE ==>
              var s' := Iterate(provided, s, inp);
              s'.todo == s.todo && s'.funded == s.funded && s'.sources == [] && s'.log == s.log
  {
    RefillCovers(provided, s, inp);
    var r := Refilled(provided, s, inp);
    if r.sources[0].1 >= RESERVE {
      PaymentIsSmaller(r, inp.name);
    }
  }

  // ---------- termination over whole runs ----------

  /** An upper bound on the turns to come, as long as every source obtained has the reserve to spend: each
      discards a source, finishes an entry, or pays at least the reserve. */
  function Potential(s: State): nat {
    2 * |s.todo| + |s.sources| + Total(s.todo) / RESERVE
  }

  /** Paying finishes the entry, or sends the reserve at least and uses the source up. */
  lemma PaymentShape(s: State, name: AccountId)
    requires CanPay(s)
    ensures var s' := Paid(s, name);
            || (|s'.todo| == |s.todo| - 1 && |s'.sources| <= |s.sources| && Total(s'.todo) <= Total(s.todo))
            || (|s'.todo| == |s.todo| && |s'.sources| == |s.sources| - 1 && Total(s'.todo) + RESERVE <= Total(s.todo))
  {
    TotalAfterPayment(s, name);
  }

  lemma QuotientDrops(a: nat, b: nat)
    ensures a <= b ==> a / RESERVE <= b / RESERVE
    ensures a + RESERVE <= b ==> a / RESERVE + 1 <= b / RESERVE
  {
    var p, q := a / RESERVE, b / RESERVE;
    assert RESERVE * p <= a && b < RESERVE * (q + 1);
  }

  /** The turn has a queued source, or obtains one with the reserve to spend. */
  predicate GoodTurn(provided: Option<AccountId>, s: State, inp: Input) {
    s.sources != [] || Refilled(provided, s, inp).sources[0].1 >= RESERVE
  }

  lemma TurnLowersPotential(provided: Option<AccountId>, s: State, inp: Input)
    requires s.todo != [] && SourcesCovered(Refilled(provided, s, inp)) && GoodTurn(provided, s, inp)
    ensures Potential(Iterate(provided, s, inp)) < Potential(s)
  {
    var r, s' := Refilled(provided, s, inp), Iterate(provided, s, inp);
    QuotientDrops(Total(s'.todo), Total(s.todo));
    if r.sources[0].1 >= RESERVE {
      PaymentShape(r, inp.name);
    }
  }

  ghost predicate GoodTurns(provided: Option<AccountId>, states: seq<State>, inputs: seq<Input>)
    requires |states| == |inputs| + 1
  {
    forall k :: 0 <= k < |inputs| ==> GoodTurn(provided, states[k], inputs[k])
  }

  /** If every source that is obtained has the reserve to spend, the loop ends: no run is longer than twice the
      entries, the sources and the money owed in units of the reserve together. */
  lemma {:induction false} RunIsBounded(provided: Option<AccountId>, states: seq<State>, inputs: seq<Input>)
    requires IsRun(provided, states, inputs) && GoodTurns(provided, states, inputs)
    ensures |inputs| + Potential(states[|inputs|]) <= Potential(states[0])
    decreases |inputs|
  {
    if inputs != [] {
      var last := |inputs| - 1;
      ShorterRun(provided, states, inputs);
      RunIsBounded(provided, states[..|inputs|], inputs[..last]);
      assert IsTurn(provided, states[last], inputs[last], states[last + 1]);
      TurnLowersPotential(provided, states[last], inputs[last]);
    }
  }

  lemma ShorterRun(provided: Option<AccountId>, states: seq<State>, inputs: seq<Input>)
    requires IsRun(provided, states, inputs) && inputs != []
    ensures var shorter, fewer := states[..|inputs|], inputs[..|inputs| - 1];
            IsRun(provided, shorter, fewer)
            && (GoodTurns(provided, states, inputs) ==> GoodTurns(provided, shorter, fewer))
  {
    var shorter, fewer := states[..|inputs|], inputs[..|inputs| - 1];
    forall k | 0 <= k < |fewer| ensures IsTurn(provided, shorter[k], fewer[k], shorter[k + 1]) {
      assert IsTurn(provided, states[k], inputs[k], states[k + 1]);
    }
  }

  lemma LongerRun(provided: Option<AccountId>, states: seq<State>, inputs: seq<Input>, inp: Input, s: State)
    requires IsRun(provided, states, inputs) && IsTurn(provided, states[|inputs|], inp, s)
    ensures IsRun(provided, states + [s], inputs + [inp])
  {
    var longer, more := states + [s], inputs + [inp];
    forall k | 0 <= k < |more| ensures IsTurn(provided, longer[k], more[k], longer[k + 1]) {
      if k < |inputs| {
        assert IsTurn(provided, states[k], inputs[k], states[k + 1]);
      }
    }
  }
}
