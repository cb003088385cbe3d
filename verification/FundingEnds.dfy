/** When the funding loop ends with a configured account: a condition on the balances and needs before it begins.
    */
module FundingEnds {
  import opened Common
  import opened Funding
  import opened FundingRuns

  // ---------- the state it never leaves ----------

  /** Requests are left, perhaps for nothing; no source is queued and the configured account has less than the
      reserve to spend. */
  predicate Exhausted(p: AccountId, s: State) {
    s.todo != [] && s.sources == [] && Usable(Balance(s.ledger, p)) < RESERVE
  }

  /** From such a state on, the loop never ends. */
  lemma {:induction false} ExhaustedAccountSpins(p: AccountId, states: seq<State>, inputs: seq<Input>, k: nat)
    requires IsRun(Some(p), states, inputs) && k < |states| && Exhausted(p, states[0])
    ensures states[k] == states[0].(drained := states[k].drained)
  {
    if k > 0 {
      ExhaustedAccountSpins(p, states, inputs, k - 1);
      assert IsTurn(Some(p), states[k - 1], inputs[k - 1], states[k]);
    }
  }

  // ---------- what the balances have to last for ----------

  /** Amounts, each with whether it is the configured account's own: its place in the queue, or a request to
      fund it. */
  type Amounts = seq<(bool, nat)>

  function Owed(amounts: Amounts): nat {
    if amounts == [] then 0 else amounts[0].1 + Owed(amounts[1..])
  }

  /** An amount goes back to the front of its queue unless it is used up. */
  function PutBack(own: bool, amount: nat, rest: Amounts): Amounts {
    if amount > 0 then [(own, amount)] + rest else rest
  }

  lemma OwedPutBack(own: bool, amount: nat, rest: Amounts)
    ensures Owed(PutBack(own, amount, rest)) == amount + Owed(rest)
  {
    assert amount > 0 ==> PutBack(own, amount, rest)[1..] == rest;
  }

  /** What the configured account holds after a payment that it may have made, received, or both. */
  function Held(balance: nat, paid: bool, received: bool, amount: nat): nat {
    (if paid && amount <= balance then balance - amount else balance) + if received then amount else 0
  }

  /** The configured account's balance lasts for what the queued sources leave over. */
  predicate Suffices(balance: nat, sources: Amounts, todo: Amounts)
    decreases Owed(todo), |todo|, |sources|
  {
    todo == [] ||
    var queue := if sources == [] then [(true, Usable(balance))] else sources;
    var usable, need := queue[0].1, todo[0].1;
    if usable < RESERVE then sources != [] && Suffices(balance, queue[1..], todo)
    else
      var amount := Min(usable, need);
      OwedPutBack(todo[0].0, need - amount, todo[1..]);
      Suffices(Held(balance, queue[0].0, todo[0].0, amount), PutBack(queue[0].0, usable - amount, queue[1..]),
               PutBack(todo[0].0, need - amount, todo[1..]))
  }

  /** Queueing what the account can spend is the same as asking it when the queue is empty. */
  lemma QueuedOrAsked(balance: nat, todo: Amounts)
    ensures Suffices(balance, PutBack(true, Usable(balance), []), todo) <==> Suffices(balance, [], todo)
  {
    assert [(true, Usable(balance))][1..] == [];
  }

  function OwnSources(p: AccountId, sources: seq<(AccountId, nat)>): Amounts {
    seq(|sources|, i requires 0 <= i < |sources| => (sources[i].0 == p, sources[i].1))
  }

  predicate IsFor(p: AccountId, a: AccountToFund) { a.ExistingAccount? && a.account == p }

  function OwnTodo(p: AccountId, todo: seq<(AccountToFund, nat)>): Amounts {
    seq(|todo|, i requires 0 <= i < |todo| => (IsFor(p, todo[i].0), todo[i].1))
  }

  predicate Affordable(p: AccountId, s: State) {
    Suffices(Balance(s.ledger, p), OwnSources(p, s.sources), OwnTodo(p, s.todo))
  }

  lemma SourcesAfterPayment(p: AccountId, s: State, name: AccountId)
    requires CanPay(s)
    ensures OwnSources(p, Paid(s, name).sources) ==
            PutBack(s.sources[0].0 == p, s.sources[0].1 - Min(s.sources[0].1, s.todo[0].1),
                    OwnSources(p, s.sources)[1..])
  {
    OwnSourcesPutBack(p, s.sources[0].0, s.sources[0].1 - Min(s.sources[0].1, s.todo[0].1), s.sources[1..]);
    assert OwnSources(p, s.sources)[1..] == OwnSources(p, s.sources[1..]);
  }

  lemma OwnSourcesPutBack(p: AccountId, a: AccountId, left: nat, rest: seq<(AccountId, nat)>)
    ensures OwnSources(p, (if left > 0 then [(a, left)] else []) + rest) == PutBack(a == p, left, OwnSources(p, rest))
  {
  }

  lemma TodoAfterPayment(p: AccountId, s: State, name: AccountId)
    requires CanPay(s) && name != p
    ensures OwnTodo(p, Paid(s, name).todo) ==
            PutBack(IsFor(p, s.todo[0].0), s.todo[0].1 - Min(s.sources[0].1, s.todo[0].1), OwnTodo(p, s.todo)[1..])
  {
    var entry := ExistingAccount(Target(s.todo[0].0, name), 0, 0);
    OwnTodoPutBack(p, entry, s.todo[0].1 - Min(s.sources[0].1, s.todo[0].1), s.todo[1..]);
    assert OwnTodo(p, s.todo)[1..] == OwnTodo(p, s.todo[1..]);
  }

  lemma OwnTodoPutBack(p: AccountId, a: AccountToFund, left: nat, rest: seq<(AccountToFund, nat)>)
    ensures OwnTodo(p, (if left > 0 then [(a, left)] else []) + rest) == PutBack(IsFor(p, a), left, OwnTodo(p, rest))
  {
  }

  lemma HeldAfterPayment(p: AccountId, s: State, name: AccountId)
    requires CanPay(s) && p in s.ledger && name != p
    ensures var s' := Paid(s, name);
            && p in s'.ledger
            && Balance(s'.ledger, p) == Held(Balance(s.ledger, p), s.sources[0].0 == p, IsFor(p, s.todo[0].0),
                                             Min(s.sources[0].1, s.todo[0].1))
  {
  }

  /** A payment does not change whether the balances last. */
  lemma PaymentKeepsAffordable(p: AccountId, s: State, name: AccountId)
    requires CanPay(s) && p in s.ledger && name != p
    ensures p in Paid(s, name).ledger && (Affordable(p, Paid(s, name)) <==> Affordable(p, s))
  {
    SourcesAfterPayment(p, s, name);
    TodoAfterPayment(p, s, name);
    HeldAfterPayment(p, s, name);
  }

  /** Nor does asking the configured account, if it has the reserve to spend. */
  lemma RefillKeepsAffordable(p: AccountId, s: State, inp: Input)
    requires s.todo != [] && s.sources == [] && Usable(Balance(s.ledger, p)) >= RESERVE
    ensures Affordable(p, Refilled(Some(p), s, inp)) <==> Affordable(p, s)
  {
    var balance := Balance(s.ledger, p);
    QueuedOrAsked(balance, OwnTodo(p, s.todo));
    assert OwnSources(p, [(p, Usable(balance))]) == PutBack(true, Usable(balance), []);
    assert OwnSources(p, s.sources) == [];
  }

  /** A turn of the loop does not change whether the balances last. */
  lemma TurnKeepsAffordable(p: AccountId, s: State, inp: Input, s': State)
    requires p in s.ledger && IsTurn(Some(p), s, inp, s')
    ensures p in s'.ledger && SourcesCovered(s') && (Affordable(p, s') <==> Affordable(p, s))
  {
    var r := Refilled(Some(p), s, inp);
    if r.sources[0].1 < RESERVE {
      assert OwnSources(p, r.sources)[1..] == OwnSources(p, r.sources[1..]);
    } else {
      PaymentCovers(r, inp.name);
      PaymentKeepsAffordable(p, r, inp.name);
      if s.sources == [] {
        RefillKeepsAffordable(p, s, inp);
      }
    }
  }

  lemma {:induction false} RunKeepsAffordable(p: AccountId, states: seq<State>, inputs: seq<Input>, k: nat)
    requires IsRun(Some(p), states, inputs) && k < |states| && p in states[0].ledger
    ensures p in states[k].ledger && (Affordable(p, states[k]) <==> Affordable(p, states[0]))
  {
    if k > 0 {
      RunKeepsAffordable(p, states, inputs, k - 1);
      assert IsTurn(Some(p), states[k - 1], inputs[k - 1], states[k - 1 + 1]);
      TurnKeepsAffordable(p, states[k - 1], inputs[k - 1], states[k]);
    }
  }

  // ---------- it ends exactly when they last ----------

  ghost predicate RunFrom(p: AccountId, s: State, states: seq<State>, inputs: seq<Input>) {
    IsRun(Some(p), states, inputs) && states[0] == s
  }

  ghost predicate BoundedBy(p: AccountId, s: State, n: nat) {
    forall states, inputs :: RunFrom(p, s, states, inputs) ==> |inputs| <= n
  }

  lemma AffordableIsGood(p: AccountId, s: State, states: seq<State>, inputs: seq<Input>)
    requires RunFrom(p, s, states, inputs) && p in s.ledger && Affordable(p, s)
    ensures GoodTurns(Some(p), states, inputs)
  {
    forall k | 0 <= k < |inputs| ensures GoodTurn(Some(p), states[k], inputs[k]) {
      assert IsTurn(Some(p), states[k], inputs[k], states[k + 1]);
      RunKeepsAffordable(p, states, inputs, k);
    }
  }

  /** If the balances do not last, the loop goes on for any number of turns. */
  lemma {:induction false} GoesOn(p: AccountId, s: State, n: nat) returns (states: seq<State>, inputs: seq<Input>)
    requires p in s.ledger && SourcesCovered(s) && !Affordable(p, s)
    ensures RunFrom(p, s, states, inputs) && |inputs| == n
    ensures var last := states[n]; p in last.ledger && SourcesCovered(last) && !Affordable(p, last)
  {
    states, inputs := [s], [];
    if n > 0 {
      states, inputs := GoesOn(p, s, n - 1);
      var last := states[n - 1];
      var a, b := FreshNames(last.ledger.Keys);
      var inp := Input(a, 0, b);
      RefillCovers(Some(p), last, inp);
      var next := Iterate(Some(p), last, inp);
      TurnKeepsAffordable(p, last, inp, next);
      LongerRun(Some(p), states, inputs, inp, next);
      states, inputs := states + [next], inputs + [inp];
    }
  }

  /** With a configured account the loop ends exactly when its balance lasts for what the queue leaves over. */
  lemma EndsIff(p: AccountId, s: State)
    requires p in s.ledger && SourcesCovered(s)
    ensures (exists n :: BoundedBy(p, s, n)) <==> Affordable(p, s)
  {
    if Affordable(p, s) {
      forall states, inputs | RunFrom(p, s, states, inputs) ensures |inputs| <= Potential(s) {
        AffordableIsGood(p, s, states, inputs);
        RunIsBounded(Some(p), states, inputs);
      }
      assert BoundedBy(p, s, Potential(s));
    } else {
      forall n: nat ensures !BoundedBy(p, s, n) {
        var states, inputs := GoesOn(p, s, n + 1);
      }
    }
  }

  lemma {:induction false} LongerThanAll(names: set<AccountId>) returns (n: nat)
    ensures forall a :: a in names ==> |a| < n
  {
    n := 0;
    if names != {} {
      var a :| a in names;
      n := LongerThanAll(names - {a});
      n := if n <= |a| then |a| + 1 else n;
    }
  }

  lemma FreshNames(names: set<AccountId>) returns (a: AccountId, b: AccountId)
    ensures a !in names && b !in names && a != b
  {
    var n := LongerThanAll(names);
    a, b := seq(n, _ => 'a'), seq(n + 1, _ => 'a');
    assert |a| == n && |b| == n + 1;
  }

  // ---------- the condition in closed form ----------

  /** Before each need there is the reserve to spend, and it is enough for that need. */
  predicate Covers(usable: nat, needs: seq<nat>) {
    needs == [] || (usable >= RESERVE && usable >= needs[0] && Covers(usable - needs[0], needs[1..]))
  }

  /** Enough for all needs, and for all but the last with the reserve to spare. */
  lemma {:induction false} CoversIff(usable: nat, needs: seq<nat>)
    requires needs != []
    ensures Covers(usable, needs) <==> usable >= Sum(needs) && usable >= Sum(needs[..|needs| - 1]) + RESERVE
  {
    var rest := needs[1..];
    if rest == [] {
      assert needs == [needs[0]];
    } else {
      if usable >= needs[0] {
        CoversIff(usable - needs[0], rest);
      }
      assert needs[..|needs| - 1][1..] == rest[..|rest| - 1];
    }
  }

  lemma {:induction false} MoreCovers(usable: nat, more: nat, needs: seq<nat>)
    requires usable <= more && Covers(usable, needs)
    ensures Covers(more, needs)
  {
    if needs != [] {
      MoreCovers(usable - needs[0], more - needs[0], needs[1..]);
    }
  }

  /** The needs that a queue of other accounts leaves over: each pays what it can, and is given up below the
      reserve. */
  function Leftover(amounts: seq<nat>, needs: seq<nat>): seq<nat>
    decreases |amounts| + |needs|
  {
    if amounts == [] || needs == [] then needs
    else if amounts[0] < RESERVE then Leftover(amounts[1..], needs)
    else if amounts[0] < needs[0] then Leftover(amounts[1..], [needs[0] - amounts[0]] + needs[1..])
    else if amounts[0] == needs[0] then Leftover(amounts[1..], needs[1..])
    else Leftover([amounts[0] - needs[0]] + amounts[1..], needs[1..])
  }

  /** Amounts that are none of the configured account's own. */
  function Others(amounts: seq<nat>): Amounts {
    seq(|amounts|, i requires 0 <= i < |amounts| => (false, amounts[i]))
  }

  lemma {:induction false} AloneIff(balance: nat, needs: seq<nat>)
    ensures Suffices(balance, [], Others(needs)) <==> Covers(Usable(balance), needs)
  {
    if needs != [] && Usable(balance) >= RESERVE {
      var usable, need, rest := Usable(balance), needs[0], needs[1..];
      assert Others(needs)[1..] == Others(rest);
      assert [(true, usable)][1..] == [];
      if usable >= need {
        AloneIff(balance - need, rest);
        QueuedOrAsked(balance - need, Others(rest));
      }
    }
  }

  /** For a configured account that is neither queued nor to be funded itself. */
  lemma {:induction false} SufficesIff(balance: nat, amounts: seq<nat>, needs: seq<nat>)
    ensures Suffices(balance, Others(amounts), Others(needs)) <==> Covers(Usable(balance), Leftover(amounts, needs))
    decreases |amounts| + |needs|
  {
    if amounts == [] {
      AloneIff(balance, needs);
    } else if needs != [] {
      var usable, need, others, rest := amounts[0], needs[0], amounts[1..], needs[1..];
      assert Others(amounts)[1..] == Others(others) && Others(needs)[1..] == Others(rest);
      if usable < RESERVE {
        SufficesIff(balance, others, needs);
      } else if usable < need {
        assert Others([need - usable] + rest) == PutBack(false, need - usable, Others(rest));
        SufficesIff(balance, others, [need - usable] + rest);
      } else if usable == need {
        SufficesIff(balance, others, rest);
      } else {
        assert Others([usable - need] + others) == PutBack(false, usable - need, Others(others));
        SufficesIff(balance, [usable - need] + others, rest);
      }
    }
  }

  // ---------- whatever is queued ----------

  /** The account itself is queued once at most, with all that it can spend. */
  ghost predicate InStep(balance: nat, sources: Amounts) {
    && (forall i :: 0 <= i < |sources| && sources[i].0 ==> sources[i].1 == Usable(balance))
    && (forall i, j :: 0 <= i < j < |sources| ==> !sources[i].0 || !sources[j].0)
  }

  lemma StaysInStep(balance: nat, queue: Amounts, need: nat)
    requires queue != [] && InStep(balance, queue) && need <= queue[0].1 && queue[0].1 >= RESERVE
    ensures var (own, usable) := queue[0];
            own ==> need <= balance && Usable(balance - need) == usable - need
    ensures var (own, usable) := queue[0];
            InStep(if own then balance - need else balance, PutBack(own, usable - need, queue[1..]))
  {
  }

  lemma PartCovers(usable: nat, needs: seq<nat>, paid: nat)
    requires needs != [] && paid < needs[0] && Covers(usable, needs)
    ensures Covers(usable, [needs[0] - paid] + needs[1..])
  {
    MoreCovers(usable - needs[0], usable - (needs[0] - paid), needs[1..]);
    assert ([needs[0] - paid] + needs[1..])[1..] == needs[1..];
  }

  /** A payment by the first of the queue. */
  lemma PaysFirst(balance: nat, queue: Amounts, needs: seq<nat>)
    requires queue != [] && queue[0].1 >= RESERVE && needs != []
    ensures var (own, usable) := queue[0];
            var need, rest := needs[0], needs[1..];
            Suffices(balance, queue, Others(needs)) ==
            if usable < need then
              Suffices(Held(balance, own, false, usable), queue[1..], Others([need - usable] + rest))
            else Suffices(Held(balance, own, false, need), PutBack(own, usable - need, queue[1..]), Others(rest))
  {
    var (own, usable) := queue[0];
    assert Others(needs)[1..] == Others(needs[1..]);
    if usable < needs[0] {
      assert Others([needs[0] - usable] + needs[1..]) == PutBack(false, needs[0] - usable, Others(needs[1..]));
    }
  }

  /** A balance that covers all the needs suffices, whatever sources are queued besides. */
  lemma {:induction false} CoveringSuffices(balance: nat, sources: Amounts, needs: seq<nat>)
    requires InStep(balance, sources) && Covers(Usable(balance), needs)
    ensures Suffices(balance, sources, Others(needs))
    decreases |needs|, |sources|, 1
  {
    if needs == [] {
    } else if sources == [] {
      QueuedOrAsked(balance, Others(needs));
      CoveringQueue(balance, [(true, Usable(balance))], needs);
    } else if sources[0].1 < RESERVE {
      CoveringSuffices(balance, sources[1..], needs);
    } else {
      CoveringQueue(balance, sources, needs);
    }
  }

  lemma {:induction false} CoveringQueue(balance: nat, queue: Amounts, needs: seq<nat>)
    requires queue != [] && queue[0].1 >= RESERVE && needs != []
    requires InStep(balance, queue) && Covers(Usable(balance), needs)
    ensures Suffices(balance, queue, Others(needs))
    decreases |needs|, if queue[0].0 then 0 else |queue|, 0
  {
    PaysFirst(balance, queue, needs);
    var need, rest := needs[0], needs[1..];
    if queue[0].1 < need {
      PartCovers(Usable(balance), needs, queue[0].1);
      CoveringSuffices(balance, queue[1..], [need - queue[0].1] + rest);
    } else {
      var left := FullCovers(balance, queue, needs);
      CoveringSuffices(left, PutBack(queue[0].0, queue[0].1 - need, queue[1..]), rest);
    }
  }

  lemma FullCovers(balance: nat, queue: Amounts, needs: seq<nat>) returns (left: nat)
    requires queue != [] && queue[0].1 >= RESERVE && needs != [] && needs[0] <= queue[0].1
    requires InStep(balance, queue) && Covers(Usable(balance), needs)
    ensures left == Held(balance, queue[0].0, false, needs[0])
    ensures InStep(left, PutBack(queue[0].0, queue[0].1 - needs[0], queue[1..])) && Covers(Usable(left), needs[1..])
  {
    left := if queue[0].0 then balance - needs[0] else balance;
    StaysInStep(balance, queue, needs[0]);
    MoreCovers(Usable(balance) - needs[0], Usable(left), needs[1..]);
  }

  /** An account that is to be funded itself can last without covering all the needs: what it pays to itself is
      gone from its place in the queue, but not from its balance. */
  lemma OwnRequestIsFree(usable: nat, own: nat, need: nat)
    requires usable >= RESERVE && usable - RESERVE < own <= usable && need <= usable
    ensures Suffices(usable + RESERVE, [], [(true, own), (false, need)])
    ensures own + need > usable ==> !Covers(usable, [own, need])
  {
    var balance, todo, rest := usable + RESERVE, [(true, own), (false, need)], [(false, need)];
    assert todo[1..] == rest && rest[1..] == [] && [(true, usable)][1..] == [] && [own, need][1..] == [need];
    assert Others([need]) == rest;
    AloneIff(balance, [need]);
    assert Suffices(balance, PutBack(true, usable - own, []), rest);
  }

  // ---------- from the balances before the loop ----------

  function Spendable(ledger: Ledger, accounts: seq<AccountId>): seq<nat> {
    seq(|accounts|, i requires 0 <= i < |accounts| => Usable(Balance(ledger, accounts[i])))
  }

  /** Each account with what it can spend. */
  function Queue(ledger: Ledger, accounts: seq<AccountId>): seq<(AccountId, nat)> {
    seq(|accounts|, i requires 0 <= i < |accounts| => (accounts[i], Usable(Balance(ledger, accounts[i]))))
  }

  /** A configured account that is not to be funded itself: its balance lasts exactly when it covers what the
      other funding accounts leave over; and if it covers all the needs, it lasts whatever they are. */
  lemma BalancesDecide(job: Job, accounts: seq<AccountId>, p: AccountId)
    requires |job.desired| == |job.needs| && Injective(accounts)
    requires forall i :: 0 <= i < |job.desired| ==> !IsFor(p, job.desired[i])
    ensures var usable, s := Usable(Balance(job.start, p)), Begin(job, Queue(job.start, accounts));
            && (p !in accounts ==>
                  (Affordable(p, s) <==> Covers(usable, Leftover(Spendable(job.start, accounts), job.needs))))
            && (Covers(usable, job.needs) ==> Affordable(p, s))
  {
    var balance, s := Balance(job.start, p), Begin(job, Queue(job.start, accounts));
    assert OwnTodo(p, s.todo) == Others(job.needs);
    if p !in accounts {
      assert OwnSources(p, s.sources) == Others(Spendable(job.start, accounts));
      SufficesIff(balance, Spendable(job.start, accounts), job.needs);
    }
    if Covers(Usable(balance), job.needs) {
      CoveringSuffices(balance, OwnSources(p, s.sources), job.needs);
    }
  }

  // ---------- a run that owes nothing ----------

  /** An account that holds 8 NEAR is to be refilled to 10 below 7, so it needs nothing. Yet with an empty
      configured account and no other source the loop never ends. */
  lemma OwingNothingSpins()
    ensures var ledger: Ledger := map["p" := 0, "a" := 8 * ONE_NEAR];
            var request := FromExisting("a", 10 * ONE_NEAR);
            && Need(ledger, request) == Some(0)
            && forall n :: !BoundedBy("p", Begin(Job([request], [0], ledger), []), n)
  {
    var ledger: Ledger := map["p" := 0, "a" := 8 * ONE_NEAR];
    var request := FromExisting("a", 10 * ONE_NEAR);
    EndsIff("p", Begin(Job([request], [0], ledger), []));
  }
}
