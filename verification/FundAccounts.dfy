/** `fund_accounts` itself, as a loop over the two queues. */
module FundAccounts {
  import opened Common
  import opened Funding
  import opened FundingRuns
  import opened FundingEnds

  /** The chain and the faucet, which gives `supply` accounts and no more. Names still to be drawn are new
      and different from each other. */
  class Chain {
    var ledger: Ledger
    var drawn: nat
    var given: nat
    const supply: nat
    const faucet: nat -> (AccountId, nat)
    const names: nat -> AccountId

    ghost predicate FreshFrom(k: nat)
      reads this
    {
      && names(k) !in ledger && faucet(k).0 !in ledger
      && forall j :: j >= drawn ==>
           names(k) != faucet(j).0
           && (j != k ==> names(j) != names(k) && faucet(j).0 != faucet(k).0)
    }

    ghost predicate Valid()
      reads this
    {
      forall k :: k >= drawn ==> FreshFrom(k)
    }

    function Next(): Input
      reads this
    {
      Input(faucet(drawn).0, faucet(drawn).1, names(drawn))
    }

    method GetAccountBalance(a: AccountId) returns (b: nat)
      requires a in ledger
      ensures b == ledger[a]
    {
      b := ledger[a];
    }

    method CreateFromFaucet() returns (a: AccountId)
      requires given < supply
      modifies this`ledger, this`given
      ensures a == faucet(drawn).0 && ledger == old(ledger)[a := faucet(drawn).1] && given == old(given) + 1
    {
      given := given + 1;
      a := faucet(drawn).0;
      ledger := ledger[a := faucet(drawn).1];
    }

    method SendBalance(from: AccountId, to: AccountId, amount: nat)
      requires amount <= Balance(ledger, from)
      modifies this`ledger
      ensures ledger == Move(old(ledger), from, to, amount)
    {
      ledger := ledger[from := Balance(ledger, from) - amount];
      ledger := ledger[to := Balance(ledger, to) + amount];
    }

    method CreateAccount(amount: nat, funder: AccountId) returns (a: AccountId)
      requires amount <= Balance(ledger, funder)
      modifies this`ledger
      ensures a == names(drawn) && ledger == Move(old(ledger), funder, a, amount)
    {
      a := names(drawn);
      SendBalance(funder, a, amount);
    }
  }

  /** The needs of all entries, in order; `None` if one cannot be computed. */
  function Needs(ledger: Ledger, desired: seq<AccountToFund>): (r: Option<seq<nat>>)
    ensures r.Some? ==> WellPosed(Job(desired, r.value, ledger))
  {
    if desired == [] then Some([])
    else
      var before := Needs(ledger, desired[..|desired| - 1]);
      var last := Need(ledger, desired[|desired| - 1]);
      if before.Some? && last.Some? then Some(before.value + [last.value]) else None
  }

  method ComputeNeeds(chain: Chain, desired: seq<AccountToFund>) returns (r: Option<seq<nat>>)
    ensures r == Needs(chain.ledger, desired)
  {
    var needs: seq<nat> := [];
    for i := 0 to |desired|
      invariant Needs(chain.ledger, desired[..i]) == Some(needs)
    {
      assert desired[..i + 1][..i] == desired[..i];
      var need := Need(chain.ledger, desired[i]);
      if need.None? {
        NoNeed(chain.ledger, desired, i + 1);
        return None;
      }
      needs := needs + [need.value];
    }
    assert desired[..|desired|] == desired;
    r := Some(needs);
  }

  lemma {:induction false} NoNeed(ledger: Ledger, desired: seq<AccountToFund>, i: nat)
    requires i <= |desired| && Needs(ledger, desired[..i]).None?
    ensures Needs(ledger, desired).None?
    decreases |desired|
  {
    if i < |desired| {
      var before := desired[..|desired| - 1];
      assert before[..i] == desired[..i];
      NoNeed(ledger, before, i);
    } else {
      assert desired[..i] == desired;
    }
  }

  method UsableBalances(chain: Chain, accounts: seq<AccountId>) returns (sources: seq<(AccountId, nat)>)
    requires Injective(accounts) && forall a :: a in accounts ==> a in chain.ledger
    ensures sources == Queue(chain.ledger, accounts)
  {
    sources := [];
    for i := 0 to |accounts|
      invariant |sources| == i
      invariant forall j :: 0 <= j < i ==> sources[j] == (accounts[j], Usable(chain.ledger[accounts[j]]))
    {
      var b := chain.GetAccountBalance(accounts[i]);
      sources := sources + [(accounts[i], Usable(b))];
    }
  }

  // ---------- the loop ----------

  /** Entries for existing accounts name accounts on chain. */
  ghost predicate TargetsOnChain(s: State) {
    forall i :: 0 <= i < |s.todo| && s.todo[i].0.ExistingAccount? ==> s.todo[i].0.account in s.ledger
  }

  lemma TurnTouches(provided: Option<AccountId>, s: State, inp: Input)
    requires s.todo != [] && SourcesCovered(s) && SourcesCovered(Refilled(provided, s, inp)) && TargetsOnChain(s)
    ensures var s' := Iterate(provided, s, inp);
            && s.ledger.Keys <= s'.ledger.Keys <= s.ledger.Keys + {inp.faucet, inp.name}
            && TargetsOnChain(s')
  {
    var r := Refilled(provided, s, inp);
    if r.sources[0].1 >= RESERVE {
      PaymentTouches(r, inp.name);
    }
  }

  lemma PaymentTouches(s: State, name: AccountId)
    requires CanPay(s) && TargetsOnChain(s)
    ensures s.ledger.Keys <= Paid(s, name).ledger.Keys <= s.ledger.Keys + {name}
    ensures TargetsOnChain(Paid(s, name))
  {
  }

  /** Every account the faucet will give has the reserve to spend. */
  ghost predicate GoodFaucet(chain: Chain)
    reads chain
  {
    forall k :: k >= chain.drawn ==> Usable(chain.faucet(k).1) >= RESERVE
  }

  /** Makes sure there is a source: the configured account again, or a new one from the faucet. */
  method Refill(chain: Chain, provided: Option<AccountId>, ghost s: State) returns (sources: seq<(AccountId, nat)>)
    requires s.sources == [] && s.ledger == chain.ledger
    requires if provided.Some? then provided.value in chain.ledger else chain.given < chain.supply
    modifies chain`ledger, chain`given
    ensures sources == Refilled(provided, s, chain.Next()).sources
    ensures chain.ledger == Refilled(provided, s, chain.Next()).ledger
    ensures chain.given == old(chain.given) + if provided.None? then 1 else 0
  {
    if provided.Some? {
      var b := chain.GetAccountBalance(provided.value);
      sources := [(provided.value, Usable(b))];
    } else {
      var faucet := chain.CreateFromFaucet();
      var b := chain.GetAccountBalance(faucet);
      sources := [(faucet, Usable(b))];
    }
  }

  /** Sends the money, creating the account first if it is a new one. */
  method Deliver(chain: Chain, account: AccountToFund, amount: nat, source: AccountId) returns (target: AccountId)
    requires amount <= Balance(chain.ledger, source)
    modifies chain`ledger
    ensures target == Target(account, chain.names(chain.drawn))
    ensures chain.ledger ==
            if account.NewAccount? || amount > 0 then Move(old(chain.ledger), source, target, amount)
            else old(chain.ledger)
  {
    match account {
      case NewAccount(_, _) =>
        target := chain.CreateAccount(amount, source);
      case ExistingAccount(id, _, _) =>
        if amount > 0 { chain.SendBalance(source, id, amount); }
        target := id;
    }
  }

  /** Takes the first source and the first request, and puts back whichever is not used up. */
  method PayFirst(chain: Chain, ghost s: State, sources0: seq<(AccountId, nat)>, todo0: seq<(AccountToFund, nat)>)
    returns (sources: seq<(AccountId, nat)>, todo: seq<(AccountToFund, nat)>, drained: seq<AccountId>,
            funded: seq<AccountId>)
    requires CanPay(s) && s.ledger == chain.ledger && s.sources == sources0 && s.todo == todo0
    modifies chain`ledger
    ensures var s' := Paid(s, chain.names(chain.drawn));
            && chain.ledger == s'.ledger && sources == s'.sources && todo == s'.todo
            && s'.drained == s.drained + drained && s'.funded == s.funded + funded
  {
    var (source, balance) := sources0[0];
    sources := sources0[1..];
    var (account, needed) := todo0[0];
    todo := todo0[1..];
    var amount := Min(balance, needed);
    drained, funded := [], [];
    if balance - amount > 0 {
      sources := [(source, balance - amount)] + sources;
    } else {
      drained := [source];
    }
    var target := Deliver(chain, account, amount, source);
    if needed - amount > 0 {
      todo := [(ExistingAccount(target, 0, 0), needed - amount)] + todo;
    } else {
      funded := [target];
    }
  }

  /** What the loop of `FundAll` keeps. */
  ghost predicate LoopInvariant(chain: Chain, job: Job, provided: Option<AccountId>, s: State)
    reads chain
  {
    && s.ledger == chain.ledger && chain.given <= chain.supply
    && Sound(job, s) && TargetsOnChain(s) && chain.Valid()
    && (provided.Some? ==> provided.value in chain.ledger)
  }

  /** Everything one turn needs, and what it leaves to show about the chain. */
  lemma BeforeTurn(chain: Chain, job: Job, provided: Option<AccountId>, s: State)
    requires LoopInvariant(chain, job, provided, s) && s.todo != []
    ensures IsTurn(provided, s, chain.Next(), Iterate(provided, s, chain.Next()))
    ensures var s' := Iterate(provided, s, chain.Next());
            && Sound(job, s') && TargetsOnChain(s')
            && s.ledger.Keys <= s'.ledger.Keys <= s.ledger.Keys + {chain.Next().faucet, chain.Next().name}
  {
    assert chain.FreshFrom(chain.drawn);
    IterationKeepsSound(job, provided, s, chain.Next());
    TurnTouches(provided, s, chain.Next());
  }

  /** Drawing one name of each kind leaves the later ones new. */
  twostate lemma StaysFresh(chain: Chain)
    requires old(chain.Valid()) && chain.drawn == old(chain.drawn) + 1
    requires chain.ledger.Keys <= old(chain.ledger.Keys) + {old(chain.Next()).faucet, old(chain.Next()).name}
    ensures chain.Valid()
    ensures old(GoodFaucet(chain)) ==> GoodFaucet(chain)
  {
    forall k | k >= chain.drawn ensures chain.FreshFrom(k) {
      assert old(chain.FreshFrom(k));
      assert old(chain.FreshFrom(chain.drawn));
    }
  }

  /** No source is queued and none can be had: the configured account is exhausted, or the faucet is dry. */
  predicate NoSource(chain: Chain, provided: Option<AccountId>, s: State)
    reads chain
  {
    s.sources == [] && if provided.Some? then Exhausted(provided.value, s) else chain.given == chain.supply
  }

  /** The queues and the chain change as `Iterate` says. */
  method PayOrDiscard(chain: Chain, provided: Option<AccountId>, ghost s: State,
                      sources0: seq<(AccountId, nat)>, todo0: seq<(AccountToFund, nat)>)
    returns (sources: seq<(AccountId, nat)>, todo: seq<(AccountToFund, nat)>, drained: seq<AccountId>,
            funded: seq<AccountId>)
    requires s.todo != [] && s.ledger == chain.ledger && SourcesCovered(Refilled(provided, s, chain.Next()))
    requires provided.Some? ==> provided.value in chain.ledger
    requires s.sources == [] && provided.None? ==> chain.given < chain.supply
    requires s.sources == sources0 && s.todo == todo0
    modifies chain`ledger, chain`given
    ensures var s' := Iterate(provided, s, old(chain.Next()));
            && chain.ledger == s'.ledger && s'.sources == sources && s'.todo == todo
            && s'.drained == s.drained + drained && s'.funded == s.funded + funded
    ensures chain.given == old(chain.given) + if s.sources == [] && provided.None? then 1 else 0
  {
    sources, todo := sources0, todo0;
    if sources == [] {
      sources := Refill(chain, provided, s);
    }
    if sources[0].1 < RESERVE {
      drained, funded := [sources[0].0], [];
      sources := sources[1..];
    } else {
      sources, todo, drained, funded := PayFirst(chain, Refilled(provided, s, chain.Next()), sources, todo);
    }
  }

  /** One turn of the loop. */
  method Turn(chain: Chain, provided: Option<AccountId>, ghost job: Job, ghost s: State,
              sources0: seq<(AccountId, nat)>, todo0: seq<(AccountToFund, nat)>)
    returns (sources: seq<(AccountId, nat)>, todo: seq<(AccountToFund, nat)>, drained: seq<AccountId>,
            funded: seq<AccountId>,
             ghost s': State)
    requires LoopInvariant(chain, job, provided, s) && s.todo != [] && !NoSource(chain, provided, s)
    requires s.sources == sources0 && s.todo == todo0
    modifies chain
    ensures LoopInvariant(chain, job, provided, s') && IsTurn(provided, s, old(chain.Next()), s')
    ensures chain.given == old(chain.given) + if s.sources == [] && provided.None? then 1 else 0
    ensures old(GoodFaucet(chain)) ==> GoodFaucet(chain)
    ensures s'.sources == sources && s'.todo == todo
    ensures s'.drained == s.drained + drained && s'.funded == s.funded + funded
  {
    BeforeTurn(chain, job, provided, s);
    s' := Iterate(provided, s, chain.Next());
    sources, todo, drained, funded := PayOrDiscard(chain, provided, s, sources0, todo0);
    chain.drawn := chain.drawn + 1;
    StaysFresh(chain);
  }

  /** A turn makes progress, or draws another account from the faucet. */
  lemma TurnAdvances(provided: Option<AccountId>, s: State, inp: Input, s': State)
    requires IsTurn(provided, s, inp, s') && SourcesCovered(s)
    requires provided.Some? ==> !Exhausted(provided.value, s)
    ensures Smaller(s', s) || (provided.None? && s.sources == [] == s'.sources && s'.todo == s.todo)
  {
    ProgressIff(provided, s, inp);
  }

  /** `Spins` stands for a loop that never ends; `FaucetDry` for one that would wait for the faucet. */
  datatype Ending = Refused | Funded(accounts: seq<AccountId>) | Spins | FaucetDry

  /** How the run of the loop came to its last state. */
  ghost predicate Ended(chain: Chain, provided: Option<AccountId>, states: seq<State>, inputs: seq<Input>, r: Ending)
    reads chain
  {
    && IsRun(provided, states, inputs) && chain.ledger == states[|inputs|].ledger
    && (forall k :: 0 <= k < |inputs| && provided.Some? ==> !Exhausted(provided.value, states[k]))
    && var s := states[|inputs|];
       match r
       case Funded(accounts) => s.todo == [] && accounts == s.funded
       case Spins => provided.Some? && Exhausted(provided.value, s)
       case FaucetDry => provided.None? && s.todo != [] && s.sources == [] && chain.given == chain.supply
       case Refused => false
  }

  /** What the loop has done so far. */
  ghost predicate Going(chain: Chain, job: Job, provided: Option<AccountId>, states: seq<State>, inputs: seq<Input>,
                        s: State)
    reads chain
  {
    && IsRun(provided, states, inputs) && states[|inputs|] == s && LoopInvariant(chain, job, provided, s)
    && forall k :: 0 <= k < |inputs| && provided.Some? ==> !Exhausted(provided.value, states[k])
  }

  /** What the balances before the call say about a configured account: everything is delivered exactly when
      its balance lasts. Unless it is to be funded itself, that is when it covers what the other funding
      accounts leave over, and covering all the needs is always enough. */
  ghost predicate DecidedBefore(job: Job, accounts: seq<AccountId>, p: AccountId, funded: bool)
    requires |job.desired| == |job.needs|
  {
    var usable := Usable(Balance(job.start, p));
    && (funded <==> Suffices(Balance(job.start, p), OwnSources(p, Queue(job.start, accounts)),
                             OwnTodo(p, Pairs(job.desired, job.needs))))
    && ((forall i :: 0 <= i < |job.desired| ==> !IsFor(p, job.desired[i])) ==>
          && (p !in accounts ==>
                (funded <==> Covers(usable, Leftover(Spendable(job.start, accounts), job.needs))))
          && (Covers(usable, job.needs) ==> funded))
  }

  lemma EndingIsDecided(chain: Chain, job: Job, accounts: seq<AccountId>, p: AccountId, states: seq<State>,
                        inputs: seq<Input>, r: Ending)
    requires |job.desired| == |job.needs| && Injective(accounts) && p in job.start
    requires Ended(chain, Some(p), states, inputs, r) && states[0] == Begin(job, Queue(job.start, accounts))
    ensures DecidedBefore(job, accounts, p, r.Funded?)
  {
    RunKeepsAffordable(p, states, inputs, |inputs|);
    assert r.Funded? <==> Affordable(p, states[|inputs|]);
    if forall i :: 0 <= i < |job.desired| ==> !IsFor(p, job.desired[i]) {
      BalancesDecide(job, accounts, p);
    }
  }

  /** Funds every request, or refuses: exactly when a need cannot be computed, or more than 100 NEAR in all is
      asked for. Otherwise the loop runs until everything is delivered, until it spins on an exhausted
      configured account, or until the faucet is dry. The balances before the call decide about the second. The
      last cannot happen with a faucet whose accounts have the reserve to spend and which gives enough of them. */
  method FundAll(chain: Chain, fundingAccounts: seq<AccountId>, desired: seq<AccountToFund>,
                 provided: Option<AccountId>)
    returns (r: Ending, ghost states: seq<State>, ghost inputs: seq<Input>)
    requires chain.Valid() && chain.given <= chain.supply
    requires Injective(fundingAccounts) && forall a :: a in fundingAccounts ==> a in chain.ledger
    requires provided.Some? ==> provided.value in chain.ledger
    modifies chain
    ensures var needs := Needs(old(chain.ledger), desired);
            && (r.Refused? <==> needs.None? || Sum(needs.value) > 100 * ONE_NEAR)
            && (r.Refused? ==> chain.ledger == old(chain.ledger))
            && (!r.Refused? ==>
                  var job := Job(desired, needs.value, old(chain.ledger));
                  && Ended(chain, provided, states, inputs, r) && Sound(job, states[|inputs|])
                  && Potential(states[0]) == 2 * |desired| + |fundingAccounts| + Sum(needs.value) / RESERVE
                  && (r.Funded? ==> Delivered(job, states[|inputs|]))
                  && (provided.Some? ==> DecidedBefore(job, fundingAccounts, provided.value, r.Funded?))
                  && (provided.None? && old(GoodFaucet(chain)) ==>
                        chain.supply - old(chain.given) >= Potential(states[0]) ==> r.Funded?))
  {
    states, inputs := [], [];
    var sources := UsableBalances(chain, fundingAccounts);
    var needs := ComputeNeeds(chain, desired);
    if needs.None? || Sum(needs.value) > 100 * ONE_NEAR { return Refused, states, inputs; }
    ghost var job := Job(desired, needs.value, chain.ledger);
    BeginIsSound(job, sources);
    TotalOfPairs(desired, needs.value);
    r, states, inputs := FundLoop(chain, job, provided, sources, Pairs(desired, needs.value), Begin(job, sources));
    if provided.Some? {
      EndingIsDecided(chain, job, fundingAccounts, provided.value, states, inputs, r);
    }
  }

  /** Turns and accounts drawn so far against the bound on both. */
  ghost predicate Frugal(chain: Chain, given0: nat, s0: State, s: State)
    reads chain
  {
    GoodFaucet(chain) && chain.given - given0 + Potential(s) <= Potential(s0)
  }

  lemma StaysGoing(provided: Option<AccountId>, states: seq<State>, inputs: seq<Input>, s: State, inp: Input, s': State)
    requires IsRun(provided, states, inputs) && states[|inputs|] == s && IsTurn(provided, s, inp, s')
    requires forall k :: 0 <= k < |inputs| && provided.Some? ==> !Exhausted(provided.value, states[k])
    requires provided.Some? ==> !Exhausted(provided.value, s)
    ensures IsRun(provided, states + [s'], inputs + [inp])
    ensures forall k :: 0 <= k < |inputs + [inp]| && provided.Some? ==> !Exhausted(provided.value, (states + [s'])[k])
  {
    LongerRun(provided, states, inputs, inp, s');
  }

  /** A turn as a step of the run. */
  method NextTurn(chain: Chain, ghost job: Job, provided: Option<AccountId>, ghost s: State,
                  sources0: seq<(AccountId, nat)>, todo0: seq<(AccountToFund, nat)>,
                  ghost states: seq<State>, ghost inputs: seq<Input>, ghost given0: nat)
    returns (sources: seq<(AccountId, nat)>, todo: seq<(AccountToFund, nat)>, drained: seq<AccountId>,
            funded: seq<AccountId>,
             ghost s': State, ghost states': seq<State>, ghost inputs': seq<Input>)
    requires Going(chain, job, provided, states, inputs, s) && s.todo != [] && !NoSource(chain, provided, s)
    requires s.sources == sources0 && s.todo == todo0
    modifies chain
    ensures Going(chain, job, provided, states', inputs', s') && states'[0] == states[0]
    ensures Smaller(s', s) || (s'.todo == s.todo && s'.sources == s.sources && chain.given == old(chain.given) + 1)
    ensures provided.None? && old(Frugal(chain, given0, states[0], s)) ==> Frugal(chain, given0, states[0], s')
    ensures s'.sources == sources && s'.todo == todo
    ensures s'.drained == s.drained + drained && s'.funded == s.funded + funded
  {
    ghost var inp := chain.Next();
    sources, todo, drained, funded, s' := Turn(chain, provided, job, s, sources0, todo0);
    states', inputs' := states + [s'], inputs + [inp];
    StaysGoing(provided, states, inputs, s, inp, s');
    TurnAdvances(provided, s, inp, s');
    if provided.None? && old(Frugal(chain, given0, states[0], s)) {
      TurnLowersPotential(provided, s, inp);
    }
  }

  /** Whether the loop can get a source; if not, how it ends. */
  method CheckSource(chain: Chain, provided: Option<AccountId>, sources: seq<(AccountId, nat)>, ghost s: State)
    returns (stop: Option<Ending>)
    requires s.todo != [] && s.sources == sources && s.ledger == chain.ledger
             && (provided.Some? ==> provided.value in chain.ledger)
    ensures stop == if !NoSource(chain, provided, s) then None else Some(if provided.Some? then Spins else FaucetDry)
  {
    stop := None;
    if sources == [] {
      if provided.Some? {
        var b := chain.GetAccountBalance(provided.value);
        if Usable(b) < RESERVE { stop := Some(Spins); }
      } else if chain.given == chain.supply {
        stop := Some(FaucetDry);
      }
    }
  }

  lemma StopEnds(chain: Chain, job: Job, provided: Option<AccountId>, states: seq<State>, inputs: seq<Input>, s: State)
    requires Going(chain, job, provided, states, inputs, s) && s.todo != [] && NoSource(chain, provided, s)
    ensures Ended(chain, provided, states, inputs, if provided.Some? then Spins else FaucetDry)
            && Sound(job, states[|inputs|])
  {
  }

  lemma DeliveryEnds(chain: Chain, job: Job, provided: Option<AccountId>, states: seq<State>, inputs: seq<Input>,
                     s: State)
    requires Going(chain, job, provided, states, inputs, s) && s.todo == []
    ensures Ended(chain, provided, states, inputs, Funded(s.funded))
    ensures Sound(job, states[|inputs|]) && Delivered(job, states[|inputs|])
  {
    SoundDelivers(job, s);
  }

  lemma OwingHasPotential(s: State)
    requires s.todo != []
    ensures Potential(s) > 0
  {
  }

  method FundLoop(chain: Chain, ghost job: Job, provided: Option<AccountId>, sources0: seq<(AccountId, nat)>,
                  todo0: seq<(AccountToFund, nat)>, ghost s0: State)
    returns (r: Ending, ghost states: seq<State>, ghost inputs: seq<Input>)
    requires LoopInvariant(chain, job, provided, s0)
    requires s0.sources == sources0 && s0.todo == todo0 && s0.funded == [] && s0.drained == []
    modifies chain
    ensures Ended(chain, provided, states, inputs, r) && states[0] == s0 && Sound(job, states[|inputs|])
    ensures r.Funded? ==> Delivered(job, states[|inputs|])
    ensures provided.None? && old(GoodFaucet(chain)) && chain.supply - old(chain.given) >= Potential(s0) ==> r.Funded?
  {
    ghost var s, good := s0, GoodFaucet(chain);
    states, inputs := [s0], [];
    var sources, todo := sources0, todo0;
    var funded: seq<AccountId>, drained: seq<AccountId> := [], [];
    while todo != []
      invariant Going(chain, job, provided, states, inputs, s) && states[0] == s0
      invariant s.sources == sources && s.todo == todo && s.funded == funded && s.drained == drained
      invariant provided.None? && good ==> Frugal(chain, old(chain.given), s0, s)
      decreases Total(todo), |todo|, |sources|, chain.supply - chain.given
    {
      var stop := CheckSource(chain, provided, sources, s);
      if stop.Some? {
        StopEnds(chain, job, provided, states, inputs, s);
        if provided.None? && good {
          OwingHasPotential(s);
        }
        return stop.value, states, inputs;
      }
      var moreDrained, moreFunded;
      sources, todo, moreDrained, moreFunded, s, states, inputs :=
        NextTurn(chain, job, provided, s, sources, todo, states, inputs, old(chain.given));
      drained := drained + moreDrained;
      funded := funded + moreFunded;
    }
    DeliveryEnds(chain, job, provided, states, inputs, s);
    r := Funded(funded);
  }
}
