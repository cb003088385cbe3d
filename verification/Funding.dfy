/** The devnet funding allocator (devnet/src/funding.rs): two queues, partial fills, put-backs,
    discards and refills, over a ledger of balances with no transaction fees. */
module Funding {
  import opened Common

  const ONE_NEAR: nat := 1_000_000_000_000_000_000_000_000
  const RESERVE: nat := ONE_NEAR / 10
  const REFILL_PERCENT: nat := 70

  type Ledger = map<AccountId, nat>

  datatype AccountToFund =
    | NewAccount(initialBalance: nat, prefix: string)
    | ExistingAccount(account: AccountId, desired: nat, doNotRefillAbove: nat)

  function FromExisting(account: AccountId, desired: nat): (a: AccountToFund)
    ensures a.ExistingAccount? && a.doNotRefillAbove <= a.desired
  {
    ExistingAccount(account, desired, desired * REFILL_PERCENT / 100)
  }

  function Balance(ledger: Ledger, a: AccountId): nat { if a in ledger then ledger[a] else 0 }

  /** Balance above the reserve, which is what a funding account can spend. */
  function Usable(balance: nat): nat { if balance < RESERVE then 0 else balance - RESERVE }

  /** How much an entry needs; `None` where the source panics: an account that is not on chain, or a
      balance above the desired one and yet to be refilled. */
  function Need(ledger: Ledger, a: AccountToFund): Option<nat> {
    match a
    case NewAccount(initial, _) => Some(initial)
    case ExistingAccount(id, desired, above) =>
      if id !in ledger then None
      else if ledger[id] >= above then Some(0)
      else if desired < ledger[id] then None
      else Some(desired - ledger[id])
  }

  /** No subtraction underflows for entries whose refill bound is at most the desired balance. */
  lemma NeedNeverUnderflows(ledger: Ledger, a: AccountToFund)
    requires a.ExistingAccount? ==> a.account in ledger && a.doNotRefillAbove <= a.desired
    ensures Need(ledger, a).Some?
    ensures a.ExistingAccount? && Need(ledger, a).value > 0 ==> ledger[a.account] + Need(ledger, a).value == a.desired
  {
  }

  /** `slot` is the position, in the request list, of the account that is being funded. */
  datatype Transfer = Transfer(slot: nat, from: AccountId, to: AccountId, amount: nat)

  datatype State = State(
    ledger: Ledger,
    sources: seq<(AccountId, nat)>,
    todo: seq<(AccountToFund, nat)>,
    funded: seq<AccountId>,
    drained: seq<AccountId>,
    granted: Ledger,
    log: seq<Transfer>)

  /** What the outside world would answer in one turn of the loop: the faucet's next account with its
      balance, and the random name of the next account created. */
  datatype Input = Input(faucet: AccountId, faucetBalance: nat, name: AccountId)

  function Move(ledger: Ledger, from: AccountId, to: AccountId, amount: nat): Ledger
    requires amount <= Balance(ledger, from)
  {
    var paid := ledger[from := Balance(ledger, from) - amount];
    paid[to := Balance(paid, to) + amount]
  }

  /** With no source left, the configured account is asked again, or else the faucet. */
  function Refilled(provided: Option<AccountId>, s: State, inp: Input): (r: State)
    ensures r.sources != []
    ensures r == s.(sources := r.sources, ledger := r.ledger, granted := r.granted)
  {
    if s.sources != [] then s
    else
      match provided
      case Some(p) => s.(sources := [(p, Usable(Balance(s.ledger, p)))])
      case None => s.(ledger := s.ledger[inp.faucet := inp.faucetBalance],
                      granted := s.granted[inp.faucet := inp.faucetBalance],
                      sources := [(inp.faucet, Usable(inp.faucetBalance))])
  }

  function Discarded(s: State): State
    requires s.sources != []
  {
    s.(sources := s.sources[1..], drained := s.drained + [s.sources[0].0])
  }

  function Min(a: nat, b: nat): nat { if a < b then a else b }

  /** The account an entry's money goes to: a new one is created under `name`. */
  function Target(a: AccountToFund, name: AccountId): AccountId {
    match a
    case NewAccount(_, _) => name
    case ExistingAccount(id, _, _) => id
  }

  /** Pays as much of the first entry as the first source can. */
  function Paid(s: State, name: AccountId): State
    requires s.sources != [] && s.todo != []
    requires Min(s.sources[0].1, s.todo[0].1) <= Balance(s.ledger, s.sources[0].0)
  {
    var (source, usable) := s.sources[0];
    var (account, need) := s.todo[0];
    var amount := Min(usable, need);
    var target := Target(account, name);
    var sends := account.NewAccount? || amount > 0;
    State(
      if sends then Move(s.ledger, source, target, amount) else s.ledger,
      (if usable - amount > 0 then [(source, usable - amount)] else []) + s.sources[1..],
      (if need - amount > 0 then [(ExistingAccount(target, 0, 0), need - amount)] else []) + s.todo[1..],
      s.funded + if need - amount > 0 then [] else [target],
      s.drained + if usable - amount > 0 then [] else [source],
      s.granted,
      s.log + if sends then [Transfer(|s.funded|, source, target, amount)] else [])
  }

  // ---------- what the queues keep ----------

  /** No account queues twice, and each can spend what its entry says and keep the reserve. */
  ghost predicate SourcesCovered(s: State) {
    && (forall i, j :: 0 <= i < j < |s.sources| ==> s.sources[i].0 != s.sources[j].0)
    && (forall i :: 0 <= i < |s.sources| && s.sources[i].1 > 0 ==>
       s.sources[i].1 + RESERVE <= Balance(s.ledger, s.sources[i].0))
  }

  /** One turn of the loop. */
  function Iterate(provided: Option<AccountId>, s: State, inp: Input): State
    requires s.todo != [] && SourcesCovered(Refilled(provided, s, inp))
  {
    var r := Refilled(provided, s, inp);
    if r.sources[0].1 < RESERVE then Discarded(r) else Paid(r, inp.name)
  }

  /** Names the outside world may use: new to the chain, and different from each other. */
  ghost predicate FreshInput(s: State, inp: Input) {
    inp.faucet !in s.ledger && inp.name !in s.ledger && inp.faucet != inp.name
  }

  lemma RefillCovers(provided: Option<AccountId>, s: State, inp: Input)
    requires SourcesCovered(s)
    ensures SourcesCovered(Refilled(provided, s, inp))
  {
  }

  lemma PaymentCovers(s: State, name: AccountId)
    requires SourcesCovered(s) && s.sources != [] && s.todo != [] && s.sources[0].1 >= RESERVE
    ensures SourcesCovered(Paid(s, name))
    ensures Balance(Paid(s, name).ledger, s.sources[0].0) >= RESERVE
  {
  }

  // ---------- sums ----------

  function Total(todo: seq<(AccountToFund, nat)>): nat {
    if todo == [] then 0 else todo[0].1 + Total(todo[1..])
  }

  function Sum(needs: seq<nat>): nat {
    if needs == [] then 0 else needs[0] + Sum(needs[1..])
  }

  /** Which transfers to add up. */
  datatype Pick = Slot(slot: nat) | To(account: AccountId) | From(account: AccountId) | Any {
    predicate Takes(t: Transfer) {
      match this
      case Slot(n) => t.slot == n
      case To(a) => t.to == a
      case From(a) => t.from == a
      case Any => true
    }
  }

  function Flow(log: seq<Transfer>, pick: Pick): nat {
    if log == [] then 0
    else
      var last := log[|log| - 1];
      Flow(log[..|log| - 1], pick) + if pick.Takes(last) then last.amount else 0
  }

  lemma FlowAppend(log: seq<Transfer>, t: Transfer, pick: Pick)
    ensures Flow(log + [t], pick) == Flow(log, pick) + if pick.Takes(t) then t.amount else 0
  {
  }
}
