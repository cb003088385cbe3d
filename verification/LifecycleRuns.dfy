/** Safety over whole runs of contract calls: no panic, public keys that never change, domain ids
    that are never reused, and keys that every participant confirmed. */
module LifecycleRuns {
  import opened Common
  import opened Parameters
  import opened Domains
  import opened KeyEvents
  import opened Lifecycle
  import opened LifecycleSafety

  lemma {:induction false} RunKeepsValid(s: Phase, es: seq<Event>)
    requires Valid(s)
    ensures Valid(Run(s, es))
    decreases |es|
  {
    if es != [] {
      var last := |es| - 1;
      RunKeepsValid(s, es[..last]);
      StepKeepsValid(Run(s, es[..last]), es[last].env, es[last].call);
    }
  }

  lemma {:induction false} RunCompose(s: Phase, a: seq<Event>, b: seq<Event>)
    ensures Run(s, a + b) == Run(Run(s, a), b)
    decreases |b|
  {
    if b == [] {
      assert a + b == a;
    } else {
      var last := |b| - 1;
      assert (a + b)[..|a + b| - 1] == a + b[..last] && (a + b)[|a + b| - 1] == b[last];
      RunCompose(s, a, b[..last]);
    }
  }

  lemma RunOne(s: Phase, e: Event)
    ensures Run(s, [e]) == Apply(s, e)
  {
    assert [e][..0] == [];
  }

  /** No call reaches an index or an unwrap that would panic. */
  lemma NeverPanics(s: Phase, env: Env, c: Call)
    requires Valid(s)
    ensures Step(s, env, c) != Err(Panic)
  {
    match s
    case NotInitialized =>
    case Initializing(i) => InitializingNeverPanics(i, env, c);
    case Running(r) => RunningNeverPanics(r, env, c);
    case Resharing(x) => ResharingNeverPanics(x, env, c);
  }

  lemma InitializingNeverPanics(i: InitializingState, env: Env, c: Call)
    requires ValidInitializing(i)
    ensures StepInitializing(i, env, c) != Err(Panic)
  {
    if c.StartKeygen? {
      StartKeepsValid(i.generatingKey, env, c.id);
    }
  }

  lemma RunningNeverPanics(r: RunningState, env: Env, c: Call)
    requires ValidRunning(r)
    ensures StepRunning(r, env, c) != Err(Panic)
  {
    if c.VerifyTee? && env.signer in Accounts(r.parameters.Members()) {
      VerifyTeeSucceeds(r, env, c.valid);
    }
  }

  lemma ResharingNeverPanics(x: ResharingState, env: Env, c: Call)
    requires ValidResharing(x)
    ensures StepResharing(x, env, c) != Err(Panic)
  {
    match c
    case StartReshare(id) => StartKeepsValid(x.resharingKey, env, id);
    case VoteReshared(id) => VoteResharedIsValid(x, env, id);
    case VoteNewParameters(epoch, proposal, _) => ReproposalIsValid(x, env, epoch, proposal);
    case _ =>
  }

  // ---------- public keys ----------

  /** The keys in use: those being replaced, while a resharing is under way. */
  function ActiveKeys(s: Phase): seq<KeyForDomain> {
    match s
    case NotInitialized => []
    case Initializing(i) => i.generatedKeys
    case Running(r) => r.keyset.domains
    case Resharing(x) => x.previous.keyset.domains
  }

  lemma StepKeepsKeys(s: Phase, env: Env, c: Call)
    requires Valid(s) && Step(s, env, c).Ok?
    ensures KeyPrefix(ActiveKeys(s), ActiveKeys(Step(s, env, c).value))
  {
    match s
    case Initializing(i) => InitializingKeepsKeys(i, env, c);
    case Running(r) => RunningKeepsKeys(r, env, c);
    case Resharing(x) =>
      if c.VoteReshared? { VoteResharedKeepsKeys(x, env, c.id); } else { ResharingKeepsKeys(x, env, c); }
    case _ =>
  }

  /** Generation adds at most one key, at the end, and only by a vote. */
  lemma InitializingKeepsKeys(i: InitializingState, env: Env, c: Call)
    requires StepInitializing(i, env, c).Ok?
    ensures var keys := ActiveKeys(StepInitializing(i, env, c).value);
            || keys == i.generatedKeys
            || (c.VotePk? && VoteSuccess(i.generatingKey, env, c.id, c.key).value.1
                && keys == i.generatedKeys + [KeyForDomain(c.id.domain, c.key, c.id.attempt)])
  {
  }

  lemma TransitionFrame(r: RunningState, proposal: ThresholdParameters)
    requires SameDomains(r.keyset.domains, r.domains.domains)
    ensures var s := TransitionToResharing(r, proposal);
            ActiveKeys(s) == r.keyset.domains && Registry(s) == r.domains
  {
  }

  lemma ProposalFrame(r: RunningState, env: Env, proposal: ThresholdParameters)
    requires ProcessProposal(r, env, proposal).Ok?
    ensures var r' := ProcessProposal(r, env, proposal).value.0;
            r' == r.(parametersVotes := r'.parametersVotes)
  {
  }

  /** Running keeps its keys, and its registry too unless key generation starts. */
  lemma RunningKeepsKeys(r: RunningState, env: Env, c: Call)
    requires ValidRunning(r) && StepRunning(r, env, c).Ok?
    ensures var s := StepRunning(r, env, c).value;
            && ActiveKeys(s) == r.keyset.domains
            && (|| Registry(s) == r.domains
                || (c.VoteAddDomains? && Contiguous(r.domains.nextDomainId, c.domains)
                    && Registry(s) == Extended(r.domains, c.domains)))
  {
    match c
    case VoteNewParameters(epoch, proposal, _) =>
      ProposalFrame(r, env, proposal);
      TransitionFrame(ProcessProposal(r, env, proposal).value.0, proposal);
    case VerifyTee(valid) =>
      TransitionFrame(r, ThresholdParameters(
        Participants(r.parameters.participants.nextId, KeepValid(r.parameters.Members(), valid)),
          r.parameters.threshold));
    case _ =>
  }

  lemma ReproposalFrame(x: ResharingState, env: Env, epoch: EpochId, proposal: ThresholdParameters)
    requires ReshareVoteNewParameters(x, env, epoch, proposal).Ok?
    ensures var s := ReshareVoteNewParameters(x, env, epoch, proposal).value;
            && s.Resharing?
            && s.reshare.previous.domains == x.previous.domains && s.reshare.previous.keyset == x.previous.keyset
            && (s == Resharing(x.(previous := s.reshare.previous))
                || (s.reshare.resharedKeys == [] && s.reshare.resharingKey.epoch == x.resharingKey.epoch + 1))
  {
  }

  lemma VoteResharedRegistry(x: ResharingState, env: Env, id: KeyEventId)
    requires ReshareVoteReshared(x, env, id).Ok?
    ensures Registry(ReshareVoteReshared(x, env, id).value) == x.previous.domains
  {
  }

  lemma ResharingKeepsKeys(x: ResharingState, env: Env, c: Call)
    requires StepResharing(x, env, c).Ok?
    ensures var s := StepResharing(x, env, c).value;
            && (c.VoteReshared? || ActiveKeys(s) == x.previous.keyset.domains)
            && Registry(s) == x.previous.domains
  {
    match c
    case VoteNewParameters(epoch, proposal, _) => ReproposalFrame(x, env, epoch, proposal);
    case VoteReshared(id) => VoteResharedRegistry(x, env, id);
    case _ =>
  }

  /** Resharing ends with the very keys it started from. */
  lemma VoteResharedKeepsKeys(x: ResharingState, env: Env, id: KeyEventId)
    requires ValidResharing(x) && ReshareVoteReshared(x, env, id).Ok?
    ensures var keys := ActiveKeys(ReshareVoteReshared(x, env, id).value);
            |keys| == |x.previous.keyset.domains| && KeyPrefix(x.previous.keyset.domains, keys)
  {
    var n := |x.resharedKeys|;
    var previous := x.previous.keyset.domains;
    var s := ReshareVoteReshared(x, env, id).value;
    if s.Running? {
      assert s.run.keyset.domains == x.resharedKeys + [KeyForDomain(id.domain, previous[n].key, id.attempt)];
      forall i | 0 <= i < |previous| ensures SameKey(previous[i], s.run.keyset.domains[i]) {
        if i < n { assert SameKey(x.resharedKeys[i], previous[i]); }
      }
    }
  }

  /** Over any run, a key once in use stays: same place, same domain, same public key. */
  lemma {:induction false} RunKeepsKeys(s: Phase, es: seq<Event>)
    requires Valid(s)
    ensures KeyPrefix(ActiveKeys(s), ActiveKeys(Run(s, es)))
    decreases |es|
  {
    if es != [] {
      var last := |es| - 1;
      var mid := Run(s, es[..last]);
      RunKeepsKeys(s, es[..last]);
      RunKeepsValid(s, es[..last]);
      if Step(mid, es[last].env, es[last].call).Ok? {
        StepKeepsKeys(mid, es[last].env, es[last].call);
      }
    }
  }

  /** First key registered for a domain, as the `public_key` view looks it up. */
  function FindKey(keys: seq<KeyForDomain>, d: DomainId): Option<PublicKey> {
    if keys == [] then None
    else if keys[0].domain == d then Some(keys[0].key)
    else FindKey(keys[1..], d)
  }

  lemma {:induction false} PrefixFinds(a: seq<KeyForDomain>, b: seq<KeyForDomain>, d: DomainId)
    requires KeyPrefix(a, b) && FindKey(a, d).Some?
    ensures FindKey(b, d) == FindKey(a, d)
  {
    assert SameKey(a[0], b[0]);
    if a[0].domain != d {
      forall i | 0 <= i < |a[1..]| ensures SameKey(a[1..][i], b[1..][i]) { assert SameKey(a[i + 1], b[i + 1]); }
      PrefixFinds(a[1..], b[1..], d);
    }
  }

  /** The public key of a domain never changes and never disappears. */
  lemma PublicKeyNeverChanges(s: Phase, es: seq<Event>, d: DomainId)
    requires Valid(s) && FindKey(ActiveKeys(s), d).Some?
    ensures FindKey(ActiveKeys(Run(s, es)), d) == FindKey(ActiveKeys(s), d)
  {
    RunKeepsKeys(s, es);
    PrefixFinds(ActiveKeys(s), ActiveKeys(Run(s, es)), d);
  }

  // ---------- domain ids ----------

  function Registry(s: Phase): DomainRegistry {
    match s
    case NotInitialized => EMPTY_REGISTRY
    case Initializing(i) => i.domains
    case Running(r) => r.domains
    case Resharing(x) => x.previous.domains
  }

  /** The later registry adds only ids the earlier one had not given out. */
  ghost predicate OnlyNewIds(a: DomainRegistry, b: DomainRegistry) {
    && a.nextDomainId <= b.nextDomainId
    && forall d :: d in b.domains && d.id < a.nextDomainId ==> d in a.domains
  }

  /** An id that was given out, even to a domain deleted before it got a key, is never given to
      another domain. */
  lemma {:induction false} DomainIdsNeverReused(s: Phase, es: seq<Event>)
    requires Valid(s)
    ensures OnlyNewIds(Registry(s), Registry(Run(s, es)))
    decreases |es|
  {
    if es != [] {
      var last := |es| - 1;
      var mid := Run(s, es[..last]);
      DomainIdsNeverReused(s, es[..last]);
      RunKeepsValid(s, es[..last]);
      if Step(mid, es[last].env, es[last].call).Ok? {
        StepOnlyNewIds(mid, es[last].env, es[last].call);
      }
    }
  }

  lemma StepOnlyNewIds(s: Phase, env: Env, c: Call)
    requires Valid(s) && Step(s, env, c).Ok?
    ensures OnlyNewIds(Registry(s), Registry(Step(s, env, c).value))
  {
    match s
    case Initializing(i) => InitializingRegistry(i, env, c);
    case Running(r) =>
      RunningKeepsKeys(r, env, c);
      if c.VoteAddDomains? && Contiguous(r.domains.nextDomainId, c.domains) {
        ExtendedOnlyNewIds(r.domains, c.domains);
      }
    case Resharing(x) => ResharingKeepsKeys(x, env, c);
    case _ =>
  }

  lemma ExtendedOnlyNewIds(r: DomainRegistry, ds: seq<DomainConfig>)
    requires Contiguous(r.nextDomainId, ds)
    ensures OnlyNewIds(r, Extended(r, ds))
  {
  }

  lemma InitializingRegistry(i: InitializingState, env: Env, c: Call)
    requires StepInitializing(i, env, c).Ok?
    ensures OnlyNewIds(i.domains, Registry(StepInitializing(i, env, c).value))
  {
  }

  // ---------- who confirmed a key ----------

  type CallRecord = (AccountId, Call)

  /** Who successfully made which call during a run. */
  ghost function Succeeded(s0: Phase, es: seq<Event>): set<CallRecord>
    decreases |es|
  {
    if es == [] then {}
    else
      var before, e := es[..|es| - 1], es[|es| - 1];
      Succeeded(s0, before) + if Step(Run(s0, before), e.env, e.call).Ok? then {(e.env.signer, e.call)} else {}
  }

  /** The call that confirms a key: it names the key when generating, only the attempt when
      resharing. */
  function Confirmation(resharing: bool, id: KeyEventId, pk: PublicKey): Call {
    if resharing then VoteReshared(id) else VotePk(id, pk)
  }

  /** Every participant the event marks as completed made the confirming call. */
  ghost predicate CompletedConfirmed(made: set<CallRecord>, ke: KeyEvent, resharing: bool) {
    ke.instance.Some? ==>
      var inst := ke.instance.value;
      forall p :: p in ke.parameters.Members() && p.id in inst.completed ==>
        inst.publicKey.Some?
        && (p.account, Confirmation(resharing, KeyEventId(ke.epoch, ke.domain.id, inst.attempt),
           inst.publicKey.value)) in made
  }

  /** Everyone in the list confirmed this key for this epoch. */
  ghost predicate AllConfirmed(made: set<CallRecord>, ms: seq<Participant>, epoch: EpochId, k: KeyForDomain,
                               resharing: bool)
  {
    forall p :: p in ms ==> (p.account, Confirmation(resharing, KeyEventId(epoch, k.domain, k.attempt), k.key)) in made
  }

  ghost predicate AllKeysConfirmed(made: set<CallRecord>, ms: seq<Participant>, epoch: EpochId, ks: seq<KeyForDomain>) {
    forall i :: 0 <= i < |ks| ==> AllConfirmed(made, ms, epoch, ks[i], true)
  }

  /** What the records of a phase say about the calls that led to it. */
  ghost predicate Backed(made: set<CallRecord>, s: Phase) {
    match s
    case Initializing(i) => CompletedConfirmed(made, i.generatingKey, false)
    case Resharing(x) =>
      && CompletedConfirmed(made, x.resharingKey, true)
      && AllKeysConfirmed(made, x.resharingKey.parameters.Members(), x.resharingKey.epoch, x.resharedKeys)
    case _ => true
  }

  lemma MemberById(ms: seq<Participant>, p: Participant, signer: AccountId)
    requires DistinctIds(ms) && p in ms
    requires FindId(ms, signer) == Some(p.id)
    ensures p.account == signer
  {
  }

  /** One more success vote: the records still only name participants that confirmed, and when the
      vote is the last one everybody has. */
  lemma VoteIsConfirmed(made: set<CallRecord>, ke: KeyEvent, env: Env, id: KeyEventId, pk: PublicKey, resharing: bool)
    requires ValidKeyEvent(ke) && CompletedConfirmed(made, ke, resharing)
    requires VoteSuccess(ke, env, id, pk).Ok?
    ensures var (ke', done) := VoteSuccess(ke, env, id, pk).value;
            var made' := made + {(env.signer, Confirmation(resharing, id, pk))};
            && CompletedConfirmed(made', ke', resharing)
            && (done ==> AllConfirmed(made', ke.parameters.Members(), ke.epoch,
               KeyForDomain(id.domain, pk, id.attempt), resharing))
  {
    var (ke', done) := VoteSuccess(ke, env, id, pk).value;
    VoteSuccessOutcome(ke, env, id, pk);
    var made' := made + {(env.signer, Confirmation(resharing, id, pk))};
    if ke'.instance.Some? {
      var inst' := ke'.instance.value;
      forall p | p in ke.parameters.Members() && p.id in inst'.completed
        ensures (p.account, Confirmation(resharing, id, pk)) in made'
      {
        if Some(p.id) == FindId(ke.parameters.Members(), env.signer) {
          MemberById(ke.parameters.Members(), p, env.signer);
        }
      }
    }
  }

  lemma BackedMonotone(made: set<CallRecord>, more: set<CallRecord>, s: Phase)
    requires Backed(made, s) && made <= more
    ensures Backed(more, s)
  {
  }

  lemma InitializingStaysBacked(made: set<CallRecord>, i: InitializingState, env: Env, c: Call)
    requires ValidInitializing(i) && Backed(made, Initializing(i)) && StepInitializing(i, env, c).Ok?
    ensures Backed(made + {(env.signer, c)}, StepInitializing(i, env, c).value)
  {
    BackedMonotone(made, made + {(env.signer, c)}, Initializing(i));
    if c.VotePk? {
      VoteIsConfirmed(made, i.generatingKey, env, c.id, c.key, false);
    }
  }

  lemma VoteResharedStaysBacked(made: set<CallRecord>, x: ResharingState, env: Env, id: KeyEventId)
    requires ValidResharing(x) && Backed(made, Resharing(x)) && ReshareVoteReshared(x, env, id).Ok?
    ensures var s, made' := ReshareVoteReshared(x, env, id).value, made + {(env.signer, VoteReshared(id))};
            && Backed(made', s)
            && (s.Running? ==>
                  && s.run.parameters == x.resharingKey.parameters && s.run.keyset.epoch == x.resharingKey.epoch
                  && AllKeysConfirmed(made', s.run.parameters.Members(), s.run.keyset.epoch, s.run.keyset.domains))
  {
    var pk := x.previous.keyset.domains[|x.resharedKeys|].key;
    VoteSuccessOutcome(x.resharingKey, env, id, pk);
    VoteIsConfirmed(made, x.resharingKey, env, id, pk, true);
    var made' := made + {(env.signer, VoteReshared(id))};
    BackedMonotone(made, made', Resharing(x));
    var k := KeyForDomain(id.domain, pk, id.attempt);
    if VoteSuccess(x.resharingKey, env, id, pk).value.1 {
      assert AllKeysConfirmed(made', x.resharingKey.parameters.Members(), x.resharingKey.epoch, x.resharedKeys + [k]);
    }
  }

  lemma ReproposalStaysBacked(made: set<CallRecord>, x: ResharingState, env: Env, epoch: EpochId,
                              proposal: ThresholdParameters)
    requires Backed(made, Resharing(x)) && ReshareVoteNewParameters(x, env, epoch, proposal).Ok?
    ensures Backed(made, ReshareVoteNewParameters(x, env, epoch, proposal).value)
  {
  }

  lemma ResharingStaysBacked(made: set<CallRecord>, x: ResharingState, env: Env, c: Call)
    requires ValidResharing(x) && Backed(made, Resharing(x)) && StepResharing(x, env, c).Ok?
    ensures Backed(made + {(env.signer, c)}, StepResharing(x, env, c).value)
  {
    BackedMonotone(made, made + {(env.signer, c)}, Resharing(x));
    match c
    case VoteReshared(id) => VoteResharedStaysBacked(made, x, env, id);
    case VoteNewParameters(epoch, proposal, _) =>
      ReproposalStaysBacked(made + {(env.signer, c)}, x, env, epoch, proposal);
    case _ =>
  }

  lemma {:induction false} RunStaysBacked(s0: Phase, es: seq<Event>)
    requires Valid(s0) && s0.Running?
    ensures Backed(Succeeded(s0, es), Run(s0, es))
    decreases |es|
  {
    if es != [] {
      var before, e := es[..|es| - 1], es[|es| - 1];
      RunStaysBacked(s0, before);
      RunKeepsValid(s0, before);
      StepStaysBacked(Succeeded(s0, before), Run(s0, before), e.env, e.call);
    }
  }

  lemma StepStaysBacked(made: set<CallRecord>, s: Phase, env: Env, c: Call)
    requires Valid(s) && Backed(made, s)
    ensures Step(s, env, c).Ok? ==> Backed(made + {(env.signer, c)}, Step(s, env, c).value)
  {
    if Step(s, env, c).Ok? {
      match s
      case Running(r) => RunningStaysBacked(made + {(env.signer, c)}, r, env, c);
      case Initializing(i) => InitializingStaysBacked(made, i, env, c);
      case Resharing(x) => ResharingStaysBacked(made, x, env, c);
      case _ =>
    }
  }

  /** Calls in the running phase can only begin a generation or a resharing, with nothing confirmed. */
  lemma RunningStaysBacked(made: set<CallRecord>, r: RunningState, env: Env, c: Call)
    requires ValidRunning(r) && StepRunning(r, env, c).Ok?
    ensures Backed(made, StepRunning(r, env, c).value)
  {
  }

  /** A key enters use only after every participant voted for that public key in that attempt. */
  lemma NewKeyConfirmedByAll(s0: Phase, es: seq<Event>, e: Event)
    requires Valid(s0) && s0.Running?
    requires |ActiveKeys(Apply(Run(s0, es), e))| > |ActiveKeys(Run(s0, es))|
    ensures var s, keys := Run(s0, es), ActiveKeys(Apply(Run(s0, es), e));
            && s.Initializing?
            && |keys| == |ActiveKeys(s)| + 1
            && AllConfirmed(Succeeded(s0, es + [e]), s.init.generatingKey.parameters.Members(), s.init.epoch,
               keys[|ActiveKeys(s)|], false)
  {
    var s := Run(s0, es);
    RunKeepsValid(s0, es);
    RunStaysBacked(s0, es);
    OnlyGenerationAddsKeys(s, e.env, e.call);
    InitializingKeepsKeys(s.init, e.env, e.call);
    VoteIsConfirmed(Succeeded(s0, es), s.init.generatingKey, e.env, e.call.id, e.call.key, false);
    assert (es + [e])[..|es|] == es;
  }

  lemma OnlyGenerationAddsKeys(s: Phase, env: Env, c: Call)
    requires Valid(s) && Step(s, env, c).Ok?
    ensures |ActiveKeys(Step(s, env, c).value)| > |ActiveKeys(s)| ==> s.Initializing?
  {
    match s
    case Running(r) => RunningKeepsKeys(r, env, c);
    case Resharing(x) =>
      if c.VoteReshared? { VoteResharedKeepsKeys(x, env, c.id); } else { ResharingKeepsKeys(x, env, c); }
    case _ =>
  }

  /** Resharing ends in a new epoch only after every new participant confirmed every key. */
  lemma NewEpochConfirmedByAll(s0: Phase, es: seq<Event>, e: Event)
    requires Valid(s0) && s0.Running?
    requires Run(s0, es).Resharing? && Apply(Run(s0, es), e).Running? && e.call.VoteReshared?
    ensures var x, r := Run(s0, es).reshare, Apply(Run(s0, es), e).run;
            && r.parameters == x.resharingKey.parameters && r.keyset.epoch == x.resharingKey.epoch
            && AllKeysConfirmed(Succeeded(s0, es + [e]), r.parameters.Members(), r.keyset.epoch, r.keyset.domains)
  {
    var x := Run(s0, es).reshare;
    RunKeepsValid(s0, es);
    RunStaysBacked(s0, es);
    VoteResharedStaysBacked(Succeeded(s0, es), x, e.env, e.call.id);
    assert (es + [e])[..|es|] == es;
  }
}
