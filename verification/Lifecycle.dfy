/** The protocol phases and the calls that move between them: state.rs, state/running.rs,
    state/initializing.rs and state/resharing.rs. The phase records are values in the source too
    (cloned, and replaced as a whole), so each call is a function from phase to phase. */
module Lifecycle {
  import opened Common
  import opened Parameters
  import opened Domains
  import opened KeyEvents

  datatype RunningState = RunningState(
    domains: DomainRegistry,
    keyset: Keyset,
    parameters: ThresholdParameters,
    parametersVotes: map<AccountId, ThresholdParameters>,
    addDomainsVotes: map<ParticipantId, seq<DomainConfig>>,
    cancelledEpoch: Option<EpochId>)

  datatype InitializingState = InitializingState(
    domains: DomainRegistry,
    epoch: EpochId,
    generatedKeys: seq<KeyForDomain>,
    generatingKey: KeyEvent,
    cancelVotes: set<ParticipantId>)

  datatype ResharingState = ResharingState(
    previous: RunningState,
    resharedKeys: seq<KeyForDomain>,
    resharingKey: KeyEvent,
    cancellationRequests: set<AccountId>)

  datatype Phase =
    | NotInitialized
    | Initializing(init: InitializingState)
    | Running(run: RunningState)
    | Resharing(reshare: ResharingState)

  datatype Call =
    | VoteNewParameters(epoch: EpochId, proposal: ThresholdParameters, attestedProposal: bool)
    | VoteAddDomains(domains: seq<DomainConfig>)
    | StartKeygen(id: KeyEventId)
    | StartReshare(id: KeyEventId)
    | VotePk(id: KeyEventId, key: PublicKey)
    | VoteReshared(id: KeyEventId)
    | VoteAbortKeyEvent(id: KeyEventId)
    | VoteCancelResharing
    | VoteCancelKeygen(nextDomainId: DomainId)
    | ConcludeMigration(keyset: Keyset, info: ParticipantInfo, migrationReady: bool)
    | VerifyTee(valid: set<AccountId>)

  // ---------- running ----------

  function RemainingVotes(votes: map<ParticipantId, seq<DomainConfig>>,
                          ms: seq<Participant>): map<ParticipantId, seq<DomainConfig>>
  {
    map x | x in votes && x in Ids(ms) :: votes[x]
  }

  /** Entering the running phase forgets parameter votes, and any cancelled epoch. */
  function NewRunning(domains: DomainRegistry, keyset: Keyset, parameters: ThresholdParameters,
                      votes: map<ParticipantId, seq<DomainConfig>>): RunningState
  {
    RunningState(domains, keyset, parameters, map[], RemainingVotes(votes, parameters.Members()), None)
  }

  /** The epoch a resharing started now would use. */
  function ProspectiveEpoch(r: RunningState): EpochId {
    1 + if r.cancelledEpoch.Some? then r.cancelledEpoch.value else r.keyset.epoch
  }

  function TransitionToResharing(r: RunningState, proposal: ThresholdParameters): Phase {
    if r.domains.domains == [] then
      Running(NewRunning(r.domains, Keyset(r.keyset.epoch + 1, []), proposal, r.addDomainsVotes))
    else
      Resharing(ResharingState(
        NewRunning(r.domains, r.keyset, r.parameters, r.addDomainsVotes), [],
        NewKeyEvent(ProspectiveEpoch(r), r.domains.domains[0], proposal), {}))
  }

  /** Accounts whose recorded vote is exactly this proposal. */
  function Supporters<K, V(==)>(votes: map<K, V>, v: V): set<K> {
    set a | a in votes && votes[a] == v
  }

  /** Records the signer's vote; the flag says that as many accounts back the proposal as it has
      participants. */
  ghost function ProcessProposal(r: RunningState, env: Env,
                                 proposal: ThresholdParameters): Result<(RunningState, bool), Error>
  {
    if !Admissible(r.parameters, proposal) then Err(InvalidProposal)
    else if env.signer !in Accounts(proposal.Members()) then Err(NotParticipant)
    else if env.signer !in Accounts(r.parameters.Members())
            && |Supporters(r.parametersVotes, proposal) * Accounts(r.parameters.Members())| < r.parameters.threshold
    then Err(VoterPending)
    else
      var votes := r.parametersVotes[env.signer := proposal];
      Ok((r.(parametersVotes := votes), |Supporters(votes, proposal)| == |proposal.Members()|))
  }

  ghost function RunningVoteNewParameters(r: RunningState, env: Env, epoch: EpochId,
                                          proposal: ThresholdParameters): Result<Phase, Error>
  {
    if epoch != ProspectiveEpoch(r) then Err(EpochMismatch)
    else
      var (r', accepted) :- ProcessProposal(r, env, proposal);
      Ok(if accepted then TransitionToResharing(r', proposal) else Running(r'))
  }

  function RunningVoteAddDomains(r: RunningState, env: Env, ds: seq<DomainConfig>): Result<Phase, Error> {
    var candidate := FindId(r.parameters.Members(), env.signer);
    if ds == [] || (exists d :: d in ds && !ValidSchemeForPurpose(d)) then Err(BadDomains)
    else if candidate.None? then Err(NotParticipant)
    else
      var votes := r.addDomainsVotes[candidate.value := ds];
      if |Supporters(votes, ds)| != |r.parameters.Members()| then Ok(Running(r.(addDomainsVotes := votes)))
      else if !Contiguous(r.domains.nextDomainId, ds) then Err(BadDomains)
      else Ok(Initializing(InitializingState(
        Extended(r.domains, ds), r.keyset.epoch, r.keyset.domains,
        NewKeyEvent(r.keyset.epoch, ds[0], r.parameters), {})))
  }

  /** Member `i` is the first with this account. */
  predicate FirstWith(ms: seq<Participant>, account: AccountId, i: nat)
    requires i < |ms|
  {
    ms[i].account == account && forall j :: 0 <= j < i ==> ms[j].account != account
  }

  /** Replaces the info of the first member with this account. */
  function UpdateInfo(ms: seq<Participant>, account: AccountId, info: ParticipantInfo): (r: seq<Participant>)
    ensures |r| == |ms|
    ensures forall i :: 0 <= i < |ms| ==> r[i].account == ms[i].account && r[i].id == ms[i].id
    ensures forall i :: 0 <= i < |ms| ==> r[i].info == if FirstWith(ms, account, i) then info else ms[i].info
  {
    if ms == [] then []
    else if ms[0].account == account then [ms[0].(info := info)] + ms[1..]
    else FirstOfRest(ms, account); [ms[0]] + UpdateInfo(ms[1..], account, info)
  }

  lemma FirstOfRest(ms: seq<Participant>, account: AccountId)
    requires ms != [] && ms[0].account != account
    ensures !FirstWith(ms, account, 0)
    ensures forall i :: 0 < i < |ms| ==> (FirstWith(ms, account, i) <==> FirstWith(ms[1..], account, i - 1))
  {
    forall i | 0 < i < |ms| ensures FirstWith(ms, account, i) <==> FirstWith(ms[1..], account, i - 1) {
      assert ms[1..][i - 1] == ms[i];
      assert forall j :: 0 < j < i ==> ms[j] == ms[1..][j - 1];
    }
  }

  function RunningConcludeMigration(r: RunningState, env: Env, keyset: Keyset, info: ParticipantInfo,
                                    ready: bool): Result<Phase, Error>
  {
    if env.signer !in Accounts(r.parameters.Members()) then Err(NotParticipant)
    else if keyset != r.keyset then Err(KeysetMismatch)
    else if !ready then Err(BadMigration)
    else
      var ps := r.parameters.participants;
      Ok(Running(r.(parameters := r.parameters.(participants :=
        ps.(members := UpdateInfo(ps.members, env.signer, info))))))
  }

  /** The members that passed re-verification, in their order. */
  function KeepValid(ms: seq<Participant>, valid: set<AccountId>): seq<Participant> {
    if ms == [] then []
    else (if ms[0].account in valid then [ms[0]] else []) + KeepValid(ms[1..], valid)
  }

  /** Reshares to the members with a valid attestation when at least `threshold` of them remain. */
  ghost function RunningVerifyTee(r: RunningState, env: Env, valid: set<AccountId>): Result<Phase, Error> {
    var kept := KeepValid(r.parameters.Members(), valid);
    var proposal := ThresholdParameters(Participants(r.parameters.participants.nextId, kept), r.parameters.threshold);
    if env.signer !in Accounts(r.parameters.Members()) then Err(NotParticipant)
    else if |kept| == |r.parameters.Members()| || r.parameters.threshold > |kept| then Ok(Running(r))
    else if !ValidThreshold(|kept|, r.parameters.threshold) then Err(Panic)
    else if !Admissible(r.parameters, proposal) then Err(InvalidProposal)
    else Ok(TransitionToResharing(r, proposal))
  }

  // ---------- initializing ----------

  function InitVotePk(s: InitializingState, env: Env, id: KeyEventId, pk: PublicKey): Result<Phase, Error> {
    var (ke, done) :- VoteSuccess(s.generatingKey, env, id, pk);
    if !done then Ok(Initializing(s.(generatingKey := ke)))
    else
      var keys := s.generatedKeys + [KeyForDomain(id.domain, pk, id.attempt)];
      if |keys| < |s.domains.domains| then
        Ok(Initializing(s.(generatedKeys := keys,
                           generatingKey := NewKeyEvent(s.epoch, s.domains.domains[|keys|], ke.parameters))))
      else Ok(Running(NewRunning(s.domains, Keyset(s.epoch, keys), ke.parameters, map[])))
  }

  function InitVoteCancel(s: InitializingState, env: Env, nextDomainId: DomainId): Result<Phase, Error> {
    var parameters := s.generatingKey.parameters;
    var candidate := FindId(parameters.Members(), env.signer);
    if nextDomainId != s.domains.nextDomainId then Err(NextDomainIdMismatch)
    else if candidate.None? then Err(NotParticipant)
    else
      var votes := s.cancelVotes + {candidate.value};
      if candidate.value !in s.cancelVotes && |votes| >= parameters.threshold then
        Ok(Running(NewRunning(Retain(s.domains, |s.generatedKeys|), Keyset(s.epoch, s.generatedKeys), parameters,
          map[])))
      else Ok(Initializing(s.(cancelVotes := votes)))
  }

  // ---------- resharing ----------

  ghost function ReshareVoteNewParameters(s: ResharingState, env: Env, epoch: EpochId,
                                          proposal: ThresholdParameters): Result<Phase, Error>
  {
    if epoch != s.resharingKey.epoch + 1 then Err(EpochMismatch)
    else
      var (prev, accepted) :- ProcessProposal(s.previous, env, proposal);
      if !accepted then Ok(Resharing(s.(previous := prev)))
      else if prev.domains.domains == [] then Err(Panic)
      else Ok(Resharing(ResharingState(
        NewRunning(prev.domains, prev.keyset, prev.parameters, prev.addDomainsVotes), [],
        NewKeyEvent(s.resharingKey.epoch + 1, prev.domains.domains[0], proposal), {})))
  }

  function ReshareVoteReshared(s: ResharingState, env: Env, id: KeyEventId): Result<Phase, Error> {
    var n := |s.resharedKeys|;
    if n >= |s.previous.keyset.domains| then Err(Panic)
    else
      var key := s.previous.keyset.domains[n].key;
      var (ke, done) :- VoteSuccess(s.resharingKey, env, id, key);
      if !done then Ok(Resharing(s.(resharingKey := ke)))
      else
        var keys := s.resharedKeys + [KeyForDomain(id.domain, key, id.attempt)];
        if n + 1 < |s.previous.domains.domains| then
          Ok(Resharing(s.(resharedKeys := keys,
                          resharingKey := NewKeyEvent(ke.epoch, s.previous.domains.domains[n + 1], ke.parameters))))
        else Ok(Running(NewRunning(s.previous.domains, Keyset(ke.epoch, keys), ke.parameters,
          s.previous.addDomainsVotes)))
  }

  function ReshareVoteCancel(s: ResharingState, env: Env): Result<Phase, Error> {
    if env.signer !in Accounts(s.previous.parameters.Members()) then Err(NotParticipant)
    else
      var requests := s.cancellationRequests + {env.signer};
      if |requests| >= s.previous.parameters.threshold then
        Ok(Running(s.previous.(cancelledEpoch := Some(s.resharingKey.epoch))))
      else Ok(Resharing(s.(cancellationRequests := requests)))
  }

  // ---------- the contract's entry points ----------

  /** The participants a phase authenticates callers against: proposed ones while resharing. */
  function ActiveParticipants(s: Phase): seq<Participant> {
    match s
    case NotInitialized => []
    case Initializing(i) => i.generatingKey.parameters.Members()
    case Running(r) => r.parameters.Members()
    case Resharing(x) => x.resharingKey.parameters.Members()
  }

  /** The parameters in force: the old ones while resharing. Their participants vote on updates. */
  function VotersOf(s: Phase): ThresholdParameters {
    match s
    case NotInitialized => ThresholdParameters(Participants(0, []), 0)
    case Initializing(i) => i.generatingKey.parameters
    case Running(r) => r.parameters
    case Resharing(x) => x.previous.parameters
  }

  predicate NeedsAttestation(c: Call) {
    c.StartKeygen? || c.StartReshare? || c.VotePk? || c.VoteReshared? || c.VoteAbortKeyEvent?
  }

  ghost function StepRunning(r: RunningState, env: Env, c: Call): Result<Phase, Error> {
    match c
    case VoteNewParameters(epoch, proposal, attestedProposal) =>
      if attestedProposal then RunningVoteNewParameters(r, env, epoch, proposal) else Err(NotAttested)
    case VoteAddDomains(ds) => RunningVoteAddDomains(r, env, ds)
    case ConcludeMigration(keyset, info, ready) => RunningConcludeMigration(r, env, keyset, info, ready)
    case VerifyTee(valid) => RunningVerifyTee(r, env, valid)
    case _ => Err(ProtocolState)
  }

  function StepInitializing(i: InitializingState, env: Env, c: Call): Result<Phase, Error> {
    match c
    case StartKeygen(id) =>
      var ke :- Start(i.generatingKey, env, id);
      Ok(Initializing(i.(generatingKey := ke)))
    case VotePk(id, key) => InitVotePk(i, env, id, key)
    case VoteAbortKeyEvent(id) =>
      var ke :- VoteAbort(i.generatingKey, env, id);
      Ok(Initializing(i.(generatingKey := ke)))
    case VoteCancelKeygen(next) => InitVoteCancel(i, env, next)
    case _ => Err(ProtocolState)
  }

  ghost function StepResharing(x: ResharingState, env: Env, c: Call): Result<Phase, Error> {
    match c
    case VoteNewParameters(epoch, proposal, attestedProposal) =>
      if attestedProposal then ReshareVoteNewParameters(x, env, epoch, proposal) else Err(NotAttested)
    case _ => ReshareKeyEvent(x, env, c)
  }

  /** The resharing calls that are about the key event. */
  function ReshareKeyEvent(x: ResharingState, env: Env, c: Call): Result<Phase, Error> {
    match c
    case StartReshare(id) =>
      var ke :- Start(x.resharingKey, env, id);
      Ok(Resharing(x.(resharingKey := ke)))
    case VoteReshared(id) => ReshareVoteReshared(x, env, id)
    case VoteAbortKeyEvent(id) =>
      var ke :- VoteAbort(x.resharingKey, env, id);
      Ok(Resharing(x.(resharingKey := ke)))
    case VoteCancelResharing => ReshareVoteCancel(x, env)
    case _ => Err(ProtocolState)
  }

  ghost function Step(s: Phase, env: Env, c: Call): Result<Phase, Error> {
    if NeedsAttestation(c) && !(env.attested && env.signer in Accounts(ActiveParticipants(s))) then Err(NotAttested)
    else
      match s
      case NotInitialized => Err(ProtocolState)
      case Initializing(i) => StepInitializing(i, env, c)
      case Running(r) => StepRunning(r, env, c)
      case Resharing(x) => StepResharing(x, env, c)
  }

  /** A fresh contract, without any domain. */
  ghost function Init(parameters: ThresholdParameters): Result<Phase, Error> {
    if ValidParameters(parameters) then Ok(Running(NewRunning(EMPTY_REGISTRY, Keyset(0, []), parameters, map[])))
    else Err(InvalidProposal)
  }

  /** A contract that takes over an existing network. */
  ghost function InitRunning(domains: DomainRegistry, keyset: Keyset,
                             parameters: ThresholdParameters): Result<Phase, Error>
  {
    if !ValidParameters(parameters) then Err(InvalidProposal)
    else if !WellFormed(domains) || !SameDomains(keyset.domains, domains.domains) then Err(BadDomains)
    else Ok(Running(NewRunning(domains, keyset, parameters, map[])))
  }

  predicate SameDomains(keys: seq<KeyForDomain>, ds: seq<DomainConfig>) {
    |keys| == |ds| && forall i :: 0 <= i < |ds| ==> keys[i].domain == ds[i].id
  }

  /** One contract call. A call that fails, for whatever reason, is reverted. */
  datatype Event = Event(env: Env, call: Call)

  ghost function Apply(s: Phase, e: Event): Phase {
    var r := Step(s, e.env, e.call);
    if r.Ok? then r.value else s
  }

  ghost function Run(s: Phase, es: seq<Event>): Phase
    decreases |es|
  {
    if es == [] then s else Apply(Run(s, es[..|es| - 1]), es[|es| - 1])
  }
}
