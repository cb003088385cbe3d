/** Attempts to generate or reshare the key of one domain (state/key_event.rs). */
module KeyEvents {
  import opened Common
  import opened Parameters
  import opened Domains

  type EpochId = nat
  type AttemptId = nat
  type PublicKey = string

  datatype KeyEventId = KeyEventId(epoch: EpochId, domain: DomainId, attempt: AttemptId)
  datatype KeyForDomain = KeyForDomain(domain: DomainId, key: PublicKey, attempt: AttemptId)
  datatype Keyset = Keyset(epoch: EpochId, domains: seq<KeyForDomain>)

  datatype Instance = Instance(
    attempt: AttemptId, startedIn: nat, expiresOn: nat,
    completed: set<ParticipantId>, publicKey: Option<PublicKey>)

  datatype KeyEvent = KeyEvent(
    epoch: EpochId, domain: DomainConfig, parameters: ThresholdParameters,
    instance: Option<Instance>, nextAttempt: AttemptId)

  /** What the host tells a call: who signed it, the block it runs in, the configured timeout, and
      whether the signer passes the check for an attested participant. */
  datatype Env = Env(signer: AccountId, block: nat, timeout: nat, attested: bool)

  datatype Error =
    | NotParticipant | NotAttested | ProtocolState | ActiveKeyEvent | NoActiveKeyEvent | KeyEventIdMismatch
    | VoterNotLeader | VoteAlreadySubmitted | EpochMismatch | InvalidProposal | VoterPending
    | BadDomains | NextDomainIdMismatch | KeysetMismatch | BadMigration | Panic

  function NewKeyEvent(epoch: EpochId, domain: DomainConfig, parameters: ThresholdParameters): KeyEvent {
    KeyEvent(epoch, domain, parameters, None, 0)
  }

  /** A timed-out attempt is the same as no attempt. */
  function DropExpired(ke: KeyEvent, block: nat): KeyEvent {
    if ke.instance.Some? && ke.instance.value.expiresOn <= block then ke.(instance := None) else ke
  }

  function Start(ke: KeyEvent, env: Env, id: KeyEventId): Result<KeyEvent, Error> {
    var k := DropExpired(ke, env.block);
    var leader := Leader(k.parameters.Members());
    if k.instance.Some? then Err(ActiveKeyEvent)
    else if id != KeyEventId(k.epoch, k.domain.id, k.nextAttempt) then Err(KeyEventIdMismatch)
    else if leader.None? then Err(Panic)
    else if leader.value.account != env.signer then Err(VoterNotLeader)
    else
      var started := Instance(k.nextAttempt, env.block, env.block + 1 + env.timeout, {}, None);
      Ok(k.(instance := Some(started), nextAttempt := k.nextAttempt + 1))
  }

  /** The signer's participant id, if there is a live attempt and `id` names it. */
  function VerifyVote(ke: KeyEvent, env: Env, id: KeyEventId): Result<(ParticipantId, Instance), Error> {
    var candidate := FindId(ke.parameters.Members(), env.signer);
    var k := DropExpired(ke, env.block);
    if candidate.None? then Err(NotParticipant)
    else if k.instance.None? then Err(NoActiveKeyEvent)
    else if id != KeyEventId(k.epoch, k.domain.id, k.instance.value.attempt) then Err(KeyEventIdMismatch)
    else Ok((candidate.value, k.instance.value))
  }

  /** Records a success vote. The flag is set when everybody has voted for the same key; a vote
      for a different key drops the attempt. */
  function VoteSuccess(ke: KeyEvent, env: Env, id: KeyEventId, pk: PublicKey): Result<(KeyEvent, bool), Error> {
    var (candidate, inst) :- VerifyVote(ke, env, id);
    if inst.publicKey.Some? && inst.publicKey.value != pk then Ok((ke.(instance := None), false))
    else if candidate in inst.completed then Err(VoteAlreadySubmitted)
    else
      var inst' := inst.(publicKey := Some(pk), completed := inst.completed + {candidate});
      Ok((ke.(instance := Some(inst')), |inst'.completed| == |ke.parameters.Members()|))
  }

  function VoteAbort(ke: KeyEvent, env: Env, id: KeyEventId): Result<KeyEvent, Error> {
    var (candidate, inst) :- VerifyVote(ke, env, id);
    if candidate in inst.completed then Err(VoteAlreadySubmitted) else Ok(ke.(instance := None))
  }

  // ---------- what every reachable key event satisfies ----------

  ghost predicate ValidInstance(ke: KeyEvent, inst: Instance) {
    && inst.attempt < ke.nextAttempt
    && inst.completed <= Ids(ke.parameters.Members())
    && |inst.completed| < |ke.parameters.Members()|
    && (inst.completed == {} <==> inst.publicKey.None?)
  }

  ghost predicate ValidKeyEvent(ke: KeyEvent) {
    && ValidParameters(ke.parameters)
    && (ke.instance.Some? ==> ValidInstance(ke, ke.instance.value))
  }

  ghost predicate SameTarget(a: KeyEvent, b: KeyEvent) {
    a.epoch == b.epoch && a.domain == b.domain && a.parameters == b.parameters
  }

  lemma StartKeepsValid(ke: KeyEvent, env: Env, id: KeyEventId)
    requires ValidKeyEvent(ke)
    ensures Start(ke, env, id) != Err(Panic)
    ensures Start(ke, env, id).Ok? ==>
            ValidKeyEvent(Start(ke, env, id).value) && SameTarget(ke, Start(ke, env, id).value)
  {
  }

  /** A success vote keeps the event valid until the last participant has voted; then the voters
      are all participants and each of their votes was for this key. */
  lemma VoteSuccessOutcome(ke: KeyEvent, env: Env, id: KeyEventId, pk: PublicKey)
    requires ValidKeyEvent(ke)
    ensures var r := VoteSuccess(ke, env, id, pk);
            r.Ok? ==>
              && SameTarget(ke, r.value.0) && ke.nextAttempt == r.value.0.nextAttempt
              && (!r.value.1 ==> ValidKeyEvent(r.value.0))
              && (r.value.1 ==> r.value.0.instance.Some?
                                && r.value.0.instance.value.completed == Ids(ke.parameters.Members())
                                && r.value.0.instance.value.publicKey == Some(pk))
  {
    var r := VoteSuccess(ke, env, id, pk);
    if r.Ok? && r.value.0.instance.Some? {
      var ms := ke.parameters.Members();
      DistinctCardinality(ms);
      var done := r.value.0.instance.value.completed;
      assert done <= Ids(ms);
      SubsetCardinality(done, Ids(ms));
    }
  }
}
