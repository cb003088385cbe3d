/** The contract's state as one value, and its entry points as actions on it: phases, update votes, policy
    votes and node migrations together. An action that fails leaves everything as it was. */
module ContractState {
  import opened Common
  import opened Parameters
  import opened KeyEvents
  import opened Lifecycle
  import opened LifecycleSafety
  import U = Updates
  import F = ForeignPolicy
  import M = Migrations

  datatype Whole = Whole(
    phase: Phase, updates: U.UpdateState, policy: F.PolicyState, backups: M.Backups, ongoing: M.Ongoing)

  /** Calls by name, with what the host and the attestation store contribute. `signerKey` is the key that
      signed the call; `destinationAttested` is whether the new node has a valid attestation. */
  datatype Action =
    | OnPhase(env: Env, call: Call)
    | OnUpdates(caller: AccountId, update: U.Call)
    | OnPolicy(caller: AccountId, policy: F.Policy)
    | RegisterBackupService(caller: AccountId, backup: M.BackupServiceInfo)
    | StartNodeMigration(caller: AccountId, destination: M.DestinationNodeInfo)
    | ConcludeNodeMigration(env: Env, signerKey: string, keyset: Keyset, destinationAttested: bool)
    | CleanupOrphanedNodeMigrations

  datatype Reply = Failed | Done | Answered(outcome: U.Outcome)

  function AccountList(ms: seq<Participant>): (r: seq<AccountId>)
    ensures |r| == |ms| && forall i :: 0 <= i < |r| ==> r[i] == ms[i].account
  {
    seq(|ms|, i requires 0 <= i < |ms| => ms[i].account)
  }

  /** Existing and, while resharing, prospective participants. */
  function KnownAccounts(s: Phase): set<AccountId> {
    Accounts(VotersOf(s).Members()) + Accounts(ActiveParticipants(s))
  }

  function UpdateContext(s: Phase): U.Context {
    U.Context(s.Running?, AccountList(VotersOf(s).Members()), VotersOf(s).threshold)
  }

  lemma VotersAreDistinct(s: Phase)
    requires Valid(s)
    ensures Injective(UpdateContext(s).voters)
  {
  }

  /** What concluding a migration asks of the running phase: the caller's own record decides. */
  function ConclusionOf(destination: Option<M.DestinationNodeInfo>, signerKey: string, keyset: Keyset,
                        attested: bool): Call
  {
    match destination
    case Some(d) => ConcludeMigration(keyset, d.info, d.signerKey == signerKey && attested)
    case None => ConcludeMigration(keyset, ParticipantInfo("", ""), false)
  }

  ghost function Act(w: Whole, a: Action): (Whole, Reply) {
    match a
    case OnPhase(env, c) =>
      var s := Step(w.phase, env, c);
      if c.ConcludeMigration? || s.Err? then (w, Failed) else (w.(phase := s.value), Done)
    case OnUpdates(caller, c) =>
      var (u, out) := U.Step(w.updates, U.Event(UpdateContext(w.phase), caller, c));
      (w.(updates := u), Answered(out))
    case OnPolicy(caller, policy) =>
      var e := F.Event(w.phase.Running?, AccountList(VotersOf(w.phase).Members()), caller, policy);
      var (p, out) := F.Step(w.policy, e);
      (w.(policy := p), if out.Rejected? then Failed else Done)
    case RegisterBackupService(caller, info) =>
      if caller !in KnownAccounts(w.phase) then (w, Failed) else (w.(backups := w.backups[caller := info]), Done)
    case StartNodeMigration(caller, d) =>
      if !w.phase.Running? || caller !in Accounts(VotersOf(w.phase).Members()) then (w, Failed)
      else (w.(ongoing := w.ongoing[caller := d]), Done)
    case ConcludeNodeMigration(env, signerKey, keyset, attested) =>
      var s := Step(w.phase, env, ConclusionOf(M.Lookup(w.ongoing, env.signer), signerKey, keyset, attested));
      if s.Err? then (w, Failed) else (w.(phase := s.value, ongoing := w.ongoing - {env.signer}), Done)
    case CleanupOrphanedNodeMigrations =>
      if w.phase.NotInitialized? && w.backups != map[] then (w, Failed)
      else
        var known := KnownAccounts(w.phase);
        (w.(backups := M.CleanedBackups(w.backups, known), ongoing := M.CleanedOngoing(w.backups, w.ongoing, known)),
          Done)
  }

  /** A new contract: running, with nothing voted for and nothing recorded. */
  ghost predicate Initial(w: Whole) {
    && w.phase.Running? && Valid(w.phase) && w.phase.run.parametersVotes == map[]
    && w.updates == U.EMPTY_UPDATES && w.policy == F.NO_POLICY && w.backups == map[] && w.ongoing == map[]
  }

  ghost function RunAll(w: Whole, actions: seq<Action>): Whole {
    if actions == [] then w else Act(RunAll(w, actions[..|actions| - 1]), actions[|actions| - 1]).0
  }

  ghost function Replies(w: Whole, actions: seq<Action>): (r: seq<Reply>)
    ensures |r| == |actions|
  {
    if actions == [] then []
    else
      var before, a := actions[..|actions| - 1], actions[|actions| - 1];
      Replies(w, before) + [Act(RunAll(w, before), a).1]
  }
}
