/** Records for moving a node to a new machine (node_migrations.rs) and their cleanup (lib.rs,
    `cleanup_orphaned_node_migrations`). */
module Migrations {
  import opened Common
  import opened Parameters

  datatype BackupServiceInfo = BackupServiceInfo(publicKey: string)
  datatype DestinationNodeInfo = DestinationNodeInfo(signerKey: string, info: ParticipantInfo)

  type Backups = map<AccountId, BackupServiceInfo>
  type Ongoing = map<AccountId, DestinationNodeInfo>
  type Entry = (Option<BackupServiceInfo>, Option<DestinationNodeInfo>)

  function Lookup<V>(m: map<AccountId, V>, a: AccountId): Option<V> {
    if a in m then Some(m[a]) else None
  }

  /** The two maps joined account by account. */
  function Joined(backups: Backups, ongoing: Ongoing): map<AccountId, Entry> {
    map a | a in backups.Keys + ongoing.Keys :: (Lookup(backups, a), Lookup(ongoing, a))
  }

  class NodeMigrations {
    var backupServicesInfo: Backups
    var ongoingMigrations: Ongoing

    constructor ()
      ensures backupServicesInfo == map[] && ongoingMigrations == map[]
    {
      backupServicesInfo, ongoingMigrations := map[], map[];
    }

    method SetBackupServiceInfo(account: AccountId, info: BackupServiceInfo)
      modifies this`backupServicesInfo
      ensures backupServicesInfo == old(backupServicesInfo)[account := info]
    {
      backupServicesInfo := backupServicesInfo[account := info];
    }

    method SetDestinationNodeInfo(account: AccountId, info: DestinationNodeInfo)
      modifies this`ongoingMigrations
      ensures ongoingMigrations == old(ongoingMigrations)[account := info]
    {
      ongoingMigrations := ongoingMigrations[account := info];
    }

    method RemoveAccountData(account: AccountId)
      modifies this
      ensures backupServicesInfo == old(backupServicesInfo) - {account}
      ensures ongoingMigrations == old(ongoingMigrations) - {account}
    {
      backupServicesInfo := backupServicesInfo - {account};
      ongoingMigrations := ongoingMigrations - {account};
    }

    method RemoveMigration(account: AccountId) returns (r: Option<DestinationNodeInfo>)
      modifies this`ongoingMigrations
      ensures r == Lookup(old(ongoingMigrations), account)
      ensures ongoingMigrations == old(ongoingMigrations) - {account}
    {
      r := Lookup(ongoingMigrations, account);
      ongoingMigrations := ongoingMigrations - {account};
    }

    function GetForAccount(account: AccountId): (r: Entry)
      reads this
      ensures r == (None, None) <==> account !in Joined(backupServicesInfo, ongoingMigrations)
    {
      (Lookup(backupServicesInfo, account), Lookup(ongoingMigrations, account))
    }

    /** Everything on record: for each account with any data, what `GetForAccount` gives for it. */
    method GetAll() returns (all: map<AccountId, Entry>)
      ensures all == Joined(backupServicesInfo, ongoingMigrations)
      ensures forall a :: a in all ==> all[a] == GetForAccount(a)
      ensures forall a :: a !in all ==> GetForAccount(a) == (None, None)
    {
      all := map[];
      var keys := backupServicesInfo.Keys;
      while keys != {}
        invariant keys <= backupServicesInfo.Keys
        invariant all.Keys == backupServicesInfo.Keys - keys
        invariant forall a :: a in all ==> all[a] == (Some(backupServicesInfo[a]), None)
        decreases keys
      {
        var a :| a in keys;
        all := all[a := (Some(backupServicesInfo[a]), None)];
        keys := keys - {a};
      }
      keys := ongoingMigrations.Keys;
      while keys != {}
        invariant keys <= ongoingMigrations.Keys
        invariant all.Keys == backupServicesInfo.Keys + (ongoingMigrations.Keys - keys)
        invariant forall a :: a in all ==>
                    all[a] == (Lookup(backupServicesInfo, a), if a in keys then None else Lookup(ongoingMigrations, a))
        decreases keys
      {
        var a :| a in keys;
        all := all[a := (if a in all then all[a].0 else None, Some(ongoingMigrations[a]))];
        keys := keys - {a};
      }
    }

    /** Drops the data of every account that has a backup service and is no participant. */
    method CleanupOrphaned(participants: set<AccountId>)
      modifies this
      ensures backupServicesInfo == CleanedBackups(old(backupServicesInfo), participants)
      ensures ongoingMigrations == CleanedOngoing(old(backupServicesInfo), old(ongoingMigrations), participants)
    {
      var keys := backupServicesInfo.Keys;
      ghost var removed: set<AccountId> := {};
      while keys != {}
        invariant keys <= old(backupServicesInfo).Keys
        invariant removed == old(backupServicesInfo).Keys - keys - participants
        invariant backupServicesInfo == old(backupServicesInfo) - removed
        invariant ongoingMigrations == old(ongoingMigrations) - removed
        decreases keys
      {
        var a :| a in keys;
        keys := keys - {a};
        if a !in participants {
          RemoveAccountData(a);
          removed := removed + {a};
        }
      }
    }
  }

  function CleanedBackups(backups: Backups, participants: set<AccountId>): Backups {
    map a | a in backups && a in participants :: backups[a]
  }

  function CleanedOngoing(backups: Backups, ongoing: Ongoing, participants: set<AccountId>): Ongoing {
    map a | a in ongoing && (a in participants || a !in backups) :: ongoing[a]
  }

  /** The cleanup changes no participant's records, and what it leaves of a former participant is
      exactly a migration started without a backup service. */
  lemma CleanupLeavesIff(backups: Backups, ongoing: Ongoing, participants: set<AccountId>, a: AccountId)
    ensures var before, after := Joined(backups, ongoing),
            Joined(CleanedBackups(backups, participants), CleanedOngoing(backups, ongoing, participants));
            && (a in participants ==> Lookup(after, a) == Lookup(before, a))
            && (a !in participants ==> (a in after <==> a in ongoing && a !in backups))
  {
  }
}
