/**
  The backup service "Trampoline": the single entry point of the backup
  manager. It holds at most one backing service (created only for the system
  user), gates its activation on a global kill switch, a suppress file and
  the caller's uid, and forwards every other call to the backing service
  once that exists, answering with a fixed default before.

  The backing service and the suppress file are not run: the calls the
  trampoline makes on them are recorded in two ghost logs.
 */
module BackupTrampoline {
  import opened Wrappers

  const USER_SYSTEM: int := 0
  const ROOT_UID: int := 0
  const SYSTEM_UID: int := 1000
  /** BackupManager.ERROR_BACKUP_NOT_ALLOWED */
  const ERROR_BACKUP_NOT_ALLOWED: int := -2001
  /** The value of the global BACKUP_MULTI_USER_ENABLED setting that turns multi-user backup on. */
  const MULTI_USER_ON: int := 1

  /** The calls of the backup manager interface that the trampoline forwards. */
  datatype Op =
    | DataChanged | ClearBackupData | AgentConnected | AgentDisconnected
    | RestoreAtInstall | SetBackupEnabled | SetAutoRestore | SetBackupProvisioned
    | IsBackupEnabled | SetBackupPassword | HasBackupPassword | BackupNow
    | AdbBackup | FullTransportBackup | AdbRestore | AcknowledgeFullBackupOrRestore
    | GetCurrentTransport | ListAllTransports | ListAllTransportComponents
    | GetTransportWhitelist | UpdateTransportAttributes | SelectBackupTransport
    | GetConfigurationIntent | GetDestinationString | GetDataManagementIntent
    | GetDataManagementLabel | BeginRestoreSession | OpComplete
    | GetAvailableRestoreToken | IsAppEligibleForBackup | RequestBackup
    | CancelBackups | BeginFullBackup | EndFullBackup

  /** What a call returns: nothing (void), a boolean, an int, a long, or a reference. */
  datatype Reply = Void | Bool(b: bool) | Int(i: int) | Long(l: int) | Ref(ref: Option<nat>)

  /**
    A call the trampoline made on the backing service. A forwarded call
    carries a user only where the service's own method takes one.
   */
  datatype ServiceCall =
    | Forwarded(op: Op, forUser: Option<int>)
    | SelectTransportAsync
    | StartServiceForUser(userId: int)
    | Dump

  /** A change the trampoline made to the suppress file or its directory. */
  datatype FileOp = MakeParentDirs | Delete | CreateNewFile

  datatype Status = Done | SecurityException

  /** The listener of selectBackupTransportAsync: absent (null), or one whose failure callback may throw. */
  datatype Listener = NoListener | Listener(throwsOnFailure: bool)

  /** The value a call returns while no backing service exists. */
  function DefaultReply(op: Op): (r: Reply)
    ensures r.Bool? ==> !r.b
    ensures r.Ref? ==> r.ref.None?
    ensures r.Long? ==> r.l == 0
    ensures r.Int? ==> r.i == ERROR_BACKUP_NOT_ALLOWED
  {
    match op
    case IsBackupEnabled | SetBackupPassword | HasBackupPassword
       | IsAppEligibleForBackup | BeginFullBackup => Bool(false)
    case GetCurrentTransport | ListAllTransports | ListAllTransportComponents
       | GetTransportWhitelist | SelectBackupTransport | GetConfigurationIntent
       | GetDestinationString | GetDataManagementIntent | GetDataManagementLabel
       | BeginRestoreSession => Ref(None)
    case GetAvailableRestoreToken => Long(0)
    case RequestBackup => Int(ERROR_BACKUP_NOT_ALLOWED)
    case _ => Void
  }

  /**
    The calls whose method on the backing service takes a user id; every other
    call reaches the service without one, whatever user it named.
   */
  predicate TakesUser(op: Op) {
    op in {SetBackupEnabled, IsBackupEnabled, BackupNow, AdbBackup, AdbRestore, RequestBackup, CancelBackups}
  }

  /** The user a call is meant for: the one it names, or the calling user when it names none. */
  function TargetUser(userId: Option<int>, callingUserId: int): (u: int)
    ensures userId.Some? ==> u == userId.value
    ensures userId.None? ==> u == callingUserId
  {
    userId.GetOr(callingUserId)
  }

  /**
    The user a forwarded call carries to the backing service: the target user
    for the calls whose service method takes one, none for the others.
   */
  function ServiceUser(op: Op, userId: Option<int>, callingUserId: int): (u: Option<int>)
    ensures u.Some? <==> TakesUser(op)
    ensures u.Some? && userId.Some? ==> u.value == userId.value
    ensures u.Some? && userId.None? ==> u.value == callingUserId
  {
    if TakesUser(op) then Some(TargetUser(userId, callingUserId)) else None
  }

  class Trampoline {
    /** A backing service exists (mService != null). */
    var active: bool
    /** The suppress file is on disk. */
    var suppressFileExists: bool
    /** How many backing services were created. */
    var createCount: nat
    /** Backup is disabled for the whole device (read once, at construction). */
    const backupDisabled: bool
    /** The global BACKUP_MULTI_USER_ENABLED setting. */
    var multiUserEnabled: int

    ghost var serviceCalls: seq<ServiceCall>
    ghost var fileOps: seq<FileOp>

    /**
      Object invariant: a live backing service means no suppress file and at
      least one creation; a globally disabled trampoline never creates one;
      no call ever reached a service that was never created.
     */
    ghost predicate Valid()
      reads this
    {
      && (active ==> !suppressFileExists && createCount > 0)
      && (backupDisabled ==> !active && createCount == 0)
      && (serviceCalls != [] ==> createCount > 0)
    }

    /** The constructor makes the suppress file's directory and creates no service. */
    constructor (backupDisabled: bool, suppressFileOnDisk: bool, multiUserSetting: int)
      ensures Valid()
      ensures !active && createCount == 0
      ensures this.backupDisabled == backupDisabled
      ensures suppressFileExists == suppressFileOnDisk
      ensures multiUserEnabled == multiUserSetting
      ensures serviceCalls == [] && fileOps == [MakeParentDirs]
    {
      this.backupDisabled := backupDisabled;
      active := false;
      suppressFileExists := suppressFileOnDisk;
      createCount := 0;
      multiUserEnabled := multiUserSetting;
      serviceCalls := [];
      fileOps := [MakeParentDirs];
    }

    /** Whether the backup service is active for a user: only the system user ever has one. */
    method IsBackupServiceActive(userId: int) returns (r: bool)
      ensures r <==> userId == USER_SYSTEM && active
    {
      r := userId == USER_SYSTEM && active;
    }

    /**
      Creates the backing service when the system user starts, unless backup is
      globally disabled or the suppress file exists; any other user leaves the
      trampoline as it was.
     */
    method InitializeService(userId: int)
      requires Valid()
      modifies this`active, this`createCount
      ensures Valid()
      ensures active <==> old(active) || (userId == USER_SYSTEM && !backupDisabled && !suppressFileExists)
      ensures var created := userId == USER_SYSTEM && !backupDisabled && !suppressFileExists;
              createCount == old(createCount) + (if created then 1 else 0)
    {
      if backupDisabled {
        return;
      }
      if userId == USER_SYSTEM && !suppressFileExists {
        active := true;
        createCount := createCount + 1;
      }
    }

    /**
      Turns the backing service on or off. Only the SYSTEM and ROOT uids may;
      any other caller gets a SecurityException and nothing changes. The call is
      ignored when backup is globally disabled, for a non-system user, or when
      the service already is in the requested state. Turning on creates the
      service and deletes the suppress file; turning off drops the service and
      creates the suppress file, the service ending inactive even when that
      creation fails with an IOException (`createFails`).
     */
    method SetBackupServiceActive(callingUid: int, userId: int, makeActive: bool, createFails: bool)
      returns (status: Status)
      requires Valid()
      modifies this`active, this`createCount, this`suppressFileExists, this`fileOps
      ensures Valid()
      ensures status == SecurityException <==> callingUid != SYSTEM_UID && callingUid != ROOT_UID
      ensures var effective := status == Done && !backupDisabled && userId == USER_SYSTEM
                               && makeActive != old(active);
              if !effective then
                && active == old(active) && createCount == old(createCount)
                && suppressFileExists == old(suppressFileExists) && fileOps == old(fileOps)
              else if makeActive then
                && active && createCount == old(createCount) + 1
                && !suppressFileExists && fileOps == old(fileOps) + [Delete]
              else
                && !active && createCount == old(createCount)
                && suppressFileExists == !createFails && fileOps == old(fileOps) + [CreateNewFile]
    {
      if callingUid != SYSTEM_UID && callingUid != ROOT_UID {
        return SecurityException;
      }
      status := Done;
      if backupDisabled {
        return;
      }
      if userId != USER_SYSTEM {
        return;
      }
      var isActive := IsBackupServiceActive(userId);
      if makeActive == isActive {
        return;
      }
      if makeActive {
        active := true;
        createCount := createCount + 1;
        fileOps := fileOps + [Delete];
        suppressFileExists := false;
      } else {
        active := false;
        fileOps := fileOps + [CreateNewFile];
        if !createFails {
          suppressFileExists := true;
        }
      }
    }

    /** A change of the global multi-user backup setting. */
    method PutMultiUserSetting(value: int)
      modifies this`multiUserEnabled
      ensures multiUserEnabled == value
    {
      multiUserEnabled := value;
    }

    /**
      A forwarded call. With a backing service it goes to the service (for the
      user the call names or else for the calling user, where the service's
      method takes a user) and the service's answer is returned; without one
      the service is not touched and the call's default is returned.
     */
    method Forward(op: Op, userId: Option<int>, callingUserId: int, serviceReply: Reply)
      returns (r: Reply)
      requires Valid()
      modifies this`serviceCalls
      ensures Valid()
      ensures active ==> r == serviceReply
                         && serviceCalls == old(serviceCalls) + [Forwarded(op, ServiceUser(op, userId, callingUserId))]
      ensures !active ==> r == DefaultReply(op) && serviceCalls == old(serviceCalls)
    {
      if active {
        serviceCalls := serviceCalls + [Forwarded(op, ServiceUser(op, userId, callingUserId))];
        r := serviceReply;
      } else {
        r := DefaultReply(op);
      }
    }

    /**
      selectBackupTransportAsync: forwarded with its listener (the user is not
      passed on) when a service exists; otherwise the listener, if there is one, is told
      ERROR_BACKUP_NOT_ALLOWED, and an exception it throws is swallowed.
      Returns the failure code the trampoline itself reported to the listener.
     */
    method SelectBackupTransportAsync(userId: int, listener: Listener) returns (reported: Option<int>)
      requires Valid()
      modifies this`serviceCalls
      ensures Valid()
      ensures active ==> reported.None? && serviceCalls == old(serviceCalls) + [SelectTransportAsync]
      ensures !active ==> serviceCalls == old(serviceCalls)
      ensures !active ==> (reported == Some(ERROR_BACKUP_NOT_ALLOWED) <==> listener.Listener?)
      ensures !active && listener.NoListener? ==> reported.None?
    {
      if active {
        serviceCalls := serviceCalls + [SelectTransportAsync];
        reported := None;
      } else if listener.Listener? {
        // a RemoteException thrown by the listener is caught and ignored
        reported := Some(ERROR_BACKUP_NOT_ALLOWED);
      } else {
        reported := None;
      }
    }

    /** dump is forwarded only to an existing service and only for a caller holding the DUMP permission. */
    method DumpState(hasDumpPermission: bool)
      requires Valid()
      modifies this`serviceCalls
      ensures Valid()
      ensures serviceCalls == old(serviceCalls) + (if hasDumpPermission && active then [Dump] else [])
    {
      if !hasDumpPermission {
        return;
      }
      if active {
        serviceCalls := serviceCalls + [Dump];
      }
    }

    /**
      A user was unlocked: a non-system user's backup service is started on the
      backing service only while the multi-user setting is 1.
     */
    method UnlockUser(userId: int)
      requires Valid()
      modifies this`serviceCalls
      ensures Valid()
      ensures var starts := userId != USER_SYSTEM && multiUserEnabled == MULTI_USER_ON && active;
              serviceCalls == old(serviceCalls) + (if starts then [StartServiceForUser(userId)] else [])
    {
      if userId != USER_SYSTEM && multiUserEnabled == MULTI_USER_ON && active {
        serviceCalls := serviceCalls + [StartServiceForUser(userId)];
      }
    }
  }

  /** Before any initialisation nothing is active and no call reaches a service. */
  method FreshTrampolineIsInactive(backupDisabled: bool, suppressFileOnDisk: bool, multiUser: int,
                                   op: Op, userId: Option<int>, callingUserId: int, serviceReply: Reply)
    returns (wasActive: bool, r: Reply)
    ensures !wasActive && r == DefaultReply(op)
  {
    var t := new Trampoline(backupDisabled, suppressFileOnDisk, multiUser);
    wasActive := t.IsBackupServiceActive(USER_SYSTEM);
    r := t.Forward(op, userId, callingUserId, serviceReply);
    assert t.serviceCalls == [];
  }

  /** Activating twice creates the backing service once. */
  method ActivateTwiceCreatesOnce(callingUid: int, createFails: bool) returns (count: nat)
    requires callingUid == SYSTEM_UID || callingUid == ROOT_UID
    ensures count == 1
  {
    var t := new Trampoline(false, false, 0);
    var s1 := t.SetBackupServiceActive(callingUid, USER_SYSTEM, true, createFails);
    var s2 := t.SetBackupServiceActive(callingUid, USER_SYSTEM, true, createFails);
    count := t.createCount;
  }

  /** Turning on and then off leaves the service inactive and the suppress file present unless its creation failed. */
  method ToggleOnOff(createFails: bool) returns (active: bool, fileOnDisk: bool)
    ensures !active && fileOnDisk == !createFails
  {
    var t := new Trampoline(false, true, 0);
    var s1 := t.SetBackupServiceActive(SYSTEM_UID, USER_SYSTEM, true, createFails);
    var s2 := t.SetBackupServiceActive(SYSTEM_UID, USER_SYSTEM, false, createFails);
    active, fileOnDisk := t.active, t.suppressFileExists;
  }
}
