/**
 * The data contracts shared by the settings-sync store client and the rest of the
 * sync engine (src/vs/platform/userDataSync/common/userDataSync.ts): the blob a key
 * holds, the store error and its code, the sync source and status enums with their
 * runtime values, the sync-state context key and the shape of a settings merge.
 */
module UserDataSync {
  import opened Wrappers

  /** IUserData: one revision of a key. `ref` is the server's revision marker;
      `content` is null when the key holds no value. */
  datatype UserData = UserData(ref: string, content: Option<string>)

  /** UserDataSyncStoreErrorCode, a string enum. */
  datatype UserDataSyncStoreErrorCode = Rejected | Unknown

  /** The string each error code stands for at runtime. */
  function CodeValue(code: UserDataSyncStoreErrorCode): string
  {
    match code
    case Rejected => "Rejected"
    case Unknown => "Unknown"
  }

  /** Recovers an error code from its runtime string; the inverse of CodeValue. */
  function ParseCode(value: string): (r: Option<UserDataSyncStoreErrorCode>)
    ensures r.Some? <==> value == "Rejected" || value == "Unknown"
    ensures forall code :: r == Some(code) <==> CodeValue(code) == value
  {
    if value == "Rejected" then Some(Rejected)
    else if value == "Unknown" then Some(Unknown)
    else None
  }

  /**
   * What a store operation is rejected with: a plain `Error` carrying only a message,
   * or a `UserDataSyncStoreError`, which keeps the message and the code it was
   * constructed with.
   */
  datatype SyncError =
    | PlainError(message: string)
    | UserDataSyncStoreError(message: string, code: UserDataSyncStoreErrorCode)

  /** The code a caller can read off an error: only a UserDataSyncStoreError has one. */
  function ErrorCode(e: SyncError): Option<UserDataSyncStoreErrorCode>
  {
    match e
    case PlainError(_) => None
    case UserDataSyncStoreError(_, code) => Some(code)
  }

  /** SyncSource, a numeric const enum: Settings = 1 and Extensions = 2. */
  datatype SyncSource = Settings | Extensions

  /** The number each sync source stands for at runtime. */
  function SourceValue(source: SyncSource): (n: int)
    ensures 1 <= n <= 2
  {
    match source
    case Settings => 1
    case Extensions => 2
  }

  /** Recovers a sync source from its number; the inverse of SourceValue. */
  function ParseSource(n: int): (r: Option<SyncSource>)
    ensures r.Some? <==> 1 <= n <= 2
    ensures forall source :: r == Some(source) <==> SourceValue(source) == n
  {
    if n == 1 then Some(Settings)
    else if n == 2 then Some(Extensions)
    else None
  }

  /** SyncStatus, a string const enum with exactly four members. */
  datatype SyncStatus = Uninitialized | Idle | Syncing | HasConflicts

  /** The string each status stands for at runtime. */
  function StatusValue(status: SyncStatus): string
  {
    match status
    case Uninitialized => "uninitialized"
    case Idle => "idle"
    case Syncing => "syncing"
    case HasConflicts => "hasConflicts"
  }

  /** Recovers a status from its runtime string; the inverse of StatusValue. It shows
      that the four runtime strings are distinct and that no other string names a status. */
  function ParseStatus(value: string): (r: Option<SyncStatus>)
    ensures r.Some? <==> value == "uninitialized" || value == "idle" || value == "syncing" || value == "hasConflicts"
    ensures forall status :: r == Some(status) <==> StatusValue(status) == value
  {
    if value == "uninitialized" then Some(Uninitialized)
    else if value == "idle" then Some(Idle)
    else if value == "syncing" then Some(Syncing)
    else if value == "hasConflicts" then Some(HasConflicts)
    else None
  }

  /** CONTEXT_SYNC_STATE: the context key that publishes the sync status as a string. */
  datatype RawContextKey = RawContextKey(key: string, defaultValue: string)

  const ContextSyncState := RawContextKey("syncStatus", StatusValue(Uninitialized))

  /** The sync-state context key starts out reading as Uninitialized. */
  lemma ContextSyncStateDefault()
    ensures ContextSyncState.key == "syncStatus"
    ensures ParseStatus(ContextSyncState.defaultValue) == Some(Uninitialized)
  {
  }

  /** IExtensionIdentifier, as far as this file uses it. */
  datatype ExtensionIdentifier = ExtensionIdentifier(id: string, uuid: Option<string>)

  /** ISyncExtension: an extension as recorded in the remote store. */
  datatype SyncExtension = SyncExtension(identifier: ExtensionIdentifier, version: Option<string>, enabled: bool)

  /** What ISynchroniser and IUserDataSyncService expose to readers: the status and,
      for the service, which source holds the conflict, if any. */
  datatype SyncServiceView = SyncServiceView(status: SyncStatus, conflictsSource: Option<SyncSource>)

  /** The result ISettingsMergeService.merge yields. */
  datatype MergeResult = MergeResult(mergeContent: string, hasChanges: bool, hasConflicts: bool)

  /** ISettingsMergeService.merge(localContent, remoteContent, baseContent): the base may be null. */
  type SettingsMerge = (string, string, Option<string>) -> MergeResult
}
