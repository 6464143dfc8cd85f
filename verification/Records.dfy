/** The durable credential record of one connection, and every edit the engine makes to it.

    The source keeps a record as string keys under the prefix "<connection>."; here each key
    is a field, absent keys are `None`, and random UUIDs are serial numbers (only their
    distinctness is ever used). */
module CredentialRecords {
  import opened Wrappers

  datatype Connection =
    OpenaiPlan | OpenaiPlatform | AnthropicPlan | AnthropicPlatform | CursorPlan | CursorPlatform

  type Id = nat

  /** Keys of the secure store that the engine ever names. */
  datatype Slot =
    | Minted(connection: Connection, id: Id)   // wardpulse.connection.<connection>.<uuid>
    | CodexSession                             // wardpulse.codex.account-session
    | ClaudeSession                            // wardpulse.claude.account-session
    | AdminApiKey                              // wardpulse.openai.admin-api-key
    | PastedSecret(connection: Connection)     // wardpulse.<connection>.secret
    | CompanionConfig                          // wardpulse.codex-companion.config

  datatype Mode = Legacy | Migration | Pending | Active | Deleted

  datatype Action = Read | Refresh | Reconnect | Complete | Cancel | Delete | UnknownAction

  /** A stored snapshot time: Java parses it as a 64-bit integer, or not at all. */
  datatype Stamp = Number(value: int) | Garbage

  datatype Cache = Cache(payload: Option<string>, at: Option<Stamp>, version: Option<string>, micros: bool)

  const EmptyCache := Cache(None, None, None, false)

  datatype Record = Record(
    lifecycle: bool,
    mode: Option<Mode>,
    generation: Option<Id>,
    revision: Option<Id>,
    epoch: Option<Id>,
    slot: Option<Slot>,
    identity: Option<string>,
    previousSlot: Option<Slot>,
    previousIdentity: Option<string>,
    previousMode: Option<Mode>,
    previousBackupKey: Option<Slot>,
    pendingSlot: Option<Slot>,
    backupKey: Option<Slot>,
    backupSlot: Option<Slot>,
    backupGeneration: Option<Id>,
    backupRevision: Option<Id>,
    retired: seq<Slot>,
    cache: Cache)

  const Blank := Record(false, None, None, None, None, None, None, None, None, None, None, None,
                        None, None, None, None, [], EmptyCache)

  /** What `state` answers for a connection with no stored key. */
  const LegacyState := Blank.(mode := Some(Legacy))

  /** The version a client quotes back; any key may be missing. */
  datatype Version = Version(generation: Option<Id>, revision: Option<Id>, epoch: Option<Id>, identity: Option<string>)

  function VersionOf(r: Record): Version {
    Version(r.generation, r.revision, r.epoch, r.identity)
  }

  function LegacyKey(c: Connection): Slot {
    match c
    case OpenaiPlan => CodexSession
    case AnthropicPlan => ClaudeSession
    case OpenaiPlatform => AdminApiKey
    case _ => PastedSecret(c)
  }

  /** The only connection whose record may ever name this slot. */
  function Home(s: Slot): Connection {
    match s
    case Minted(c, _) => c
    case CodexSession => OpenaiPlan
    case ClaudeSession => AnthropicPlan
    case AdminApiKey => OpenaiPlatform
    case PastedSecret(c) => c
    case CompanionConfig => OpenaiPlan
  }

  /** The check `state` makes before it hands a stored record out. */
  predicate Readable(r: Record) {
    && r.lifecycle && r.generation.Some? && r.revision.Some? && r.epoch.Some? && r.mode.Some?
    && (r.mode.value == Active ==> r.slot.Some? && r.identity.Some?)
  }

  predicate ValidBackup(r: Record, c: Connection) {
    && r.mode == Some(Active) && r.backupKey == Some(LegacyKey(c))
    && r.slot.Some? && r.slot == r.backupSlot
    && r.generation.Some? && r.generation == r.backupGeneration
    && r.revision.Some? && r.revision == r.backupRevision
  }

  predicate Same(r: Record, expected: Option<Version>, credentialRevision: bool) {
    && r.mode == Some(Active) && expected.Some?
    && r.generation.Some? && r.generation == expected.value.generation
    && r.identity.Some? && r.identity == expected.value.identity
    && if credentialRevision then r.revision.Some? && r.revision == expected.value.revision
       else r.epoch.Some? && r.epoch == expected.value.epoch
  }

  /** A pending sign-in is quoted by generation and revision only. */
  predicate SamePending(r: Record, expected: Option<Version>) {
    && r.mode == Some(Pending) && expected.Some?
    && r.generation.Some? && r.generation == expected.value.generation
    && r.revision.Some? && r.revision == expected.value.revision
  }

  // ---- Edits ----

  function Retire(r: Record, s: Option<Slot>): Record {
    if s.None? || s.value in r.retired then r else r.(retired := r.retired + [s.value])
  }

  function RemoveBackup(r: Record): Record {
    r.(backupKey := None, backupSlot := None, backupGeneration := None, backupRevision := None)
  }

  function BindBackup(r: Record): Record {
    if r.backupKey.None? then r
    else r.(backupSlot := r.slot, backupGeneration := r.generation, backupRevision := r.revision)
  }

  /** Mints `n`, `n + 1` and `n + 2`. */
  function Barrier(r: Record, mode: Mode, n: Id): Record {
    r.(lifecycle := true, generation := Some(n), revision := Some(n + 1), epoch := Some(n + 2),
       mode := Some(mode), cache := EmptyCache)
  }

  function Remember(r: Record, c: Connection): Record {
    if r.mode == Some(Active) then
      r.(previousSlot := r.slot, previousIdentity := r.identity, previousMode := Some(Active),
         previousBackupKey := if ValidBackup(r, c) then r.backupKey else None)
    else if r.mode == Some(Legacy) || r.mode == Some(Migration) then
      r.(previousSlot := None, previousIdentity := None, previousMode := Some(Legacy))
    else if r.mode == Some(Pending) then r
    else r.(previousSlot := None, previousIdentity := None, previousMode := None)
  }

  /** Mints `n` to `n + 3`; the candidate slot is `Minted(c, n + 3)`. */
  function ReconnectRecord(r: Record, c: Connection, n: Id): Record {
    var kept := Remember(r, c);
    var barred := Barrier(Retire(Retire(kept, kept.slot), Some(LegacyKey(c))), Pending, n);
    var cleared := RemoveBackup(barred.(slot := None, identity := None));
    Retire(cleared, Some(Minted(c, n + 3))).(pendingSlot := Some(Minted(c, n + 3)))
  }

  /** Mints `n` to `n + 2`. */
  function DeleteRecord(r: Record, c: Connection, n: Id): Record {
    var keys := Retire(Retire(r, r.slot), Some(LegacyKey(c)));
    var more := if c == OpenaiPlan then Retire(keys, Some(CompanionConfig))
                else if c == AnthropicPlan then Retire(keys, Some(PastedSecret(AnthropicPlan)))
                else keys;
    RemoveBackup(Barrier(more, Deleted, n).(
      slot := None, identity := None, previousSlot := None, previousIdentity := None,
      previousMode := None, pendingSlot := None, previousBackupKey := None))
  }

  function RefreshRecord(r: Record, c: Connection, n: Id): Record {
    Retire(r, Some(Minted(c, n)))
  }

  function MigrationIds(r: Record): nat {
    if r.mode == Some(Active) then 1 else 4
  }

  /** Mints `MigrationIds(r)` ids from `n`; the last one names the write slot. */
  function MigrationSlot(r: Record, c: Connection, n: Id): Slot {
    Minted(c, n + MigrationIds(r) - 1)
  }

  function MigrationRecord(r: Record, c: Connection, n: Id): Record {
    Retire(if r.mode == Some(Active) then r else Barrier(r, Migration, n), Some(MigrationSlot(r, c, n)))
  }

  /** Mints `n`, the new revision. */
  function ActivateRecord(r: Record, c: Connection, action: Action, slot: Slot, identity: string, n: Id): Record {
    var migrated := if r.mode == Some(Migration) then r.(backupKey := Some(LegacyKey(c))) else r;
    var owned := if action == Complete || action == Refresh then RemoveBackup(Retire(migrated, migrated.backupKey))
                 else migrated;
    var retired := Retire(owned, owned.slot);
    var active := BindBackup(retired.(slot := Some(slot), identity := Some(identity),
                                      revision := Some(n), mode := Some(Active)));
    active.(previousSlot := None, previousIdentity := None, previousMode := None,
            pendingSlot := None, previousBackupKey := None)
  }

  function CancelRecord(r: Record): Record {
    var open := r.(previousSlot := None, previousIdentity := None, previousMode := None,
                   previousBackupKey := None, pendingSlot := None,
                   backupKey := if r.previousBackupKey.Some? then r.previousBackupKey else r.backupKey,
                   mode := Some(if r.previousSlot.Some? then Active
                                else if r.previousMode == Some(Legacy) then Legacy else Deleted));
    if r.previousSlot.Some? then BindBackup(open.(slot := r.previousSlot, identity := r.previousIdentity))
    else open
  }

  /** A missing secret or a changed identity; mints `n` to `n + 2`. */
  function DropRecord(r: Record, n: Id): Record {
    RemoveBackup(Barrier(Retire(r, r.slot), Deleted, n).(slot := None, identity := None))
  }

  /** An owner vanished inside a write; mints `n` to `n + 2`. */
  function DetachRecord(r: Record, n: Id): Record {
    Barrier(Retire(r, r.slot), Pending, n).(
      slot := None, identity := None, previousSlot := None, previousIdentity := None,
      previousMode := None, pendingSlot := None)
  }

  // ---- What a record still needs from the secure store ----

  predicate Names(r: Record, s: Slot) {
    r.slot == Some(s) || r.previousSlot == Some(s)
  }

  /** A slot the record may still read back or restore: never to be offered for cleanup. */
  predicate Guarded(r: Record, c: Connection, s: Slot) {
    || Names(r, s)
    || r.previousBackupKey == Some(s)
    || (r.backupKey == Some(s) && ValidBackup(r, c))
    || (s == LegacyKey(c) &&
        (r.mode == Some(Legacy) || r.mode == Some(Migration) || r.previousMode == Some(Legacy)))
  }

  /** What cancelling a sign-in would return to. */
  datatype Target = NoTarget | LegacyTarget | SlotTarget(slot: Slot, identity: string)

  function TargetOf(r: Record): Target {
    if r.mode == Some(Active) && r.slot.Some? && r.identity.Some? then SlotTarget(r.slot.value, r.identity.value)
    else if r.mode == Some(Pending) && r.previousSlot.Some? && r.previousIdentity.Some? then
      SlotTarget(r.previousSlot.value, r.previousIdentity.value)
    else if r.mode == Some(Legacy) || r.mode == Some(Migration)
            || (r.mode == Some(Pending) && r.previousMode == Some(Legacy)) then LegacyTarget
    else NoTarget
  }
}
