/** The data model of the agent vault: identities, approvals, records, grants, receipts,
    deliveries and the application value that is sealed into one image.

    Fingerprints and image hashes are free constructors, so they are injective by construction;
    a sealed image carries the value it encrypts together with what is needed to open it. */
module Types {

  datatype Option<+T> = None | Some(value: T)

  datatype Result<+T> = Ok(value: T) | Err(error: Error)

  datatype Error =
    | Denied | Invalid | Conflict | ReplayConflict | ClockRecoveryRequired | Capacity
    | InteractionRequired | GenerationUnavailable | NotPublished | RecoveryRequired
    | InvalidStorage | InUse

  const TIME_MIN: int := -0x8000_0000_0000_0000
  const TIME_MAX: int := 0x7fff_ffff_ffff_ffff
  const U64_MAX: int := 0xffff_ffff_ffff_ffff
  const LIMIT: nat := 10_000
  const COMPACT_AT: nat := 8_000
  const RETRY_WINDOW: int := 24 * 60 * 60
  const CLOCK_SKEW_TOLERANCE: int := 5
  const CLOCK_PERSIST_INTERVAL: int := 60

  /** Seconds as a signed 64-bit value. */
  type Time = t: int | TIME_MIN <= t <= TIME_MAX

  /** An unsigned 64-bit counter. */
  type U64 = n: int | 0 <= n <= U64_MAX

  /** Identifiers; zero is the nil identifier. */
  type Uuid = nat
  const NIL: Uuid := 0

  datatype Field = Label | Username | Password | ApiKey | Notes

  predicate Secret(f: Field) { f == Password || f == ApiKey }

  type Values = map<Field, string>

  datatype Permission = MetadataRead | SecretUse | SecretRead | SecretWrite | AccessGrant | EntryDelete

  datatype Context = Context(owner: string, principal: string, workspace: string, admin: bool,
                             sessionDeadline: Option<Time>)

  datatype ShareBounds = ShareBounds(recipients: set<string>, fields: set<Field>,
                                     permissions: set<Permission>, destinations: set<string>,
                                     expiresAt: Time, allowFollowActive: bool)

  datatype Task = Task(id: Uuid, owner: string, principal: string, workspace: string,
                       service: string, origin: string, fields: set<Field>,
                       permissions: set<Permission>, destinations: set<string>,
                       expiresAt: Time, share: Option<ShareBounds>)

  datatype CredentialKind = LoginKind | ApiKeyKind

  datatype Signup = Pending | Submitted | ReportedSuccess | VerifiedLogin | Rejected | HumanRequired | Unknown

  datatype Record = Record(id: Uuid, owner: string, workspace: string, createdBy: string, task: Uuid,
                           service: string, origin: string, kind: CredentialKind, revision: U64,
                           secretVersion: U64, values: Values, signup: Signup, deleted: bool,
                           restored: bool)

  datatype GrantSpec = GrantSpec(recipient: string, fields: set<Field>, permissions: set<Permission>,
                                 destinations: set<string>, expiresAt: Time, followActive: bool)

  datatype Grant = Grant(record: Uuid, spec: GrantSpec, revoked: bool, version: U64,
                         issuerTask: Uuid, adminIssued: bool)

  datatype GenerationPolicy = GenerationPolicy(length: nat, symbols: bool, requireClasses: bool)

  datatype Mutation =
    | Create(kind: CredentialKind, values: Values)
    | Generate(kind: CredentialKind, username: Option<string>, policy: Option<GenerationPolicy>)
    | Patch(record: Uuid, expected: U64, values: Values)
    | Delete(record: Uuid, expected: U64)
    | Share(record: Uuid, expected: U64, grant: GrantSpec)
    | Revoke(record: Uuid, expected: U64, grantId: Uuid)
    | ReportOutcome(record: Uuid, expected: U64, state: Signup)

  datatype Receipt = Receipt(record: Uuid, revision: U64, grant: Option<Uuid>)

  datatype Status = StAccepted | StRejected | StHumanRequired | StUnknown

  datatype PrivateAction = Use | Register | Login

  datatype PrivateUse = PrivateUse(request: Uuid, record: Uuid, fields: set<Field>,
                                   destination: string, action: PrivateAction)

  datatype Fingerprint = OfMutation(op: Mutation) | OfUse(request: PrivateUse)

  datatype RequestKey = RequestKey(owner: string, principal: string, task: Uuid, id: Uuid)

  datatype Kind = KCreate | KPatch | KMetadataPatch | KDelete | KShare | KRevoke | KReportOutcome

  datatype Remembered = Remembered(fingerprint: Fingerprint, result: Receipt, kind: Kind, at: Option<Time>)

  datatype Delivery = Delivery(task: Uuid, record: Uuid, version: U64, destination: string,
                               fields: set<Field>, status: Option<Status>, key: RequestKey,
                               fingerprint: Fingerprint, action: PrivateAction, dispatched: bool,
                               at: Option<Time>)

  datatype DeliveryReceipt = DeliveryReceipt(attempt: Uuid, status: Status)

  /** Revisions `1..=through` have no cached receipt any more; `secretVersion` is the version after them. */
  datatype Baseline = Baseline(through: U64, secretVersion: U64, deletePruned: bool,
                               prunedGrants: set<Uuid>, registrationDispatched: bool, verifiedLogin: bool)

  const NO_BASELINE := Baseline(0, 0, false, {}, false, false)

  datatype AuditAction = MutationEvent | MetadataReadEvent | SecretReadEvent | SecretUseEvent

  datatype AuditEvent = AuditEvent(task: Uuid, record: Uuid, request: Option<Uuid>, action: AuditAction,
                                   at: Time, principal: string)

  datatype App = App(tasks: map<Uuid, Task>, records: map<Uuid, Record>, grants: map<Uuid, Grant>,
                     requests: map<RequestKey, Remembered>, audit: seq<AuditEvent>,
                     lastTime: Option<Time>, clockFrozen: bool, generation: U64,
                     revokedTasks: set<Uuid>, deliveries: map<Uuid, Delivery>,
                     baselines: map<Uuid, Baseline>, predecessor: Option<Digest>)

  const EMPTY := App(map[], map[], map[], map[], [], None, false, 0, {}, map[], map[], None)

  /** Salt and key-derivation parameters of one sealed image. */
  datatype Header = Header(salt: nat, kdf: nat)

  /** An authenticated encryption of `app`: it opens with `seed` and with no other seed. */
  datatype Image = Sealed(app: App, seed: string, header: Header, nonce: nat)

  datatype Digest = DigestOf(image: Image)

  /** What one operation leaves behind: the staged application and the caller's result. */
  datatype Outcome<+T> = Outcome(app: App, result: Result<T>)
}
