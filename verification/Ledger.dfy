/** The ledger invariant that every published image satisfies: references resolve, grants are attenuated,
    each record's revisions are contiguous and accounted exactly once by a receipt or by its baseline,
    secret versions are the baseline's plus the retained patches, every grant is accounted exactly once,
    and registrations are unique. */
module Ledger {
  import opened Types
  import opened Policy

  predicate SameScope(t: Task, r: Record)
  {
    t.owner == r.owner && t.workspace == r.workspace && t.origin == r.origin && t.service == r.service
  }

  // ----- reading a baseline that may be absent -----

  function BaseOf(baselines: map<Uuid, Baseline>, id: Uuid): Baseline
  {
    if id in baselines then baselines[id] else NO_BASELINE
  }

  function Through(baselines: map<Uuid, Baseline>, id: Uuid): U64 { BaseOf(baselines, id).through }

  // ----- header, sizes, tasks -----

  lemma {:induction false} SubsetSize<T>(a: set<T>, b: set<T>)
    requires a <= b
    ensures |a| <= |b|
  {
    if a != {} {
      var x :| x in a;
      SubsetSize(a - {x}, b - {x});
    }
  }

  predicate HeaderOk(app: App)
  {
    app.generation > 0 && (app.clockFrozen ==> app.lastTime.Some?)
  }

  predicate LimitsOk(app: App)
  {
    && |app.tasks| <= LIMIT && |app.records| <= LIMIT && |app.grants| <= LIMIT && |app.requests| <= LIMIT
    && |app.revokedTasks| <= LIMIT && |app.deliveries| <= LIMIT && |app.audit| <= LIMIT && |app.baselines| <= LIMIT
  }

  ghost predicate TasksOk(tasks: map<Uuid, Task>)
  {
    && (forall id | id in tasks :: tasks[id].id == id && TaskBoundsOk(tasks[id], TIME_MIN))
    && (forall a, b | a in tasks && b in tasks ::
          tasks[a].owner == tasks[b].owner && tasks[a].workspace == tasks[b].workspace)
  }

  // ----- records and grants -----

  predicate RecordOk(t: Task, id: Uuid, r: Record)
  {
    && id != NIL && id == r.id && SameScope(t, r) && t.principal == r.createdBy
    && 0 < r.secretVersion <= r.revision && SecretWrite in t.permissions
    && (if r.deleted then r.values == map[]
        else ValuesOk(r.values) && r.values.Keys <= t.fields && KindMatches(r.kind, r.values))
  }

  ghost predicate RecordsOk(tasks: map<Uuid, Task>, records: map<Uuid, Record>)
  {
    forall id | id in records :: records[id].task in tasks && RecordOk(tasks[records[id].task], id, records[id])
  }

  predicate GrantOk(t: Task, r: Record, id: Uuid, g: Grant)
  {
    && id != NIL && SameScope(t, r) && 0 < g.version <= r.secretVersion && (r.deleted ==> g.revoked)
    && g.spec.fields != {} && g.spec.permissions != {} && AccessGrant !in g.spec.permissions
    && !BadText(g.spec.recipient)
    && g.spec.fields <= t.fields && g.spec.permissions <= t.permissions && g.spec.destinations <= t.destinations
    && TIME_MIN < g.spec.expiresAt <= t.expiresAt
    && (SecretUse in g.spec.permissions ==> g.spec.destinations != {})
    && (!r.deleted ==> g.spec.fields <= r.values.Keys)
    && (!g.adminIssued ==>
          && t.share.Some? && t.principal == r.createdBy && t.id == r.task && AccessGrant in t.permissions
          && WithinBounds(g.spec, t.share.value))
  }

  ghost predicate GrantsOk(tasks: map<Uuid, Task>, records: map<Uuid, Record>, grants: map<Uuid, Grant>)
  {
    forall id | id in grants ::
      && grants[id].record in records && grants[id].issuerTask in tasks
      && GrantOk(tasks[grants[id].issuerTask], records[grants[id].record], id, grants[id])
  }

  // ----- cached receipts -----

  predicate GrantReceiptOk(key: RequestKey, c: Remembered, grants: map<Uuid, Grant>)
  {
    && c.result.grant.Some? && c.result.grant.value in grants
    && grants[c.result.grant.value].record == c.result.record
    && (c.kind == KShare ==> grants[c.result.grant.value].issuerTask == key.task)
    && (c.kind == KRevoke ==> grants[c.result.grant.value].revoked)
  }

  predicate RequestOk(t: Task, r: Record, through: U64, grants: map<Uuid, Grant>, key: RequestKey, c: Remembered)
  {
    && key.id != NIL && key.owner == t.owner && key.principal == t.principal && SameScope(t, r)
    && through < c.result.revision <= r.revision
    && (if c.kind == KShare || c.kind == KRevoke then GrantReceiptOk(key, c, grants) else c.result.grant.None?)
    && (c.kind == KCreate ==> r.task == key.task && r.createdBy == key.principal && c.result.revision == 1)
    && (c.kind == KDelete ==> r.deleted)
  }

  ghost predicate RequestsOk(app: App)
  {
    forall k | k in app.requests ::
      && k.task in app.tasks && app.requests[k].result.record in app.records
      && RequestOk(app.tasks[k.task], app.records[app.requests[k].result.record],
                   Through(app.baselines, app.requests[k].result.record), app.grants, k, app.requests[k])
  }

  ghost predicate RevisionsDistinct(requests: map<RequestKey, Remembered>)
  {
    forall j, k | j in requests && k in requests && requests[j].result.record == requests[k].result.record
                  && requests[j].result.revision == requests[k].result.revision :: j == k
  }

  ghost predicate SharesDistinct(requests: map<RequestKey, Remembered>)
  {
    forall j, k | j in requests && k in requests && requests[j].kind == KShare && requests[k].kind == KShare
                  && requests[j].result.grant == requests[k].result.grant :: j == k
  }

  predicate IsReceipt(requests: map<RequestKey, Remembered>, k: RequestKey, id: Uuid, revision: int)
  {
    k in requests && requests[k].result.record == id && requests[k].result.revision == revision
  }

  ghost predicate HasRevision(requests: map<RequestKey, Remembered>, id: Uuid, revision: int)
  {
    exists k :: IsReceipt(requests, k, id, revision)
  }

  predicate IsOfKind(requests: map<RequestKey, Remembered>, k: RequestKey, id: Uuid, kind: Kind)
  {
    k in requests && requests[k].result.record == id && requests[k].kind == kind
  }

  ghost predicate HasKind(requests: map<RequestKey, Remembered>, id: Uuid, kind: Kind)
  {
    exists k :: IsOfKind(requests, k, id, kind)
  }

  function KeysOfKind(requests: map<RequestKey, Remembered>, id: Uuid, kind: Kind): set<RequestKey>
  {
    set k | k in requests && IsOfKind(requests, k, id, kind)
  }

  // ----- baselines -----

  predicate BaselineOk(r: Record, b: Baseline)
  {
    && b.through <= r.revision
    && (b.through == 0 ==> b.secretVersion == 0 && !b.deletePruned && b.prunedGrants == {})
    && (b.through > 0 ==> b.secretVersion >= 1)
    && (b.verifiedLogin ==> r.signup == VerifiedLogin)
  }

  predicate IsShareOf(requests: map<RequestKey, Remembered>, k: RequestKey, g: Uuid)
  {
    k in requests && requests[k].kind == KShare && requests[k].result.grant == Some(g)
  }

  predicate HasShare(requests: map<RequestKey, Remembered>, g: Uuid)
  {
    exists k :: k in requests && IsShareOf(requests, k, g)
  }

  ghost predicate BaselinesOk(app: App)
  {
    forall id | id in app.baselines ::
      && id in app.records && BaselineOk(app.records[id], app.baselines[id])
      && forall g | g in app.baselines[id].prunedGrants ::
           g in app.grants && app.grants[g].record == id && !HasShare(app.requests, g)
  }

  // ----- the account of one record -----

  ghost predicate DeleteAccountOk(requests: map<RequestKey, Remembered>, b: Baseline, id: Uuid, r: Record)
  {
    if r.deleted then
      if b.through == 0 then HasKind(requests, id, KDelete)
      else b.deletePruned != HasKind(requests, id, KDelete)
    else !HasKind(requests, id, KDelete) && !b.deletePruned
  }

  ghost predicate Contiguous(requests: map<RequestKey, Remembered>, b: Baseline, id: Uuid, r: Record)
  {
    forall n | b.through < n <= r.revision :: HasRevision(requests, id, n)
  }

  ghost predicate VersionAccountOk(requests: map<RequestKey, Remembered>, b: Baseline, id: Uuid, r: Record)
  {
    if b.through == 0 then HasKind(requests, id, KCreate) && r.secretVersion == 1 + |KeysOfKind(requests, id, KPatch)|
    else r.secretVersion == b.secretVersion + |KeysOfKind(requests, id, KPatch)|
  }

  ghost predicate AccountOk(requests: map<RequestKey, Remembered>, b: Baseline, id: Uuid, r: Record)
  {
    DeleteAccountOk(requests, b, id, r) && Contiguous(requests, b, id, r) && VersionAccountOk(requests, b, id, r)
  }

  ghost predicate AccountsOk(app: App)
  {
    forall id | id in app.records :: AccountOk(app.requests, BaseOf(app.baselines, id), id, app.records[id])
  }

  /** Every grant has its share receipt or is listed by its record's baseline (never both, by `BaselinesOk`). */
  ghost predicate GrantsAccounted(app: App)
  {
    forall g | g in app.grants ::
      HasShare(app.requests, g) || g in BaseOf(app.baselines, app.grants[g].record).prunedGrants
  }

  // ----- deliveries, verified logins, audit -----

  predicate DeliveryOk(t: Task, r: Record, id: Uuid, d: Delivery)
  {
    && id != NIL && SameScope(t, r) && 0 < d.version <= r.secretVersion
    && d.fields != {} && d.fields <= t.fields && SecretUse in t.permissions && d.destination in t.destinations
    && d.key.task == d.task && d.key.owner == t.owner && d.key.principal == t.principal && d.key.id != NIL
    && (d.dispatched || d.status == Some(StRejected))
    && d.fingerprint == OfUse(PrivateUse(d.key.id, d.record, d.fields, d.destination, d.action))
    && (d.action != Use ==> r.kind == LoginKind && Username in d.fields && Password in d.fields)
  }

  predicate Registers(d: Delivery) { d.action == Register && d.dispatched }

  ghost predicate DeliveriesOk(app: App)
  {
    forall id | id in app.deliveries ::
      && app.deliveries[id].task in app.tasks && app.deliveries[id].record in app.records
      && DeliveryOk(app.tasks[app.deliveries[id].task], app.records[app.deliveries[id].record], id, app.deliveries[id])
      && app.deliveries[id].key !in app.requests
  }

  ghost predicate DeliveriesDistinct(deliveries: map<Uuid, Delivery>)
  {
    forall a, b | a in deliveries && b in deliveries &&
      (|| deliveries[a].key == deliveries[b].key
       || (deliveries[a].record == deliveries[b].record && Registers(deliveries[a]) && Registers(deliveries[b]))) :: a == b
  }

  predicate Verifies(d: Delivery, id: Uuid, version: U64)
  {
    d.record == id && d.version == version && d.action == Login && d.dispatched && d.status == Some(StAccepted)
  }

  ghost predicate VerifiedOk(app: App)
  {
    forall id | id in app.records && app.records[id].signup == VerifiedLogin ::
      || BaseOf(app.baselines, id).verifiedLogin
      || exists d | d in app.deliveries :: Verifies(app.deliveries[d], id, app.records[id].secretVersion)
  }

  predicate Legacy(e: AuditEvent) { e.at == 0 && e.principal == "" }

  function EventKey(t: Task, request: Uuid): RequestKey { RequestKey(t.owner, t.principal, t.id, request) }

  predicate EventOk(app: App, e: AuditEvent)
  {
    && e.task in app.tasks && e.record in app.records && SameScope(app.tasks[e.task], app.records[e.record])
    && (!Legacy(e) ==> e.principal == app.tasks[e.task].principal
                       && app.lastTime.Some? && 0 <= e.at <= app.lastTime.value)
    && (e.request.Some? ==> EventKey(app.tasks[e.task], e.request.value) in app.requests
                            && app.requests[EventKey(app.tasks[e.task], e.request.value)].result.record == e.record)
  }

  ghost predicate AuditOk(app: App) { forall i | 0 <= i < |app.audit| :: EventOk(app, app.audit[i]) }

  ghost predicate StructureOk(app: App)
  {
    && HeaderOk(app) && LimitsOk(app) && TasksOk(app.tasks) && app.revokedTasks <= app.tasks.Keys
    && RecordsOk(app.tasks, app.records) && GrantsOk(app.tasks, app.records, app.grants)
  }

  ghost predicate ReceiptsOk(app: App)
  {
    && RequestsOk(app) && RevisionsDistinct(app.requests) && SharesDistinct(app.requests)
    && BaselinesOk(app) && AccountsOk(app) && GrantsAccounted(app)
  }

  ghost predicate ActivityOk(app: App)
  {
    DeliveriesOk(app) && DeliveriesDistinct(app.deliveries) && VerifiedOk(app) && AuditOk(app)
  }

  /** The three groups of checks the validator makes. */
  datatype Part = Structure | Receipts | Activity

  ghost predicate Holds(app: App, part: Part)
  {
    match part
    case Structure => StructureOk(app)
    case Receipts => ReceiptsOk(app)
    case Activity => ActivityOk(app)
  }

  /** What `validate` accepts. */
  ghost predicate Valid(app: App) { forall part :: Holds(app, part) }

  lemma ValidIs(app: App)
    ensures Valid(app) <==> StructureOk(app) && ReceiptsOk(app) && ActivityOk(app)
  {
    if Valid(app) { assert Holds(app, Structure) && Holds(app, Receipts) && Holds(app, Activity); }
  }
}
