/** The policy core: clock, approvals, authorization and mutations, as functions of the application value. */
module Policy {
  import opened Types

  function SaturatingSub(a: Time, b: Time): Time {
    if a - b < TIME_MIN then TIME_MIN else if a - b > TIME_MAX then TIME_MAX else a - b
  }

  // ----- clock -----

  function EffectiveTime(app: App, now: Time): Result<Time>
  {
    if app.clockFrozen then Err(ClockRecoveryRequired)
    else if app.lastTime.Some? && now < app.lastTime.value then
      if SaturatingSub(app.lastTime.value, now) <= CLOCK_SKEW_TOLERANCE then Ok(app.lastTime.value)
      else Err(ClockRecoveryRequired)
    else Ok(now)
  }

  function Clock(app: App, now: Time): Outcome<Time>
  {
    match EffectiveTime(app, now)
    case Err(e) => Outcome(app.(clockFrozen := true), Err(e))
    case Ok(t) =>
      Outcome(if app.lastTime.None? || now > app.lastTime.value then app.(lastTime := Some(now)) else app, Ok(t))
  }

  // ----- task approval -----

  predicate BadText(s: string) { s == "" || |s| > 2048 }

  predicate ShareBoundsOk(b: ShareBounds, task: Task, now: Time)
  {
    && b.recipients != {} && |b.recipients| <= 32 && (forall s | s in b.recipients :: !BadText(s))
    && b.fields <= task.fields && b.permissions <= task.permissions && b.destinations <= task.destinations
    && now < b.expiresAt <= task.expiresAt && AccessGrant !in b.permissions
  }

  predicate TaskBoundsOk(task: Task, now: Time)
  {
    && task.id != NIL && task.expiresAt > now && task.fields != {} && task.permissions != {}
    && !BadText(task.owner) && !BadText(task.principal) && !BadText(task.workspace)
    && !BadText(task.service) && !BadText(task.origin)
    && |task.destinations| <= 32 && (forall s | s in task.destinations :: !BadText(s))
    && (task.share.Some? ==> ShareBoundsOk(task.share.value, task, now))
  }

  function ApproveTask(app: App, admin: Context, task: Task, now: Time): Outcome<()>
  {
    var c := Clock(app, now);
    if c.result.Err? then Outcome(c.app, Err(c.result.error))
    else if !admin.admin || admin.owner != task.owner || admin.workspace != task.workspace then Outcome(c.app, Err(Denied))
    else if exists id | id in app.tasks ::
              app.tasks[id].owner != task.owner || app.tasks[id].workspace != task.workspace
    then Outcome(c.app, Err(Denied))
    else if !TaskBoundsOk(task, c.result.value) then Outcome(c.app, Err(Invalid))
    else if task.id in app.tasks then Outcome(c.app, Err(Conflict))
    else if |app.tasks| >= LIMIT then Outcome(c.app, Err(Capacity))
    else Outcome(c.app.(tasks := app.tasks[task.id := task]), Ok(()))
  }

  function RevokeTask(app: App, admin: Context, id: Uuid, now: Time): Outcome<()>
  {
    var c := Clock(app, now);
    if c.result.Err? then Outcome(c.app, Err(c.result.error))
    else if id !in app.tasks then Outcome(c.app, Err(Denied))
    else if !admin.admin || admin.owner != app.tasks[id].owner || admin.workspace != app.tasks[id].workspace
    then Outcome(c.app, Err(Denied))
    else Outcome(c.app.(revokedTasks := app.revokedTasks + {id}), Ok(()))
  }

  // ----- authorization reads -----

  function TaskFor(app: App, ctx: Context, id: Uuid, now: Time): Result<Task>
  {
    if id !in app.tasks then Err(Denied)
    else
      var t := app.tasks[id];
      if t.owner != ctx.owner || t.workspace != ctx.workspace || t.principal != ctx.principal
         || now >= t.expiresAt || id in app.revokedTasks
         || (ctx.sessionDeadline.Some? && now >= ctx.sessionDeadline.value)
      then Err(Denied)
      else Ok(t)
  }

  function RecordFor(app: App, ctx: Context, id: Uuid): Result<Record>
  {
    if id !in app.records then Err(Denied)
    else
      var r := app.records[id];
      if r.owner != ctx.owner || r.workspace != ctx.workspace || r.deleted then Err(Denied) else Ok(r)
  }

  predicate VersionMatches(g: Grant, r: Record)
  {
    if g.spec.followActive then r.secretVersion >= g.version else g.version == r.secretVersion
  }

  predicate GrantPermits(app: App, g: Grant, ctx: Context, r: Record, permission: Permission,
                         fields: set<Field>, destination: Option<string>, now: Time)
  {
    && g.record == r.id && !g.revoked && now < g.spec.expiresAt && VersionMatches(g, r)
    && g.issuerTask !in app.revokedTasks
    && g.issuerTask in app.tasks && now < app.tasks[g.issuerTask].expiresAt
    && g.spec.recipient == ctx.principal && permission in g.spec.permissions && fields <= g.spec.fields
    && (destination.Some? ==> destination.value in g.spec.destinations)
  }

  predicate TaskPermits(t: Task, r: Record, permission: Permission, fields: set<Field>, destination: Option<string>)
  {
    && r.service == t.service && r.origin == t.origin && permission in t.permissions && fields <= t.fields
    && (destination.Some? ==> destination.value in t.destinations)
  }

  predicate Can(app: App, ctx: Context, t: Task, r: Record, permission: Permission,
                fields: set<Field>, destination: Option<string>, now: Time)
  {
    && TaskPermits(t, r, permission, fields, destination)
    && (|| (r.createdBy == ctx.principal && r.task == t.id)
        || exists id | id in app.grants :: GrantPermits(app, app.grants[id], ctx, r, permission, fields, destination, now))
  }

  function Select(app: App, ctx: Context, task: Uuid, record: Uuid, fields: set<Field>,
                  permission: Permission, destination: Option<string>, now: Time): Result<Values>
  {
    if fields == {} then Err(Invalid)
    else if permission == MetadataRead && (exists f | f in fields :: Secret(f)) then Err(Denied)
    else
      var t := TaskFor(app, ctx, task, now);
      var r := RecordFor(app, ctx, record);
      if t.Err? then Err(t.error)
      else if r.Err? then Err(r.error)
      else if !Can(app, ctx, t.value, r.value, permission, fields, destination, now) then Err(Denied)
      else if !(fields <= r.value.values.Keys) then Err(Denied)
      else Ok(map f | f in fields :: r.value.values[f])
  }

  predicate RegistrationSealed(app: App, record: Uuid)
  {
    || (record in app.baselines && app.baselines[record].registrationDispatched)
    || exists d | d in app.deliveries ::
         app.deliveries[d].record == record && app.deliveries[d].action == Register && app.deliveries[d].dispatched
  }

  // ----- mutations -----

  predicate ValuesOk(v: Values)
  {
    v != map[] && |v| <= 5 && forall f | f in v :: |v[f]| <= 8192 && (Secret(f) ==> v[f] != "")
  }

  predicate ChangesCredential(v: Values) { exists f | f in v :: Secret(f) || f == Username }

  predicate KindMatches(kind: CredentialKind, v: Values)
  {
    match kind
    case LoginKind => Password in v && ApiKey !in v
    case ApiKeyKind => ApiKey in v && Password !in v
  }

  function GenerationFields(kind: CredentialKind, username: Option<string>): Result<set<Field>>
  {
    if kind == LoginKind && username.Some? && !BadText(username.value) then Ok({Username, Password})
    else if kind == ApiKeyKind && username.None? then Ok({ApiKey})
    else Err(Invalid)
  }

  predicate PolicyOk(p: GenerationPolicy) { 16 <= p.length <= 128 }

  predicate Creates(op: Mutation) { op.Create? || op.Generate? }

  /** Requests for a new record: `None` authorizes, `Some(e)` refuses with `e`. */
  function AuthorizeCreate(t: Task, op: Mutation): Option<Error>
    requires Creates(op)
  {
    match op
    case Generate(kind, username, policy) =>
      if policy.Some? && !PolicyOk(policy.value) then Some(Invalid)
      else
        var fields := GenerationFields(kind, username);
        if fields.Err? then Some(fields.error)
        else if SecretWrite !in t.permissions || !(fields.value <= t.fields) then Some(Denied)
        else None
    case Create(kind, values) =>
      if !ValuesOk(values) then Some(Invalid)
      else if SecretWrite !in t.permissions || !(values.Keys <= t.fields) then Some(Denied)
      else if !KindMatches(kind, values) then Some(Invalid)
      else None
  }

  predicate GrantSpecOk(spec: GrantSpec, r: Record, now: Time)
  {
    && spec.fields != {} && spec.permissions != {} && spec.expiresAt > now && !BadText(spec.recipient)
    && AccessGrant !in spec.permissions && spec.fields <= r.values.Keys
    && |spec.destinations| <= 32 && (forall s | s in spec.destinations :: !BadText(s))
    && (SecretUse in spec.permissions ==> spec.destinations != {})
  }

  predicate WithinBounds(spec: GrantSpec, b: ShareBounds)
  {
    && (spec.followActive ==> b.allowFollowActive)
    && spec.recipient in b.recipients && spec.fields <= b.fields && spec.permissions <= b.permissions
    && spec.destinations <= b.destinations && spec.expiresAt <= b.expiresAt
  }

  function AuthorizeShare(app: App, ctx: Context, t: Task, r: Record, spec: GrantSpec, now: Time): Option<Error>
  {
    if !GrantSpecOk(spec, r, now) then Some(Invalid)
    else if !ctx.admin then
      if t.share.None? then Some(Denied)
      else if !Can(app, ctx, t, r, AccessGrant, spec.fields, None, now) || !WithinBounds(spec, t.share.value)
      then Some(Denied)
      else if exists p | p in spec.permissions :: !Can(app, ctx, t, r, p, spec.fields, None, now) then Some(Denied)
      else None
    else if r.service != t.service || r.origin != t.origin || !(spec.fields <= t.fields)
            || !(spec.permissions <= t.permissions) || !(spec.destinations <= t.destinations)
            || spec.expiresAt > t.expiresAt
    then Some(Denied)
    else None
  }

  function AuthorizeRecordOp(app: App, ctx: Context, t: Task, op: Mutation, now: Time): Option<Error>
    requires !Creates(op) && op.record in app.records
  {
    var r := app.records[op.record];
    match op
    case Patch(_, _, values) =>
      if !ValuesOk(values) then Some(Invalid)
      else if !Can(app, ctx, t, r, SecretWrite, values.Keys, None, now) then Some(Denied)
      else if (r.kind == LoginKind && ApiKey in values) || (r.kind == ApiKeyKind && Password in values) then Some(Invalid)
      else None
    case Delete(_, _) =>
      if !ctx.admin && !Can(app, ctx, t, r, EntryDelete, r.values.Keys, None, now) then Some(Denied) else None
    case Share(_, _, spec) => AuthorizeShare(app, ctx, t, r, spec, now)
    case Revoke(id, _, g) =>
      if g !in app.grants then Some(Denied)
      else if app.grants[g].record != id
              || (!ctx.admin && !Can(app, ctx, t, r, AccessGrant, app.grants[g].spec.fields, None, now))
      then Some(Denied)
      else None
    case ReportOutcome(_, _, state) =>
      if state == VerifiedLogin || !Can(app, ctx, t, r, SecretWrite, {}, None, now) then Some(Denied) else None
  }

  function Authorize(app: App, ctx: Context, t: Task, op: Mutation, now: Time, retry: bool): Option<Error>
  {
    if Creates(op) then AuthorizeCreate(t, op)
    else if op.record !in app.records then Some(Denied)
    else
      var r := app.records[op.record];
      if r.owner != ctx.owner || r.workspace != ctx.workspace || (r.deleted && !(retry && op.Delete?)) then Some(Denied)
      else
        var refused := AuthorizeRecordOp(app, ctx, t, op, now);
        if refused.Some? then refused
        else if !retry && r.revision != op.expected then Some(Conflict)
        else if !retry && r.revision == U64_MAX then Some(Capacity)
        else None
  }

  function KindOf(op: Mutation): Kind
  {
    match op
    case Create(_, _) => KCreate
    case Generate(_, _, _) => KCreate
    case Patch(_, _, values) => if ChangesCredential(values) then KPatch else KMetadataPatch
    case Delete(_, _) => KDelete
    case Share(_, _, _) => KShare
    case Revoke(_, _, _) => KRevoke
    case ReportOutcome(_, _, _) => KReportOutcome
  }

  /** What an operation draws from outside: a new identifier, a sampled secret (or none when sampling
      failed) and whether the serialized request exceeds 65536 bytes. */
  datatype Draw = Draw(id: Uuid, secret: Option<string>, oversized: bool)

  function GeneratedValues(op: Mutation, secret: string): Values
    requires op.Generate?
  {
    if op.kind == LoginKind && op.username.Some? then map[Username := op.username.value, Password := secret]
    else map[ApiKey := secret]
  }

  function InsertRecord(app: App, ctx: Context, t: Task, task: Uuid, kind: CredentialKind, values: Values, id: Uuid)
    : Outcome<Receipt>
  {
    if |app.records| >= LIMIT then Outcome(app, Err(Capacity))
    else
      var r := Record(id, ctx.owner, ctx.workspace, ctx.principal, task, t.service, t.origin, kind, 1, 1,
                      values, Pending, false, false);
      Outcome(app.(records := app.records[id := r]), Ok(Receipt(id, 1, None)))
  }

  function RevokeAll(grants: map<Uuid, Grant>, record: Uuid): map<Uuid, Grant>
  {
    map g | g in grants :: if grants[g].record == record then grants[g].(revoked := true) else grants[g]
  }

  /** The effect of an authorized mutation on records and grants, with the receipt it produces. */
  function Perform(app: App, ctx: Context, t: Task, task: Uuid, op: Mutation, draw: Draw): Outcome<Receipt>
    requires !Creates(op) ==> op.record in app.records && app.records[op.record].revision < U64_MAX
    requires op.Revoke? ==> op.grantId in app.grants
  {
    match op
    case Create(kind, values) => InsertRecord(app, ctx, t, task, kind, values, draw.id)
    case Generate(kind, _, _) =>
      if |app.records| >= LIMIT then Outcome(app, Err(Capacity))
      else if draw.secret.None? then Outcome(app, Err(GenerationUnavailable))
      else InsertRecord(app, ctx, t, task, kind, GeneratedValues(op, draw.secret.value), draw.id)
    case Patch(id, _, values) =>
      var r := app.records[id];
      if ChangesCredential(values) && r.secretVersion == U64_MAX then Outcome(app, Err(Capacity))
      else
        var r1 := if ChangesCredential(values) then r.(secretVersion := r.secretVersion + 1, signup := Pending) else r;
        Outcome(app.(records := app.records[id := r1.(values := r.values + values, revision := r.revision + 1)]),
                Ok(Receipt(id, r.revision + 1, None)))
    case Share(id, _, spec) =>
      if |app.grants| >= LIMIT then Outcome(app, Err(Capacity))
      else
        var r := app.records[id];
        var g := Grant(id, spec, false, r.secretVersion, task, ctx.admin);
        Outcome(app.(grants := app.grants[draw.id := g], records := app.records[id := r.(revision := r.revision + 1)]),
                Ok(Receipt(id, r.revision + 1, Some(draw.id))))
    case Revoke(id, _, g) =>
      var r := app.records[id];
      Outcome(app.(grants := app.grants[g := app.grants[g].(revoked := true)],
                   records := app.records[id := r.(revision := r.revision + 1)]),
              Ok(Receipt(id, r.revision + 1, Some(g))))
    case Delete(id, _) =>
      var r := app.records[id];
      Outcome(app.(grants := RevokeAll(app.grants, id),
                   records := app.records[id := r.(deleted := true, values := map[], revision := r.revision + 1)]),
              Ok(Receipt(id, r.revision + 1, None)))
    case ReportOutcome(id, _, state) =>
      var r := app.records[id];
      Outcome(app.(records := app.records[id := r.(signup := state, revision := r.revision + 1)]),
              Ok(Receipt(id, r.revision + 1, None)))
  }

  function Audit(app: App, event: AuditEvent): App
  {
    app.(audit := (if |app.audit| == LIMIT then app.audit[1..] else app.audit) + [event])
  }

  predicate DeliveryKeyUsed(app: App, key: RequestKey)
  {
    exists d | d in app.deliveries :: app.deliveries[d].key == key
  }

  /** A request whose key is not retained: authorize against current state, perform, remember, audit. */
  function MutateNew(app: App, ctx: Context, t: Task, task: Uuid, request: Uuid, op: Mutation, now: Time, draw: Draw)
    : Outcome<Receipt>
  {
    var refused := Authorize(app, ctx, t, op, now, false);
    if refused.Some? then Outcome(app, Err(refused.value))
    else if |app.requests| >= LIMIT then Outcome(app, Err(Capacity))
    else
      var done := Perform(app, ctx, t, task, op, draw);
      if done.result.Err? then Outcome(app, Err(done.result.error))
      else
        var key := RequestKey(ctx.owner, ctx.principal, task, request);
        var entry := Remembered(OfMutation(op), done.result.value, KindOf(op), Some(now));
        var event := AuditEvent(task, done.result.value.record, Some(request), MutationEvent, now, ctx.principal);
        Outcome(Audit(done.app.(requests := done.app.requests[key := entry]), event), done.result)
  }

  /** A retained key: only an identical, still authorized request sees the cached receipt. */
  function MutateRetry(app: App, ctx: Context, key: RequestKey, op: Mutation): Result<Receipt>
    requires key in app.requests
  {
    var previous := app.requests[key];
    if previous.fingerprint != OfMutation(op) then Err(ReplayConflict)
    else if Creates(op) && RecordFor(app, ctx, previous.result.record).Err? then Err(Denied)
    else Ok(previous.result)
  }

  function Mutate(app: App, ctx: Context, task: Uuid, request: Uuid, op: Mutation, now: Time, draw: Draw): Outcome<Receipt>
  {
    var c := Clock(app, now);
    if c.result.Err? then Outcome(c.app, Err(c.result.error))
    else if request == NIL then Outcome(c.app, Err(Invalid))
    else
      var t := TaskFor(c.app, ctx, task, c.result.value);
      if t.Err? then Outcome(c.app, Err(t.error))
      else
        var refused := Authorize(c.app, ctx, t.value, op, c.result.value, true);
        var key := RequestKey(ctx.owner, ctx.principal, task, request);
        if refused.Some? then Outcome(c.app, Err(refused.value))
        else if DeliveryKeyUsed(c.app, key) then Outcome(c.app, Err(ReplayConflict))
        else if draw.oversized then Outcome(c.app, Err(Invalid))
        else if key in c.app.requests then Outcome(c.app, MutateRetry(c.app, ctx, key, op))
        else MutateNew(c.app, ctx, t.value, task, request, op, c.result.value, draw)
  }

  /** Reads: `MetadataRead` and `SecretRead` differ only in the permission and the audit action. */
  function Read(app: App, ctx: Context, task: Uuid, record: Uuid, fields: set<Field>, secret: bool, now: Time): Outcome<Values>
  {
    var c := Clock(app, now);
    if c.result.Err? then Outcome(c.app, Err(c.result.error))
    else
      var found := Select(c.app, ctx, task, record, fields, if secret then SecretRead else MetadataRead, None, c.result.value);
      if found.Err? then Outcome(c.app, found)
      else
        var action := if secret then SecretReadEvent else MetadataReadEvent;
        Outcome(Audit(c.app, AuditEvent(task, record, None, action, c.result.value, ctx.principal)), found)
  }
}
