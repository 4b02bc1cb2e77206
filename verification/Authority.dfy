/** Who may do what: for every operation, the requests that are accepted, what the accepted ones leave, and that a refused
    one leaves nothing but the clock. Stated from the approvals, records and grants alone. */
module Authority {
  import opened Types
  import opened Policy

  // ----- the clock -----

  /** The sample is not further behind the high-water mark than the tolerance, and the clock is not frozen. */
  predicate Admitted(app: App, now: Time)
  {
    !app.clockFrozen && (app.lastTime.Some? ==> app.lastTime.value <= now + CLOCK_SKEW_TOLERANCE)
  }

  function Effective(app: App, now: Time): Time
  {
    if app.lastTime.Some? && now < app.lastTime.value then app.lastTime.value else now
  }

  /** A sample moves the clock or freezes it, and nothing else. */
  function Sampled(app: App, now: Time): App
  {
    app.(lastTime := if Admitted(app, now) then Some(Effective(app, now)) else app.lastTime, clockFrozen := !Admitted(app, now))
  }

  lemma SampledExactly(app: App, now: Time)
    ensures Clock(app, now)
            == Outcome(Sampled(app, now), if Admitted(app, now) then Ok(Effective(app, now)) else Err(ClockRecoveryRequired))
  {}

  // ----- approvals -----

  predicate Named(s: string) { 0 < |s| <= 2048 }

  predicate InBounds(t: Task, now: Time)
  {
    && t.id != NIL && now < t.expiresAt && t.fields != {} && t.permissions != {}
    && Named(t.owner) && Named(t.principal) && Named(t.workspace) && Named(t.service) && Named(t.origin)
    && |t.destinations| <= 32 && (forall s | s in t.destinations :: Named(s))
    && (t.share.Some? ==> ShareInBounds(t.share.value, t, now))
  }

  /** Whoever holds the approval can share no more than it grants, no longer, and never the right to share. */
  predicate ShareInBounds(b: ShareBounds, t: Task, now: Time)
  {
    && 0 < |b.recipients| <= 32 && (forall s | s in b.recipients :: Named(s))
    && b.fields <= t.fields && b.permissions <= t.permissions - {AccessGrant} && b.destinations <= t.destinations
    && now < b.expiresAt && b.expiresAt <= t.expiresAt
  }

  predicate Governs(admin: Context, t: Task) { admin.admin && admin.owner == t.owner && admin.workspace == t.workspace }

  /** An administrator of the one owner and workspace of the vault approves a new identifier. */
  predicate Approvable(app: App, admin: Context, task: Task, now: Time)
  {
    && Admitted(app, now) && Governs(admin, task)
    && (forall id | id in app.tasks :: app.tasks[id].owner == task.owner && app.tasks[id].workspace == task.workspace)
    && InBounds(task, Effective(app, now)) && task.id !in app.tasks && |app.tasks| < LIMIT
  }

  lemma BoundsExactly(t: Task, now: Time)
    ensures TaskBoundsOk(t, now) <==> InBounds(t, now)
  {
    hide ShareBoundsOk, ShareInBounds;
    if t.share.Some? { ShareBoundsExactly(t.share.value, t, now); }
  }

  lemma ShareBoundsExactly(b: ShareBounds, t: Task, now: Time)
    ensures ShareBoundsOk(b, t, now) <==> ShareInBounds(b, t, now)
  {}

  lemma ApprovedExactly(app: App, admin: Context, task: Task, now: Time)
    ensures var o := ApproveTask(app, admin, task, now);
      && (o.result.Ok? <==> Approvable(app, admin, task, now))
      && o.app == (if o.result.Ok? then Sampled(app, now).(tasks := app.tasks[task.id := task]) else Sampled(app, now))
      && (Admitted(app, now) && !Governs(admin, task) ==> o.result == Err(Denied))
  {
    SampledExactly(app, now);
    BoundsExactly(task, Effective(app, now));
    hide Clock, TaskBoundsOk, InBounds;
  }

  lemma RevokedExactly(app: App, admin: Context, id: Uuid, now: Time)
    ensures var o := RevokeTask(app, admin, id, now);
      && (o.result.Ok? <==> Admitted(app, now) && id in app.tasks && Governs(admin, app.tasks[id]))
      && o.app == (if o.result.Ok? then Sampled(app, now).(revokedTasks := app.revokedTasks + {id}) else Sampled(app, now))
      && (o.result.Err? ==> o.result.error == if Admitted(app, now) then Denied else ClockRecoveryRequired)
  {
    SampledExactly(app, now);
    hide Clock;
  }

  // ----- what an approval lets its holder do -----

  /** The approval is there, neither revoked nor expired, and the caller is its principal within its session. */
  predicate Live(app: App, ctx: Context, task: Uuid, now: Time)
  {
    && task in app.tasks && task !in app.revokedTasks && now < app.tasks[task].expiresAt
    && ctx.principal == app.tasks[task].principal && ctx.owner == app.tasks[task].owner && ctx.workspace == app.tasks[task].workspace
    && (ctx.sessionDeadline.Some? ==> now < ctx.sessionDeadline.value)
  }

  predicate Standing(app: App, ctx: Context, record: Uuid)
  {
    && record in app.records && !app.records[record].deleted
    && app.records[record].owner == ctx.owner && app.records[record].workspace == ctx.workspace
  }

  /** A live grant to the principal, of a live issuer and of a version that is still current. */
  predicate Backs(app: App, g: Grant, principal: string, r: Record, permission: Permission, fields: set<Field>,
                  destination: Option<string>, now: Time)
  {
    && g.record == r.id && g.spec.recipient == principal && !g.revoked && now < g.spec.expiresAt
    && g.issuerTask in app.tasks && g.issuerTask !in app.revokedTasks && now < app.tasks[g.issuerTask].expiresAt
    && g.version <= r.secretVersion && (g.version < r.secretVersion ==> g.spec.followActive)
    && permission in g.spec.permissions && fields <= g.spec.fields && (destination.Some? ==> destination.value in g.spec.destinations)
  }

  /** The approval covers the request, and its holder created the record under it or has a grant that covers the request too. */
  predicate Holds(app: App, ctx: Context, t: Task, r: Record, permission: Permission, fields: set<Field>, destination: Option<string>, now: Time)
  {
    && t.service == r.service && t.origin == r.origin
    && permission in t.permissions && fields <= t.fields && (destination.Some? ==> destination.value in t.destinations)
    && (|| (r.createdBy == ctx.principal && r.task == t.id)
        || exists g | g in app.grants :: Backs(app, app.grants[g], ctx.principal, r, permission, fields, destination, now))
  }

  lemma BacksExactly(app: App, g: Grant, ctx: Context, r: Record, permission: Permission, fields: set<Field>, destination: Option<string>, now: Time)
    ensures GrantPermits(app, g, ctx, r, permission, fields, destination, now) <==> Backs(app, g, ctx.principal, r, permission, fields, destination, now)
  {}

  lemma HoldsExactly(app: App, ctx: Context, t: Task, r: Record, permission: Permission, fields: set<Field>, destination: Option<string>, now: Time)
    ensures Can(app, ctx, t, r, permission, fields, destination, now) <==> Holds(app, ctx, t, r, permission, fields, destination, now)
  {
    hide GrantPermits, Backs;
    forall g | g in app.grants
      ensures GrantPermits(app, app.grants[g], ctx, r, permission, fields, destination, now)
              <==> Backs(app, app.grants[g], ctx.principal, r, permission, fields, destination, now)
    {
      BacksExactly(app, app.grants[g], ctx, r, permission, fields, destination, now);
    }
  }

  // ----- reads -----

  predicate Selectable(app: App, ctx: Context, task: Uuid, record: Uuid, fields: set<Field>, permission: Permission,
                       destination: Option<string>, now: Time)
  {
    && fields != {} && (permission == MetadataRead ==> Password !in fields && ApiKey !in fields)
    && Live(app, ctx, task, now) && Standing(app, ctx, record) && fields <= app.records[record].values.Keys
    && Holds(app, ctx, app.tasks[task], app.records[record], permission, fields, destination, now)
  }

  lemma SelectedExactly(app: App, ctx: Context, task: Uuid, record: Uuid, fields: set<Field>, permission: Permission,
                        destination: Option<string>, now: Time)
    ensures var s := Select(app, ctx, task, record, fields, permission, destination, now);
      && (s.Ok? <==> Selectable(app, ctx, task, record, fields, permission, destination, now))
      && (s.Ok? ==> s.value == map f | f in fields :: app.records[record].values[f])
  {
    hide Can, Holds;
    if task in app.tasks && record in app.records {
      HoldsExactly(app, ctx, app.tasks[task], app.records[record], permission, fields, destination, now);
    }
  }

  /** The audit keeps its latest events. */
  function Logged(audit: seq<AuditEvent>, e: AuditEvent): seq<AuditEvent>
  {
    (if |audit| == LIMIT then audit[1..] else audit) + [e]
  }

  /** Plaintext is disclosed only under the permission to read secrets, and metadata only under its own; both are audited. */
  predicate Readable(app: App, ctx: Context, task: Uuid, record: Uuid, fields: set<Field>, secret: bool, now: Time)
  {
    && Admitted(app, now)
    && if secret then Selectable(app, ctx, task, record, fields, SecretRead, None, Effective(app, now))
       else Selectable(app, ctx, task, record, fields, MetadataRead, None, Effective(app, now))
  }

  lemma ReadExactly(app: App, ctx: Context, task: Uuid, record: Uuid, fields: set<Field>, secret: bool, now: Time)
    ensures var o := Read(app, ctx, task, record, fields, secret, now);
      && (o.result.Ok? <==> Readable(app, ctx, task, record, fields, secret, now))
      && (o.result.Err? ==> o.app == Sampled(app, now))
      && (o.result.Ok? ==>
            && o.result.value == (map f | f in fields :: app.records[record].values[f])
            && o.app == Sampled(app, now).(audit := Logged(app.audit, AuditEvent(task, record, None,
                 if secret then SecretReadEvent else MetadataReadEvent, Effective(app, now), ctx.principal))))
  {
    SampledExactly(app, now);
    hide Clock, Select, Selectable;
    if Admitted(app, now) {
      var permission := if secret then SecretRead else MetadataRead;
      SelectedExactly(Sampled(app, now), ctx, task, record, fields, permission, None, Effective(app, now));
      SelectableSampled(app, ctx, task, record, fields, permission, None, now);
      SampledBooks(app, now);
    }
  }

  lemma SampledBooks(app: App, now: Time)
    ensures var c := Sampled(app, now);
      && c.tasks == app.tasks && c.revokedTasks == app.revokedTasks && c.records == app.records && c.grants == app.grants
      && c.requests == app.requests && c.deliveries == app.deliveries && c.audit == app.audit && c.baselines == app.baselines
  {
    hide Admitted, Effective;
  }

  /** A sample changes no authority. */
  lemma HoldsSampled(app: App, ctx: Context, t: Task, r: Record, permission: Permission, fields: set<Field>, destination: Option<string>,
                     now: Time, at: Time)
    ensures Holds(Sampled(app, now), ctx, t, r, permission, fields, destination, at) <==> Holds(app, ctx, t, r, permission, fields, destination, at)
  {
    SampledBooks(app, now);
    hide Sampled;
    forall g | g in app.grants
      ensures Backs(Sampled(app, now), app.grants[g], ctx.principal, r, permission, fields, destination, at)
              <==> Backs(app, app.grants[g], ctx.principal, r, permission, fields, destination, at)
    {}
    hide Backs;
  }

  lemma LiveSampled(app: App, ctx: Context, task: Uuid, now: Time, at: Time)
    ensures Live(Sampled(app, now), ctx, task, at) <==> Live(app, ctx, task, at)
  {
    SampledBooks(app, now);
    hide Sampled;
  }

  lemma SelectableSampled(app: App, ctx: Context, task: Uuid, record: Uuid, fields: set<Field>, permission: Permission,
                          destination: Option<string>, now: Time)
    ensures Selectable(Sampled(app, now), ctx, task, record, fields, permission, destination, Effective(app, now))
            <==> Selectable(app, ctx, task, record, fields, permission, destination, Effective(app, now))
  {
    SampledBooks(app, now);
    hide Holds, Sampled, Effective;
    if task in app.tasks && record in app.records {
      HoldsSampled(app, ctx, app.tasks[task], app.records[record], permission, fields, destination, now, Effective(app, now));
    }
  }

  // ----- mutations -----

  predicate Storable(v: Values)
  {
    v != map[] && |v.Keys| <= 5 && forall f | f in v :: |v[f]| <= 8192 && (f == Password || f == ApiKey ==> |v[f]| > 0)
  }

  /** A new record needs the right to write secrets, over all its fields, and exactly the secret of its kind. */
  predicate Creatable(t: Task, op: Mutation)
    requires op.Create? || op.Generate?
  {
    && SecretWrite in t.permissions
    && match op
       case Create(kind, values) =>
         && Storable(values) && values.Keys <= t.fields
         && (kind == LoginKind <==> Password in values) && (kind == ApiKeyKind <==> ApiKey in values)
       case Generate(kind, username, policy) =>
         && (policy.Some? ==> 16 <= policy.value.length <= 128)
         && (kind == LoginKind <==> username.Some?) && (username.Some? ==> Named(username.value))
         && (if kind == LoginKind then {Username, Password} else {ApiKey}) <= t.fields
  }

  predicate Shareable(app: App, ctx: Context, t: Task, r: Record, spec: GrantSpec, now: Time)
  {
    && spec.fields != {} && spec.fields <= r.values.Keys && spec.permissions != {} && AccessGrant !in spec.permissions
    && Named(spec.recipient) && now < spec.expiresAt
    && |spec.destinations| <= 32 && (forall s | s in spec.destinations :: Named(s))
    && (SecretUse in spec.permissions ==> spec.destinations != {})
    && if ctx.admin then AdminShares(t, r, spec) else AgentShares(app, ctx, t, r, spec, now)
  }

  /** An administrator shares within the approval. */
  predicate AdminShares(t: Task, r: Record, spec: GrantSpec)
  {
    && r.service == t.service && r.origin == t.origin && spec.expiresAt <= t.expiresAt
    && spec.fields <= t.fields && spec.permissions <= t.permissions && spec.destinations <= t.destinations
  }

  /** Anybody else shares within the bounds of the approval, and only what it may do itself. */
  predicate AgentShares(app: App, ctx: Context, t: Task, r: Record, spec: GrantSpec, now: Time)
  {
    && t.share.Some?
    && (var b := t.share.value;
        && spec.recipient in b.recipients && spec.fields <= b.fields && spec.permissions <= b.permissions
        && spec.destinations <= b.destinations && spec.expiresAt <= b.expiresAt && (spec.followActive ==> b.allowFollowActive))
    && forall p | p in spec.permissions + {AccessGrant} :: Holds(app, ctx, t, r, p, spec.fields, None, now)
  }

  /** The right each mutation of an existing record needs. */
  predicate Entitled(app: App, ctx: Context, t: Task, op: Mutation, now: Time)
    requires !op.Create? && !op.Generate? && op.record in app.records
  {
    var r := app.records[op.record];
    match op
    case Patch(_, _, values) =>
      && Storable(values) && Holds(app, ctx, t, r, SecretWrite, values.Keys, None, now)
      && (r.kind == LoginKind ==> ApiKey !in values) && (r.kind == ApiKeyKind ==> Password !in values)
    case Delete(_, _) => ctx.admin || Holds(app, ctx, t, r, EntryDelete, r.values.Keys, None, now)
    case Share(_, _, spec) => Shareable(app, ctx, t, r, spec, now)
    case Revoke(id, _, g) =>
      && g in app.grants && app.grants[g].record == id
      && (ctx.admin || Holds(app, ctx, t, r, AccessGrant, app.grants[g].spec.fields, None, now))
    case ReportOutcome(_, _, state) => state != VerifiedLogin && Holds(app, ctx, t, r, SecretWrite, {}, None, now)
  }

  lemma StorableExactly(v: Values)
    ensures ValuesOk(v) <==> Storable(v)
  {
    assert |v| == |v.Keys|;
  }

  lemma CreatableExactly(t: Task, op: Mutation)
    requires Creates(op)
    ensures AuthorizeCreate(t, op).None? <==> Creatable(t, op)
  {
    if op.Create? { StorableExactly(op.values); }
    hide ValuesOk, Storable;
  }

  lemma ShareableExactly(app: App, ctx: Context, t: Task, r: Record, spec: GrantSpec, now: Time)
    ensures AuthorizeShare(app, ctx, t, r, spec, now).None? <==> Shareable(app, ctx, t, r, spec, now)
  {
    hide Can, Holds;
    forall p ensures Can(app, ctx, t, r, p, spec.fields, None, now) <==> Holds(app, ctx, t, r, p, spec.fields, None, now) {
      HoldsExactly(app, ctx, t, r, p, spec.fields, None, now);
    }
    assert AccessGrant in spec.permissions + {AccessGrant};
  }

  lemma EntitledExactly(app: App, ctx: Context, t: Task, op: Mutation, now: Time)
    requires !Creates(op) && op.record in app.records
    ensures AuthorizeRecordOp(app, ctx, t, op, now).None? <==> Entitled(app, ctx, t, op, now)
  {
    hide Can, Holds, AuthorizeShare, Shareable, ValuesOk, Storable;
    var r := app.records[op.record];
    forall p, fields ensures Can(app, ctx, t, r, p, fields, None, now) <==> Holds(app, ctx, t, r, p, fields, None, now) {
      HoldsExactly(app, ctx, t, r, p, fields, None, now);
    }
    if op.Share? { ShareableExactly(app, ctx, t, r, op.grant, now); }
    if op.Patch? { StorableExactly(op.values); }
  }

  /** A new record is admitted and there is room for it, or an existing one stands at the expected revision and the caller
      is entitled to the change. */
  predicate Changeable(app: App, ctx: Context, task: Uuid, op: Mutation, now: Time, draw: Draw)
    requires task in app.tasks
  {
    if op.Create? || op.Generate? then Creatable(app.tasks[task], op) && |app.records| < LIMIT && (op.Generate? ==> draw.secret.Some?)
    else
      && Standing(app, ctx, op.record) && app.records[op.record].revision == op.expected && op.expected < U64_MAX
      && Entitled(app, ctx, app.tasks[task], op, now)
      && (op.Patch? && Rotates(op.values) ==> app.records[op.record].secretVersion < U64_MAX) && (op.Share? ==> |app.grants| < LIMIT)
  }

  predicate Rotates(v: Values) { Password in v || ApiKey in v || Username in v }

  // ----- what an accepted mutation leaves -----

  /** The record the mutation makes or changes. */
  ghost predicate LeavesRecord(a: App, b: App, ctx: Context, task: Uuid, op: Mutation, draw: Draw, receipt: Receipt)
    requires task in a.tasks && (op.Create? || op.Generate? || op.record in a.records)
  {
    && receipt.record in b.records && b.records == a.records[receipt.record := b.records[receipt.record]]
    && b.records[receipt.record].revision == receipt.revision
    && if op.Create? || op.Generate? then
         receipt.record == draw.id && receipt.revision == 1 && Fresh(b.records[draw.id], ctx, a.tasks[task], task, op, draw)
       else
         && receipt.record == op.record && receipt.revision == a.records[op.record].revision + 1
         && Changed(a.records[op.record], b.records[op.record], op)
  }

  /** A new record: the approval's, of the caller's making, with the values given or generated. */
  predicate Fresh(m: Record, ctx: Context, t: Task, task: Uuid, op: Mutation, draw: Draw)
    requires op.Create? || op.Generate?
  {
    && m == Record(draw.id, ctx.owner, ctx.workspace, ctx.principal, task, t.service, t.origin, op.kind, 1, 1, m.values, Pending, false, false)
    && match op
       case Create(_, values) => m.values == values
       case Generate(kind, username, _) =>
         && m.values.Keys == (if kind == LoginKind then {Username, Password} else {ApiKey})
         && (forall f | f in m.values && f != Username :: Some(m.values[f]) == draw.secret)
         && (Username in m.values ==> Some(m.values[Username]) == username)
  }

  /** The fields the mutation of an existing record touches, its revision aside. */
  predicate Changed(r: Record, m: Record, op: Mutation)
    requires !op.Create? && !op.Generate?
  {
    match op
    case Patch(_, _, values) =>
      && (forall f | f in m.values :: if f in values then m.values[f] == values[f] else f in r.values && m.values[f] == r.values[f])
      && m.values.Keys == r.values.Keys + values.Keys
      && (Rotates(values) ==> m.secretVersion == r.secretVersion + 1 && m.signup == Pending)
      && (!Rotates(values) ==> m.secretVersion == r.secretVersion && m.signup == r.signup)
      && m == r.(revision := m.revision, values := m.values, secretVersion := m.secretVersion, signup := m.signup)
    case Delete(_, _) => m == r.(revision := m.revision, values := map[], deleted := true)
    case Share(_, _, _) => m == r.(revision := m.revision)
    case Revoke(_, _, _) => m == r.(revision := m.revision)
    case ReportOutcome(_, _, state) => m == r.(revision := m.revision, signup := state)
  }

  ghost predicate LeavesGrants(a: App, b: App, ctx: Context, task: Uuid, op: Mutation, draw: Draw, receipt: Receipt)
    requires op.Create? || op.Generate? || op.record in a.records
  {
    match op
    case Share(id, _, spec) =>
      && receipt.grant == Some(draw.id)
      && b.grants == a.grants[draw.id := Grant(id, spec, false, a.records[id].secretVersion, task, ctx.admin)]
    case Revoke(_, _, g) =>
      && receipt.grant == Some(g) && b.grants.Keys == a.grants.Keys
      && forall i | i in a.grants :: b.grants[i] == if i == g then a.grants[i].(revoked := true) else a.grants[i]
    case Delete(id, _) =>
      && receipt.grant.None? && b.grants.Keys == a.grants.Keys
      && forall i | i in a.grants :: b.grants[i] == if a.grants[i].record == id then a.grants[i].(revoked := true) else a.grants[i]
    case _ => receipt.grant.None? && b.grants == a.grants
  }

  predicate Labelled(op: Mutation, kind: Kind)
  {
    && (kind == KCreate <==> op.Create? || op.Generate?) && (kind == KDelete <==> op.Delete?) && (kind == KShare <==> op.Share?)
    && (kind == KRevoke <==> op.Revoke?) && (kind == KReportOutcome <==> op.ReportOutcome?)
    && (kind == KPatch <==> op.Patch? && Rotates(op.values))
  }

  /** The change, its receipt under the caller's key, and one audit event; nothing else. */
  ghost predicate Leaves(a: App, b: App, ctx: Context, task: Uuid, request: Uuid, op: Mutation, at: Time, draw: Draw, receipt: Receipt)
    requires task in a.tasks && (op.Create? || op.Generate? || op.record in a.records)
  {
    var key := RequestKey(ctx.owner, ctx.principal, task, request);
    && LeavesRecord(a, b, ctx, task, op, draw, receipt) && LeavesGrants(a, b, ctx, task, op, draw, receipt)
    && b == a.(records := b.records, grants := b.grants, requests := b.requests, audit := b.audit)
    && key in b.requests && Labelled(op, b.requests[key].kind)
    && b.requests == a.requests[key := Remembered(OfMutation(op), receipt, b.requests[key].kind, Some(at))]
    && b.audit == Logged(a.audit, AuditEvent(task, receipt.record, Some(request), MutationEvent, at, ctx.principal))
  }

  lemma PerformedRecord(a: App, ctx: Context, task: Uuid, op: Mutation, draw: Draw)
    requires task in a.tasks && (Creates(op) || (op.record in a.records && a.records[op.record].revision < U64_MAX))
    requires (op.Revoke? ==> op.grantId in a.grants) && Generated(op) && Perform(a, ctx, a.tasks[task], task, op, draw).result.Ok?
    ensures var p := Perform(a, ctx, a.tasks[task], task, op, draw); LeavesRecord(a, p.app, ctx, task, op, draw, p.result.value)
  {
    if Creates(op) { PerformedNew(a, ctx, task, op, draw); } else { PerformedChange(a, ctx, task, op, draw); }
    hide Perform, Fresh, Changed;
  }

  lemma PerformedNew(a: App, ctx: Context, task: Uuid, op: Mutation, draw: Draw)
    requires task in a.tasks && Creates(op) && Generated(op) && Perform(a, ctx, a.tasks[task], task, op, draw).result.Ok?
    ensures var p := Perform(a, ctx, a.tasks[task], task, op, draw);
      && p.result.value.record == draw.id && p.result.value.revision == 1
      && draw.id in p.app.records && p.app.records == a.records[draw.id := p.app.records[draw.id]]
      && Fresh(p.app.records[draw.id], ctx, a.tasks[task], task, op, draw)
  {}

  lemma PerformedChange(a: App, ctx: Context, task: Uuid, op: Mutation, draw: Draw)
    requires task in a.tasks && !Creates(op) && op.record in a.records && a.records[op.record].revision < U64_MAX
    requires (op.Revoke? ==> op.grantId in a.grants) && Perform(a, ctx, a.tasks[task], task, op, draw).result.Ok?
    ensures var p := Perform(a, ctx, a.tasks[task], task, op, draw);
      && p.result.value.record == op.record && p.result.value.revision == a.records[op.record].revision + 1
      && op.record in p.app.records && p.app.records == a.records[op.record := p.app.records[op.record]]
      && p.app.records[op.record].revision == p.result.value.revision
      && Changed(a.records[op.record], p.app.records[op.record], op)
  {
    if op.Patch? {
      PerformedPatch(a, ctx, task, op, draw);
    } else {
      PerformedOther(a, ctx, task, op, draw);
    }
    hide Perform, Changed;
  }

  lemma PerformedPatch(a: App, ctx: Context, task: Uuid, op: Mutation, draw: Draw)
    requires task in a.tasks && op.Patch? && op.record in a.records && a.records[op.record].revision < U64_MAX
    requires (op.Revoke? ==> op.grantId in a.grants) && Perform(a, ctx, a.tasks[task], task, op, draw).result.Ok?
    ensures var p := Perform(a, ctx, a.tasks[task], task, op, draw);
      && p.result.value.record == op.record && p.result.value.revision == a.records[op.record].revision + 1
      && op.record in p.app.records && p.app.records == a.records[op.record := p.app.records[op.record]]
      && p.app.records[op.record].revision == p.result.value.revision
      && Changed(a.records[op.record], p.app.records[op.record], op)
  {}

  lemma PerformedOther(a: App, ctx: Context, task: Uuid, op: Mutation, draw: Draw)
    requires task in a.tasks && !Creates(op) && !op.Patch? && op.record in a.records && a.records[op.record].revision < U64_MAX
    requires (op.Revoke? ==> op.grantId in a.grants) && Perform(a, ctx, a.tasks[task], task, op, draw).result.Ok?
    ensures var p := Perform(a, ctx, a.tasks[task], task, op, draw);
      && p.result.value.record == op.record && p.result.value.revision == a.records[op.record].revision + 1
      && op.record in p.app.records && p.app.records == a.records[op.record := p.app.records[op.record]]
      && p.app.records[op.record].revision == p.result.value.revision
      && Changed(a.records[op.record], p.app.records[op.record], op)
  {}

  /** A login is generated with a username and an API key without. */
  predicate Generated(op: Mutation) { op.Generate? ==> (op.kind == LoginKind <==> op.username.Some?) }

  lemma PerformedGrants(a: App, ctx: Context, task: Uuid, op: Mutation, draw: Draw)
    requires task in a.tasks && (Creates(op) || (op.record in a.records && a.records[op.record].revision < U64_MAX))
    requires op.Revoke? ==> op.grantId in a.grants
    requires Perform(a, ctx, a.tasks[task], task, op, draw).result.Ok?
    ensures var p := Perform(a, ctx, a.tasks[task], task, op, draw); LeavesGrants(a, p.app, ctx, task, op, draw, p.result.value)
    ensures var p := Perform(a, ctx, a.tasks[task], task, op, draw); p.app == a.(records := p.app.records, grants := p.app.grants)
  {}

  lemma PerformedExactly(a: App, ctx: Context, task: Uuid, op: Mutation, draw: Draw)
    requires task in a.tasks && (Creates(op) || (op.record in a.records && a.records[op.record].revision < U64_MAX))
    requires op.Revoke? ==> op.grantId in a.grants
    ensures Perform(a, ctx, a.tasks[task], task, op, draw).result.Ok? <==> Room(a, op, draw)
  {}

  /** Counters and collections have room for the change, and a secret was sampled where one is needed. */
  predicate Room(a: App, op: Mutation, draw: Draw)
    requires Creates(op) || op.record in a.records
  {
    match op
    case Create(_, _) => |a.records| < LIMIT
    case Generate(_, _, _) => |a.records| < LIMIT && draw.secret.Some?
    case Patch(id, _, values) => Rotates(values) ==> a.records[id].secretVersion < U64_MAX
    case Share(_, _, _) => |a.grants| < LIMIT
    case _ => true
  }

  // ----- which requests are accepted -----

  lemma ChangeableExactly(app: App, ctx: Context, task: Uuid, op: Mutation, now: Time, draw: Draw)
    requires task in app.tasks
    ensures Changeable(app, ctx, task, op, now, draw) <==>
      && Authorize(app, ctx, app.tasks[task], op, now, false).None? && (Creates(op) || op.record in app.records) && Room(app, op, draw)
  {
    hide AuthorizeRecordOp, Entitled, AuthorizeCreate, Creatable;
    if Creates(op) {
      CreatableExactly(app.tasks[task], op);
    } else if op.record in app.records {
      EntitledExactly(app, ctx, app.tasks[task], op, now);
    }
  }

  /** No delivery carries the key. */
  predicate Undelivered(app: App, key: RequestKey) { forall d | d in app.deliveries :: app.deliveries[d].key != key }

  /** A request with a key that is not retained is accepted. */
  predicate Acceptable(app: App, ctx: Context, task: Uuid, request: Uuid, op: Mutation, now: Time, draw: Draw)
  {
    && Admitted(app, now) && request != NIL && Live(app, ctx, task, Effective(app, now))
    && Changeable(Sampled(app, now), ctx, task, op, Effective(app, now), draw)
    && Undelivered(app, RequestKey(ctx.owner, ctx.principal, task, request)) && !draw.oversized && |app.requests| < LIMIT
  }

  /** The authority a repeated request still needs; a record that is deleted answers only the deletion. */
  predicate Repeatable(app: App, ctx: Context, task: Uuid, op: Mutation, now: Time)
    requires task in app.tasks
  {
    if op.Create? || op.Generate? then Creatable(app.tasks[task], op)
    else
      && op.record in app.records && app.records[op.record].owner == ctx.owner && app.records[op.record].workspace == ctx.workspace
      && (app.records[op.record].deleted ==> op.Delete?) && Entitled(app, ctx, app.tasks[task], op, now)
  }

  lemma RepeatableExactly(app: App, ctx: Context, task: Uuid, op: Mutation, now: Time)
    requires task in app.tasks
    ensures Repeatable(app, ctx, task, op, now) <==> Authorize(app, ctx, app.tasks[task], op, now, true).None?
  {
    hide AuthorizeRecordOp, Entitled, AuthorizeCreate, Creatable;
    if Creates(op) {
      CreatableExactly(app.tasks[task], op);
    } else if op.record in app.records {
      EntitledExactly(app, ctx, app.tasks[task], op, now);
    }
  }

  lemma UndeliveredSampled(app: App, now: Time, key: RequestKey)
    ensures Undelivered(app, key) <==> !DeliveryKeyUsed(Sampled(app, now), key)
  {
    SampledBooks(app, now);
    hide Sampled;
  }

  lemma LiveIsThere(app: App, ctx: Context, task: Uuid, now: Time)
    ensures Live(app, ctx, task, now) ==> task in app.tasks
  {}

  lemma LiveExactly(app: App, ctx: Context, task: Uuid, now: Time)
    ensures TaskFor(app, ctx, task, now) == if Live(app, ctx, task, now) then Ok(app.tasks[task]) else Err(Denied)
  {}

  lemma ChangeableIsRepeatable(app: App, ctx: Context, task: Uuid, op: Mutation, now: Time, draw: Draw)
    requires task in app.tasks && Changeable(app, ctx, task, op, now, draw)
    ensures Repeatable(app, ctx, task, op, now)
  {
    hide Entitled, Creatable;
  }

  lemma BookedLeaves(a: App, p: App, b: App, ctx: Context, task: Uuid, request: Uuid, op: Mutation, at: Time, draw: Draw, receipt: Receipt)
    requires task in a.tasks && (Creates(op) || op.record in a.records) && p == a.(records := p.records, grants := p.grants)
    requires LeavesRecord(a, p, ctx, task, op, draw, receipt) && LeavesGrants(a, p, ctx, task, op, draw, receipt)
    requires var entry := Remembered(OfMutation(op), receipt, KindOf(op), Some(at));
      b == Audit(p.(requests := p.requests[RequestKey(ctx.owner, ctx.principal, task, request) := entry]),
                 AuditEvent(task, receipt.record, Some(request), MutationEvent, at, ctx.principal))
    ensures Leaves(a, b, ctx, task, request, op, at, draw, receipt)
  {
    LabelledKind(op);
    LeavesSame(a, p, b, ctx, task, op, draw, receipt);
    hide LeavesRecord, LeavesGrants, Labelled, KindOf;
  }

  lemma LeavesSame(a: App, p: App, b: App, ctx: Context, task: Uuid, op: Mutation, draw: Draw, receipt: Receipt)
    requires task in a.tasks && (Creates(op) || op.record in a.records) && b.records == p.records && b.grants == p.grants
    requires LeavesRecord(a, p, ctx, task, op, draw, receipt) && LeavesGrants(a, p, ctx, task, op, draw, receipt)
    ensures LeavesRecord(a, b, ctx, task, op, draw, receipt) && LeavesGrants(a, b, ctx, task, op, draw, receipt)
  {
    hide Fresh, Changed;
  }

  /** An authorized change is made exactly when there is room for it. */
  lemma AuthorizedLeaves(a: App, ctx: Context, task: Uuid, request: Uuid, op: Mutation, at: Time, draw: Draw)
    requires task in a.tasks && Authorize(a, ctx, a.tasks[task], op, at, false).None? && |a.requests| < LIMIT && (Creates(op) || op.record in a.records)
    ensures var o := MutateNew(a, ctx, a.tasks[task], task, request, op, at, draw);
      && (o.result.Ok? <==> Room(a, op, draw))
      && (o.result.Err? ==> o.app == a)
      && (o.result.Ok? ==> Leaves(a, o.app, ctx, task, request, op, at, draw, o.result.value))
  {
    hide Room, Leaves, LeavesRecord, LeavesGrants, KindOf, Audit;
    AuthorizedPerforms(a, ctx, task, op, at);
    hide Authorize;
    PerformedExactly(a, ctx, task, op, draw);
    if Room(a, op, draw) {
      PerformedRecord(a, ctx, task, op, draw);
      PerformedGrants(a, ctx, task, op, draw);
      var p := Perform(a, ctx, a.tasks[task], task, op, draw);
      hide Perform;
      BookedLeaves(a, p.app, MutateNew(a, ctx, a.tasks[task], task, request, op, at, draw).app, ctx, task, request, op, at, draw, p.result.value);
    }
    hide Perform;
  }

  lemma ChangedExactly(a: App, ctx: Context, task: Uuid, request: Uuid, op: Mutation, at: Time, draw: Draw)
    requires task in a.tasks
    ensures var o := MutateNew(a, ctx, a.tasks[task], task, request, op, at, draw);
      && (o.result.Ok? <==> Changeable(a, ctx, task, op, at, draw) && |a.requests| < LIMIT)
      && (o.result.Err? ==> o.app == a)
      && (o.result.Ok? ==> Leaves(a, o.app, ctx, task, request, op, at, draw, o.result.value))
  {
    ChangeableExactly(a, ctx, task, op, at, draw);
    hide Changeable, Room, Leaves, Perform, Audit;
    if Authorize(a, ctx, a.tasks[task], op, at, false).None? && |a.requests| < LIMIT {
      AuthorizedPerforms(a, ctx, task, op, at);
      AuthorizedLeaves(a, ctx, task, request, op, at, draw);
      hide MutateNew;
    }
    hide Authorize;
  }

  lemma LabelledKind(op: Mutation)
    ensures Labelled(op, KindOf(op))
  {}

  lemma AuthorizedPerforms(a: App, ctx: Context, task: Uuid, op: Mutation, at: Time)
    requires task in a.tasks && Authorize(a, ctx, a.tasks[task], op, at, false).None?
    ensures Generated(op) && (Creates(op) || (op.record in a.records && a.records[op.record].revision < U64_MAX)) && (op.Revoke? ==> op.grantId in a.grants)
  {}

  /** A new request is accepted exactly when somebody may make it; refused, it leaves only the clock. */
  lemma MutatedExactly(app: App, ctx: Context, task: Uuid, request: Uuid, op: Mutation, now: Time, draw: Draw)
    requires RequestKey(ctx.owner, ctx.principal, task, request) !in app.requests
    ensures var o := Mutate(app, ctx, task, request, op, now, draw);
      && (o.result.Ok? <==> Acceptable(app, ctx, task, request, op, now, draw))
      && (o.result.Err? ==> o.app == Sampled(app, now))
      && (o.result.Ok? ==> Leaves(Sampled(app, now), o.app, ctx, task, request, op, Effective(app, now), draw, o.result.value))
  {
    SampledExactly(app, now);
    hide Clock;
    SampledBooks(app, now);
    var c, at := Sampled(app, now), Effective(app, now);
    LiveExactly(c, ctx, task, at);
    LiveSampled(app, ctx, task, now, at);
    UndeliveredSampled(app, now, RequestKey(ctx.owner, ctx.principal, task, request));
    LiveIsThere(app, ctx, task, at);
    hide Sampled, Effective, TaskFor, Leaves, Live, DeliveryKeyUsed, Undelivered;
    if task in c.tasks {
      RepeatableExactly(c, ctx, task, op, at);
      ChangedExactly(c, ctx, task, request, op, at, draw);
      if Changeable(c, ctx, task, op, at, draw) { ChangeableIsRepeatable(c, ctx, task, op, at, draw); }
      hide Changeable, MutateNew, Authorize;
    }
  }

  /** A request whose key is retained changes nothing, and answers with the retained receipt exactly when it is the same request
      and its caller still has the authority for it. */
  lemma RepeatedExactly(app: App, ctx: Context, task: Uuid, request: Uuid, op: Mutation, now: Time, draw: Draw)
    requires RequestKey(ctx.owner, ctx.principal, task, request) in app.requests
    ensures var o := Mutate(app, ctx, task, request, op, now, draw); var key := RequestKey(ctx.owner, ctx.principal, task, request);
      && o.app == Sampled(app, now)
      && (o.result.Ok? ==> o.result.value == app.requests[key].result)
      && (o.result.Ok? <==>
            && Admitted(app, now) && request != NIL && Live(app, ctx, task, Effective(app, now))
            && Repeatable(Sampled(app, now), ctx, task, op, Effective(app, now)) && Undelivered(app, key) && !draw.oversized
            && app.requests[key].fingerprint == OfMutation(op)
            && (op.Create? || op.Generate? ==> Standing(app, ctx, app.requests[key].result.record)))
  {
    SampledExactly(app, now);
    hide Clock;
    var c, at := Sampled(app, now), Effective(app, now);
    LiveExactly(c, ctx, task, at);
    hide TaskFor, Authorize, Repeatable;
    if task in c.tasks { RepeatableExactly(c, ctx, task, op, at); }
  }

  lemma MutateAccepts(app: App, ctx: Context, task: Uuid, request: Uuid, op: Mutation, now: Time, draw: Draw)
    ensures var o := Mutate(app, ctx, task, request, op, now, draw); var repeated := RequestKey(ctx.owner, ctx.principal, task, request) in app.requests;
      && (!repeated ==> (o.result.Ok? <==> Acceptable(app, ctx, task, request, op, now, draw)))
      && (o.result.Err? || repeated ==> o.app == Sampled(app, now))
  {
    hide Acceptable, Leaves, Repeatable, Policy.Mutate, Sampled;
    if RequestKey(ctx.owner, ctx.principal, task, request) in app.requests {
      RepeatedExactly(app, ctx, task, request, op, now, draw);
    } else {
      MutatedExactly(app, ctx, task, request, op, now, draw);
    }
  }
}
