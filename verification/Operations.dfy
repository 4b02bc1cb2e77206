/** Every operation of the policy core and the ledger invariant, with the exact condition under which
    the staged application is publishable. */
module Operations {
  import opened Types
  import opened Policy
  import opened Ledger
  import opened CompactionLedger
  import opened Preservation

  // ----- approvals -----

  /** `b` is `a` with more approved tasks or more revoked ones. */
  ghost predicate MoreTasks(a: App, b: App)
  {
    && b == a.(tasks := b.tasks, revokedTasks := b.revokedTasks)
    && forall id | id in a.tasks :: id in b.tasks && b.tasks[id] == a.tasks[id]
  }

  lemma MoreTasksStructure(a: App, b: App)
    requires MoreTasks(a, b) && StructureOk(a) && TasksOk(b.tasks) && |b.tasks| <= LIMIT && b.revokedTasks <= b.tasks.Keys
    ensures StructureOk(b)
  {
    SubsetSize(b.revokedTasks, b.tasks.Keys);
    assert RecordsOk(b.tasks, b.records);
    assert GrantsOk(b.tasks, b.records, b.grants);
  }

  lemma MoreTasksReceipts(a: App, b: App)
    requires MoreTasks(a, b) && ReceiptsOk(a)
    ensures ReceiptsOk(b)
  {}

  lemma MoreTasksActivity(a: App, b: App)
    requires MoreTasks(a, b) && ActivityOk(a)
    ensures ActivityOk(b)
  {}

  lemma MoreTasksSound(a: App, b: App)
    requires MoreTasks(a, b) && Sound(a) && TasksOk(b.tasks) && |b.tasks| <= LIMIT && b.revokedTasks <= b.tasks.Keys
    ensures Sound(b)
  {
    ValidIs(a);
    ValidIs(b);
    MoreTasksStructure(a, b);
    MoreTasksReceipts(a, b);
    MoreTasksActivity(a, b);
  }

  /** What an approval can do to the task table. */
  lemma ApproveShape(app: App, admin: Context, task: Task, now: Time)
    ensures var b := ApproveTask(app, admin, task, now).app; var c := Clock(app, now).app;
      && b == c.(tasks := b.tasks)
      && (b.tasks == c.tasks
          || (b.tasks == c.tasks[task.id := task] && task.id !in c.tasks && |c.tasks| < LIMIT
              && (exists at :: TaskBoundsOk(task, at) && (app.lastTime.Some? ==> app.lastTime.value <= at))
              && forall id | id in c.tasks :: c.tasks[id].owner == task.owner && c.tasks[id].workspace == task.workspace))
  {}

  lemma OneMoreTask(tasks: map<Uuid, Task>, task: Task, at: Time)
    requires TasksOk(tasks) && |tasks| < LIMIT && task.id !in tasks && TaskBoundsOk(task, at)
    requires forall id | id in tasks :: tasks[id].owner == task.owner && tasks[id].workspace == task.workspace
    ensures TasksOk(tasks[task.id := task]) && |tasks[task.id := task]| <= LIMIT
  {}

  lemma SoundTasks(app: App)
    requires Sound(app)
    ensures TasksOk(app.tasks) && |app.tasks| <= LIMIT && app.revokedTasks <= app.tasks.Keys
  {
    ValidIs(app);
  }

  lemma ApprovedSound(c: App, b: App, task: Task)
    requires Sound(c) && b == c.(tasks := c.tasks[task.id := task]) && task.id !in c.tasks && |c.tasks| < LIMIT
    requires exists at :: TaskBoundsOk(task, at)
    requires forall id | id in c.tasks :: c.tasks[id].owner == task.owner && c.tasks[id].workspace == task.workspace
    ensures Sound(b)
  {
    SoundTasks(c);
    var at :| TaskBoundsOk(task, at);
    OneMoreTask(c.tasks, task, at);
    MoreTasksSound(c, b);
  }

  lemma ClockKeepsSound(app: App, now: Time)
    requires Sound(app)
    ensures Sound(Clock(app, now).app)
  {
    ValidIs(app);
    ClockKeepsBooks(app, now);
    ClockKeepsValid(app, now);
  }

  /** Approving a task keeps the invariant. */
  lemma ApproveKeepsSound(app: App, admin: Context, task: Task, now: Time)
    requires Sound(app)
    ensures Sound(ApproveTask(app, admin, task, now).app)
  {
    var c, b := Clock(app, now).app, ApproveTask(app, admin, task, now).app;
    ClockKeepsSound(app, now);
    ApproveShape(app, admin, task, now);
    if b != c {
      ApprovedSound(c, b, task);
    }
  }

  lemma RevokeTaskShape(app: App, admin: Context, id: Uuid, now: Time)
    ensures var b := RevokeTask(app, admin, id, now).app; var c := Clock(app, now).app;
      b == c || (b == c.(revokedTasks := c.revokedTasks + {id}) && id in c.tasks)
  {}

  lemma RevokedSound(c: App, id: Uuid)
    requires Sound(c) && id in c.tasks
    ensures Sound(c.(revokedTasks := c.revokedTasks + {id}))
  {
    SoundTasks(c);
    MoreTasksSound(c, c.(revokedTasks := c.revokedTasks + {id}));
  }

  /** Revoking a task keeps the invariant. */
  lemma RevokeTaskKeepsSound(app: App, admin: Context, id: Uuid, now: Time)
    requires Sound(app)
    ensures Sound(RevokeTask(app, admin, id, now).app)
  {
    var c := Clock(app, now).app;
    ClockKeepsSound(app, now);
    RevokeTaskShape(app, admin, id, now);
    if RevokeTask(app, admin, id, now).app != c {
      RevokedSound(c, id);
    }
  }

  // ----- facts an authorized request carries -----

  lemma FieldsFit(v: Values)
    ensures |v| <= 5
  {
    var all := {Label, Username, Password, ApiKey, Notes};
    forall f | f in v.Keys ensures f in all {
      match f { case Label => case Username => case Password => case ApiKey => case Notes => }
    }
    SubsetSize(v.Keys, all);
  }

  /** Whoever may act on fields of a record, they are fields of the record's creating task. */
  lemma PermittedFieldsOfCreator(app: App, ctx: Context, t: Task, r: Record, permission: Permission, fields: set<Field>, now: Time)
    requires RecordsOk(app.tasks, app.records) && GrantsOk(app.tasks, app.records, app.grants)
    requires t.id in app.tasks && app.tasks[t.id] == t && r.id in app.records && app.records[r.id] == r && !r.deleted
    requires Can(app, ctx, t, r, permission, fields, None, now)
    ensures fields <= app.tasks[r.task].fields
  {}

  // ----- mutations of an existing record -----

  function KeyOf(ctx: Context, task: Uuid, request: Uuid): RequestKey { RequestKey(ctx.owner, ctx.principal, task, request) }

  predicate FreshDraw(app: App, draw: Draw)
  {
    && draw.id != NIL && draw.id !in app.records && draw.id !in app.grants && draw.id !in app.deliveries
    && (draw.secret.Some? ==> 0 < |draw.secret.value| <= 128)
  }

  predicate Performable(app: App, op: Mutation)
  {
    && (!Creates(op) ==> op.record in app.records && app.records[op.record].revision < U64_MAX && !app.records[op.record].deleted)
    && (op.Revoke? ==> op.grantId in app.grants && app.grants[op.grantId].record == op.record)
    && (op.ReportOutcome? ==> op.state != VerifiedLogin)
  }

  lemma AuthorizedIsPerformable(app: App, ctx: Context, t: Task, op: Mutation, now: Time)
    requires Authorize(app, ctx, t, op, now, false).None?
    ensures Performable(app, op)
    ensures !Creates(op) ==> app.records[op.record].owner == ctx.owner && app.records[op.record].workspace == ctx.workspace
  {}

  function EntryOf(receipt: Receipt, op: Mutation, now: Time): Remembered
  {
    Remembered(OfMutation(op), receipt, KindOf(op), Some(now))
  }

  predicate Performs(app: App, ctx: Context, t: Task, task: Uuid, op: Mutation, draw: Draw)
  {
    Performable(app, op) && Perform(app, ctx, t, task, op, draw).result.Ok?
  }

  /** The application with the effect and its receipt, before the audit event. */
  function Booked(app: App, ctx: Context, t: Task, task: Uuid, request: Uuid, op: Mutation, now: Time, draw: Draw): App
    requires Performs(app, ctx, t, task, op, draw)
  {
    var done := Perform(app, ctx, t, task, op, draw);
    done.app.(requests := done.app.requests[KeyOf(ctx, task, request) := EntryOf(done.result.value, op, now)])
  }

  lemma BookedAdvances(app: App, ctx: Context, t: Task, task: Uuid, request: Uuid, op: Mutation, now: Time, draw: Draw)
    requires !Creates(op) && Performs(app, ctx, t, task, op, draw) && draw.id !in app.grants
    requires KeyOf(ctx, task, request) !in app.requests
    ensures var b := Booked(app, ctx, t, task, request, op, now, draw);
      var entry := EntryOf(Perform(app, ctx, t, task, op, draw).result.value, op, now);
      entry.result.record == op.record && Advances(app, b, KeyOf(ctx, task, request), entry, b.records[op.record])
  {
    hide Policy.Perform, Preservation.RecordAdvances, Preservation.GrantsAdvance;
    BookedRecordAdvances(app, ctx, t, task, request, op, now, draw);
    BookedGrantsAdvance(app, ctx, t, task, op, now, draw);
    PerformedRest(app, ctx, t, task, op, draw);
  }

  lemma BookedRecordAdvances(app: App, ctx: Context, t: Task, task: Uuid, request: Uuid, op: Mutation, now: Time, draw: Draw)
    requires !Creates(op) && Performs(app, ctx, t, task, op, draw)
    ensures var p := Perform(app, ctx, t, task, op, draw); var entry := EntryOf(p.result.value, op, now);
      && entry.result.record == op.record && op.record in p.app.records
      && entry.kind != KCreate && entry.result.revision == p.app.records[op.record].revision
      && p.app.records == app.records[op.record := p.app.records[op.record]]
      && RecordAdvances(app.records[op.record], p.app.records[op.record], entry)
  {}

  lemma BookedGrantsAdvance(app: App, ctx: Context, t: Task, task: Uuid, op: Mutation, now: Time, draw: Draw)
    requires !Creates(op) && Performs(app, ctx, t, task, op, draw) && draw.id !in app.grants
    ensures var p := Perform(app, ctx, t, task, op, draw); GrantsAdvance(app.grants, p.app.grants, EntryOf(p.result.value, op, now))
  {}

  lemma PatchedRecordOk(app: App, ctx: Context, t: Task, r: Record, values: Values, now: Time, r1: Record)
    requires RecordsOk(app.tasks, app.records) && GrantsOk(app.tasks, app.records, app.grants)
    requires t.id in app.tasks && app.tasks[t.id] == t && r.id in app.records && app.records[r.id] == r && !r.deleted
    requires ValuesOk(values) && Can(app, ctx, t, r, SecretWrite, values.Keys, None, now)
    requires !(r.kind == LoginKind && ApiKey in values) && !(r.kind == ApiKeyKind && Password in values)
    requires r1 == r.(values := r.values + values, signup := r1.signup, secretVersion := r1.secretVersion, revision := r1.revision)
    requires 0 < r1.secretVersion <= r1.revision
    ensures RecordOk(app.tasks[r.task], r.id, r1)
  {
    assert RecordOk(app.tasks[r.task], r.id, r);
    FieldsFit(r1.values);
    PermittedFieldsOfCreator(app, ctx, t, r, SecretWrite, values.Keys, now);
    var f :| f in values;
    assert f in r1.values;
  }

  lemma BookedRecordOk(app: App, ctx: Context, t: Task, task: Uuid, request: Uuid, op: Mutation, now: Time, draw: Draw)
    requires RecordsOk(app.tasks, app.records) && GrantsOk(app.tasks, app.records, app.grants)
    requires t.id in app.tasks && app.tasks[t.id] == t
    requires !Creates(op) && Performs(app, ctx, t, task, op, draw) && AuthorizeRecordOp(app, ctx, t, op, now).None?
    ensures RecordOk(app.tasks[app.records[op.record].task], op.record,
                     Booked(app, ctx, t, task, request, op, now, draw).records[op.record])
  {
    var r := app.records[op.record];
    var r1 := Booked(app, ctx, t, task, request, op, now, draw).records[op.record];
    assert RecordOk(app.tasks[r.task], op.record, r);
    if op.Patch? {
      PatchedRecordOk(app, ctx, t, r, op.values, now, r1);
    }
  }

  lemma SharedGrantOk(app: App, ctx: Context, t: Task, r: Record, spec: GrantSpec, now: Time, g: Uuid, r1: Record)
    requires RecordsOk(app.tasks, app.records) && GrantsOk(app.tasks, app.records, app.grants)
    requires TaskBoundsOk(t, TIME_MIN) && g != NIL && SameScope(t, r) && t.principal == ctx.principal
    requires r.id in app.records && app.records[r.id] == r && !r.deleted
    requires AuthorizeShare(app, ctx, t, r, spec, now).None?
    requires r1 == r.(revision := r1.revision)
    ensures GrantOk(t, r1, g, Grant(r.id, spec, false, r.secretVersion, t.id, ctx.admin))
  {}

  lemma ShareScope(app: App, ctx: Context, t: Task, r: Record, spec: GrantSpec, now: Time)
    requires AuthorizeShare(app, ctx, t, r, spec, now).None?
    ensures r.service == t.service && r.origin == t.origin
  {}

  lemma BookedShareGrants(app: App, ctx: Context, t: Task, task: Uuid, request: Uuid, op: Mutation, now: Time, draw: Draw)
    requires RecordsOk(app.tasks, app.records) && GrantsOk(app.tasks, app.records, app.grants)
    requires task in app.tasks && app.tasks[task] == t && t.id == task && draw.id !in app.grants
    requires op.Share? && Performs(app, ctx, t, task, op, draw) && KeyOf(ctx, task, request) !in app.requests
    requires GrantOk(t, app.records[op.record].(revision := app.records[op.record].revision + 1), draw.id,
                     Grant(op.record, op.grant, false, app.records[op.record].secretVersion, task, ctx.admin))
    ensures var b := Booked(app, ctx, t, task, request, op, now, draw); GrantsOk(b.tasks, b.records, b.grants)
  {
    var b := Booked(app, ctx, t, task, request, op, now, draw);
    assert RecordOk(app.tasks[app.records[op.record].task], op.record, app.records[op.record]);
    BookedAdvances(app, ctx, t, task, request, op, now, draw);
    AdvanceGrants(app, b, KeyOf(ctx, task, request), EntryOf(Perform(app, ctx, t, task, op, draw).result.value, op, now),
                  b.records[op.record]);
  }

  lemma BookedOtherGrants(app: App, ctx: Context, t: Task, task: Uuid, request: Uuid, op: Mutation, now: Time, draw: Draw)
    requires GrantsOk(app.tasks, app.records, app.grants) && draw.id !in app.grants
    requires !Creates(op) && !op.Share? && Performs(app, ctx, t, task, op, draw) && KeyOf(ctx, task, request) !in app.requests
    ensures var b := Booked(app, ctx, t, task, request, op, now, draw); GrantsOk(b.tasks, b.records, b.grants)
  {
    var b := Booked(app, ctx, t, task, request, op, now, draw);
    BookedAdvances(app, ctx, t, task, request, op, now, draw);
    AdvanceGrants(app, b, KeyOf(ctx, task, request), EntryOf(Perform(app, ctx, t, task, op, draw).result.value, op, now),
                  b.records[op.record]);
  }

  lemma BookedGrantsOk(app: App, ctx: Context, t: Task, task: Uuid, request: Uuid, op: Mutation, now: Time, draw: Draw)
    requires RecordsOk(app.tasks, app.records) && GrantsOk(app.tasks, app.records, app.grants)
    requires task in app.tasks && app.tasks[task] == t && t.id == task && TaskBoundsOk(t, TIME_MIN)
    requires t.owner == ctx.owner && t.workspace == ctx.workspace && t.principal == ctx.principal
    requires draw.id != NIL && draw.id !in app.grants && KeyOf(ctx, task, request) !in app.requests
    requires !Creates(op) && Performs(app, ctx, t, task, op, draw) && AuthorizeRecordOp(app, ctx, t, op, now).None?
    requires app.records[op.record].owner == ctx.owner && app.records[op.record].workspace == ctx.workspace
    ensures var b := Booked(app, ctx, t, task, request, op, now, draw); GrantsOk(b.tasks, b.records, b.grants)
  {
    var r := app.records[op.record];
    if op.Share? {
      assert RecordOk(app.tasks[r.task], op.record, r);
      ShareScope(app, ctx, t, r, op.grant, now);
      SharedGrantOk(app, ctx, t, r, op.grant, now, draw.id, r.(revision := r.revision + 1));
      BookedShareGrants(app, ctx, t, task, request, op, now, draw);
    } else {
      BookedOtherGrants(app, ctx, t, task, request, op, now, draw);
    }
  }

  lemma PerformedRecords(app: App, ctx: Context, t: Task, task: Uuid, op: Mutation, draw: Draw)
    requires Performs(app, ctx, t, task, op, draw)
    ensures var b := Perform(app, ctx, t, task, op, draw).app;
      b.records.Keys == app.records.Keys || (|app.records| < LIMIT && b.records.Keys == app.records.Keys + {draw.id})
  {
    var b := Perform(app, ctx, t, task, op, draw).app;
    if Creates(op) {
      PutKeys(app.records, draw.id, b.records[draw.id]);
    } else {
      PutKeys(app.records, op.record, b.records[op.record]);
    }
  }

  lemma PutKeys<K, V>(m: map<K, V>, k: K, v: V)
    ensures m[k := v].Keys == m.Keys + {k}
    ensures k in m ==> m[k := v].Keys == m.Keys
  {}

  lemma PerformedGrants(app: App, ctx: Context, t: Task, task: Uuid, op: Mutation, draw: Draw)
    requires Performs(app, ctx, t, task, op, draw)
    ensures var b := Perform(app, ctx, t, task, op, draw).app;
      b.grants.Keys == app.grants.Keys || (|app.grants| < LIMIT && b.grants.Keys == app.grants.Keys + {draw.id})
  {
    match op
    case Share(id, _, spec) => PutKeys(app.grants, draw.id, Grant(id, spec, false, app.records[id].secretVersion, task, ctx.admin));
    case Revoke(_, _, g) => PutKeys(app.grants, g, app.grants[g].(revoked := true));
    case Delete(id, _) => assert RevokeAll(app.grants, id).Keys == app.grants.Keys;
    case _ =>
  }

  lemma PerformedRest(app: App, ctx: Context, t: Task, task: Uuid, op: Mutation, draw: Draw)
    requires Performs(app, ctx, t, task, op, draw)
    ensures var b := Perform(app, ctx, t, task, op, draw).app; b == app.(records := b.records, grants := b.grants)
  {}

  lemma LimitsFrom(app: App, b: App, key: RequestKey, entry: Remembered, id: Uuid)
    requires LimitsOk(app) && |app.requests| < LIMIT
    requires b == app.(records := b.records, grants := b.grants, requests := app.requests[key := entry])
    requires b.records.Keys == app.records.Keys || (|app.records| < LIMIT && b.records.Keys == app.records.Keys + {id})
    requires b.grants.Keys == app.grants.Keys || (|app.grants| < LIMIT && b.grants.Keys == app.grants.Keys + {id})
    ensures LimitsOk(b)
  {}

  lemma BookedLimits(app: App, ctx: Context, t: Task, task: Uuid, request: Uuid, op: Mutation, now: Time, draw: Draw)
    requires LimitsOk(app) && |app.requests| < LIMIT && Performs(app, ctx, t, task, op, draw)
    ensures LimitsOk(Booked(app, ctx, t, task, request, op, now, draw))
  {
    PerformedRecords(app, ctx, t, task, op, draw);
    PerformedGrants(app, ctx, t, task, op, draw);
    PerformedRest(app, ctx, t, task, op, draw);
    LimitsFrom(app, Booked(app, ctx, t, task, request, op, now, draw), KeyOf(ctx, task, request),
               EntryOf(Perform(app, ctx, t, task, op, draw).result.value, op, now), draw.id);
  }
}
