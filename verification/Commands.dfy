/** The operations a vault owner stages, as one type, and what any of them does to what is already there:
    nothing is removed, identities are immutable, revocation and deletion only grow. */
module Commands {
  import opened Types
  import opened Policy
  import opened Ledger
  import opened CompactionLedger
  import opened Preservation
  import opened Operations
  import opened Mutations
  import opened Workflow

  datatype Command =
    | CApprove(admin: Context, approval: Task, now: Time)
    | CRevokeTask(admin: Context, id: Uuid, now: Time)
    | CMutate(ctx: Context, task: Uuid, request: Uuid, op: Mutation, now: Time, draw: Draw)
    | CRead(ctx: Context, task: Uuid, record: Uuid, fields: set<Field>, secret: bool, now: Time)
    | CIntent(ctx: Context, task: Uuid, use: PrivateUse, now: Time, attempt: Uuid)
    | CCancel(attempt: Uuid)
    | CFinish(ctx: Context, task: Uuid, attempt: Uuid, status: Status, at: Time)

  /** The staged application after the operation, whether or not it returned an error. */
  ghost function Staged(app: App, c: Command): App
  {
    match c
    case CApprove(admin, approval, now) => ApproveTask(app, admin, approval, now).app
    case CRevokeTask(admin, id, now) => RevokeTask(app, admin, id, now).app
    case CMutate(ctx, task, request, op, now, draw) => Mutate(app, ctx, task, request, op, now, draw).app
    case CRead(ctx, task, record, fields, secret, now) => Read(app, ctx, task, record, fields, secret, now).app
    case CIntent(ctx, task, use, now, attempt) => Intent(app, ctx, task, use, now, attempt).app
    case CCancel(attempt) => Cancel(app, attempt).app
    case CFinish(ctx, task, attempt, status, at) => Finish(app, ctx, task, attempt, status, at).app
  }

  /** The three commits of a private use, as opposed to a request that one call answers. */
  predicate Settles(c: Command) { c.CIntent? || c.CCancel? || c.CFinish? }

  /** Identifiers drawn by the operation are new to `app`, and settling commits name an unfinished attempt. */
  predicate WellDrawn(app: App, c: Command)
  {
    match c
    case CMutate(_, _, _, _, _, draw) => FreshDraw(app, draw)
    case CIntent(_, _, _, _, attempt) => attempt != NIL && attempt !in app.deliveries
    case CCancel(attempt) => Unfinished(app, attempt)
    case CFinish(ctx, task, attempt, status, at) => FinishContext(app, ctx, task, attempt, status, at)
    case _ => true
  }

  // ----- what may happen to what is already there -----

  predicate RecordStep(r: Record, n: Record)
  {
    && r.id == n.id && r.owner == n.owner && r.workspace == n.workspace && r.createdBy == n.createdBy && r.task == n.task
    && r.service == n.service && r.origin == n.origin && r.kind == n.kind && r.restored == n.restored
    && r.revision <= n.revision && r.secretVersion <= n.secretVersion && (r.deleted ==> n.deleted)
    && (r.revision == n.revision ==> r.secretVersion == n.secretVersion && r.deleted == n.deleted && r.values == n.values)
  }

  predicate GrantStep(g: Grant, n: Grant) { n == g || n == g.(revoked := true) }

  predicate DeliveryStep(d: Delivery, n: Delivery)
  {
    n == d || (d.status.None? && n == d.(status := n.status, dispatched := n.dispatched))
  }

  ghost predicate TasksFollow(m: App, n: App)
  {
    && (forall id | id in m.tasks :: id in n.tasks && n.tasks[id] == m.tasks[id])
    && m.revokedTasks <= n.revokedTasks
  }

  ghost predicate RecordsFollow(m: App, n: App)
  {
    forall id | id in m.records :: id in n.records && RecordStep(m.records[id], n.records[id])
  }

  ghost predicate GrantsFollow(m: App, n: App)
  {
    forall g | g in m.grants :: g in n.grants && GrantStep(m.grants[g], n.grants[g])
  }

  ghost predicate RequestsFollow(m: App, n: App)
  {
    forall k | k in m.requests :: k in n.requests && n.requests[k] == m.requests[k]
  }

  ghost predicate DeliveriesFollow(m: App, n: App)
  {
    forall d | d in m.deliveries :: d in n.deliveries && DeliveryStep(m.deliveries[d], n.deliveries[d])
  }

  predicate LaterClock(m: App, n: App)
  {
    m.lastTime.Some? ==> n.lastTime.Some? && m.lastTime.value <= n.lastTime.value
  }

  ghost predicate Follows(m: App, n: App)
  {
    && TasksFollow(m, n) && RecordsFollow(m, n) && GrantsFollow(m, n) && RequestsFollow(m, n) && DeliveriesFollow(m, n)
    && m.baselines == n.baselines && m.generation == n.generation && m.predecessor == n.predecessor && LaterClock(m, n)
  }

  lemma ClockFollows(app: App, now: Time)
    requires HeaderOk(app)
    ensures Follows(app, Clock(app, now).app)
  {
    ClockKeepsBooks(app, now);
  }

  lemma FollowsTransitive(a: App, b: App, c: App)
    requires Follows(a, b) && Follows(b, c)
    ensures Follows(a, c)
  {}

  // ----- each operation follows -----

  lemma AuditFollows(app: App, e: AuditEvent)
    ensures Follows(app, Audit(app, e))
  {}

  lemma BookedFollows(c: App, ctx: Context, t: Task, task: Uuid, request: Uuid, op: Mutation, at: Time, draw: Draw)
    requires Performs(c, ctx, t, task, op, draw) && FreshDraw(c, draw) && KeyOf(ctx, task, request) !in c.requests
    ensures Follows(c, Booked(c, ctx, t, task, request, op, at, draw))
  {
    var b := Booked(c, ctx, t, task, request, op, at, draw);
    if Creates(op) {
      assert RecordsFollow(c, b);
    } else {
      BookedAdvances(c, ctx, t, task, request, op, at, draw);
      AdvancesFollows(c, b, KeyOf(ctx, task, request), b.requests[KeyOf(ctx, task, request)], b.records[op.record]);
    }
  }

  lemma AdvancesFollows(a: App, b: App, key: RequestKey, entry: Remembered, r1: Record)
    requires Advances(a, b, key, entry, r1)
    ensures Follows(a, b)
  {}

  lemma ShapeFollows(app: App, o: Outcome<Receipt>, ctx: Context, task: Uuid, request: Uuid, op: Mutation, now: Time, draw: Draw)
    requires HeaderOk(app) && FreshDraw(app, draw) && ShapeOk(app, o, ctx, task, request, op, now, draw)
    ensures Follows(app, o.app)
  {
    ClockFollows(app, now);
    var c := Clock(app, now);
    if KeyOf(ctx, task, request) !in app.requests && o.result.Ok? {
      var t := c.app.tasks[task];
      var b := Booked(c.app, ctx, t, task, request, op, c.result.value, draw);
      ClockFresh(app, now, draw);
      BookedFollows(c.app, ctx, t, task, request, op, c.result.value, draw);
      AuditFollows(b, EventOf(ctx, task, o.result.value.record, request, c.result.value));
      FollowsTransitive(app, c.app, b);
      FollowsTransitive(app, b, o.app);
    }
  }

  lemma MutateFollows(app: App, ctx: Context, task: Uuid, request: Uuid, op: Mutation, now: Time, draw: Draw)
    requires TasksOk(app.tasks) && HeaderOk(app) && FreshDraw(app, draw)
    ensures Follows(app, Mutate(app, ctx, task, request, op, now, draw).app)
  {
    MutateShape(app, ctx, task, request, op, now, draw);
    ShapeFollows(app, Mutate(app, ctx, task, request, op, now, draw), ctx, task, request, op, now, draw);
  }

  lemma ReadFollows(app: App, ctx: Context, task: Uuid, record: Uuid, fields: set<Field>, secret: bool, now: Time)
    requires HeaderOk(app)
    ensures Follows(app, Read(app, ctx, task, record, fields, secret, now).app)
  {
    ClockFollows(app, now);
    ReadShape(app, ctx, task, record, fields, secret, now);
    var o, c := Read(app, ctx, task, record, fields, secret, now), Clock(app, now);
    if o.result.Ok? {
      var action :| o.app == Audit(c.app, AuditEvent(task, record, None, action, c.result.value, ctx.principal));
      AuditFollows(c.app, AuditEvent(task, record, None, action, c.result.value, ctx.principal));
      FollowsTransitive(app, c.app, o.app);
    }
  }

  lemma IntentFollows(app: App, ctx: Context, task: Uuid, use: PrivateUse, now: Time, attempt: Uuid)
    requires HeaderOk(app) && attempt !in app.deliveries
    ensures Follows(app, Intent(app, ctx, task, use, now, attempt).app)
  {
    ClockFollows(app, now);
    IntentShape(app, ctx, task, use, now, attempt);
    var o, c := Intent(app, ctx, task, use, now, attempt), Clock(app, now);
    if o.result == Ok(None) {
      InsertFollows(c.app, attempt, NewAttempt(task, use, c.app.records[use.record].secretVersion, KeyOf(ctx, task, use.request), c.result.value));
      FollowsTransitive(app, c.app, o.app);
    }
  }

  lemma SignupFollows(app: App, id: Uuid, signup: Signup)
    requires id in app.records
    ensures Follows(app, SetSignup(app, id, signup))
  {}

  lemma AttemptFollows(app: App, attempt: Uuid, d: Delivery)
    requires attempt in app.deliveries ==> DeliveryStep(app.deliveries[attempt], d)
    ensures Follows(app, app.(deliveries := app.deliveries[attempt := d]))
  {}

  lemma InsertFollows(c: App, attempt: Uuid, d: Delivery)
    requires d.record in c.records && attempt !in c.deliveries
    ensures Follows(c, InsertAttempt(c, attempt, d))
  {
    var b := c.(deliveries := c.deliveries[attempt := d]);
    AttemptFollows(c, attempt, d);
    SignupFollows(b, d.record, Submitted);
    FollowsTransitive(c, b, SetSignup(b, d.record, Submitted));
  }

  lemma CancelFollows(app: App, attempt: Uuid)
    requires Unfinished(app, attempt)
    ensures Follows(app, Cancel(app, attempt).app)
  {
    var d := app.deliveries[attempt];
    var settled := d.(dispatched := false, status := Some(StRejected));
    var b := app.(deliveries := app.deliveries[attempt := settled]);
    AttemptFollows(app, attempt, settled);
    if d.record in app.records {
      SignupFollows(b, d.record, Pending);
      FollowsTransitive(app, b, SetSignup(b, d.record, Pending));
    }
  }

  lemma FinishFollows(app: App, ctx: Context, task: Uuid, attempt: Uuid, status: Status, at: Time)
    requires Unfinished(app, attempt)
    ensures Follows(app, Finish(app, ctx, task, attempt, status, at).app)
  {
    var d := app.deliveries[attempt];
    var b := app.(deliveries := app.deliveries[attempt := d.(status := Some(status))]);
    AttemptFollows(app, attempt, d.(status := Some(status)));
    if d.record in app.records {
      var s := SetSignup(b, d.record, OutcomeSignup(d.action, status, app.records[d.record].signup));
      var e := AuditEvent(task, d.record, None, SecretUseEvent, at, ctx.principal);
      SignupFollows(b, d.record, OutcomeSignup(d.action, status, app.records[d.record].signup));
      AuditFollows(s, e);
      FollowsTransitive(app, b, s);
      FollowsTransitive(app, s, Audit(s, e));
    }
  }

  lemma ApproveFollows(app: App, admin: Context, task: Task, now: Time)
    requires HeaderOk(app)
    ensures Follows(app, ApproveTask(app, admin, task, now).app)
  {
    ClockFollows(app, now);
    ApproveShape(app, admin, task, now);
  }

  lemma RevokeTaskFollows(app: App, admin: Context, id: Uuid, now: Time)
    requires HeaderOk(app)
    ensures Follows(app, RevokeTask(app, admin, id, now).app)
  {
    ClockFollows(app, now);
    RevokeTaskShape(app, admin, id, now);
  }

  /** No operation removes or rewrites what is there: identities are immutable, revisions and versions only grow,
      deletion and revocation are permanent, receipts are never edited, finished attempts never change. */
  lemma EveryCommandFollows(app: App, c: Command)
    requires Sound(app) && WellDrawn(app, c)
    ensures Follows(app, Staged(app, c))
  {
    if Settles(c) { EveryCommandFollowsByUse(app, c); } else { EveryCommandFollowsByRequest(app, c); }
  }

  lemma EveryCommandFollowsByRequest(app: App, c: Command)
    requires Sound(app) && WellDrawn(app, c) && !Settles(c)
    ensures Follows(app, Staged(app, c))
  {
    SoundParts(app);
    match c
    case CApprove(admin, approval, now) => ApproveFollows(app, admin, approval, now);
    case CRevokeTask(admin, id, now) => RevokeTaskFollows(app, admin, id, now);
    case CMutate(ctx, task, request, op, now, draw) => MutateFollows(app, ctx, task, request, op, now, draw);
    case CRead(ctx, task, record, fields, secret, now) => ReadFollows(app, ctx, task, record, fields, secret, now);
  }

  lemma EveryCommandFollowsByUse(app: App, c: Command)
    requires Sound(app) && WellDrawn(app, c) && Settles(c)
    ensures Follows(app, Staged(app, c))
  {
    SoundParts(app);
    match c
    case CIntent(ctx, task, use, now, attempt) => IntentFollows(app, ctx, task, use, now, attempt);
    case CCancel(attempt) => CancelFollows(app, attempt);
    case CFinish(ctx, task, attempt, status, at) => FinishFollows(app, ctx, task, attempt, status, at);
  }

  // ----- each operation and the ledger -----

  /** Exactly the staged operations that `validate` accepts. */
  ghost predicate Admissible(app: App, c: Command)
    requires WellDrawn(app, c)
  {
    match c
    case CApprove(_, _, _) => true
    case CRevokeTask(_, _, _) => true
    case CMutate(ctx, task, request, op, now, draw) =>
      Accepted(app, ctx, task, request, op, now, draw) ==> EffectPublishable(Clock(app, now), task, op)
    case CRead(ctx, task, record, fields, secret, now) =>
      Read(app, ctx, task, record, fields, secret, now).result.Ok? ==> Clock(app, now).result.Ok? && Clock(app, now).result.value >= 0
    case CIntent(ctx, task, use, now, attempt) =>
      !(Intent(app, ctx, task, use, now, attempt).result == Ok(None) && use.action == Register && BaseOf(app.baselines, use.record).verifiedLogin)
    case CCancel(attempt) =>
      !(app.deliveries[attempt].action == Register && BaseOf(app.baselines, app.deliveries[attempt].record).verifiedLogin)
    case CFinish(_, _, attempt, status, at) =>
      var d := app.deliveries[attempt];
      at >= 0 && !MovesSealed(app, d.record, OutcomeSignup(d.action, status, app.records[d.record].signup))
  }

  /** Every operation stages a sound application from a sound one exactly when it is admissible. */
  lemma EveryCommandSoundExactly(app: App, c: Command)
    requires Sound(app) && WellDrawn(app, c)
    ensures Sound(Staged(app, c)) <==> Admissible(app, c)
  {
    if Settles(c) { EveryCommandSoundExactlyByUse(app, c); } else { EveryCommandSoundExactlyByRequest(app, c); }
  }

  lemma EveryCommandSoundExactlyByRequest(app: App, c: Command)
    requires Sound(app) && WellDrawn(app, c) && !Settles(c)
    ensures Sound(Staged(app, c)) <==> Admissible(app, c)
  {
    match c
    case CApprove(admin, approval, now) => ApproveKeepsSound(app, admin, approval, now);
    case CRevokeTask(admin, id, now) => RevokeTaskKeepsSound(app, admin, id, now);
    case CMutate(ctx, task, request, op, now, draw) => MutateSoundExactly(app, ctx, task, request, op, now, draw);
    case CRead(ctx, task, record, fields, secret, now) => ReadSoundExactly(app, ctx, task, record, fields, secret, now);
  }

  lemma EveryCommandSoundExactlyByUse(app: App, c: Command)
    requires Sound(app) && WellDrawn(app, c) && Settles(c)
    ensures Sound(Staged(app, c)) <==> Admissible(app, c)
  {
    match c
    case CIntent(ctx, task, use, now, attempt) => IntentSoundExactly(app, ctx, task, use, now, attempt);
    case CCancel(attempt) => CancelSoundExactly(app, attempt);
    case CFinish(ctx, task, attempt, status, at) => FinishSoundExactly(app, ctx, task, attempt, status, at);
  }

  // ----- what an operation may add -----

  /** New tasks, records and grants, receipts and attempts come only from the given identifiers. */
  ghost predicate AddsAtMost(m: App, n: App, tasks: set<Uuid>, ids: set<Uuid>, keys: set<RequestKey>, attempts: set<Uuid>)
  {
    && (forall id | id in n.tasks :: id in m.tasks || id in tasks)
    && (forall id | id in n.revokedTasks :: id in m.revokedTasks || id in m.tasks)
    && (forall id | id in n.records :: id in m.records || id in ids)
    && (forall g | g in n.grants :: g in m.grants || g in ids)
    && (forall k | k in n.requests :: k in m.requests || k in keys)
    && (forall d | d in n.deliveries :: d in m.deliveries || d in attempts)
  }

  ghost predicate AddsOnly(m: App, n: App, c: Command)
  {
    AddsAtMost(m, n, if c.CApprove? then {c.approval.id} else {}, if c.CMutate? then {c.draw.id} else {},
               if c.CMutate? then {KeyOf(c.ctx, c.task, c.request)} else {}, if c.CIntent? then {c.attempt} else {})
  }

  lemma BookedAdds(app: App, ctx: Context, t: Task, task: Uuid, request: Uuid, op: Mutation, now: Time, draw: Draw)
    requires Performs(app, ctx, t, task, op, draw)
    ensures var b := Booked(app, ctx, t, task, request, op, now, draw);
      && b.tasks == app.tasks && b.revokedTasks == app.revokedTasks && b.deliveries == app.deliveries
      && b.records.Keys <= app.records.Keys + {draw.id} && b.grants.Keys <= app.grants.Keys + {draw.id}
      && b.requests.Keys <= app.requests.Keys + {KeyOf(ctx, task, request)}
  {
    PerformedRecords(app, ctx, t, task, op, draw);
    PerformedGrants(app, ctx, t, task, op, draw);
    PerformedRest(app, ctx, t, task, op, draw);
  }

  lemma AddsMore(a: App, c: App, n: App, tasks: set<Uuid>, ids: set<Uuid>, keys: set<RequestKey>, attempts: set<Uuid>)
    requires SameBooks(a, c) && AddsAtMost(c, n, tasks, ids, keys, attempts)
    ensures AddsAtMost(a, n, tasks, ids, keys, attempts)
  {}

  lemma ShapeAdds(app: App, o: Outcome<Receipt>, ctx: Context, task: Uuid, request: Uuid, op: Mutation, now: Time, draw: Draw)
    requires HeaderOk(app) && ShapeOk(app, o, ctx, task, request, op, now, draw)
    ensures AddsAtMost(app, o.app, {}, {draw.id}, {KeyOf(ctx, task, request)}, {})
  {
    var k := Clock(app, now);
    ClockKeepsBooks(app, now);
    if KeyOf(ctx, task, request) !in app.requests && o.result.Ok? {
      BookedAdds(k.app, ctx, k.app.tasks[task], task, request, op, k.result.value, draw);
      AddsMore(app, k.app, o.app, {}, {draw.id}, {KeyOf(ctx, task, request)}, {});
    } else {
      AddsMore(app, k.app, k.app, {}, {draw.id}, {KeyOf(ctx, task, request)}, {});
    }
  }

  lemma MutateAdds(app: App, ctx: Context, task: Uuid, request: Uuid, op: Mutation, now: Time, draw: Draw)
    requires HeaderOk(app) && TasksOk(app.tasks)
    ensures AddsAtMost(app, Mutate(app, ctx, task, request, op, now, draw).app, {}, {draw.id}, {KeyOf(ctx, task, request)}, {})
  {
    MutateShape(app, ctx, task, request, op, now, draw);
    ShapeAdds(app, Mutate(app, ctx, task, request, op, now, draw), ctx, task, request, op, now, draw);
  }

  lemma ReadAdds(app: App, ctx: Context, task: Uuid, record: Uuid, fields: set<Field>, secret: bool, now: Time)
    requires HeaderOk(app)
    ensures AddsAtMost(app, Read(app, ctx, task, record, fields, secret, now).app, {}, {}, {}, {})
  {
    ReadShape(app, ctx, task, record, fields, secret, now);
    ClockKeepsBooks(app, now);
    AddsMore(app, Clock(app, now).app, Read(app, ctx, task, record, fields, secret, now).app, {}, {}, {}, {});
  }

  lemma InsertAdds(c: App, attempt: Uuid, d: Delivery)
    requires d.record in c.records
    ensures AddsAtMost(c, InsertAttempt(c, attempt, d), {}, {}, {}, {attempt})
  {}

  lemma IntentAdds(app: App, ctx: Context, task: Uuid, use: PrivateUse, now: Time, attempt: Uuid)
    requires HeaderOk(app)
    ensures AddsAtMost(app, Intent(app, ctx, task, use, now, attempt).app, {}, {}, {}, {attempt})
  {
    IntentShape(app, ctx, task, use, now, attempt);
    ClockKeepsBooks(app, now);
    var o, c := Intent(app, ctx, task, use, now, attempt), Clock(app, now);
    if o.result == Ok(None) {
      InsertAdds(c.app, attempt, NewAttempt(task, use, c.app.records[use.record].secretVersion, KeyOf(ctx, task, use.request), c.result.value));
    }
    AddsMore(app, c.app, o.app, {}, {}, {}, {attempt});
  }

  lemma MoreTasksAdds(a: App, c: App, n: App, id: Uuid, t: Task)
    requires SameBooks(a, c)
    requires n == c || n == c.(tasks := c.tasks[id := t]) || (id in c.tasks && n == c.(revokedTasks := c.revokedTasks + {id}))
    ensures AddsAtMost(a, n, {id}, {}, {}, {})
    ensures n.tasks == c.tasks ==> AddsAtMost(a, n, {}, {}, {}, {})
  {}

  lemma ApproveAdds(app: App, admin: Context, task: Task, now: Time)
    requires HeaderOk(app)
    ensures AddsAtMost(app, ApproveTask(app, admin, task, now).app, {task.id}, {}, {}, {})
  {
    ApproveShape(app, admin, task, now);
    ClockKeepsBooks(app, now);
    MoreTasksAdds(app, Clock(app, now).app, ApproveTask(app, admin, task, now).app, task.id, task);
  }

  lemma RevokeTaskAdds(app: App, admin: Context, id: Uuid, now: Time)
    requires HeaderOk(app)
    ensures AddsAtMost(app, RevokeTask(app, admin, id, now).app, {}, {}, {}, {})
  {
    var b := RevokeTask(app, admin, id, now).app;
    RevokeTaskShape(app, admin, id, now);
    ClockKeepsBooks(app, now);
    if id in app.tasks { MoreTasksAdds(app, Clock(app, now).app, b, id, app.tasks[id]); }
  }

  lemma ChangedAdds(a: App, n: App)
    requires n == a.(records := n.records, deliveries := n.deliveries, audit := n.audit)
    requires n.records.Keys == a.records.Keys && n.deliveries.Keys == a.deliveries.Keys
    ensures AddsAtMost(a, n, {}, {}, {}, {})
  {}

  lemma CancelAdds(app: App, attempt: Uuid)
    ensures AddsAtMost(app, Cancel(app, attempt).app, {}, {}, {}, {})
  {
    ChangedAdds(app, Cancel(app, attempt).app);
  }

  lemma FinishAdds(app: App, ctx: Context, task: Uuid, attempt: Uuid, status: Status, at: Time)
    ensures AddsAtMost(app, Finish(app, ctx, task, attempt, status, at).app, {}, {}, {}, {})
  {
    ChangedAdds(app, Finish(app, ctx, task, attempt, status, at).app);
  }

  /** An operation adds at most the task it approves, the record or grant it draws, its own receipt or its own attempt. */
  lemma EveryCommandAddsOnly(app: App, c: Command)
    requires Sound(app) && WellDrawn(app, c)
    ensures AddsOnly(app, Staged(app, c), c)
  {
    if Settles(c) { EveryCommandAddsOnlyByUse(app, c); } else { EveryCommandAddsOnlyByRequest(app, c); }
  }

  lemma EveryCommandAddsOnlyByRequest(app: App, c: Command)
    requires Sound(app) && WellDrawn(app, c) && !Settles(c)
    ensures AddsOnly(app, Staged(app, c), c)
  {
    SoundParts(app);
    match c
    case CApprove(admin, approval, now) => ApproveAdds(app, admin, approval, now);
    case CRevokeTask(admin, id, now) => RevokeTaskAdds(app, admin, id, now);
    case CMutate(ctx, task, request, op, now, draw) => MutateAdds(app, ctx, task, request, op, now, draw);
    case CRead(ctx, task, record, fields, secret, now) => ReadAdds(app, ctx, task, record, fields, secret, now);
  }

  lemma EveryCommandAddsOnlyByUse(app: App, c: Command)
    requires Sound(app) && WellDrawn(app, c) && Settles(c)
    ensures AddsOnly(app, Staged(app, c), c)
  {
    SoundParts(app);
    match c
    case CIntent(ctx, task, use, now, attempt) => IntentAdds(app, ctx, task, use, now, attempt);
    case CCancel(attempt) => CancelAdds(app, attempt);
    case CFinish(ctx, task, attempt, status, at) => FinishAdds(app, ctx, task, attempt, status, at);
  }
}
