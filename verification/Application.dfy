/** The application as the owner holds it: one object whose fields every operation updates in place. Each method leaves
    exactly the value that the policy functions state, error returns included. */
module Staging {
  import opened Types
  import opened Policy
  import opened Workflow
  import Authority
  import Deliveries

  class Application {
    var tasks: map<Uuid, Task>
    var records: map<Uuid, Record>
    var grants: map<Uuid, Grant>
    var requests: map<RequestKey, Remembered>
    var audit: seq<AuditEvent>
    var lastTime: Option<Time>
    var clockFrozen: bool
    var generation: U64
    var revokedTasks: set<Uuid>
    var deliveries: map<Uuid, Delivery>
    var baselines: map<Uuid, Baseline>
    var predecessor: Option<Digest>

    function Value(): App
      reads this
    {
      App(tasks, records, grants, requests, audit, lastTime, clockFrozen, generation, revokedTasks, deliveries, baselines, predecessor)
    }

    constructor (v: App)
      ensures Value() == v
    {
      tasks, records, grants, requests, audit := v.tasks, v.records, v.grants, v.requests, v.audit;
      lastTime, clockFrozen, generation := v.lastTime, v.clockFrozen, v.generation;
      revokedTasks, deliveries, baselines, predecessor := v.revokedTasks, v.deliveries, v.baselines, v.predecessor;
    }

    method Clock(now: Time) returns (r: Result<Time>)
      modifies this`lastTime, this`clockFrozen
      ensures Outcome(Value(), r) == Policy.Clock(old(Value()), now)
    {
      r := EffectiveTime(Value(), now);
      if r.Err? {
        clockFrozen := true;
        return;
      }
      if lastTime.None? || now > lastTime.value { lastTime := Some(now); }
    }

    method ApproveTask(admin: Context, task: Task, now: Time) returns (r: Result<()>)
      modifies this`lastTime, this`clockFrozen, this`tasks
      ensures Outcome(Value(), r) == Policy.ApproveTask(old(Value()), admin, task, now)
      ensures r.Ok? <==> Authority.Approvable(old(Value()), admin, task, now)
    {
      Authority.ApprovedExactly(Value(), admin, task, now);
      hide Authority.Approvable;
      var at := Clock(now);
      if at.Err? { return Err(at.error); }
      if !admin.admin || admin.owner != task.owner || admin.workspace != task.workspace { return Err(Denied); }
      if exists id | id in tasks :: tasks[id].owner != task.owner || tasks[id].workspace != task.workspace { return Err(Denied); }
      if !TaskBoundsOk(task, at.value) { return Err(Invalid); }
      if task.id in tasks { return Err(Conflict); }
      if |tasks| >= LIMIT { return Err(Capacity); }
      tasks := tasks[task.id := task];
      r := Ok(());
    }

    method RevokeTask(admin: Context, id: Uuid, now: Time) returns (r: Result<()>)
      modifies this`lastTime, this`clockFrozen, this`revokedTasks
      ensures Outcome(Value(), r) == Policy.RevokeTask(old(Value()), admin, id, now)
      ensures r.Ok? <==> Authority.Admitted(old(Value()), now) && id in old(tasks) && Authority.Governs(admin, old(tasks)[id])
    {
      Authority.RevokedExactly(Value(), admin, id, now);
      var at := Clock(now);
      if at.Err? { return Err(at.error); }
      if id !in tasks { return Err(Denied); }
      if !admin.admin || admin.owner != tasks[id].owner || admin.workspace != tasks[id].workspace { return Err(Denied); }
      revokedTasks := revokedTasks + {id};
      r := Ok(());
    }

    method Note(event: AuditEvent)
      modifies this`audit
      ensures Value() == Audit(old(Value()), event)
    {
      if |audit| == LIMIT { audit := audit[1..]; }
      audit := audit + [event];
    }

    method Insert(ctx: Context, t: Task, task: Uuid, kind: CredentialKind, values: Values, id: Uuid) returns (r: Result<Receipt>)
      modifies this`records
      ensures Outcome(Value(), r) == InsertRecord(old(Value()), ctx, t, task, kind, values, id)
    {
      if |records| >= LIMIT { return Err(Capacity); }
      records := records[id := Record(id, ctx.owner, ctx.workspace, ctx.principal, task, t.service, t.origin, kind, 1, 1, values, Pending, false, false)];
      r := Ok(Receipt(id, 1, None));
    }

    /** Revokes the record's grants one by one. */
    method RevokeGrants(record: Uuid)
      modifies this`grants
      ensures grants == RevokeAll(old(grants), record)
    {
      var todo := grants.Keys;
      ghost var was := grants;
      while todo != {}
        invariant todo <= was.Keys == grants.Keys
        invariant forall g | g in was :: grants[g] == if g in todo then was[g] else RevokeAll(was, record)[g]
        decreases |todo|
      {
        var g :| g in todo;
        if grants[g].record == record { grants := grants[g := grants[g].(revoked := true)]; }
        todo := todo - {g};
      }
      assert grants == RevokeAll(was, record);
    }

    /** The effect of an authorized mutation. */
    method Effect(ctx: Context, t: Task, task: Uuid, op: Mutation, draw: Draw) returns (r: Result<Receipt>)
      requires !Creates(op) ==> op.record in records && records[op.record].revision < U64_MAX
      requires op.Revoke? ==> op.grantId in grants
      modifies this`records, this`grants
      ensures Outcome(Value(), r) == Perform(old(Value()), ctx, t, task, op, draw)
    {
      match op
      case Create(kind, values) =>
        r := Insert(ctx, t, task, kind, values, draw.id);
      case Generate(kind, _, _) =>
        if |records| >= LIMIT { return Err(Capacity); }
        if draw.secret.None? { return Err(GenerationUnavailable); }
        r := Insert(ctx, t, task, kind, GeneratedValues(op, draw.secret.value), draw.id);
      case Patch(id, _, values) =>
        var n := records[id];
        if ChangesCredential(values) {
          if n.secretVersion == U64_MAX { return Err(Capacity); }
          n := n.(secretVersion := n.secretVersion + 1, signup := Pending);
        }
        n := n.(values := n.values + values, revision := n.revision + 1);
        records := records[id := n];
        r := Ok(Receipt(id, n.revision, None));
      case Share(id, _, spec) =>
        if |grants| >= LIMIT { return Err(Capacity); }
        grants := grants[draw.id := Grant(id, spec, false, records[id].secretVersion, task, ctx.admin)];
        var n := Advance(id);
        r := Ok(Receipt(id, n, Some(draw.id)));
      case Revoke(id, _, g) =>
        grants := grants[g := grants[g].(revoked := true)];
        var n := Advance(id);
        r := Ok(Receipt(id, n, Some(g)));
      case Delete(id, _) =>
        var n := records[id].(deleted := true, values := map[], revision := records[id].revision + 1);
        records := records[id := n];
        RevokeGrants(id);
        r := Ok(Receipt(id, n.revision, None));
      case ReportOutcome(id, _, state) =>
        var n := records[id].(signup := state, revision := records[id].revision + 1);
        records := records[id := n];
        r := Ok(Receipt(id, n.revision, None));
    }

    method Advance(id: Uuid) returns (n: U64)
      requires id in records && records[id].revision < U64_MAX
      modifies this`records
      ensures n == old(records)[id].revision + 1 && records == old(records)[id := old(records)[id].(revision := n)]
    {
      n := records[id].revision + 1;
      records := records[id := records[id].(revision := n)];
    }

    method Mutate(ctx: Context, task: Uuid, request: Uuid, op: Mutation, sample: Time, draw: Draw) returns (r: Result<Receipt>)
      modifies this`lastTime, this`clockFrozen, this`records, this`grants, this`requests, this`audit
      ensures Outcome(Value(), r) == Policy.Mutate(old(Value()), ctx, task, request, op, sample, draw)
      ensures RequestKey(ctx.owner, ctx.principal, task, request) !in old(requests) ==>
        (r.Ok? <==> Authority.Acceptable(old(Value()), ctx, task, request, op, sample, draw))
      ensures r.Err? || RequestKey(ctx.owner, ctx.principal, task, request) in old(requests) ==> Value() == Authority.Sampled(old(Value()), sample)
    {
      Authority.MutateAccepts(Value(), ctx, task, request, op, sample, draw);
      hide Authority.Acceptable, Authority.Sampled, Policy.Clock, Policy.Authorize, Policy.MutateNew;
      var at := Clock(sample);
      if at.Err? { return Err(at.error); }
      if request == NIL { return Err(Invalid); }
      var t := TaskFor(Value(), ctx, task, at.value);
      if t.Err? { return Err(t.error); }
      var refused := Authorize(Value(), ctx, t.value, op, at.value, true);
      if refused.Some? { return Err(refused.value); }
      var key := RequestKey(ctx.owner, ctx.principal, task, request);
      if exists d | d in deliveries :: deliveries[d].key == key { return Err(ReplayConflict); }
      if draw.oversized { return Err(Invalid); }
      if key in requests {
        if requests[key].fingerprint != OfMutation(op) { return Err(ReplayConflict); }
        if Creates(op) && RecordFor(Value(), ctx, requests[key].result.record).Err? { return Err(Denied); }
        return Ok(requests[key].result);
      }
      r := Commission(ctx, t.value, task, request, op, at.value, draw);
    }

    /** A request whose key is not retained. */
    method Commission(ctx: Context, t: Task, task: Uuid, request: Uuid, op: Mutation, now: Time, draw: Draw) returns (r: Result<Receipt>)
      modifies this`records, this`grants, this`requests, this`audit
      ensures Outcome(Value(), r) == MutateNew(old(Value()), ctx, t, task, request, op, now, draw)
    {
      var refused := Authorize(Value(), ctx, t, op, now, false);
      if refused.Some? { return Err(refused.value); }
      if |requests| >= LIMIT { return Err(Capacity); }
      ghost var was := Value();
      r := Effect(ctx, t, task, op, draw);
      if r.Err? {
        FailedEffect(was, ctx, t, task, op, draw);
        return;
      }
      var key := RequestKey(ctx.owner, ctx.principal, task, request);
      requests := requests[key := Remembered(OfMutation(op), r.value, KindOf(op), Some(now))];
      Note(AuditEvent(task, r.value.record, Some(request), MutationEvent, now, ctx.principal));
    }

    method Read(ctx: Context, task: Uuid, record: Uuid, fields: set<Field>, secret: bool, now: Time) returns (r: Result<Values>)
      modifies this`lastTime, this`clockFrozen, this`audit
      ensures Outcome(Value(), r) == Policy.Read(old(Value()), ctx, task, record, fields, secret, now)
      ensures r.Ok? <==> Authority.Readable(old(Value()), ctx, task, record, fields, secret, now)
    {
      Authority.ReadExactly(Value(), ctx, task, record, fields, secret, now);
      hide Authority.Readable;
      var at := Clock(now);
      if at.Err? { return Err(at.error); }
      r := Select(Value(), ctx, task, record, fields, if secret then SecretRead else MetadataRead, None, at.value);
      if r.Ok? {
        Note(AuditEvent(task, record, None, if secret then SecretReadEvent else MetadataReadEvent, at.value, ctx.principal));
      }
    }

    // ----- private use -----

    method SetSignup(id: Uuid, signup: Signup)
      requires id in records
      modifies this`records
      ensures Value() == Workflow.SetSignup(old(Value()), id, signup)
    {
      records := records[id := records[id].(signup := signup)];
    }

    method Cancel(attempt: Uuid) returns (r: Result<()>)
      modifies this`deliveries, this`records
      ensures Outcome(Value(), r) == Workflow.Cancel(old(Value()), attempt)
      ensures attempt in old(deliveries) && old(deliveries)[attempt].record in old(records) ==> r.Ok? && Deliveries.Retracts(old(Value()), Value(), attempt)
    {
      if attempt in deliveries && deliveries[attempt].record in records { Deliveries.CancelledExactly(Value(), attempt); }
      hide Deliveries.Retracts;
      if attempt !in deliveries { return Err(RecoveryRequired); }
      var d := deliveries[attempt];
      deliveries := deliveries[attempt := d.(dispatched := false, status := Some(StRejected))];
      if d.action == Register {
        if d.record !in records { return Err(RecoveryRequired); }
        SetSignup(d.record, Pending);
      }
      r := Ok(());
    }

    method Finish(ctx: Context, task: Uuid, attempt: Uuid, status: Status, at: Time) returns (r: Result<()>)
      modifies this`deliveries, this`records, this`audit
      ensures Outcome(Value(), r) == Workflow.Finish(old(Value()), ctx, task, attempt, status, at)
      ensures attempt in old(deliveries) && old(deliveries)[attempt].record in old(records) ==>
        r.Ok? && Deliveries.Records(old(Value()), Value(), ctx, task, attempt, status, at)
    {
      if attempt in deliveries && deliveries[attempt].record in records {
        Deliveries.FinishedExactly(Value(), ctx, task, attempt, status, at);
      }
      hide Deliveries.Records;
      if attempt !in deliveries { return Err(RecoveryRequired); }
      var d := deliveries[attempt];
      deliveries := deliveries[attempt := d.(status := Some(status))];
      if d.record !in records { return Err(RecoveryRequired); }
      SetSignup(d.record, OutcomeSignup(d.action, status, records[d.record].signup));
      Note(AuditEvent(task, d.record, None, SecretUseEvent, at, ctx.principal));
      r := Ok(());
    }

    /** The first attempt in identifier order that carries the key. */
    method Lookup(key: RequestKey) returns (d: Uuid)
      requires exists e | e in deliveries :: deliveries[e].key == key
      ensures IsFirst(deliveries, key, d)
    {
      d :| d in deliveries && deliveries[d].key == key;
      var todo := deliveries.Keys;
      while todo != {}
        invariant todo <= deliveries.Keys && d in deliveries && deliveries[d].key == key
        invariant forall e | e in deliveries && e !in todo && deliveries[e].key == key :: d <= e
        decreases |todo|
      {
        var e :| e in todo;
        if deliveries[e].key == key && e < d { d := e; }
        todo := todo - {e};
      }
    }

    /** The staged intent, or the answer of a retained attempt. */
    method Intend(ctx: Context, task: Uuid, use: PrivateUse, now: Time, attempt: Uuid) returns (r: Result<Option<DeliveryReceipt>>)
      modifies this`lastTime, this`clockFrozen, this`deliveries, this`records
      ensures Outcome(Value(), r) == Workflow.Intent(old(Value()), ctx, task, use, now, attempt)
      ensures r == Ok(None) <==> Deliveries.Stageable(old(Value()), ctx, task, use, now)
    {
      Deliveries.IntentStages(Value(), ctx, task, use, now, attempt);
      hide Deliveries.Stageable, Policy.Clock, NeedsLogin, Policy.RegistrationSealed;
      var at := Clock(now);
      if at.Err? { return Err(at.error); }
      if use.request == NIL { return Err(Invalid); }
      var found := Select(Value(), ctx, task, use.record, use.fields, SecretUse, Some(use.destination), at.value);
      if found.Err? { return Err(found.error); }
      var held := records[use.record];
      var key := RequestKey(ctx.owner, ctx.principal, task, use.request);
      if NeedsLogin(use, held) { return Err(Invalid); }
      if use.action == Register && held.restored { return Err(Conflict); }
      if key in requests { return Err(ReplayConflict); }
      if exists d | d in deliveries :: deliveries[d].key == key {
        var previous := Lookup(key);
        var d := deliveries[previous];
        if d.version != held.secretVersion { return Err(Denied); }
        if d.fingerprint != OfUse(use) { return Err(ReplayConflict); }
        if !d.dispatched { return Err(Denied); }
        if d.status.None? { return Err(RecoveryRequired); }
        return Ok(Some(DeliveryReceipt(previous, d.status.value)));
      }
      if use.action == Register && RegistrationSealed(Value(), use.record) { return Err(Conflict); }
      if |deliveries| >= LIMIT { return Err(Capacity); }
      deliveries := deliveries[attempt := NewAttempt(task, use, held.secretVersion, key, at.value)];
      if use.action == Register { SetSignup(use.record, Submitted); }
      r := Ok(None);
    }
  }

  lemma FailedEffect(app: App, ctx: Context, t: Task, task: Uuid, op: Mutation, draw: Draw)
    requires !Creates(op) ==> op.record in app.records && app.records[op.record].revision < U64_MAX
    requires op.Revoke? ==> op.grantId in app.grants
    requires Perform(app, ctx, t, task, op, draw).result.Err?
    ensures Perform(app, ctx, t, task, op, draw).app == app
  {}
}
