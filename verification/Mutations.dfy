/** A mutation and the ledger invariant: exactly when the staged result of an accepted request is valid. */
module Mutations {
  import opened Types
  import opened Policy
  import opened Ledger
  import opened CompactionLedger
  import opened Preservation
  import opened Operations

  function SignupAfter(r: Record, op: Mutation): Signup
  {
    if op.Patch? && ChangesCredential(op.values) then Pending else if op.ReportOutcome? then op.state else r.signup
  }

  /** The staged result of an accepted new request can be published: the effective time is not negative, the
      record is in the service and origin of the acting task, and a sealed verified login keeps its signup. */
  ghost predicate Publishable(app: App, t: Task, op: Mutation, now: Time)
    requires Performable(app, op)
  {
    && now >= 0
    && (!Creates(op) ==>
          && app.records[op.record].service == t.service && app.records[op.record].origin == t.origin
          && !MovesSealed(app, op.record, SignupAfter(app.records[op.record], op)))
  }

  /** The acting task as `task` found it. */
  predicate Acting(app: App, ctx: Context, t: Task, task: Uuid)
  {
    && task in app.tasks && app.tasks[task] == t && t.id == task
    && t.owner == ctx.owner && t.workspace == ctx.workspace && t.principal == ctx.principal
  }

  predicate OwnRecord(app: App, ctx: Context, op: Mutation)
  {
    !Creates(op) ==> op.record in app.records && app.records[op.record].owner == ctx.owner && app.records[op.record].workspace == ctx.workspace
  }

  lemma SignupOfBooked(app: App, ctx: Context, t: Task, task: Uuid, request: Uuid, op: Mutation, now: Time, draw: Draw)
    requires !Creates(op) && Performs(app, ctx, t, task, op, draw)
    ensures Booked(app, ctx, t, task, request, op, now, draw).records[op.record].signup == SignupAfter(app.records[op.record], op)
  {}

  lemma BookedStructure(app: App, ctx: Context, t: Task, task: Uuid, request: Uuid, op: Mutation, now: Time, draw: Draw)
    requires StructureOk(app) && |app.requests| < LIMIT && Acting(app, ctx, t, task) && OwnRecord(app, ctx, op)
    requires !Creates(op) && Performs(app, ctx, t, task, op, draw) && AuthorizeRecordOp(app, ctx, t, op, now).None?
    requires draw.id != NIL && draw.id !in app.grants && KeyOf(ctx, task, request) !in app.requests
    ensures StructureOk(Booked(app, ctx, t, task, request, op, now, draw))
  {
    var b := Booked(app, ctx, t, task, request, op, now, draw);
    BookedLimits(app, ctx, t, task, request, op, now, draw);
    BookedGrantsOk(app, ctx, t, task, request, op, now, draw);
    BookedRecordOk(app, ctx, t, task, request, op, now, draw);
    BookedAdvances(app, ctx, t, task, request, op, now, draw);
    StructureFrom(app, b, op.record, b.records[op.record]);
  }

  lemma StructureFrom(a: App, b: App, id: Uuid, r1: Record)
    requires StructureOk(a) && LimitsOk(b) && GrantsOk(b.tasks, b.records, b.grants)
    requires b == a.(records := a.records[id := r1], grants := b.grants, requests := b.requests)
    requires r1.task in a.tasks && RecordOk(a.tasks[r1.task], id, r1)
    ensures StructureOk(b)
  {
    forall i | i in b.records ensures b.records[i].task in b.tasks && RecordOk(b.tasks[b.records[i].task], i, b.records[i]) {
      if i != id { assert RecordOk(a.tasks[a.records[i].task], i, a.records[i]); }
    }
  }

  /** The receipt that a mutation of an existing record books, before its scope is looked at. */
  lemma BookedReceiptShape(app: App, ctx: Context, t: Task, task: Uuid, request: Uuid, op: Mutation, now: Time, draw: Draw)
    requires !Creates(op) && Performs(app, ctx, t, task, op, draw)
    ensures var b := Booked(app, ctx, t, task, request, op, now, draw); var key := KeyOf(ctx, task, request);
      var c := b.requests[key]; var r, n := app.records[op.record], b.records[op.record];
      && c.kind == KindOf(op) && c.result.revision == r.revision + 1 == n.revision && c.result.record == op.record
      && n == r.(revision := n.revision, values := n.values, deleted := n.deleted, signup := n.signup, secretVersion := n.secretVersion)
      && (op.Delete? ==> n.deleted)
  {}

  lemma BookedGrantReceipt(app: App, ctx: Context, t: Task, task: Uuid, request: Uuid, op: Mutation, now: Time, draw: Draw)
    requires !Creates(op) && Performs(app, ctx, t, task, op, draw)
    ensures var b := Booked(app, ctx, t, task, request, op, now, draw); var key := KeyOf(ctx, task, request);
      if op.Share? || op.Revoke? then GrantReceiptOk(key, b.requests[key], b.grants) else b.requests[key].result.grant.None?
  {}

  lemma BookedRequestOk(app: App, ctx: Context, t: Task, task: Uuid, request: Uuid, op: Mutation, now: Time, draw: Draw)
    requires BaselinesOk(app) && Acting(app, ctx, t, task) && OwnRecord(app, ctx, op) && request != NIL
    requires !Creates(op) && Performs(app, ctx, t, task, op, draw)
    ensures var b := Booked(app, ctx, t, task, request, op, now, draw); var key := KeyOf(ctx, task, request);
      var r := app.records[op.record];
      (r.service == t.service && r.origin == t.origin)
      <==> RequestOk(t, b.records[op.record], Through(app.baselines, op.record), b.grants, key, b.requests[key])
  {
    hide Policy.Perform, Operations.Booked;
    BookedReceiptShape(app, ctx, t, task, request, op, now, draw);
    BookedGrantReceipt(app, ctx, t, task, request, op, now, draw);
    if op.record in app.baselines {
      assert BaselineOk(app.records[op.record], app.baselines[op.record]);
    }
  }

  lemma BookedReceipts(app: App, ctx: Context, t: Task, task: Uuid, request: Uuid, op: Mutation, now: Time, draw: Draw)
    requires ReceiptsOk(app) && Acting(app, ctx, t, task) && OwnRecord(app, ctx, op) && request != NIL
    requires !Creates(op) && Performs(app, ctx, t, task, op, draw)
    requires draw.id !in app.grants && KeyOf(ctx, task, request) !in app.requests
    ensures var b := Booked(app, ctx, t, task, request, op, now, draw); var r := app.records[op.record];
      ReceiptsOk(b) <==> r.service == t.service && r.origin == t.origin && !MovesSealed(app, op.record, SignupAfter(r, op))
  {
    var b := Booked(app, ctx, t, task, request, op, now, draw);
    var key, r := KeyOf(ctx, task, request), app.records[op.record];
    BookedAdvances(app, ctx, t, task, request, op, now, draw);
    BookedRequestOk(app, ctx, t, task, request, op, now, draw);
    SignupOfBooked(app, ctx, t, task, request, op, now, draw);
    if r.service == t.service && r.origin == t.origin {
      AdvanceReceipts(app, b, key, b.requests[key], b.records[op.record]);
    } else {
      assert key in b.requests && !RequestOk(b.tasks[key.task], b.records[b.requests[key].result.record],
        Through(b.baselines, b.requests[key].result.record), b.grants, key, b.requests[key]);
    }
  }

  function EventOf(ctx: Context, task: Uuid, record: Uuid, request: Uuid, now: Time): AuditEvent
  {
    AuditEvent(task, record, Some(request), MutationEvent, now, ctx.principal)
  }

  lemma BookedEvent(b: App, ctx: Context, t: Task, task: Uuid, record: Uuid, request: Uuid, now: Time)
    requires Acting(b, ctx, t, task) && t.principal != "" && b.lastTime == Some(now)
    requires record in b.records && SameScope(t, b.records[record])
    requires KeyOf(ctx, task, request) in b.requests && b.requests[KeyOf(ctx, task, request)].result.record == record
    ensures EventOk(b, EventOf(ctx, task, record, request, now)) <==> now >= 0
  {}

  lemma AuditedExactly(b: App, e: AuditEvent)
    requires StructureOk(b) && ActivityOk(b)
    ensures ReceiptsOk(b) ==> (Valid(Audit(b, e)) <==> EventOk(b, e))
    ensures !RequestsOk(b) || !BaselinesOk(b) ==> !Valid(Audit(b, e))
  {
    ValidIs(b);
    ValidIs(Audit(b, e));
    if ReceiptsOk(b) { AuditKeepsValid(b, e); } else { AuditReceipts(b, e); }
  }

  lemma BookedReceiptsFail(app: App, ctx: Context, t: Task, task: Uuid, request: Uuid, op: Mutation, now: Time, draw: Draw)
    requires ReceiptsOk(app) && Acting(app, ctx, t, task) && OwnRecord(app, ctx, op) && request != NIL
    requires !Creates(op) && Performs(app, ctx, t, task, op, draw)
    requires draw.id !in app.grants && KeyOf(ctx, task, request) !in app.requests
    requires var r := app.records[op.record];
      !(r.service == t.service && r.origin == t.origin && !MovesSealed(app, op.record, SignupAfter(r, op)))
    ensures var b := Booked(app, ctx, t, task, request, op, now, draw); !RequestsOk(b) || !BaselinesOk(b)
  {
    var b := Booked(app, ctx, t, task, request, op, now, draw);
    var key, r := KeyOf(ctx, task, request), app.records[op.record];
    BookedAdvances(app, ctx, t, task, request, op, now, draw);
    BookedRequestOk(app, ctx, t, task, request, op, now, draw);
    SignupOfBooked(app, ctx, t, task, request, op, now, draw);
    if r.service == t.service && r.origin == t.origin {
      AdvanceBaselines(app, b, key, b.requests[key], b.records[op.record]);
    } else {
      assert key in b.requests && !RequestOk(b.tasks[key.task], b.records[b.requests[key].result.record],
        Through(b.baselines, b.requests[key].result.record), b.grants, key, b.requests[key]);
    }
  }

  /** A mutation of an existing record. */
  lemma ChangeValidExactly(app: App, ctx: Context, t: Task, task: Uuid, request: Uuid, op: Mutation, now: Time, draw: Draw)
    requires Valid(app) && |app.requests| < LIMIT && app.lastTime == Some(now) && request != NIL
    requires Acting(app, ctx, t, task) && OwnRecord(app, ctx, op) && t.principal != ""
    requires !Creates(op) && Performs(app, ctx, t, task, op, draw) && AuthorizeRecordOp(app, ctx, t, op, now).None?
    requires FreshDraw(app, draw) && KeyOf(ctx, task, request) !in app.requests && !DeliveryKeyUsed(app, KeyOf(ctx, task, request))
    ensures Valid(Audit(Booked(app, ctx, t, task, request, op, now, draw), EventOf(ctx, task, op.record, request, now)))
            <==> Publishable(app, t, op, now)
  {
    hide Policy.AuthorizeRecordOp, Ledger.StructureOk, Ledger.ReceiptsOk, Ledger.ActivityOk;
    ValidIs(app);
    var b := Booked(app, ctx, t, task, request, op, now, draw);
    var r := app.records[op.record];
    var good := r.service == t.service && r.origin == t.origin && !MovesSealed(app, op.record, SignupAfter(r, op));
    ChangeParts(app, ctx, t, task, request, op, now, draw, b);
    ChangeReceipts(app, ctx, t, task, request, op, now, draw, b, good);
    ChangeAudited(b, EventOf(ctx, task, op.record, request, now), good, now >= 0);
  }

  lemma ChangeParts(app: App, ctx: Context, t: Task, task: Uuid, request: Uuid, op: Mutation, now: Time, draw: Draw, b: App)
    requires StructureOk(app) && ActivityOk(app) && |app.requests| < LIMIT && Acting(app, ctx, t, task) && OwnRecord(app, ctx, op)
    requires !Creates(op) && Performs(app, ctx, t, task, op, draw) && AuthorizeRecordOp(app, ctx, t, op, now).None?
    requires FreshDraw(app, draw) && KeyOf(ctx, task, request) !in app.requests && !DeliveryKeyUsed(app, KeyOf(ctx, task, request))
    requires b == Booked(app, ctx, t, task, request, op, now, draw)
    ensures StructureOk(b) && ActivityOk(b)
  {
    var key := KeyOf(ctx, task, request);
    BookedStructure(app, ctx, t, task, request, op, now, draw);
    BookedAdvances(app, ctx, t, task, request, op, now, draw);
    AdvanceActivity(app, b, key, b.requests[key], b.records[op.record]);
  }

  lemma ChangeReceipts(app: App, ctx: Context, t: Task, task: Uuid, request: Uuid, op: Mutation, now: Time, draw: Draw, b: App, good: bool)
    requires ReceiptsOk(app) && app.lastTime == Some(now) && request != NIL && t.principal != ""
    requires Acting(app, ctx, t, task) && OwnRecord(app, ctx, op) && !Creates(op) && Performs(app, ctx, t, task, op, draw)
    requires FreshDraw(app, draw) && KeyOf(ctx, task, request) !in app.requests
    requires b == Booked(app, ctx, t, task, request, op, now, draw)
    requires var r := app.records[op.record];
      good == (r.service == t.service && r.origin == t.origin && !MovesSealed(app, op.record, SignupAfter(r, op)))
    ensures good ==> ReceiptsOk(b) && (EventOk(b, EventOf(ctx, task, op.record, request, now)) <==> now >= 0)
    ensures !good ==> !RequestsOk(b) || !BaselinesOk(b)
  {
    if good {
      BookedReceipts(app, ctx, t, task, request, op, now, draw);
      BookedReceiptShape(app, ctx, t, task, request, op, now, draw);
      BookedRest(app, ctx, t, task, request, op, now, draw);
      BookedEvent(b, ctx, t, task, op.record, request, now);
    } else {
      BookedReceiptsFail(app, ctx, t, task, request, op, now, draw);
    }
  }

  lemma BookedRest(app: App, ctx: Context, t: Task, task: Uuid, request: Uuid, op: Mutation, now: Time, draw: Draw)
    requires Performs(app, ctx, t, task, op, draw)
    ensures var b := Booked(app, ctx, t, task, request, op, now, draw);
      b == app.(records := b.records, grants := b.grants, requests := b.requests) && KeyOf(ctx, task, request) in b.requests
    ensures !Creates(op) ==> op.record in Booked(app, ctx, t, task, request, op, now, draw).records
  {
    hide Policy.Perform;
    PerformedRest(app, ctx, t, task, op, draw);
    PerformedRecords(app, ctx, t, task, op, draw);
  }

  lemma ChangeAudited(b: App, e: AuditEvent, good: bool, timely: bool)
    requires StructureOk(b) && ActivityOk(b) && (good ==> ReceiptsOk(b) && (EventOk(b, e) <==> timely))
    requires !good ==> !RequestsOk(b) || !BaselinesOk(b)
    ensures Valid(Audit(b, e)) <==> good && timely
  {
    AuditedExactly(b, e);
  }

  // ----- new records -----

  lemma CreatedRecord(app: App, ctx: Context, t: Task, task: Uuid, request: Uuid, op: Mutation, now: Time, draw: Draw)
    requires Creates(op) && Performs(app, ctx, t, task, op, draw) && AuthorizeCreate(t, op).None?
    requires Acting(app, ctx, t, task) && FreshDraw(app, draw) && KeyOf(ctx, task, request) !in app.requests
    ensures var b := Booked(app, ctx, t, task, request, op, now, draw); var key := KeyOf(ctx, task, request);
      && draw.id in b.records && Introduces(app, b, key, b.requests[key], b.records[draw.id])
      && b.requests[key].result.record == draw.id
      && b.records[draw.id].task == task && RecordOk(t, draw.id, b.records[draw.id])
  {
    NewRecordIs(app, ctx, t, task, op, draw);
    var r := NewRecord(ctx, t, task, op, draw);
    if op.Generate? { GeneratedFits(t, op, draw); } else { FieldsFit(op.values); }
    hide Policy.Perform, Written, Policy.ValuesOk, Policy.KindMatches;
    assert RecordOk(t, draw.id, r);
  }

  function Written(op: Mutation, draw: Draw): Values
    requires Creates(op) && (op.Generate? ==> draw.secret.Some?)
  {
    if op.Create? then op.values else GeneratedValues(op, draw.secret.value)
  }

  function NewRecord(ctx: Context, t: Task, task: Uuid, op: Mutation, draw: Draw): Record
    requires Creates(op) && (op.Generate? ==> draw.secret.Some?)
  {
    Record(draw.id, ctx.owner, ctx.workspace, ctx.principal, task, t.service, t.origin, op.kind, 1, 1, Written(op, draw), Pending, false, false)
  }

  lemma NewRecordIs(app: App, ctx: Context, t: Task, task: Uuid, op: Mutation, draw: Draw)
    requires Creates(op) && Performs(app, ctx, t, task, op, draw)
    ensures (op.Generate? ==> draw.secret.Some?)
    ensures var p := Perform(app, ctx, t, task, op, draw);
      p.app == app.(records := app.records[draw.id := NewRecord(ctx, t, task, op, draw)]) && p.result.value == Receipt(draw.id, 1, None)
  {}

  lemma GeneratedFits(t: Task, op: Mutation, draw: Draw)
    requires op.Generate? && draw.secret.Some? && 0 < |draw.secret.value| <= 128 && AuthorizeCreate(t, op).None?
    ensures var v := Written(op, draw); ValuesOk(v) && v.Keys <= t.fields && KindMatches(op.kind, v) && SecretWrite in t.permissions
  {
    FieldsFit(Written(op, draw));
  }

  lemma IntroducedStructure(a: App, b: App, key: RequestKey, entry: Remembered, r: Record)
    requires StructureOk(a) && LimitsOk(b) && Introduces(a, b, key, entry, r) && r.task in a.tasks && RecordOk(a.tasks[r.task], r.id, r)
    ensures StructureOk(b)
  {
    IntroducedGrants(a, b, key, entry, r);
    StructureFrom(a, b, r.id, r);
  }

  lemma IntroducedGrants(a: App, b: App, key: RequestKey, entry: Remembered, r: Record)
    requires GrantsOk(a.tasks, a.records, a.grants) && Introduces(a, b, key, entry, r)
    ensures GrantsOk(b.tasks, b.records, b.grants)
  {}

  lemma CreateValidExactly(app: App, ctx: Context, t: Task, task: Uuid, request: Uuid, op: Mutation, now: Time, draw: Draw)
    requires Valid(app) && |app.requests| < LIMIT && app.lastTime == Some(now) && request != NIL
    requires Acting(app, ctx, t, task) && t.principal != ""
    requires Creates(op) && Performs(app, ctx, t, task, op, draw) && AuthorizeCreate(t, op).None?
    requires FreshDraw(app, draw) && KeyOf(ctx, task, request) !in app.requests && !DeliveryKeyUsed(app, KeyOf(ctx, task, request))
    ensures Valid(Audit(Booked(app, ctx, t, task, request, op, now, draw), EventOf(ctx, task, draw.id, request, now))) <==> now >= 0
  {
    var b, e := Booked(app, ctx, t, task, request, op, now, draw), EventOf(ctx, task, draw.id, request, now);
    ValidIs(app);
    hide Policy.Perform, Policy.AuthorizeCreate, Operations.Booked, Ledger.StructureOk, Ledger.ReceiptsOk, Ledger.ActivityOk, Ledger.EventOk;
    CreateParts(app, ctx, t, task, request, op, now, draw, b);
    AuditedExactly(b, e);
  }

  lemma CreateParts(app: App, ctx: Context, t: Task, task: Uuid, request: Uuid, op: Mutation, now: Time, draw: Draw, b: App)
    requires StructureOk(app) && ReceiptsOk(app) && ActivityOk(app) && |app.requests| < LIMIT && app.lastTime == Some(now) && request != NIL
    requires Acting(app, ctx, t, task) && t.principal != "" && Creates(op) && Performs(app, ctx, t, task, op, draw) && AuthorizeCreate(t, op).None?
    requires FreshDraw(app, draw) && KeyOf(ctx, task, request) !in app.requests && !DeliveryKeyUsed(app, KeyOf(ctx, task, request))
    requires b == Booked(app, ctx, t, task, request, op, now, draw)
    ensures StructureOk(b) && ReceiptsOk(b) && ActivityOk(b) && (EventOk(b, EventOf(ctx, task, draw.id, request, now)) <==> now >= 0)
  {
    hide Policy.Perform, Operations.Booked, Policy.AuthorizeCreate, Ledger.EventOk;
    hide Ledger.StructureOk, Ledger.ReceiptsOk, Ledger.ActivityOk, Ledger.LimitsOk;
    LimitsOf(app);
    var key := KeyOf(ctx, task, request);
    CreatedRecord(app, ctx, t, task, request, op, now, draw);
    BookedLimits(app, ctx, t, task, request, op, now, draw);
    var r := b.records[draw.id];
    RecordScope(t, draw.id, r);
    hide Ledger.RecordOk;
    IntroducedParts(app, b, key, b.requests[key], r);
    BookedEvent(b, ctx, t, task, draw.id, request, now);
  }

  lemma LimitsOf(app: App)
    requires StructureOk(app)
    ensures LimitsOk(app)
  {}

  lemma RecordScope(t: Task, id: Uuid, r: Record)
    requires RecordOk(t, id, r)
    ensures r.id == id && SameScope(t, r)
  {}

  lemma IntroducedParts(a: App, b: App, key: RequestKey, entry: Remembered, r: Record)
    requires StructureOk(a) && ReceiptsOk(a) && ActivityOk(a) && LimitsOk(b) && Introduces(a, b, key, entry, r)
    requires r.task in a.tasks && RecordOk(a.tasks[r.task], r.id, r) && !DeliveryKeyUsed(a, key)
    requires key.task in a.tasks && key.id != NIL && key.owner == a.tasks[key.task].owner && key.principal == a.tasks[key.task].principal
    requires SameScope(a.tasks[key.task], r)
    ensures StructureOk(b) && ReceiptsOk(b) && ActivityOk(b)
  {
    IntroducedStructure(a, b, key, entry, r);
    IntroduceReceipts(a, b, key, entry, r);
    IntroduceActivity(a, b, key, entry, r);
  }

  // ----- the whole operation -----

  /** The request is answered with a receipt that was not already retained. */
  predicate Accepted(app: App, ctx: Context, task: Uuid, request: Uuid, op: Mutation, now: Time, draw: Draw)
  {
    KeyOf(ctx, task, request) !in app.requests && Mutate(app, ctx, task, request, op, now, draw).result.Ok?
  }

  /** What an accepted request has passed, after the clock sample was taken. */
  predicate Passed(c: App, ctx: Context, task: Uuid, request: Uuid, op: Mutation, at: Time, draw: Draw)
  {
    && request != NIL && task in c.tasks && Acting(c, ctx, c.tasks[task], task) && OwnRecord(c, ctx, op) && |c.requests| < LIMIT
    && KeyOf(ctx, task, request) !in c.requests && !DeliveryKeyUsed(c, KeyOf(ctx, task, request))
    && Performs(c, ctx, c.tasks[task], task, op, draw)
    && (if Creates(op) then AuthorizeCreate(c.tasks[task], op).None? else AuthorizeRecordOp(c, ctx, c.tasks[task], op, at).None?)
  }

  lemma PassedIfNew(c: App, ctx: Context, t: Task, task: Uuid, request: Uuid, op: Mutation, at: Time, draw: Draw)
    requires TasksOk(c.tasks) && request != NIL && TaskFor(c, ctx, task, at) == Ok(t)
    requires KeyOf(ctx, task, request) !in c.requests && !DeliveryKeyUsed(c, KeyOf(ctx, task, request))
    ensures var o := MutateNew(c, ctx, t, task, request, op, at, draw);
      if o.result.Err? then o.app == c
      else Passed(c, ctx, task, request, op, at, draw)
           && o.result.value == Perform(c, ctx, t, task, op, draw).result.value
           && o.app == Audit(Booked(c, ctx, t, task, request, op, at, draw), EventOf(ctx, task, o.result.value.record, request, at))
  {
    if Authorize(c, ctx, t, op, at, false).None? { AuthorizedIsPerformable(c, ctx, t, op, at); }
  }

  lemma MutateCases(app: App, ctx: Context, task: Uuid, request: Uuid, op: Mutation, now: Time, draw: Draw)
    ensures var o := Mutate(app, ctx, task, request, op, now, draw); var c := Clock(app, now); var key := KeyOf(ctx, task, request);
      || (o.app == c.app && (o.result.Ok? ==> key in app.requests))
      || (&& c.result.Ok? && request != NIL && task in app.tasks && TaskFor(c.app, ctx, task, c.result.value) == Ok(app.tasks[task])
          && key !in app.requests && !DeliveryKeyUsed(c.app, key)
          && o == MutateNew(c.app, ctx, app.tasks[task], task, request, op, c.result.value, draw))
  {}

  /** The staged result `o` of a request: only the clock sample, or effect, receipt and audit event on top of it. */
  ghost predicate ShapeOk(app: App, o: Outcome<Receipt>, ctx: Context, task: Uuid, request: Uuid, op: Mutation, now: Time, draw: Draw)
  {
    var c := Clock(app, now);
    if KeyOf(ctx, task, request) in app.requests || o.result.Err? then o.app == c.app
    else
      && c.result.Ok? && Passed(c.app, ctx, task, request, op, c.result.value, draw)
      && o.result.value == Perform(c.app, ctx, c.app.tasks[task], task, op, draw).result.value
      && o.app == Audit(Booked(c.app, ctx, c.app.tasks[task], task, request, op, c.result.value, draw),
                        EventOf(ctx, task, o.result.value.record, request, c.result.value))
  }

  lemma NewShape(app: App, o: Outcome<Receipt>, ctx: Context, task: Uuid, request: Uuid, op: Mutation, now: Time, draw: Draw)
    requires TasksOk(app.tasks) && Clock(app, now).result.Ok? && request != NIL && task in app.tasks
    requires TaskFor(Clock(app, now).app, ctx, task, Clock(app, now).result.value) == Ok(app.tasks[task])
    requires KeyOf(ctx, task, request) !in app.requests && !DeliveryKeyUsed(Clock(app, now).app, KeyOf(ctx, task, request))
    requires o == MutateNew(Clock(app, now).app, ctx, app.tasks[task], task, request, op, Clock(app, now).result.value, draw)
    ensures ShapeOk(app, o, ctx, task, request, op, now, draw)
  {
    PassedIfNew(Clock(app, now).app, ctx, app.tasks[task], task, request, op, Clock(app, now).result.value, draw);
  }

  lemma MutateShape(app: App, ctx: Context, task: Uuid, request: Uuid, op: Mutation, now: Time, draw: Draw)
    requires TasksOk(app.tasks)
    ensures ShapeOk(app, Mutate(app, ctx, task, request, op, now, draw), ctx, task, request, op, now, draw)
  {
    MutateCases(app, ctx, task, request, op, now, draw);
    var o := Mutate(app, ctx, task, request, op, now, draw);
    if !(o.app == Clock(app, now).app && (o.result.Ok? ==> KeyOf(ctx, task, request) in app.requests)) {
      NewShape(app, o, ctx, task, request, op, now, draw);
    }
  }

  lemma ReceiptRecord(app: App, ctx: Context, t: Task, task: Uuid, op: Mutation, draw: Draw)
    requires Performs(app, ctx, t, task, op, draw)
    ensures Perform(app, ctx, t, task, op, draw).result.value.record == if Creates(op) then draw.id else op.record
  {}

  lemma BookedSingleDelete(c: App, ctx: Context, t: Task, task: Uuid, request: Uuid, op: Mutation, at: Time, draw: Draw)
    requires RequestsOk(c) && SingleDelete(c.requests) && Performs(c, ctx, t, task, op, draw) && draw.id !in c.grants
    requires KeyOf(ctx, task, request) !in c.requests
    ensures SingleDelete(Booked(c, ctx, t, task, request, op, at, draw).requests)
  {
    var b, key := Booked(c, ctx, t, task, request, op, at, draw), KeyOf(ctx, task, request);
    if Creates(op) {
      assert b.requests[key].kind == KCreate;
    } else {
      BookedAdvances(c, ctx, t, task, request, op, at, draw);
      AdvanceSingleDelete(c, b, key, b.requests[key], b.records[op.record]);
    }
  }

  lemma PassedSoundExactly(c: App, ctx: Context, task: Uuid, request: Uuid, op: Mutation, at: Time, draw: Draw)
    requires Sound(c) && c.lastTime == Some(at) && FreshDraw(c, draw) && Passed(c, ctx, task, request, op, at, draw)
    ensures var t := c.tasks[task]; var id := Perform(c, ctx, t, task, op, draw).result.value.record;
      Sound(Audit(Booked(c, ctx, t, task, request, op, at, draw), EventOf(ctx, task, id, request, at)))
      <==> Publishable(c, t, op, at)
  {
    hide Policy.Perform;
    ValidIs(c);
    var t := c.tasks[task];
    assert TaskBoundsOk(t, TIME_MIN);
    ReceiptRecord(c, ctx, t, task, op, draw);
    BookedSingleDelete(c, ctx, t, task, request, op, at, draw);
    if Creates(op) {
      CreateValidExactly(c, ctx, t, task, request, op, at, draw);
    } else {
      ChangeValidExactly(c, ctx, t, task, request, op, at, draw);
    }
  }

  lemma ClockAccepted(app: App, now: Time)
    requires Sound(app) && Clock(app, now).result.Ok?
    ensures Clock(app, now).app.lastTime == Some(Clock(app, now).result.value)
  {}

  ghost predicate EffectPublishable(c: Outcome<Time>, task: Uuid, op: Mutation)
  {
    c.result.Ok? && task in c.app.tasks && Performable(c.app, op) && Publishable(c.app, c.app.tasks[task], op, c.result.value)
  }

  lemma AcceptedSound(c: Outcome<Time>, o: App, ctx: Context, task: Uuid, request: Uuid, op: Mutation, draw: Draw)
    requires c.result.Ok? && Sound(c.app) && c.app.lastTime == Some(c.result.value) && FreshDraw(c.app, draw)
    requires Passed(c.app, ctx, task, request, op, c.result.value, draw)
    requires o == Audit(Booked(c.app, ctx, c.app.tasks[task], task, request, op, c.result.value, draw),
                        EventOf(ctx, task, Perform(c.app, ctx, c.app.tasks[task], task, op, draw).result.value.record, request, c.result.value))
    ensures Sound(o) <==> EffectPublishable(c, task, op)
  {
    PassedSoundExactly(c.app, ctx, task, request, op, c.result.value, draw);
  }

  lemma ClockFresh(app: App, now: Time, draw: Draw)
    requires FreshDraw(app, draw)
    ensures FreshDraw(Clock(app, now).app, draw)
  {}

  lemma SoundFromShape(app: App, o: Outcome<Receipt>, ctx: Context, task: Uuid, request: Uuid, op: Mutation, now: Time, draw: Draw)
    requires Sound(app) && FreshDraw(app, draw) && ShapeOk(app, o, ctx, task, request, op, now, draw)
    ensures Sound(o.app) <==>
      (KeyOf(ctx, task, request) !in app.requests && o.result.Ok? ==> EffectPublishable(Clock(app, now), task, op))
  {
    ClockKeepsSound(app, now);
    if KeyOf(ctx, task, request) !in app.requests && o.result.Ok? {
      ClockAccepted(app, now);
      ClockFresh(app, now, draw);
      AcceptedSound(Clock(app, now), o.app, ctx, task, request, op, draw);
    }
  }

  /** The staged result of a mutation is valid exactly when the request changed nothing but the clock, or
      its effect is publishable. */
  lemma MutateSoundExactly(app: App, ctx: Context, task: Uuid, request: Uuid, op: Mutation, now: Time, draw: Draw)
    requires Sound(app) && FreshDraw(app, draw)
    ensures Sound(Mutate(app, ctx, task, request, op, now, draw).app) <==>
      (Accepted(app, ctx, task, request, op, now, draw) ==>
         EffectPublishable(Clock(app, now), task, op))
  {
    SoundTasks(app);
    MutateShape(app, ctx, task, request, op, now, draw);
    SoundFromShape(app, Mutate(app, ctx, task, request, op, now, draw), ctx, task, request, op, now, draw);
  }

  // ----- reads -----

  lemma SelectedScope(app: App, ctx: Context, task: Uuid, record: Uuid, fields: set<Field>, permission: Permission,
                      destination: Option<string>, now: Time)
    requires Select(app, ctx, task, record, fields, permission, destination, now).Ok?
    ensures task in app.tasks && record in app.records && SameScope(app.tasks[task], app.records[record])
    ensures app.tasks[task].principal == ctx.principal
  {}

  lemma ReadEvent(c: App, ctx: Context, task: Uuid, record: Uuid, action: AuditAction, at: Time)
    requires TasksOk(c.tasks) && task in c.tasks && record in c.records && SameScope(c.tasks[task], c.records[record])
    requires c.tasks[task].principal == ctx.principal && c.lastTime == Some(at)
    ensures EventOk(c, AuditEvent(task, record, None, action, at, ctx.principal)) <==> at >= 0
  {}

  lemma ReadShape(app: App, ctx: Context, task: Uuid, record: Uuid, fields: set<Field>, secret: bool, now: Time)
    ensures var o := Read(app, ctx, task, record, fields, secret, now); var c := Clock(app, now);
      if o.result.Err? then o.app == c.app
      else c.result.Ok? && (exists permission :: Select(c.app, ctx, task, record, fields, permission, None, c.result.value).Ok?)
           && (exists action :: o.app == Audit(c.app, AuditEvent(task, record, None, action, c.result.value, ctx.principal)))
  {}

  /** A read stages a valid application exactly when it was refused or its effective time is not negative. */
  lemma ReadSoundExactly(app: App, ctx: Context, task: Uuid, record: Uuid, fields: set<Field>, secret: bool, now: Time)
    requires Sound(app)
    ensures var o := Read(app, ctx, task, record, fields, secret, now);
      Sound(o.app) <==> (o.result.Ok? ==> Clock(app, now).result.Ok? && Clock(app, now).result.value >= 0)
  {
    ClockKeepsSound(app, now);
    ReadShape(app, ctx, task, record, fields, secret, now);
    var o, c := Read(app, ctx, task, record, fields, secret, now), Clock(app, now);
    if o.result.Ok? {
      ClockAccepted(app, now);
      SoundTasks(c.app);
      var permission :| Select(c.app, ctx, task, record, fields, permission, None, c.result.value).Ok?;
      var action :| o.app == Audit(c.app, AuditEvent(task, record, None, action, c.result.value, ctx.principal));
      SelectedScope(c.app, ctx, task, record, fields, permission, None, c.result.value);
      ReadEvent(c.app, ctx, task, record, action, c.result.value);
      AuditKeepsValid(c.app, AuditEvent(task, record, None, action, c.result.value, ctx.principal));
    }
  }
}
