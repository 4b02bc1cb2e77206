/** What each accepted mutation means to the readers of the vault: what is written is what is read, what is shared can be
    used by its recipient and by nobody else, what is revoked or deleted cannot, and nothing else changes for anybody. */
module Effects {
  import opened Types
  import opened Policy
  import opened Ledger
  import opened CompactionLedger
  import opened Preservation
  import opened Operations
  import opened Mutations

  /** The records and grants an accepted mutation leaves, with everything authorization reads besides them unchanged. */
  ghost predicate Effect(app: App, n: App, ctx: Context, task: Uuid, op: Mutation, draw: Draw)
  {
    && task in app.tasks && n.tasks == app.tasks && n.revokedTasks == app.revokedTasks && Performable(app, op)
    && var p := Perform(app, ctx, app.tasks[task], task, op, draw);
       p.result.Ok? && n.records == p.app.records && n.grants == p.app.grants
  }

  lemma BookedEffect(c: App, ctx: Context, t: Task, task: Uuid, request: Uuid, op: Mutation, at: Time, draw: Draw)
    requires Performs(c, ctx, t, task, op, draw)
    ensures var b, p := Booked(c, ctx, t, task, request, op, at, draw), Perform(c, ctx, t, task, op, draw).app;
      b.records == p.records && b.grants == p.grants
  {}

  /** A clock sample changes nothing for any reader. */
  lemma SampleIsInvisible(app: App, now: Time, reader: Context, approval: Uuid, record: Uuid, fields: set<Field>, permission: Permission,
                          destination: Option<string>, at: Time)
    requires Sound(app)
    ensures Sound(Clock(app, now).app)
    ensures Select(Clock(app, now).app, reader, approval, record, fields, permission, destination, at)
            == Select(app, reader, approval, record, fields, permission, destination, at)
  {
    ClockKeepsSound(app, now);
    SampledSame(app, now);
    if record in app.records { OwnId(app, record); }
    hide Policy.Clock, Policy.Select, Policy.Can;
    SelectSame(app, Clock(app, now).app, reader, approval, record, fields, permission, destination, at);
  }

  lemma SampledSame(app: App, now: Time)
    ensures var c := Clock(app, now).app; c.records == app.records && c.grants == app.grants && c.tasks == app.tasks && c.revokedTasks == app.revokedTasks
  {}

  /** An accepted new request has the effect of its mutation on the sampled application, and answers with its receipt. */
  lemma AcceptedHasEffect(app: App, ctx: Context, task: Uuid, request: Uuid, op: Mutation, now: Time, draw: Draw)
    requires Sound(app) && Accepted(app, ctx, task, request, op, now, draw)
    ensures var o, c := Mutate(app, ctx, task, request, op, now, draw), Clock(app, now).app;
      && Effect(c, o.app, ctx, task, op, draw) && o.result == Perform(c, ctx, c.tasks[task], task, op, draw).result
      && c.tasks[task].principal == ctx.principal && c.tasks[task].owner == ctx.owner && c.tasks[task].workspace == ctx.workspace
  {
    SoundTasks(app);
    MutateShape(app, ctx, task, request, op, now, draw);
    ShapeHasEffect(app, Mutate(app, ctx, task, request, op, now, draw), ctx, task, request, op, now, draw);
  }

  lemma ShapeHasEffect(app: App, o: Outcome<Receipt>, ctx: Context, task: Uuid, request: Uuid, op: Mutation, now: Time, draw: Draw)
    requires KeyOf(ctx, task, request) !in app.requests && o.result.Ok? && ShapeOk(app, o, ctx, task, request, op, now, draw)
    ensures var c := Clock(app, now).app;
      && Effect(c, o.app, ctx, task, op, draw) && o.result == Perform(c, ctx, c.tasks[task], task, op, draw).result
      && c.tasks[task].principal == ctx.principal && c.tasks[task].owner == ctx.owner && c.tasks[task].workspace == ctx.workspace
  {
    var c := Clock(app, now);
    hide Policy.Clock, Policy.Perform;
    BookedRest(c.app, ctx, c.app.tasks[task], task, request, op, c.result.value, draw);
    BookedEffect(c.app, ctx, c.app.tasks[task], task, request, op, c.result.value, draw);
  }

  // ----- what a reader can tell -----

  /** Two records that no reader can tell apart. */
  predicate AlikeToReaders(r: Record, s: Record) { s == r.(revision := s.revision, signup := s.signup) }

  lemma SelectAlike(a: App, b: App, ctx: Context, task: Uuid, record: Uuid, fields: set<Field>, permission: Permission,
                    destination: Option<string>, now: Time)
    requires a.tasks == b.tasks && a.revokedTasks == b.revokedTasks && (record in a.records <==> record in b.records)
    requires record in a.records ==> AlikeToReaders(a.records[record], b.records[record])
    requires record in a.records ==> (forall t: Task :: Can(a, ctx, t, a.records[record], permission, fields, destination, now)
                                                       <==> Can(b, ctx, t, b.records[record], permission, fields, destination, now))
    ensures Select(a, ctx, task, record, fields, permission, destination, now) == Select(b, ctx, task, record, fields, permission, destination, now)
  {}

  lemma CanAlike(a: App, b: App, ctx: Context, t: Task, r: Record, s: Record, permission: Permission, fields: set<Field>,
                 destination: Option<string>, now: Time)
    requires a.tasks == b.tasks && a.revokedTasks == b.revokedTasks && AlikeToReaders(r, s)
    requires forall g | g in a.grants && a.grants[g].record == r.id && a.grants[g].spec.recipient == ctx.principal && !a.grants[g].revoked ::
      g in b.grants && b.grants[g] == a.grants[g]
    requires forall g | g in b.grants && b.grants[g].record == r.id && b.grants[g].spec.recipient == ctx.principal && !b.grants[g].revoked ::
      g in a.grants && a.grants[g] == b.grants[g]
    ensures Can(a, ctx, t, r, permission, fields, destination, now) <==> Can(b, ctx, t, s, permission, fields, destination, now)
  {
    if g :| g in a.grants && GrantPermits(a, a.grants[g], ctx, r, permission, fields, destination, now) {
      GrantAlike(a, b, g, ctx, r, s, permission, fields, destination, now);
    }
    if g :| g in b.grants && GrantPermits(b, b.grants[g], ctx, s, permission, fields, destination, now) {
      GrantAlike(b, a, g, ctx, s, r, permission, fields, destination, now);
    }
  }

  lemma GrantAlike(a: App, b: App, g: Uuid, ctx: Context, r: Record, s: Record, permission: Permission, fields: set<Field>,
                   destination: Option<string>, now: Time)
    requires a.tasks == b.tasks && a.revokedTasks == b.revokedTasks && AlikeToReaders(r, s) && g in a.grants && g in b.grants && a.grants[g] == b.grants[g]
    ensures GrantPermits(a, a.grants[g], ctx, r, permission, fields, destination, now) <==> GrantPermits(b, b.grants[g], ctx, s, permission, fields, destination, now)
  {}

  /** The grants of the record that concern the reader are the same. */
  ghost predicate SameGrantsFor(a: App, b: App, record: Uuid, principal: string)
  {
    && (forall g | g in a.grants && a.grants[g].record == record && a.grants[g].spec.recipient == principal && !a.grants[g].revoked ::
          g in b.grants && b.grants[g] == a.grants[g])
    && (forall g | g in b.grants && b.grants[g].record == record && b.grants[g].spec.recipient == principal && !b.grants[g].revoked ::
          g in a.grants && a.grants[g] == b.grants[g])
  }

  lemma SelectSame(a: App, b: App, ctx: Context, task: Uuid, record: Uuid, fields: set<Field>, permission: Permission,
                   destination: Option<string>, now: Time)
    requires a.tasks == b.tasks && a.revokedTasks == b.revokedTasks && (record in a.records <==> record in b.records)
    requires record in a.records ==> AlikeToReaders(a.records[record], b.records[record]) && a.records[record].id == record
    requires SameGrantsFor(a, b, record, ctx.principal)
    ensures Select(a, ctx, task, record, fields, permission, destination, now) == Select(b, ctx, task, record, fields, permission, destination, now)
  {
    if record in a.records {
      forall t: Task ensures Can(a, ctx, t, a.records[record], permission, fields, destination, now)
                             <==> Can(b, ctx, t, b.records[record], permission, fields, destination, now) {
        CanAlike(a, b, ctx, t, a.records[record], b.records[record], permission, fields, destination, now);
      }
    }
    SelectAlike(a, b, ctx, task, record, fields, permission, destination, now);
  }

  /** The record a mutation is about. */
  function Subject(op: Mutation, draw: Draw): Uuid { if Creates(op) then draw.id else op.record }

  lemma OtherRecords(app: App, n: App, ctx: Context, task: Uuid, op: Mutation, draw: Draw, other: Uuid)
    requires Effect(app, n, ctx, task, op, draw) && other != Subject(op, draw)
    ensures (other in n.records <==> other in app.records) && (other in app.records ==> n.records[other] == app.records[other])
  {}

  lemma OtherGrants(app: App, n: App, ctx: Context, task: Uuid, op: Mutation, draw: Draw, other: Uuid, principal: string)
    requires Effect(app, n, ctx, task, op, draw) && FreshDraw(app, draw) && other != Subject(op, draw)
    ensures SameGrantsFor(app, n, other, principal)
  {}

  lemma OwnId(app: App, record: Uuid)
    requires Sound(app) && record in app.records
    ensures app.records[record].id == record
  {
    ValidIs(app);
    assert RecordOk(app.tasks[app.records[record].task], record, app.records[record]);
  }

  /** No mutation changes what anybody can read of any other record. */
  lemma OthersAreUntouched(app: App, n: App, ctx: Context, task: Uuid, op: Mutation, draw: Draw, reader: Context, approval: Uuid,
                           other: Uuid, fields: set<Field>, permission: Permission, destination: Option<string>, at: Time)
    requires Sound(app) && Effect(app, n, ctx, task, op, draw) && FreshDraw(app, draw) && other != Subject(op, draw)
    ensures Select(n, reader, approval, other, fields, permission, destination, at) == Select(app, reader, approval, other, fields, permission, destination, at)
  {
    hide Policy.Perform, Policy.Select, Policy.Can;
    OtherRecords(app, n, ctx, task, op, draw, other);
    OtherGrants(app, n, ctx, task, op, draw, other, reader.principal);
    if other in app.records { OwnId(app, other); }
    SelectSame(app, n, reader, approval, other, fields, permission, destination, at);
  }

  // ----- created -----

  lemma CreatedRecordIs(app: App, n: App, ctx: Context, task: Uuid, op: Mutation, draw: Draw)
    requires Effect(app, n, ctx, task, op, draw) && Creates(op)
    ensures (op.Generate? ==> draw.secret.Some?) && draw.id in n.records && n.records[draw.id].values == Written(op, draw)
    ensures var r := n.records[draw.id]; var t := app.tasks[task];
      r.createdBy == ctx.principal && r.task == task && r.owner == ctx.owner && r.workspace == ctx.workspace && !r.deleted
      && r.service == t.service && r.origin == t.origin
  {}

  /** Whoever creates a record can read back exactly what was written, for as long as the approval lasts. */
  lemma CreatedIsReadable(app: App, n: App, ctx: Context, task: Uuid, op: Mutation, draw: Draw, fields: set<Field>,
                          permission: Permission, destination: Option<string>, at: Time)
    requires Effect(app, n, ctx, task, op, draw) && Creates(op) && app.tasks[task].id == task && (op.Generate? ==> draw.secret.Some?)
    requires TaskFor(n, ctx, task, at).Ok? && permission in app.tasks[task].permissions && fields <= app.tasks[task].fields
    requires destination.Some? ==> destination.value in app.tasks[task].destinations
    requires fields != {} && fields <= Written(op, draw).Keys && (permission == MetadataRead ==> forall f | f in fields :: !Secret(f))
    ensures Select(n, ctx, task, draw.id, fields, permission, destination, at) == Ok(map f | f in fields :: Written(op, draw)[f])
  {
    CreatedRecordIs(app, n, ctx, task, op, draw);
    hide Policy.Perform;
    var r := n.records[draw.id];
    assert Can(n, ctx, n.tasks[task], r, permission, fields, destination, at);
  }

  // ----- patched, reported, deleted -----

  /** Whoever reads a patched record sees the new values, and the old ones where nothing was written. */
  lemma PatchedIsRead(app: App, n: App, ctx: Context, task: Uuid, op: Mutation, draw: Draw, reader: Context, approval: Uuid,
                      fields: set<Field>, permission: Permission, destination: Option<string>, at: Time)
    requires Effect(app, n, ctx, task, op, draw) && op.Patch?
    requires Select(n, reader, approval, op.record, fields, permission, destination, at).Ok?
    ensures fields <= app.records[op.record].values.Keys + op.values.Keys
    ensures Select(n, reader, approval, op.record, fields, permission, destination, at).value
            == map f | f in fields :: if f in op.values then op.values[f] else app.records[op.record].values[f]
  {
    var r := n.records[op.record];
    assert r.values == app.records[op.record].values + op.values;
  }

  /** A rotated credential is out of reach of every grant that was pinned to the version before. */
  lemma RotationUnpins(app: App, n: App, ctx: Context, task: Uuid, op: Mutation, draw: Draw, g: Uuid, reader: Context,
                       fields: set<Field>, permission: Permission, destination: Option<string>, at: Time)
    requires Sound(app) && Effect(app, n, ctx, task, op, draw) && op.Patch? && ChangesCredential(op.values)
    requires g in app.grants && app.grants[g].record == op.record && !app.grants[g].spec.followActive
    ensures g in n.grants && !GrantPermits(n, n.grants[g], reader, n.records[op.record], permission, fields, destination, at)
  {
    PatchedRecordIs(app, n, ctx, task, op, draw);
    OldVersion(app, g);
  }

  lemma PatchedRecordIs(app: App, n: App, ctx: Context, task: Uuid, op: Mutation, draw: Draw)
    requires Effect(app, n, ctx, task, op, draw) && op.Patch? && ChangesCredential(op.values)
    ensures op.record in n.records && n.records[op.record].secretVersion == app.records[op.record].secretVersion + 1 && n.grants == app.grants
  {}

  lemma OldVersion(app: App, g: Uuid)
    requires Sound(app) && g in app.grants
    ensures app.grants[g].record in app.records && app.grants[g].version <= app.records[app.grants[g].record].secretVersion
  {
    ValidIs(app);
    assert GrantOk(app.tasks[app.grants[g].issuerTask], app.records[app.grants[g].record], g, app.grants[g]);
  }

  /** A reported outcome is recorded and changes nothing for any reader. */
  lemma ReportIsInvisible(app: App, n: App, ctx: Context, task: Uuid, op: Mutation, draw: Draw, reader: Context, approval: Uuid,
                          fields: set<Field>, permission: Permission, destination: Option<string>, at: Time)
    requires Sound(app) && Effect(app, n, ctx, task, op, draw) && op.ReportOutcome?
    ensures op.record in n.records && n.records[op.record].signup == op.state
    ensures Select(n, reader, approval, op.record, fields, permission, destination, at)
            == Select(app, reader, approval, op.record, fields, permission, destination, at)
  {
    OwnId(app, op.record);
    hide Policy.Select, Policy.Can;
    SelectSame(app, n, reader, approval, op.record, fields, permission, destination, at);
  }

  /** Nobody can read a deleted record, and nothing is left in it. */
  lemma DeletedIsGone(app: App, n: App, ctx: Context, task: Uuid, op: Mutation, draw: Draw, reader: Context, approval: Uuid,
                      fields: set<Field>, permission: Permission, destination: Option<string>, at: Time)
    requires Effect(app, n, ctx, task, op, draw) && op.Delete?
    ensures op.record in n.records && n.records[op.record].values == map[]
    ensures Select(n, reader, approval, op.record, fields, permission, destination, at).Err?
    ensures forall g | g in n.grants && n.grants[g].record == op.record :: n.grants[g].revoked
  {}

  // ----- shared and revoked -----

  lemma SharedGrantIs(app: App, n: App, ctx: Context, task: Uuid, op: Mutation, draw: Draw)
    requires Effect(app, n, ctx, task, op, draw) && op.Share?
    ensures op.record in n.records && AlikeToReaders(app.records[op.record], n.records[op.record])
    ensures n.grants == app.grants[draw.id := Grant(op.record, op.grant, false, app.records[op.record].secretVersion, task, ctx.admin)]
  {}

  /** The recipient of a share may do what was shared, under an approval of its own, until the share or its issuer expires. */
  lemma SharedIsUsable(app: App, n: App, ctx: Context, task: Uuid, op: Mutation, draw: Draw, reader: Context, t: Task,
                       fields: set<Field>, permission: Permission, destination: Option<string>, at: Time)
    requires Sound(app) && Effect(app, n, ctx, task, op, draw) && op.Share? && reader.principal == op.grant.recipient
    requires permission in op.grant.permissions && fields <= op.grant.fields && (destination.Some? ==> destination.value in op.grant.destinations)
    requires at < op.grant.expiresAt && at < app.tasks[task].expiresAt && task !in app.revokedTasks
    requires TaskPermits(t, app.records[op.record], permission, fields, destination)
    ensures Can(n, reader, t, n.records[op.record], permission, fields, destination, at)
  {
    OwnId(app, op.record);
    SharedGrantIs(app, n, ctx, task, op, draw);
    hide Policy.Perform;
    assert GrantPermits(n, n.grants[draw.id], reader, n.records[op.record], permission, fields, destination, at);
  }

  /** A share changes nothing for anybody but its recipient. */
  lemma SharedIsPrivate(app: App, n: App, ctx: Context, task: Uuid, op: Mutation, draw: Draw, reader: Context, approval: Uuid,
                        fields: set<Field>, permission: Permission, destination: Option<string>, at: Time)
    requires Sound(app) && Effect(app, n, ctx, task, op, draw) && FreshDraw(app, draw) && op.Share? && reader.principal != op.grant.recipient
    ensures Select(n, reader, approval, op.record, fields, permission, destination, at)
            == Select(app, reader, approval, op.record, fields, permission, destination, at)
  {
    OwnId(app, op.record);
    SharedGrantIs(app, n, ctx, task, op, draw);
    hide Policy.Perform, Policy.Select, Policy.Can;
    SelectSame(app, n, reader, approval, op.record, fields, permission, destination, at);
  }

  lemma RevokedGrantIs(app: App, n: App, ctx: Context, task: Uuid, op: Mutation, draw: Draw)
    requires Effect(app, n, ctx, task, op, draw) && op.Revoke?
    ensures op.record in n.records && AlikeToReaders(app.records[op.record], n.records[op.record])
    ensures op.grantId in app.grants && n.grants == app.grants[op.grantId := app.grants[op.grantId].(revoked := true)]
  {}

  /** After a revocation that grant permits nothing, and nobody can read what they could not read before. */
  lemma RevokedOnlyShrinks(app: App, n: App, ctx: Context, task: Uuid, op: Mutation, draw: Draw, reader: Context, approval: Uuid,
                           fields: set<Field>, permission: Permission, destination: Option<string>, at: Time)
    requires Sound(app) && Effect(app, n, ctx, task, op, draw) && op.Revoke?
    ensures !GrantPermits(n, n.grants[op.grantId], reader, n.records[op.record], permission, fields, destination, at)
    ensures Select(n, reader, approval, op.record, fields, permission, destination, at).Ok? ==>
      Select(app, reader, approval, op.record, fields, permission, destination, at) == Select(n, reader, approval, op.record, fields, permission, destination, at)
  {
    RevokedGrantIs(app, n, ctx, task, op, draw);
    hide Policy.Perform;
    var r, s := app.records[op.record], n.records[op.record];
    forall t: Task | Can(n, reader, t, s, permission, fields, destination, at) ensures Can(app, reader, t, r, permission, fields, destination, at) {
      CanShrinks(app, n, op.grantId, reader, t, r, s, permission, fields, destination, at);
    }
  }

  lemma CanShrinks(app: App, n: App, gone: Uuid, reader: Context, t: Task, r: Record, s: Record, permission: Permission, fields: set<Field>,
                   destination: Option<string>, at: Time)
    requires n.tasks == app.tasks && n.revokedTasks == app.revokedTasks && AlikeToReaders(r, s) && gone in app.grants
    requires n.grants == app.grants[gone := app.grants[gone].(revoked := true)] && Can(n, reader, t, s, permission, fields, destination, at)
    ensures Can(app, reader, t, r, permission, fields, destination, at)
  {
    if g :| g in n.grants && GrantPermits(n, n.grants[g], reader, s, permission, fields, destination, at) {
      assert GrantPermits(app, app.grants[g], reader, r, permission, fields, destination, at);
    }
  }
}
