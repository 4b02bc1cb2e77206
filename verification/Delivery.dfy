/** Private use, commit by commit: when an intent is staged, what a repeated request is answered, and what a refused handoff
    and each outcome of the callback leave in the vault. */
module Deliveries {
  import opened Types
  import opened Policy
  import opened Workflow
  import opened Operations
  import Authority

  // ----- the intent -----

  /** A registration of the record may have been dispatched. */
  predicate Registered(app: App, record: Uuid)
  {
    || (record in app.baselines && app.baselines[record].registrationDispatched)
    || exists d | d in app.deliveries ::
         app.deliveries[d].dispatched && app.deliveries[d].record == record && app.deliveries[d].action == Register
  }

  /** The caller may use the secret at the destination; a login or registration needs both fields of a login. */
  predicate Usable(app: App, ctx: Context, task: Uuid, use: PrivateUse, now: Time)
  {
    && Authority.Admitted(app, now) && use.request != NIL
    && Authority.Selectable(app, ctx, task, use.record, use.fields, SecretUse, Some(use.destination), Authority.Effective(app, now))
    && (use.action == Login || use.action == Register ==> app.records[use.record].kind == LoginKind && {Username, Password} <= use.fields)
    && (use.action == Register ==> !app.records[use.record].restored)
    && RequestKey(ctx.owner, ctx.principal, task, use.request) !in app.requests
  }

  /** The key is new, and a registration is the first one of its record. */
  predicate Stageable(app: App, ctx: Context, task: Uuid, use: PrivateUse, now: Time)
  {
    && Usable(app, ctx, task, use, now) && Authority.Undelivered(app, RequestKey(ctx.owner, ctx.principal, task, use.request))
    && (use.action == Register ==> !Registered(app, use.record)) && |app.deliveries| < LIMIT
  }

  /** The attempt made with the key answers: the same request, of a version that is still current, handed off and settled. */
  predicate Answers(app: App, d: Uuid, ctx: Context, task: Uuid, use: PrivateUse, status: Status)
    requires use.record in app.records
  {
    && d in app.deliveries && app.deliveries[d].key == RequestKey(ctx.owner, ctx.principal, task, use.request)
    && (forall e | e in app.deliveries && app.deliveries[e].key == app.deliveries[d].key :: d <= e)
    && app.deliveries[d].fingerprint == OfUse(use) && app.deliveries[d].version == app.records[use.record].secretVersion
    && app.deliveries[d].dispatched && app.deliveries[d].status == Some(status)
  }

  /** The attempt is added, unfinished, and a registration is submitted. */
  ghost predicate Stages(a: App, b: App, ctx: Context, task: Uuid, use: PrivateUse, at: Time, attempt: Uuid)
    requires use.record in a.records
  {
    && b == a.(deliveries := b.deliveries, records := b.records)
    && b.deliveries == a.deliveries[attempt := Delivery(task, use.record, a.records[use.record].secretVersion, use.destination, use.fields, None,
                         RequestKey(ctx.owner, ctx.principal, task, use.request), OfUse(use), use.action, true, Some(at))]
    && (use.action != Register ==> b.records == a.records)
    && (use.action == Register ==> b.records == a.records[use.record := a.records[use.record].(signup := Submitted)])
  }

  lemma RegisteredExactly(app: App, record: Uuid)
    ensures RegistrationSealed(app, record) <==> Registered(app, record)
  {}

  lemma StagedIs(a: App, ctx: Context, task: Uuid, use: PrivateUse, at: Time, attempt: Uuid)
    requires use.record in a.records
    ensures Stages(a, InsertAttempt(a, attempt, NewAttempt(task, use, a.records[use.record].secretVersion, KeyOf(ctx, task, use.request), at)),
                   ctx, task, use, at, attempt)
  {}

  lemma AnsweredExactly(app: App, ctx: Context, task: Uuid, use: PrivateUse, receipt: DeliveryReceipt)
    requires use.record in app.records && DeliveryKeyUsed(app, KeyOf(ctx, task, use.request))
    ensures Replay(app, KeyOf(ctx, task, use.request), use, app.records[use.record].secretVersion) == Ok(Some(receipt))
            <==> Answers(app, receipt.attempt, ctx, task, use, receipt.status)
    ensures Replay(app, KeyOf(ctx, task, use.request), use, app.records[use.record].secretVersion) != Ok(None)
  {
    assert IsFirst(app.deliveries, KeyOf(ctx, task, use.request), Previous(app, KeyOf(ctx, task, use.request)));
  }

  lemma UsableExactly(app: App, ctx: Context, task: Uuid, use: PrivateUse, now: Time)
    ensures var c, at := Authority.Sampled(app, now), Authority.Effective(app, now);
      Usable(app, ctx, task, use, now) <==>
        && Authority.Admitted(app, now) && use.request != NIL
        && Select(c, ctx, task, use.record, use.fields, SecretUse, Some(use.destination), at).Ok? && use.record in app.records
        && !NeedsLogin(use, app.records[use.record]) && !(use.action == Register && app.records[use.record].restored)
        && KeyOf(ctx, task, use.request) !in app.requests
    ensures Select(Authority.Sampled(app, now), ctx, task, use.record, use.fields, SecretUse, Some(use.destination), Authority.Effective(app, now)).Ok?
            ==> use.record in app.records
  {
    var c, at := Authority.Sampled(app, now), Authority.Effective(app, now);
    Authority.SelectedExactly(c, ctx, task, use.record, use.fields, SecretUse, Some(use.destination), at);
    hide Policy.Select;
    Authority.SelectableSampled(app, ctx, task, use.record, use.fields, SecretUse, Some(use.destination), now);
    assert Authority.Selectable(app, ctx, task, use.record, use.fields, SecretUse, Some(use.destination), at) ==> use.record in app.records;
    hide Authority.Selectable;
  }

  /** An intent is staged exactly for a new key of a caller who may use the secret; a repeated request is answered from its
      attempt; everything else leaves only the clock. */
  lemma IntendedExactly(app: App, ctx: Context, task: Uuid, use: PrivateUse, now: Time, attempt: Uuid)
    ensures var o := Intent(app, ctx, task, use, now, attempt);
      && (o.result == Ok(None) <==> Stageable(app, ctx, task, use, now))
      && (o.result == Ok(None) ==> Stages(Authority.Sampled(app, now), o.app, ctx, task, use, Authority.Effective(app, now), attempt))
      && (o.result != Ok(None) ==> o.app == Authority.Sampled(app, now))
  {
    UsableExactly(app, ctx, task, use, now);
    Authority.SampledExactly(app, now);
    Authority.SampledBooks(app, now);
    var c, at := Authority.Sampled(app, now), Authority.Effective(app, now);
    hide Policy.Clock, Policy.Select, Usable, Authority.Sampled, Authority.Effective, NeedsLogin, Stages, Replay;
    if use.record in c.records {
      StagedIs(c, ctx, task, use, at, attempt);
      RegisteredExactly(c, use.record);
      if DeliveryKeyUsed(c, KeyOf(ctx, task, use.request)) {
        AnsweredExactly(c, ctx, task, use, DeliveryReceipt(attempt, StUnknown));
      }
    }
    hide InsertAttempt, NewAttempt;
  }

  lemma RepeatedExactly(app: App, ctx: Context, task: Uuid, use: PrivateUse, now: Time, attempt: Uuid, receipt: DeliveryReceipt)
    ensures Intent(app, ctx, task, use, now, attempt).result == Ok(Some(receipt))
            <==> Usable(app, ctx, task, use, now) && Answers(app, receipt.attempt, ctx, task, use, receipt.status)
  {
    UsableExactly(app, ctx, task, use, now);
    Authority.SampledExactly(app, now);
    Authority.SampledBooks(app, now);
    var c := Authority.Sampled(app, now);
    hide Policy.Clock, Policy.Select, Usable, Authority.Sampled, Authority.Effective, NeedsLogin, Replay, InsertAttempt, NewAttempt;
    if use.record in c.records {
      if DeliveryKeyUsed(c, KeyOf(ctx, task, use.request)) { AnsweredExactly(c, ctx, task, use, receipt); }
    }
  }

  lemma IntentStages(app: App, ctx: Context, task: Uuid, use: PrivateUse, now: Time, attempt: Uuid)
    ensures Intent(app, ctx, task, use, now, attempt).result == Ok(None) <==> Stageable(app, ctx, task, use, now)
  {
    hide Workflow.Intent, Stageable, Stages;
    IntendedExactly(app, ctx, task, use, now, attempt);
  }

  // ----- the handoff and the outcome -----

  /** What the outcome of a callback makes of the signup state. */
  predicate Follows(action: PrivateAction, status: Status, was: Signup, after: Signup)
  {
    && (action == Register && status == StAccepted ==> after == ReportedSuccess)
    && (action == Register && status == StRejected ==> after == Rejected)
    && (action == Register && status == StHumanRequired ==> after == HumanRequired)
    && (action == Register && status == StUnknown ==> after == Unknown)
    && (action == Login && status == StAccepted ==> after == VerifiedLogin)
    && (action == Use || (action == Login && status != StAccepted) ==> after == was)
  }

  /** The attempt carries the status, the record the signup that follows, and the audit one use of the secret. */
  ghost predicate Records(a: App, b: App, ctx: Context, task: Uuid, attempt: Uuid, status: Status, at: Time)
    requires attempt in a.deliveries && a.deliveries[attempt].record in a.records
  {
    var d := a.deliveries[attempt];
    && b == a.(deliveries := a.deliveries[attempt := d.(status := Some(status))], records := b.records, audit := b.audit)
    && d.record in b.records && b.records == a.records[d.record := a.records[d.record].(signup := b.records[d.record].signup)]
    && Follows(d.action, status, a.records[d.record].signup, b.records[d.record].signup)
    && b.audit == Authority.Logged(a.audit, AuditEvent(task, d.record, None, SecretUseEvent, at, ctx.principal))
  }

  lemma FinishedExactly(app: App, ctx: Context, task: Uuid, attempt: Uuid, status: Status, at: Time)
    requires attempt in app.deliveries && app.deliveries[attempt].record in app.records
    ensures var o := Finish(app, ctx, task, attempt, status, at); o.result.Ok? && Records(app, o.app, ctx, task, attempt, status, at)
  {}

  /** The attempt was never handed off; the registration it meant is pending again. */
  ghost predicate Retracts(a: App, b: App, attempt: Uuid)
    requires attempt in a.deliveries && a.deliveries[attempt].record in a.records
  {
    var d := a.deliveries[attempt];
    && b == a.(deliveries := a.deliveries[attempt := d.(status := Some(StRejected), dispatched := false)], records := b.records)
    && b.records == if d.action == Register then a.records[d.record := a.records[d.record].(signup := Pending)] else a.records
  }

  lemma CancelledExactly(app: App, attempt: Uuid)
    requires attempt in app.deliveries && app.deliveries[attempt].record in app.records
    ensures var o := Cancel(app, attempt); o.result.Ok? && Retracts(app, o.app, attempt)
  {}
}
