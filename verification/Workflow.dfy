/** Private use of a secret: the staged effect of the three commits (intent, cancelled handoff, outcome). */
module Workflow {
  import opened Types
  import opened Policy
  import opened Ledger
  import opened CompactionLedger
  import opened Preservation
  import opened Operations
  import opened Mutations

  // ----- the staged effects -----

  function SetSignup(app: App, id: Uuid, signup: Signup): App
    requires id in app.records
  {
    app.(records := app.records[id := app.records[id].(signup := signup)])
  }

  /** The first delivery in identifier order that carries the key. */
  predicate IsFirst(deliveries: map<Uuid, Delivery>, key: RequestKey, d: Uuid)
  {
    d in deliveries && deliveries[d].key == key && forall e | e in deliveries && deliveries[e].key == key :: d <= e
  }

  lemma {:induction false} FirstExists(deliveries: map<Uuid, Delivery>, key: RequestKey, d: Uuid)
    requires d in deliveries && deliveries[d].key == key
    ensures exists f :: IsFirst(deliveries, key, f)
    decreases d
  {
    if e :| e in deliveries && deliveries[e].key == key && e < d {
      FirstExists(deliveries, key, e);
    } else {
      assert IsFirst(deliveries, key, d);
    }
  }

  /** The delivery that already carries the key. */
  ghost function Previous(app: App, key: RequestKey): (d: Uuid)
    requires DeliveryKeyUsed(app, key)
    ensures IsFirst(app.deliveries, key, d)
  {
    var any :| any in app.deliveries && app.deliveries[any].key == key;
    FirstExists(app.deliveries, key, any);
    var d :| IsFirst(app.deliveries, key, d); d
  }

  /** A retained key answers from its attempt, if the version and the request are the same and it was handed off. */
  ghost function Replay(app: App, key: RequestKey, use: PrivateUse, version: U64): Result<Option<DeliveryReceipt>>
    requires DeliveryKeyUsed(app, key)
  {
    var d := app.deliveries[Previous(app, key)];
    if d.version != version then Err(Denied)
    else if d.fingerprint != OfUse(use) then Err(ReplayConflict)
    else if !d.dispatched then Err(Denied)
    else if d.status.None? then Err(RecoveryRequired)
    else Ok(Some(DeliveryReceipt(Previous(app, key), d.status.value)))
  }

  function NewAttempt(task: Uuid, use: PrivateUse, version: U64, key: RequestKey, at: Time): Delivery
  {
    Delivery(task, use.record, version, use.destination, use.fields, None, key, OfUse(use), use.action, true, Some(at))
  }

  function InsertAttempt(app: App, attempt: Uuid, d: Delivery): App
    requires d.record in app.records
  {
    var b := app.(deliveries := app.deliveries[attempt := d]);
    if d.action == Register then SetSignup(b, d.record, Submitted) else b
  }

  predicate NeedsLogin(use: PrivateUse, r: Record)
  {
    use.action != Use && (r.kind != LoginKind || Username !in use.fields || Password !in use.fields)
  }

  /** First commit: the durable intent, or the answer of a retained attempt. */
  ghost function Intent(app: App, ctx: Context, task: Uuid, use: PrivateUse, now: Time, attempt: Uuid): Outcome<Option<DeliveryReceipt>>
  {
    var c := Clock(app, now);
    if c.result.Err? then Outcome(c.app, Err(c.result.error))
    else if use.request == NIL then Outcome(c.app, Err(Invalid))
    else
      var found := Select(c.app, ctx, task, use.record, use.fields, SecretUse, Some(use.destination), c.result.value);
      if found.Err? then Outcome(c.app, Err(found.error))
      else
        var r := app.records[use.record];
        var key := KeyOf(ctx, task, use.request);
        if NeedsLogin(use, r) then Outcome(c.app, Err(Invalid))
        else if use.action == Register && r.restored then Outcome(c.app, Err(Conflict))
        else if key in app.requests then Outcome(c.app, Err(ReplayConflict))
        else if DeliveryKeyUsed(c.app, key) then Outcome(c.app, Replay(c.app, key, use, r.secretVersion))
        else if use.action == Register && RegistrationSealed(c.app, use.record) then Outcome(c.app, Err(Conflict))
        else if |app.deliveries| >= LIMIT then Outcome(c.app, Err(Capacity))
        else Outcome(InsertAttempt(c.app, attempt, NewAttempt(task, use, r.secretVersion, key, c.result.value)), Ok(None))
  }

  /** Commit of a refused handoff: the attempt is settled as never dispatched. */
  function Cancel(app: App, attempt: Uuid): Outcome<()>
  {
    if attempt !in app.deliveries then Outcome(app, Err(RecoveryRequired))
    else
      var d := app.deliveries[attempt];
      var b := app.(deliveries := app.deliveries[attempt := d.(dispatched := false, status := Some(StRejected))]);
      if d.action != Register then Outcome(b, Ok(()))
      else if d.record !in app.records then Outcome(b, Err(RecoveryRequired))
      else Outcome(SetSignup(b, d.record, Pending), Ok(()))
  }

  function OutcomeSignup(action: PrivateAction, status: Status, signup: Signup): Signup
  {
    match (action, status)
    case (Register, StAccepted) => ReportedSuccess
    case (Register, StRejected) => Rejected
    case (Register, StHumanRequired) => HumanRequired
    case (Register, StUnknown) => Unknown
    case (Login, StAccepted) => VerifiedLogin
    case _ => signup
  }

  /** Last commit: the adapter's status, the signup state it implies, and the audit event. */
  function Finish(app: App, ctx: Context, task: Uuid, attempt: Uuid, status: Status, at: Time): Outcome<()>
  {
    if attempt !in app.deliveries then Outcome(app, Err(RecoveryRequired))
    else
      var d := app.deliveries[attempt];
      var b := app.(deliveries := app.deliveries[attempt := d.(status := Some(status))]);
      if d.record !in app.records then Outcome(b, Err(RecoveryRequired))
      else
        var s := SetSignup(b, d.record, OutcomeSignup(d.action, status, app.records[d.record].signup));
        Outcome(Audit(s, AuditEvent(task, d.record, None, SecretUseEvent, at, ctx.principal)), Ok(()))
  }

  // ----- a changed signup state -----

  lemma SignupRecords(app: App, id: Uuid, signup: Signup)
    requires RecordsOk(app.tasks, app.records) && id in app.records
    ensures RecordsOk(app.tasks, SetSignup(app, id, signup).records)
  {}

  lemma SignupGrants(app: App, id: Uuid, signup: Signup)
    requires GrantsOk(app.tasks, app.records, app.grants) && id in app.records
    ensures GrantsOk(app.tasks, SetSignup(app, id, signup).records, app.grants)
  {}

  lemma SignupLimits(app: App, id: Uuid, signup: Signup)
    requires LimitsOk(app) && id in app.records
    ensures LimitsOk(SetSignup(app, id, signup))
  {}

  lemma SignupStructure(app: App, id: Uuid, signup: Signup)
    requires StructureOk(app) && id in app.records
    ensures StructureOk(SetSignup(app, id, signup))
  {
    SignupRecords(app, id, signup);
    SignupGrants(app, id, signup);
    SignupLimits(app, id, signup);
  }

  lemma SignupRequests(app: App, id: Uuid, signup: Signup)
    requires RequestsOk(app) && id in app.records
    ensures RequestsOk(SetSignup(app, id, signup))
  {}

  lemma SignupAccounts(app: App, id: Uuid, signup: Signup)
    requires AccountsOk(app) && GrantsAccounted(app) && id in app.records
    ensures var b := SetSignup(app, id, signup); AccountsOk(b) && GrantsAccounted(b)
  {}

  lemma SignupBaselines(app: App, id: Uuid, signup: Signup)
    requires BaselinesOk(app) && id in app.records
    ensures BaselinesOk(SetSignup(app, id, signup)) <==> !MovesSealed(app, id, signup)
  {}

  /** A changed signup leaves the receipts in order exactly when it does not move a sealed verified login. */
  lemma SignupReceipts(app: App, id: Uuid, signup: Signup)
    requires ReceiptsOk(app) && id in app.records
    ensures ReceiptsOk(SetSignup(app, id, signup)) <==> !MovesSealed(app, id, signup)
  {
    SignupRequests(app, id, signup);
    SignupAccounts(app, id, signup);
    SignupBaselines(app, id, signup);
  }

  lemma SignupActivity(app: App, id: Uuid, signup: Signup)
    requires DeliveriesOk(app) && AuditOk(app) && id in app.records
    ensures var b := SetSignup(app, id, signup); DeliveriesOk(b) && AuditOk(b)
  {}

  // ----- one changed or added attempt -----

  /** `b` is `a` with the attempt set to `d`; an old attempt keeps its identity and was unfinished. */
  ghost predicate AttemptStep(a: App, b: App, attempt: Uuid, d: Delivery)
  {
    && b == a.(deliveries := a.deliveries[attempt := d])
    && (attempt in a.deliveries ==> a.deliveries[attempt].status.None? && d.key == a.deliveries[attempt].key
                                    && d.record == a.deliveries[attempt].record && d.action == a.deliveries[attempt].action
                                    && (d.dispatched ==> a.deliveries[attempt].dispatched))
    && (attempt !in a.deliveries ==> !DeliveryKeyUsed(a, d.key) && (Registers(d) ==> !RegistrationSealed(a, d.record)))
  }

  lemma AttemptDistinct(a: App, b: App, attempt: Uuid, d: Delivery)
    requires AttemptStep(a, b, attempt, d) && DeliveriesDistinct(a.deliveries)
    ensures DeliveriesDistinct(b.deliveries)
  {}

  lemma AttemptActivity(a: App, b: App, attempt: Uuid, d: Delivery)
    requires AttemptStep(a, b, attempt, d) && ActivityOk(a)
    requires d.task in a.tasks && d.record in a.records && DeliveryOk(a.tasks[d.task], a.records[d.record], attempt, d) && d.key !in a.requests
    ensures ActivityOk(b)
  {
    AttemptDistinct(a, b, attempt, d);
    assert DeliveriesOk(b);
    forall i | 0 <= i < |b.audit| ensures EventOk(b, b.audit[i]) { assert EventOk(a, a.audit[i]); }
    forall id | id in b.records && b.records[id].signup == VerifiedLogin
      ensures BaseOf(b.baselines, id).verifiedLogin
              || exists i | i in b.deliveries :: Verifies(b.deliveries[i], id, b.records[id].secretVersion)
    {
      if i :| i in a.deliveries && Verifies(a.deliveries[i], id, a.records[id].secretVersion) {
        assert i in b.deliveries && Verifies(b.deliveries[i], id, b.records[id].secretVersion);
      }
    }
  }

  lemma AttemptReceipts(a: App, b: App, attempt: Uuid, d: Delivery)
    requires AttemptStep(a, b, attempt, d) && ReceiptsOk(a)
    ensures ReceiptsOk(b)
  {}

  lemma AttemptStructure(a: App, b: App, attempt: Uuid, d: Delivery)
    requires AttemptStep(a, b, attempt, d) && StructureOk(a) && (attempt !in a.deliveries ==> |a.deliveries| < LIMIT)
    ensures StructureOk(b)
  {}

  lemma AttemptSound(a: App, b: App, attempt: Uuid, d: Delivery)
    requires AttemptStep(a, b, attempt, d) && Sound(a) && (attempt !in a.deliveries ==> |a.deliveries| < LIMIT)
    requires d.task in a.tasks && d.record in a.records && DeliveryOk(a.tasks[d.task], a.records[d.record], attempt, d) && d.key !in a.requests
    ensures Sound(b)
  {
    ValidIs(a);
    ValidIs(b);
    AttemptStructure(a, b, attempt, d);
    AttemptReceipts(a, b, attempt, d);
    AttemptActivity(a, b, attempt, d);
  }

  /** The record has evidence of a verified login: a seal, or an accepted login attempt of its version. */
  predicate HasEvidence(app: App, id: Uuid)
    requires id in app.records
  {
    || BaseOf(app.baselines, id).verifiedLogin
    || exists d | d in app.deliveries :: Verifies(app.deliveries[d], id, app.records[id].secretVersion)
  }

  lemma SignupVerified(app: App, id: Uuid, signup: Signup)
    requires VerifiedOk(app) && id in app.records && (signup == VerifiedLogin ==> HasEvidence(app, id))
    ensures VerifiedOk(SetSignup(app, id, signup))
  {}

  /** Setting a signup: valid exactly when no sealed login moves, given the evidence a verified login needs. */
  lemma SignupSoundExactly(app: App, id: Uuid, signup: Signup)
    requires Sound(app) && id in app.records && (signup == VerifiedLogin ==> HasEvidence(app, id))
    ensures Sound(SetSignup(app, id, signup)) <==> !MovesSealed(app, id, signup)
  {
    ValidIs(app);
    ValidIs(SetSignup(app, id, signup));
    SignupStructure(app, id, signup);
    SignupReceipts(app, id, signup);
    SignupActivity(app, id, signup);
    SignupVerified(app, id, signup);
  }

  // ----- the three commits -----

  lemma SelectedAttemptOk(c: App, ctx: Context, task: Uuid, use: PrivateUse, at: Time, attempt: Uuid)
    requires RecordsOk(c.tasks, c.records) && TasksOk(c.tasks) && attempt != NIL && use.request != NIL
    requires Select(c, ctx, task, use.record, use.fields, SecretUse, Some(use.destination), at).Ok?
    requires !NeedsLogin(use, c.records[use.record])
    ensures DeliveryOk(c.tasks[task], c.records[use.record], attempt,
                       NewAttempt(task, use, c.records[use.record].secretVersion, KeyOf(ctx, task, use.request), at))
  {}

  /** What holds when an intent is staged, relative to the application after the clock sample. */
  predicate IntentAllowed(c: App, ctx: Context, task: Uuid, use: PrivateUse, at: Time)
  {
    && use.request != NIL && Select(c, ctx, task, use.record, use.fields, SecretUse, Some(use.destination), at).Ok?
    && use.record in c.records && !NeedsLogin(use, c.records[use.record]) && |c.deliveries| < LIMIT
    && KeyOf(ctx, task, use.request) !in c.requests && !DeliveryKeyUsed(c, KeyOf(ctx, task, use.request))
    && (use.action == Register ==> !c.records[use.record].restored && !RegistrationSealed(c, use.record))
  }

  lemma IntentShape(app: App, ctx: Context, task: Uuid, use: PrivateUse, now: Time, attempt: Uuid)
    ensures var o := Intent(app, ctx, task, use, now, attempt); var c := Clock(app, now);
      if o.result != Ok(None) then o.app == c.app
      else c.result.Ok? && IntentAllowed(c.app, ctx, task, use, c.result.value)
           && o.app == InsertAttempt(c.app, attempt, NewAttempt(task, use, c.app.records[use.record].secretVersion,
                                                                KeyOf(ctx, task, use.request), c.result.value))
  {}

  lemma StagedSound(c: App, ctx: Context, task: Uuid, use: PrivateUse, at: Time, attempt: Uuid)
    requires Sound(c) && attempt != NIL && attempt !in c.deliveries && IntentAllowed(c, ctx, task, use, at)
    ensures var d := NewAttempt(task, use, c.records[use.record].secretVersion, KeyOf(ctx, task, use.request), at);
      Sound(c.(deliveries := c.deliveries[attempt := d]))
  {
    ValidIs(c);
    var d := NewAttempt(task, use, c.records[use.record].secretVersion, KeyOf(ctx, task, use.request), at);
    SoundTasks(c);
    SelectedScope(c, ctx, task, use.record, use.fields, SecretUse, Some(use.destination), at);
    SelectedAttemptOk(c, ctx, task, use, at, attempt);
    AttemptSound(c, c.(deliveries := c.deliveries[attempt := d]), attempt, d);
  }

  lemma InsertedSoundExactly(c: App, ctx: Context, task: Uuid, use: PrivateUse, at: Time, attempt: Uuid)
    requires Sound(c) && attempt != NIL && attempt !in c.deliveries && IntentAllowed(c, ctx, task, use, at)
    ensures var d := NewAttempt(task, use, c.records[use.record].secretVersion, KeyOf(ctx, task, use.request), at);
      Sound(InsertAttempt(c, attempt, d)) <==> !(use.action == Register && BaseOf(c.baselines, use.record).verifiedLogin)
  {
    var d := NewAttempt(task, use, c.records[use.record].secretVersion, KeyOf(ctx, task, use.request), at);
    StagedSound(c, ctx, task, use, at, attempt);
    SignupSoundExactly(c.(deliveries := c.deliveries[attempt := d]), use.record, Submitted);
  }

  /** The staged intent is valid exactly when it does not register on a record with a sealed verified login. */
  lemma IntentSoundExactly(app: App, ctx: Context, task: Uuid, use: PrivateUse, now: Time, attempt: Uuid)
    requires Sound(app) && attempt != NIL && attempt !in app.deliveries
    ensures var o := Intent(app, ctx, task, use, now, attempt);
      Sound(o.app) <==> !(o.result == Ok(None) && use.action == Register && BaseOf(app.baselines, use.record).verifiedLogin)
  {
    ValidIs(app);
    ClockKeepsSound(app, now);
    ClockKeepsBooks(app, now);
    IntentShape(app, ctx, task, use, now, attempt);
    if Intent(app, ctx, task, use, now, attempt).result == Ok(None) {
      InsertedSoundExactly(Clock(app, now).app, ctx, task, use, Clock(app, now).result.value, attempt);
    }
  }

  predicate Unfinished(app: App, attempt: Uuid) { attempt in app.deliveries && app.deliveries[attempt].status.None? }

  lemma SettleAttempt(app: App, attempt: Uuid, d: Delivery)
    requires Sound(app) && Unfinished(app, attempt)
    requires d == app.deliveries[attempt].(status := d.status, dispatched := d.dispatched)
    requires d.dispatched || d.status == Some(StRejected)
    ensures d.record in app.records && Sound(app.(deliveries := app.deliveries[attempt := d]))
  {
    ValidIs(app);
    var was := app.deliveries[attempt];
    assert DeliveryOk(app.tasks[was.task], app.records[was.record], attempt, was);
    AttemptSound(app, app.(deliveries := app.deliveries[attempt := d]), attempt, d);
  }

  /** Cancelling an unfinished attempt keeps the invariant unless it would move a sealed verified login. */
  lemma CancelSoundExactly(app: App, attempt: Uuid)
    requires Sound(app) && Unfinished(app, attempt)
    ensures var d := app.deliveries[attempt];
      Sound(Cancel(app, attempt).app) <==> !(d.action == Register && BaseOf(app.baselines, d.record).verifiedLogin)
  {
    var d := app.deliveries[attempt];
    var settled := d.(dispatched := false, status := Some(StRejected));
    SettleAttempt(app, attempt, settled);
    CancelShape(app, attempt);
    CancelledSignup(app, app.(deliveries := app.deliveries[attempt := settled]), d.record);
  }

  lemma CancelShape(app: App, attempt: Uuid)
    requires Unfinished(app, attempt) && app.deliveries[attempt].record in app.records
    ensures var d := app.deliveries[attempt];
      var b := app.(deliveries := app.deliveries[attempt := d.(dispatched := false, status := Some(StRejected))]);
      Cancel(app, attempt).app == if d.action == Register then SetSignup(b, d.record, Pending) else b
  {}

  lemma CancelledSignup(app: App, b: App, id: Uuid)
    requires Sound(b) && id in b.records && b == app.(deliveries := b.deliveries)
    ensures Sound(SetSignup(b, id, Pending)) <==> !BaseOf(app.baselines, id).verifiedLogin
  {
    SignupSoundExactly(b, id, Pending);
  }

  lemma FinishEvidence(app: App, attempt: Uuid, status: Status, b: App)
    requires Unfinished(app, attempt) && app.deliveries[attempt].record in app.records && VerifiedOk(b)
    requires app.deliveries[attempt].action == Login && status == StAccepted ==>
      app.deliveries[attempt].dispatched && app.deliveries[attempt].version == app.records[app.deliveries[attempt].record].secretVersion
    requires b == app.(deliveries := app.deliveries[attempt := app.deliveries[attempt].(status := Some(status))])
    ensures var d := app.deliveries[attempt]; var signup := OutcomeSignup(d.action, status, app.records[d.record].signup);
      signup == VerifiedLogin ==> HasEvidence(b, d.record)
  {
    var d := app.deliveries[attempt];
    if d.action == Login && status == StAccepted {
      assert Verifies(b.deliveries[attempt], d.record, b.records[d.record].secretVersion);
    } else if app.records[d.record].signup == VerifiedLogin {
      assert b.records[d.record].signup == VerifiedLogin;
    }
  }

  predicate FinishContext(app: App, ctx: Context, task: Uuid, attempt: Uuid, status: Status, at: Time)
  {
    && Unfinished(app, attempt) && app.deliveries[attempt].task == task && task in app.tasks
    && app.tasks[task].principal == ctx.principal && app.lastTime.Some? && at <= app.lastTime.value
    && app.deliveries[attempt].record in app.records
    && (app.deliveries[attempt].action == Login && status == StAccepted ==>
          app.deliveries[attempt].version == app.records[app.deliveries[attempt].record].secretVersion)
  }

  lemma FinishEvent(app: App, s: App, ctx: Context, task: Uuid, attempt: Uuid, status: Status, at: Time)
    requires TasksOk(app.tasks) && DeliveriesOk(app) && FinishContext(app, ctx, task, attempt, status, at)
    requires s == app.(deliveries := s.deliveries, records := s.records)
    requires app.deliveries[attempt].record in s.records
    requires s.records[app.deliveries[attempt].record] ==
             app.records[app.deliveries[attempt].record].(signup := s.records[app.deliveries[attempt].record].signup)
    ensures EventOk(s, AuditEvent(task, app.deliveries[attempt].record, None, SecretUseEvent, at, ctx.principal)) <==> at >= 0
  {}

  lemma UnfinishedIsDispatched(app: App, attempt: Uuid)
    requires Sound(app) && Unfinished(app, attempt)
    ensures app.deliveries[attempt].dispatched && app.deliveries[attempt].record in app.records
    ensures app.deliveries[attempt].key !in app.requests && app.deliveries[attempt].task in app.tasks
  {
    ValidIs(app);
    var d := app.deliveries[attempt];
    assert DeliveryOk(app.tasks[d.task], app.records[d.record], attempt, d);
  }

  lemma SoundParts(app: App)
    requires Sound(app)
    ensures TasksOk(app.tasks) && DeliveriesOk(app) && VerifiedOk(app) && BaselinesOk(app) && RequestsOk(app)
    ensures StructureOk(app) && ActivityOk(app)
  {
    ValidIs(app);
  }

  /** Committing an outcome: valid exactly when its time is not negative and no sealed verified login moves. */
  lemma FinishSoundExactly(app: App, ctx: Context, task: Uuid, attempt: Uuid, status: Status, at: Time)
    requires Sound(app) && FinishContext(app, ctx, task, attempt, status, at)
    ensures var d := app.deliveries[attempt]; var signup := OutcomeSignup(d.action, status, app.records[d.record].signup);
      Sound(Finish(app, ctx, task, attempt, status, at).app) <==> at >= 0 && !MovesSealed(app, d.record, signup)
  {
    var d := app.deliveries[attempt];
    var signup := OutcomeSignup(d.action, status, app.records[d.record].signup);
    var b := app.(deliveries := app.deliveries[attempt := d.(status := Some(status))]);
    var s := SetSignup(b, d.record, signup);
    FinishPrepared(app, ctx, task, attempt, status, at, b, s);
    FinishShape(app, ctx, task, attempt, status, at);
    FinishAudited(b, d.record, signup, AuditEvent(task, d.record, None, SecretUseEvent, at, ctx.principal));
  }

  lemma FinishShape(app: App, ctx: Context, task: Uuid, attempt: Uuid, status: Status, at: Time)
    requires Unfinished(app, attempt) && app.deliveries[attempt].record in app.records
    ensures var d := app.deliveries[attempt];
      var b := app.(deliveries := app.deliveries[attempt := d.(status := Some(status))]);
      var s := SetSignup(b, d.record, OutcomeSignup(d.action, status, app.records[d.record].signup));
      Finish(app, ctx, task, attempt, status, at).app == Audit(s, AuditEvent(task, d.record, None, SecretUseEvent, at, ctx.principal))
  {}

  lemma FinishPrepared(app: App, ctx: Context, task: Uuid, attempt: Uuid, status: Status, at: Time, b: App, s: App)
    requires FinishContext(app, ctx, task, attempt, status, at) && Sound(app)
    requires b == app.(deliveries := app.deliveries[attempt := app.deliveries[attempt].(status := Some(status))])
    requires var d := app.deliveries[attempt]; s == SetSignup(b, d.record, OutcomeSignup(d.action, status, app.records[d.record].signup))
    ensures Sound(b)
    ensures var d := app.deliveries[attempt]; var signup := OutcomeSignup(d.action, status, app.records[d.record].signup);
      signup == VerifiedLogin ==> HasEvidence(b, d.record)
    ensures EventOk(s, AuditEvent(task, app.deliveries[attempt].record, None, SecretUseEvent, at, ctx.principal)) <==> at >= 0
  {
    UnfinishedIsDispatched(app, attempt);
    SettleAttempt(app, attempt, app.deliveries[attempt].(status := Some(status)));
    SoundParts(app);
    SoundParts(b);
    FinishEvidence(app, attempt, status, b);
    FinishEvent(app, s, ctx, task, attempt, status, at);
  }

  lemma FinishAudited(b: App, id: Uuid, signup: Signup, e: AuditEvent)
    requires Sound(b) && id in b.records && (signup == VerifiedLogin ==> HasEvidence(b, id))
    ensures Sound(Audit(SetSignup(b, id, signup), e)) <==> EventOk(SetSignup(b, id, signup), e) && !MovesSealed(b, id, signup)
  {
    var s := SetSignup(b, id, signup);
    if MovesSealed(b, id, signup) {
      ValidIs(b);
      SignupBaselines(b, id, signup);
      AuditReceipts(s, e);
      ValidIs(Audit(s, e));
    } else {
      SignupSoundExactly(b, id, signup);
      AuditKeepsValid(s, e);
    }
  }
}
