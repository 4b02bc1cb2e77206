/** What an image that opens guarantees to whoever reads it, entity by entity: nothing in it could not have come about through
    approved operations. */
module Guarantees {
  import opened Types
  import opened Policy
  import opened Ledger
  import Authority

  predicate OneScope(t: Task, r: Record)
  {
    t.owner == r.owner && t.workspace == r.workspace && t.service == r.service && t.origin == r.origin
  }

  /** The approval was once acceptable, and all approvals are of one owner and workspace. */
  predicate ApprovalGuaranteed(app: App, id: Uuid)
    requires id in app.tasks
  {
    && app.tasks[id].id == id && Authority.InBounds(app.tasks[id], TIME_MIN)
    && forall j | j in app.tasks :: app.tasks[j].owner == app.tasks[id].owner && app.tasks[j].workspace == app.tasks[id].workspace
  }

  /** The record was made by the principal of its approval, who could still create it as it is; deleted, it holds nothing. */
  predicate RecordGuaranteed(app: App, id: Uuid)
    requires id in app.records
  {
    var r := app.records[id];
    && r.id == id && id != NIL && r.task in app.tasks && OneScope(app.tasks[r.task], r) && r.createdBy == app.tasks[r.task].principal
    && 1 <= r.secretVersion && r.secretVersion <= r.revision && SecretWrite in app.tasks[r.task].permissions
    && (if r.deleted then r.values == map[] else Authority.Creatable(app.tasks[r.task], Create(r.kind, r.values)))
  }

  /** The grant is no wider than its issuer, cannot be passed on, and without an administrator it was issued by the approval that
      created the record, within that approval's bounds. */
  predicate GrantGuaranteed(app: App, g: Uuid)
    requires g in app.grants
  {
    && g != NIL && app.grants[g].record in app.records && app.grants[g].issuerTask in app.tasks
    && var spec, t, r := app.grants[g].spec, app.tasks[app.grants[g].issuerTask], app.records[app.grants[g].record];
       && OneScope(t, r) && Authority.Named(spec.recipient) && 1 <= app.grants[g].version <= r.secretVersion
       && spec.fields != {} && spec.fields <= t.fields && spec.permissions != {} && spec.permissions <= t.permissions
       && AccessGrant !in spec.permissions && spec.destinations <= t.destinations && TIME_MIN < spec.expiresAt <= t.expiresAt
       && (SecretUse in spec.permissions ==> |spec.destinations| > 0)
       && (if r.deleted then app.grants[g].revoked else spec.fields <= r.values.Keys)
       && (!app.grants[g].adminIssued ==>
             && r.task == t.id && r.createdBy == t.principal && AccessGrant in t.permissions && t.share.Some?
             && var b := t.share.value;
                && spec.recipient in b.recipients && spec.fields <= b.fields && spec.permissions <= b.permissions
                && spec.destinations <= b.destinations && spec.expiresAt <= b.expiresAt && (spec.followActive ==> b.allowFollowActive))
  }

  /** The receipt belongs to the principal of its approval and to one revision of its record that no other receipt has. */
  predicate ReceiptGuaranteed(app: App, k: RequestKey)
    requires k in app.requests
  {
    var c := app.requests[k];
    && k.id != NIL && k.task in app.tasks && k.owner == app.tasks[k.task].owner && k.principal == app.tasks[k.task].principal
    && c.result.record in app.records && OneScope(app.tasks[k.task], app.records[c.result.record])
    && 1 <= c.result.revision && c.result.revision <= app.records[c.result.record].revision
    && (forall j | j in app.requests && app.requests[j].result.record == c.result.record && app.requests[j].result.revision == c.result.revision :: j == k)
    && (c.kind == KCreate ==> c.result.revision == 1 && k.task == app.records[c.result.record].task)
    && (c.kind == KDelete ==> app.records[c.result.record].deleted)
    && (c.kind == KShare || c.kind == KRevoke ==>
          && c.result.grant.Some? && c.result.grant.value in app.grants && app.grants[c.result.grant.value].record == c.result.record
          && (c.kind == KShare ==> app.grants[c.result.grant.value].issuerTask == k.task)
          && (c.kind == KRevoke ==> app.grants[c.result.grant.value].revoked))
    && (c.kind != KShare && c.kind != KRevoke ==> c.result.grant.None?)
  }

  /** The attempt is a use its approval permits, under a key of its own; one registration per record was ever handed off. */
  predicate AttemptGuaranteed(app: App, i: Uuid)
    requires i in app.deliveries
  {
    var d := app.deliveries[i];
    && i != NIL && d.task in app.tasks && d.record in app.records && OneScope(app.tasks[d.task], app.records[d.record])
    && 1 <= d.version <= app.records[d.record].secretVersion
    && SecretUse in app.tasks[d.task].permissions && d.fields != {} && d.fields <= app.tasks[d.task].fields && d.destination in app.tasks[d.task].destinations
    && d.key == RequestKey(app.tasks[d.task].owner, app.tasks[d.task].principal, d.task, d.key.id) && d.key.id != NIL && d.key !in app.requests
    && d.fingerprint == OfUse(PrivateUse(d.key.id, d.record, d.fields, d.destination, d.action))
    && (d.action == Register || d.action == Login ==> app.records[d.record].kind == LoginKind && {Username, Password} <= d.fields)
    && (!d.dispatched ==> d.status == Some(StRejected))
    && (forall j | j in app.deliveries && app.deliveries[j].key == d.key :: j == i)
    && (d.action == Register && d.dispatched ==>
          forall j | j in app.deliveries && app.deliveries[j].record == d.record && app.deliveries[j].action == Register && app.deliveries[j].dispatched :: j == i)
  }

  /** The event names an approval, a record of its scope, its principal at a time not after the clock, and its receipt. */
  predicate EventGuaranteed(app: App, e: AuditEvent)
  {
    && e.task in app.tasks && e.record in app.records && OneScope(app.tasks[e.task], app.records[e.record])
    && (e.at != 0 || e.principal != "" ==>
          e.principal == app.tasks[e.task].principal && e.at >= 0 && app.lastTime.Some? && e.at <= app.lastTime.value)
    && (e.request.Some? ==>
          var key := RequestKey(app.tasks[e.task].owner, app.tasks[e.task].principal, app.tasks[e.task].id, e.request.value);
          key in app.requests && app.requests[key].result.record == e.record)
  }

  lemma RecordIsGuaranteed(app: App, id: Uuid)
    requires StructureOk(app) && id in app.records
    ensures RecordGuaranteed(app, id)
  {
    assert RecordOk(app.tasks[app.records[id].task], id, app.records[id]);
    if !app.records[id].deleted { Authority.StorableExactly(app.records[id].values); }
    hide ValuesOk, Authority.Storable;
  }

  lemma ApprovalIsGuaranteed(app: App, id: Uuid)
    requires StructureOk(app) && id in app.tasks
    ensures ApprovalGuaranteed(app, id)
  {
    Authority.BoundsExactly(app.tasks[id], TIME_MIN);
    hide TaskBoundsOk, Authority.InBounds;
  }

  lemma GrantIsGuaranteed(app: App, g: Uuid)
    requires StructureOk(app) && g in app.grants
    ensures GrantGuaranteed(app, g)
  {
    assert GrantOk(app.tasks[app.grants[g].issuerTask], app.records[app.grants[g].record], g, app.grants[g]);
  }

  lemma ReceiptIsGuaranteed(app: App, k: RequestKey)
    requires ReceiptsOk(app) && k in app.requests
    ensures ReceiptGuaranteed(app, k)
  {
    hide BaselinesOk, AccountsOk, GrantsAccounted;
    var c := app.requests[k];
    assert RequestOk(app.tasks[k.task], app.records[c.result.record], Through(app.baselines, c.result.record), app.grants, k, c);
  }

  lemma AttemptIsGuaranteed(app: App, i: Uuid)
    requires ActivityOk(app) && i in app.deliveries
    ensures AttemptGuaranteed(app, i)
  {
    hide VerifiedOk, AuditOk;
    assert DeliveryOk(app.tasks[app.deliveries[i].task], app.records[app.deliveries[i].record], i, app.deliveries[i]);
  }

  lemma EventIsGuaranteed(app: App, e: AuditEvent)
    requires EventOk(app, e)
    ensures EventGuaranteed(app, e)
  {}

  /** Every entity of an application the validator accepts is guaranteed. */
  lemma ValidGuarantees(app: App)
    requires Valid(app)
    ensures forall id | id in app.tasks :: ApprovalGuaranteed(app, id)
    ensures forall id | id in app.records :: RecordGuaranteed(app, id)
    ensures forall g | g in app.grants :: GrantGuaranteed(app, g)
    ensures forall k | k in app.requests :: ReceiptGuaranteed(app, k)
    ensures forall i | i in app.deliveries :: AttemptGuaranteed(app, i)
    ensures forall i | 0 <= i < |app.audit| :: EventGuaranteed(app, app.audit[i])
    ensures app.generation > 0 && forall id | id in app.revokedTasks :: id in app.tasks
  {
    ValidIs(app);
    forall id | id in app.tasks ensures ApprovalGuaranteed(app, id) { ApprovalIsGuaranteed(app, id); }
    forall id | id in app.records ensures RecordGuaranteed(app, id) { RecordIsGuaranteed(app, id); }
    forall g | g in app.grants ensures GrantGuaranteed(app, g) { GrantIsGuaranteed(app, g); }
    forall k | k in app.requests ensures ReceiptGuaranteed(app, k) { ReceiptIsGuaranteed(app, k); }
    forall i | i in app.deliveries ensures AttemptGuaranteed(app, i) { AttemptIsGuaranteed(app, i); }
    forall i | 0 <= i < |app.audit| ensures EventGuaranteed(app, app.audit[i]) { EventIsGuaranteed(app, app.audit[i]); }
    hide ApprovalGuaranteed, RecordGuaranteed, GrantGuaranteed, ReceiptGuaranteed, AttemptGuaranteed, EventGuaranteed;
  }
}
