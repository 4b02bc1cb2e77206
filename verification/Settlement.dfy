/** Recovery and restore: every task and grant is revoked and every unfinished attempt is settled as unknown. */
module Settlement {
  import opened Types
  import opened Policy
  import opened Ledger
  import opened CompactionLedger
  import opened Preservation
  import opened Operations
  import opened Workflow

  predicate UnfinishedOn(app: App, id: Uuid)
  {
    exists d | d in app.deliveries ::
      app.deliveries[d].status.None? && app.deliveries[d].record == id && app.deliveries[d].action != Use
  }

  function RevokedGrants(grants: map<Uuid, Grant>): map<Uuid, Grant>
  {
    map g | g in grants :: grants[g].(revoked := true)
  }

  function SettledDeliveries(deliveries: map<Uuid, Delivery>): map<Uuid, Delivery>
  {
    map d | d in deliveries ::
      if deliveries[d].status.None? then deliveries[d].(status := Some(StUnknown)) else deliveries[d]
  }

  function SettledRecord(app: App, id: Uuid, restore: bool): Record
    requires id in app.records
  {
    var r := app.records[id];
    r.(signup := if UnfinishedOn(app, id) then Unknown else r.signup, restored := r.restored || restore)
  }

  /** Authority gone, attempts settled; `restore` also marks every record as a copy. */
  function Settled(app: App, restore: bool): App
  {
    app.(revokedTasks := app.revokedTasks + app.tasks.Keys, grants := RevokedGrants(app.grants),
         deliveries := SettledDeliveries(app.deliveries),
         records := map id | id in app.records :: SettledRecord(app, id, restore))
  }

  function Sanitized(app: App, now: Time): App
    requires app.generation < U64_MAX
  {
    Settled(app, false).(generation := app.generation + 1, clockFrozen := false, lastTime := Some(now), predecessor := None)
  }

  ghost function Sanitize(app: App, now: Time): Result<App>
  {
    if app.generation == U64_MAX then Err(RecoveryRequired)
    else if Valid(Sanitized(app, now)) then Ok(Sanitized(app, now))
    else Err(RecoveryRequired)
  }

  predicate AdminScope(app: App, admin: Context)
  {
    && admin.admin
    && (forall id | id in app.tasks :: app.tasks[id].owner == admin.owner && app.tasks[id].workspace == admin.workspace)
    && (forall id | id in app.records :: app.records[id].owner == admin.owner && app.records[id].workspace == admin.workspace)
  }

  /** Some approval or record belongs to another owner or another workspace. */
  predicate Foreign(app: App, admin: Context)
  {
    || (exists id | id in app.tasks :: app.tasks[id].owner != admin.owner || app.tasks[id].workspace != admin.workspace)
    || (exists id | id in app.records :: app.records[id].owner != admin.owner || app.records[id].workspace != admin.workspace)
  }

  lemma ScopeExactly(app: App, admin: Context)
    ensures AdminScope(app, admin) <==> admin.admin && !Foreign(app, admin)
  {}

  function RestoredCopy(app: App, now: Time): App
    requires app.generation < U64_MAX
  {
    var last := if app.lastTime.Some? && app.lastTime.value > now then app.lastTime.value else now;
    Settled(app, true).(generation := app.generation + 1, lastTime := Some(last), predecessor := None)
  }

  ghost function PrepareRestored(app: App, admin: Context, now: Time): Result<App>
  {
    if !AdminScope(app, admin) then Err(Denied)
    else if app.generation == U64_MAX then Err(Capacity)
    else if Valid(RestoredCopy(app, now)) then Ok(RestoredCopy(app, now))
    else Err(InvalidStorage)
  }

  // ----- settlement and the ledger -----

  /** An unfinished login or registration on a record whose verified login is sealed in its baseline. */
  ghost predicate Stuck(app: App)
  {
    exists id | id in app.records :: UnfinishedOn(app, id) && BaseOf(app.baselines, id).verifiedLogin
  }

  lemma SettledRecordsOk(app: App, restore: bool)
    requires RecordsOk(app.tasks, app.records)
    ensures RecordsOk(app.tasks, Settled(app, restore).records)
  {}

  lemma SettledGrantsOk(app: App, restore: bool)
    requires GrantsOk(app.tasks, app.records, app.grants)
    ensures var b := Settled(app, restore); GrantsOk(b.tasks, b.records, b.grants)
  {}

  lemma SettledLimits(app: App, restore: bool)
    requires LimitsOk(app) && app.revokedTasks <= app.tasks.Keys
    ensures LimitsOk(Settled(app, restore))
  {
    var b := Settled(app, restore);
    assert b.revokedTasks == app.tasks.Keys;
    assert b.grants.Keys == app.grants.Keys;
    assert b.deliveries.Keys == app.deliveries.Keys;
    assert b.records.Keys == app.records.Keys;
  }

  lemma SettledStructure(app: App, restore: bool)
    requires StructureOk(app)
    ensures StructureOk(Settled(app, restore))
  {
    SettledRecordsOk(app, restore);
    SettledGrantsOk(app, restore);
    SettledLimits(app, restore);
  }

  lemma SettledRequests(app: App, restore: bool)
    requires RequestsOk(app)
    ensures RequestsOk(Settled(app, restore))
  {
    var b := Settled(app, restore);
    forall k | k in b.requests
      ensures RequestOk(b.tasks[k.task], b.records[b.requests[k].result.record], Through(b.baselines, b.requests[k].result.record), b.grants, k, b.requests[k])
    {
      assert RequestOk(app.tasks[k.task], app.records[app.requests[k].result.record], Through(app.baselines, app.requests[k].result.record), app.grants, k, app.requests[k]);
    }
  }

  lemma SettledAccounts(app: App, restore: bool)
    requires AccountsOk(app) && GrantsAccounted(app)
    ensures AccountsOk(Settled(app, restore)) && GrantsAccounted(Settled(app, restore))
  {
    var b := Settled(app, restore);
    forall i | i in b.records ensures AccountOk(b.requests, BaseOf(b.baselines, i), i, b.records[i]) {
      assert AccountOk(app.requests, BaseOf(app.baselines, i), i, app.records[i]);
    }
  }

  lemma SettledBaselines(app: App, restore: bool)
    requires BaselinesOk(app)
    ensures BaselinesOk(Settled(app, restore)) <==> !Stuck(app)
  {}

  lemma SettledReceipts(app: App, restore: bool)
    requires ReceiptsOk(app)
    ensures ReceiptsOk(Settled(app, restore)) <==> !Stuck(app)
  {
    SettledRequests(app, restore);
    SettledAccounts(app, restore);
    SettledBaselines(app, restore);
  }

  lemma SettledDistinct(deliveries: map<Uuid, Delivery>)
    requires DeliveriesDistinct(deliveries)
    ensures DeliveriesDistinct(SettledDeliveries(deliveries))
  {}

  lemma SettledDeliveryOk(t: Task, r: Record, r1: Record, id: Uuid, d: Delivery, d1: Delivery)
    requires DeliveryOk(t, r, id, d) && r1 == r.(signup := r1.signup, restored := r1.restored)
    requires d1 == d || (d.status.None? && d1 == d.(status := Some(StUnknown)))
    ensures DeliveryOk(t, r1, id, d1)
  {}

  lemma SettledDeliveriesOk(app: App, restore: bool)
    requires DeliveriesOk(app)
    ensures DeliveriesOk(Settled(app, restore))
  {
    var b := Settled(app, restore);
    forall d | d in b.deliveries
      ensures b.deliveries[d].task in b.tasks && b.deliveries[d].record in b.records && b.deliveries[d].key !in b.requests
      ensures DeliveryOk(b.tasks[b.deliveries[d].task], b.records[b.deliveries[d].record], d, b.deliveries[d])
    {
      var was := app.deliveries[d];
      assert was.task in app.tasks && was.record in app.records;
      SettledDeliveryOk(app.tasks[was.task], app.records[was.record], b.records[was.record], d, was, b.deliveries[d]);
    }
  }

  lemma SettledVerified(app: App, restore: bool)
    requires VerifiedOk(app)
    ensures VerifiedOk(Settled(app, restore))
  {
    var b := Settled(app, restore);
    forall id | id in b.records && b.records[id].signup == VerifiedLogin ensures HasEvidence(b, id) {
      if d :| d in app.deliveries && Verifies(app.deliveries[d], id, app.records[id].secretVersion) {
        assert Verifies(b.deliveries[d], id, b.records[id].secretVersion);
      }
    }
  }

  lemma SettledAudit(app: App, restore: bool)
    requires AuditOk(app)
    ensures AuditOk(Settled(app, restore))
  {}

  /** Settling a sound application is valid exactly when no sealed record has an unfinished login or registration. */
  lemma SettledSoundExactly(app: App, restore: bool)
    requires Sound(app)
    ensures Sound(Settled(app, restore)) <==> !Stuck(app)
    ensures StructureOk(Settled(app, restore)) && ActivityOk(Settled(app, restore))
    ensures Stuck(app) ==> !BaselinesOk(Settled(app, restore))
  {
    ValidIs(app);
    ValidIs(Settled(app, restore));
    SettledStructure(app, restore);
    SettledReceipts(app, restore);
    SettledBaselines(app, restore);
    SettledDeliveriesOk(app, restore);
    SettledDistinct(app.deliveries);
    SettledVerified(app, restore);
    SettledAudit(app, restore);
  }

  // ----- recovery and restore succeed exactly when -----

  /** No recorded event is later than `now`. */
  ghost predicate AuditedBy(app: App, now: Time)
  {
    forall i | 0 <= i < |app.audit| && !Legacy(app.audit[i]) :: app.audit[i].at <= now
  }

  lemma RedatedSound(b: App, c: App)
    requires SameBooks(b, c) && HeaderOk(c) && Sound(b) && c.lastTime.Some?
    ensures Sound(c) <==> AuditedBy(b, c.lastTime.value)
  {
    ValidIs(b);
    ValidIs(c);
    SameBooksReceipts(b, c);
    if AuditedBy(b, c.lastTime.value) {
      SameBooksActivity(b, c);
    } else {
      var i :| 0 <= i < |b.audit| && !Legacy(b.audit[i]) && !(b.audit[i].at <= c.lastTime.value);
      assert !EventOk(c, c.audit[i]);
    }
  }

  lemma RedatedBaselines(b: App, c: App)
    requires SameBooks(b, c) && !BaselinesOk(b)
    ensures !Valid(c)
  {
    ValidIs(c);
    assert BaselinesOk(c) ==> BaselinesOk(b);
  }

  /** A settled application under another header: valid exactly when nothing is stuck and no event is later. */
  lemma SettledRedated(app: App, b: App, c: App)
    requires SameBooks(b, c) && HeaderOk(c) && c.lastTime.Some?
    requires if Stuck(app) then !BaselinesOk(b) else Sound(b)
    ensures Valid(c) <==> AuditedBy(b, c.lastTime.value) && !Stuck(app)
    ensures Valid(c) ==> Sound(c)
  {
    if Stuck(app) { RedatedBaselines(b, c); } else { RedatedSound(b, c); SameDeletes(b, c); }
  }

  lemma SameDeletes(b: App, c: App)
    requires SameBooks(b, c) && Sound(b)
    ensures SingleDelete(c.requests)
  {}

  lemma SanitizedBooks(app: App, now: Time)
    requires app.generation < U64_MAX
    ensures var c := Sanitized(app, now);
      SameBooks(Settled(app, false), c) && HeaderOk(c) && c.lastTime == Some(now) && Settled(app, false).audit == app.audit
  {}

  lemma SanitizedSoundExactly(app: App, now: Time)
    requires Sound(app) && app.generation < U64_MAX
    ensures Valid(Sanitized(app, now)) <==> AuditedBy(app, now) && !Stuck(app)
    ensures Valid(Sanitized(app, now)) ==> Sound(Sanitized(app, now))
  {
    SettledSoundExactly(app, false);
    SanitizedBooks(app, now);
    SettledRedated(app, Settled(app, false), Sanitized(app, now));
  }

  /** Recovery of a sound image succeeds exactly when its generation can advance, its clock sample is not
      before a recorded event, and no sealed verified login has an unfinished login or registration. */
  lemma SanitizeSucceedsExactly(app: App, now: Time)
    requires Sound(app)
    ensures Sanitize(app, now).Ok? <==> app.generation < U64_MAX && AuditedBy(app, now) && !Stuck(app)
    ensures Sanitize(app, now).Ok? ==> Sound(Sanitize(app, now).value)
  {
    if app.generation < U64_MAX { SanitizedSoundExactly(app, now); }
  }

  lemma RestoredAudit(app: App, b: App, last: Time)
    requires Sound(app) && b.audit == app.audit && (app.lastTime.Some? ==> app.lastTime.value <= last)
    ensures AuditedBy(b, last)
  {
    ValidIs(app);
    forall i | 0 <= i < |b.audit| && !Legacy(b.audit[i]) ensures b.audit[i].at <= last {
      assert EventOk(app, app.audit[i]);
    }
  }

  lemma RestoredBooks(app: App, now: Time)
    requires HeaderOk(app) && app.generation < U64_MAX
    ensures SameBooks(Settled(app, true), RestoredCopy(app, now)) && HeaderOk(RestoredCopy(app, now))
    ensures RestoredCopy(app, now).lastTime.Some?
    ensures app.lastTime.Some? ==> app.lastTime.value <= RestoredCopy(app, now).lastTime.value
  {}

  lemma RestoredCopySound(app: App, now: Time)
    requires Sound(app) && app.generation < U64_MAX
    ensures Valid(RestoredCopy(app, now)) <==> !Stuck(app)
    ensures Valid(RestoredCopy(app, now)) ==> Sound(RestoredCopy(app, now))
  {
    ValidIs(app);
    var b, c := Settled(app, true), RestoredCopy(app, now);
    RestoredBooks(app, now);
    SettledSoundExactly(app, true);
    RestoredAudit(app, b, c.lastTime.value);
    SettledRedated(app, b, c);
  }

  /** Restoring a copy of a sound application succeeds exactly when it belongs to the administrator, its
      generation can advance and no sealed verified login has an unfinished login or registration. */
  lemma RestoreSucceedsExactly(app: App, admin: Context, now: Time)
    requires Sound(app)
    ensures PrepareRestored(app, admin, now).Ok? <==> admin.admin && !Foreign(app, admin) && app.generation < U64_MAX && !Stuck(app)
    ensures PrepareRestored(app, admin, now).Ok? ==> Sound(PrepareRestored(app, admin, now).value)
  {
    ScopeExactly(app, admin);
    if app.generation < U64_MAX { RestoredCopySound(app, now); }
  }

  // ----- what they leave -----

  /** All authority is gone, and what was unfinished is settled as unknown together with the signup of its record. */
  ghost predicate Disarmed(a: App, b: App)
  {
    && b.tasks == a.tasks && b.requests == a.requests && b.audit == a.audit && b.baselines == a.baselines
    && (forall id | id in a.tasks :: id in b.revokedTasks) && b.revokedTasks - a.tasks.Keys == a.revokedTasks - a.tasks.Keys
    && b.grants.Keys == a.grants.Keys && (forall g | g in a.grants :: b.grants[g] == a.grants[g].(revoked := true))
    && b.deliveries.Keys == a.deliveries.Keys
    && (forall d | d in a.deliveries ::
          b.deliveries[d] == if a.deliveries[d].status.Some? then a.deliveries[d] else a.deliveries[d].(status := Some(StUnknown)))
    && b.records.Keys == a.records.Keys
    && (forall id | id in a.records ::
          && b.records[id] == a.records[id].(signup := b.records[id].signup, restored := b.records[id].restored)
          && b.records[id].signup == if exists d | d in a.deliveries :: CutShort(a.deliveries[d], id) then Unknown else a.records[id].signup)
  }

  /** A login or a registration of the record, without an outcome. */
  predicate CutShort(d: Delivery, id: Uuid) { d.record == id && d.status.None? && (d.action == Login || d.action == Register) }

  lemma SettledDisarms(app: App, restore: bool)
    ensures Disarmed(app, Settled(app, restore)) && Settled(app, restore).clockFrozen == app.clockFrozen
    ensures forall id | id in app.records :: Settled(app, restore).records[id].restored == (app.records[id].restored || restore)
  {
    forall id ensures UnfinishedOn(app, id) <==> exists d | d in app.deliveries :: CutShort(app.deliveries[d], id) {}
  }

  /** A recovered application: disarmed, one generation on, at the sampled time, its clock running. */
  lemma SanitizedIsDisarmed(app: App, now: Time)
    requires Sanitize(app, now).Ok?
    ensures var b := Sanitize(app, now).value;
      && Disarmed(app, b) && b.generation == app.generation + 1 && b.lastTime == Some(now) && !b.clockFrozen && b.predecessor.None?
      && forall id | id in app.records :: b.records[id].restored == app.records[id].restored
  {
    SettledDisarms(app, false);
    hide Settled;
  }

  /** A restored copy: disarmed, every record marked as a copy, its clock not set back. Anybody but an administrator of all of
      it is refused. */
  lemma RestoredIsDisarmed(app: App, admin: Context, now: Time)
    ensures var r := PrepareRestored(app, admin, now);
      && (r == Err(Denied) <==> !admin.admin || Foreign(app, admin))
      && (r.Ok? ==>
            && Disarmed(app, r.value) && (forall id | id in app.records :: r.value.records[id].restored)
            && r.value.generation == app.generation + 1 && r.value.predecessor.None? && r.value.clockFrozen == app.clockFrozen
            && r.value.lastTime.Some? && now <= r.value.lastTime.value
            && (app.lastTime.Some? ==> app.lastTime.value <= r.value.lastTime.value)
            && (r.value.lastTime == Some(now) || r.value.lastTime == app.lastTime))
  {
    ScopeExactly(app, admin);
    SettledDisarms(app, true);
    hide Settled, AdminScope, Foreign;
  }
}
