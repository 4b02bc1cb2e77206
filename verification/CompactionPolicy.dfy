/** Compaction is invisible to authorization: at every effective time from the high-water mark on, task,
    record and grant checks, and what a selection returns, are the same before and after. */
module CompactionPolicy {
  import opened Types
  import opened Policy
  import opened Ledger
  import opened Compaction
  import opened CompactionLedger

  /** `now` is at or after the clock high-water mark. */
  predicate Current(app: App, now: Time) { app.lastTime.Some? ==> app.lastTime.value <= now }

  lemma TaskUnchanged(app: App, ctx: Context, id: Uuid, now: Time)
    requires Current(app, now)
    ensures TaskFor(Compact(app), ctx, id, now) == TaskFor(app, ctx, id, now)
  {}

  lemma RecordUnchanged(app: App, ctx: Context, id: Uuid)
    ensures RecordFor(Compact(app), ctx, id) == RecordFor(app, ctx, id)
  {}

  lemma CanUnchanged(app: App, ctx: Context, t: Task, r: Record, permission: Permission, fields: set<Field>,
                     destination: Option<string>, now: Time)
    requires Current(app, now)
    ensures Can(Compact(app), ctx, t, r, permission, fields, destination, now)
            == Can(app, ctx, t, r, permission, fields, destination, now)
  {}

  /** Authorization transparency of compaction. */
  lemma CompactionIsTransparent(app: App, ctx: Context, task: Uuid, record: Uuid, fields: set<Field>,
                                permission: Permission, destination: Option<string>, now: Time)
    requires Current(app, now)
    ensures TaskFor(Compact(app), ctx, task, now) == TaskFor(app, ctx, task, now)
    ensures RecordFor(Compact(app), ctx, record) == RecordFor(app, ctx, record)
    ensures forall t: Task, r: Record ::
      Can(Compact(app), ctx, t, r, permission, fields, destination, now) == Can(app, ctx, t, r, permission, fields, destination, now)
    ensures Select(Compact(app), ctx, task, record, fields, permission, destination, now)
            == Select(app, ctx, task, record, fields, permission, destination, now)
  {
    TaskUnchanged(app, ctx, task, now);
    RecordUnchanged(app, ctx, record);
    forall t: Task, r: Record
      ensures Can(Compact(app), ctx, t, r, permission, fields, destination, now)
              == Can(app, ctx, t, r, permission, fields, destination, now)
    {
      CanUnchanged(app, ctx, t, r, permission, fields, destination, now);
    }
  }

  /** The registration guard of a surviving record is neither lost nor invented by compaction. */
  lemma RegistrationGuardUnchanged(app: App, id: Uuid)
    requires BaselinesOk(app) && id in KeptRecords(app)
    ensures RegistrationSealed(Compact(app), id) <==> RegistrationSealed(app, id)
  {
    BaseAfter(app, id);
    var c := Compact(app);
    forall d | d in app.deliveries
      ensures d in c.deliveries <==> !IsDropped(app, d)
    {}
    if RegistrationSealed(app, id) && !BaseOf(app.baselines, id).registrationDispatched {
      var d :| d in app.deliveries && app.deliveries[d].record == id && Registers(app.deliveries[d]);
      assert IsDropped(app, d) || d in c.deliveries;
    }
  }
}
