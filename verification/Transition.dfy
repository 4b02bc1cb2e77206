/** The evidence check of recovery: could two retained images be consecutive publications of one vault?
    Every genuine successor is accepted, except where an identifier that compaction has just pruned is reused. */
module Transition {
  import opened Types
  import opened Policy
  import opened Ledger
  import opened Compaction
  import opened CompactionLedger
  import opened Preservation
  import opened Operations
  import opened Mutations
  import opened Workflow
  import opened Commands

  // ----- the relation -----

  function LatestTime(published: App, next: App): Option<Time> { if next.lastTime.Some? then next.lastTime else published.lastTime }

  predicate TasksEvidence(o: App, n: App)
  {
    && !(o.tasks != map[] && n.tasks == map[])
    && (forall id | id in o.revokedTasks && id in n.tasks :: id in n.revokedTasks)
    && (forall id | id in o.tasks ::
          if id in n.tasks then n.tasks[id] == o.tasks[id]
          else (Expired(LatestTime(o, n), o.tasks[id].expiresAt) || id in o.revokedTasks)
               && !Referenced(n.records, n.grants, n.deliveries, n.requests, id))
  }

  predicate NamesRecord(n: App, id: Uuid)
  {
    || (exists g :: g in n.grants && n.grants[g].record == id)
    || (exists d :: d in n.deliveries && n.deliveries[d].record == id)
    || (exists k :: k in n.requests && n.requests[k].result.record == id)
  }

  predicate RecordEvidence(r: Record, n: Record)
  {
    && r.owner == n.owner && r.workspace == n.workspace && r.createdBy == n.createdBy && r.task == n.task
    && r.service == n.service && r.origin == n.origin && r.kind == n.kind && r.revision <= n.revision
    && r.secretVersion <= n.secretVersion && (r.deleted ==> n.deleted) && r.restored == n.restored
    && (r.revision == n.revision ==> r.secretVersion == n.secretVersion && r.deleted == n.deleted && r.values == n.values)
  }

  predicate RecordsEvidence(o: App, n: App)
  {
    forall id | id in o.records ::
      if id in n.records then RecordEvidence(o.records[id], n.records[id]) else o.records[id].deleted && !NamesRecord(n, id)
  }

  predicate GrantEvidence(g: Grant, n: Grant)
  {
    && g.record == n.record && g.version == n.version && g.issuerTask == n.issuerTask && g.adminIssued == n.adminIssued
    && (g.revoked ==> n.revoked) && g.spec == n.spec
  }

  predicate GrantsEvidence(o: App, n: App)
  {
    forall g | g in o.grants ::
      if g in n.grants then GrantEvidence(o.grants[g], n.grants[g])
      else (o.grants[g].revoked || Expired(LatestTime(o, n), o.grants[g].spec.expiresAt))
           && !exists k | k in n.requests :: Mentions(n.requests, k, g)
  }

  predicate RequestsEvidence(o: App, n: App)
  {
    forall k | k in o.requests ::
      if k in n.requests then n.requests[k] == o.requests[k]
      else
        var c := o.requests[k];
        || (c.result.revision <= Through(n.baselines, c.result.record)
            <= (if c.result.record in o.records then o.records[c.result.record].revision else 0))
        || (c.result.record !in n.records && c.result.record in o.records && o.records[c.result.record].deleted)
  }

  predicate DroppedEvidence(n: App, d: Delivery)
  {
    && d.status.Some?
    && (Registers(d) && d.record in n.records ==> BaseOf(n.baselines, d.record).registrationDispatched)
    && (!Registers(d) && d.action == Login && d.dispatched && d.status == Some(StAccepted) && d.record in n.records
        && n.records[d.record].signup == VerifiedLogin && n.records[d.record].secretVersion == d.version
        ==> HasEvidence(n, d.record))
  }

  predicate DeliveriesEvidence(o: App, n: App)
  {
    forall i | i in o.deliveries ::
      if i in n.deliveries then
        var d, m := o.deliveries[i], n.deliveries[i];
        m == (if d.status.None? then d.(status := m.status, dispatched := m.dispatched) else d)
      else DroppedEvidence(n, o.deliveries[i])
  }

  /** What `transition` accepts. */
  predicate Transition(o: App, n: App)
  {
    && o.generation + 1 == n.generation && TasksEvidence(o, n) && RecordsEvidence(o, n) && GrantsEvidence(o, n)
    && RequestsEvidence(o, n) && DeliveriesEvidence(o, n)
  }

  /** Whatever recovery accepts as a successor never brings back what was denied for good: a revoked approval, a deleted
      record, a revoked grant, or the registration of a record that was already dispatched and settled. */
  lemma AcceptedNeverRevives(o: App, n: App, ctx: Context, id: Uuid, r: Record, permission: Permission, fields: set<Field>,
                             destination: Option<string>, now: Time)
    requires Transition(o, n)
    ensures id in o.revokedTasks ==> TaskFor(n, ctx, id, now).Err?
    ensures id in o.records && o.records[id].deleted ==> RecordFor(n, ctx, id).Err?
    ensures id in o.grants && o.grants[id].revoked && id in n.grants ==>
      !GrantPermits(n, n.grants[id], ctx, r, permission, fields, destination, now)
    ensures id in o.deliveries && Registers(o.deliveries[id]) && o.deliveries[id].status.Some? && o.deliveries[id].record in n.records ==>
      RegistrationSealed(n, o.deliveries[id].record)
  {
    if id in o.deliveries && Registers(o.deliveries[id]) && o.deliveries[id].status.Some? && id in n.deliveries {
      assert n.deliveries[id] == o.deliveries[id];
    }
  }

  // ----- what pruning removes -----

  lemma {:induction false} LatestExists(tasks: map<Uuid, Task>, some: set<Uuid>) returns (id: Uuid)
    requires some != {} && some <= tasks.Keys
    ensures id in some && forall j | j in some :: AtMost(tasks, j, id)
    decreases some
  {
    var x :| x in some;
    if some == {x} {
      id := x;
    } else {
      var y := LatestExists(tasks, some - {x});
      id := if AtMost(tasks, x, y) then y else x;
      forall j | j in some ensures AtMost(tasks, j, id) {
        assert j == x || j in some - {x};
      }
    }
  }

  lemma CompactKeepsATask(app: App)
    requires app.tasks != map[]
    ensures KeptTasks(app) != map[]
  {
    var some :| some in app.tasks;
    if forall j | j in app.tasks :: Removable(app, j) {
      var latest := LatestExists(app.tasks, app.tasks.Keys);
      assert IsLatest(app.tasks, latest);
      assert latest in KeptTasks(app);
    } else {
      var j :| j in app.tasks && !Removable(app, j);
      assert j in KeptTasks(app);
    }
  }

  ghost predicate PrunedTasks(cur: App, mid: App)
  {
    && (cur.tasks != map[] ==> mid.tasks != map[])
    && (forall id | id in cur.tasks ::
          if id in mid.tasks then mid.tasks[id] == cur.tasks[id]
          else id in cur.revokedTasks || Expired(cur.lastTime, cur.tasks[id].expiresAt))
    && (forall id | id in cur.revokedTasks && id in mid.tasks :: id in mid.revokedTasks)
  }

  ghost predicate PrunedRecords(cur: App, mid: App)
  {
    forall id | id in cur.records :: if id in mid.records then mid.records[id] == cur.records[id] else cur.records[id].deleted
  }

  ghost predicate PrunedGrants(cur: App, mid: App)
  {
    forall g | g in cur.grants ::
      if g in mid.grants then mid.grants[g] == cur.grants[g]
      else cur.grants[g].revoked || Expired(cur.lastTime, cur.grants[g].spec.expiresAt)
  }

  ghost predicate PrunedRequests(cur: App, mid: App)
  {
    forall k | k in cur.requests ::
      if k in mid.requests then mid.requests[k] == cur.requests[k]
      else cur.requests[k].result.record in mid.records ==>
             cur.requests[k].result.revision <= Through(mid.baselines, cur.requests[k].result.record)
             <= mid.records[cur.requests[k].result.record].revision
  }

  ghost predicate PrunedDeliveries(cur: App, mid: App)
  {
    forall d | d in cur.deliveries ::
      if d in mid.deliveries then mid.deliveries[d] == cur.deliveries[d]
      else cur.deliveries[d].status.Some?
           && (Registers(cur.deliveries[d]) && cur.deliveries[d].record in mid.records ==>
                 BaseOf(mid.baselines, cur.deliveries[d].record).registrationDispatched)
  }

  lemma CompactPrunesTasks(cur: App)
    ensures PrunedTasks(cur, Compact(cur))
  {
    if cur.tasks != map[] { CompactKeepsATask(cur); }
  }

  lemma CompactPrunesRecords(cur: App)
    ensures PrunedRecords(cur, Compact(cur)) && PrunedGrants(cur, Compact(cur))
  {}

  lemma CompactPrunesRequests(cur: App)
    requires BaselinesOk(cur)
    ensures PrunedRequests(cur, Compact(cur))
  {
    var mid := Compact(cur);
    forall k | k in cur.requests && k !in mid.requests && cur.requests[k].result.record in mid.records
      ensures cur.requests[k].result.revision <= Through(mid.baselines, cur.requests[k].result.record)
              <= mid.records[cur.requests[k].result.record].revision
    {
      ThroughAfter(cur, cur.requests[k].result.record);
      NewThroughBound(cur, cur.requests[k].result.record);
    }
  }

  lemma CompactPrunesDeliveries(cur: App)
    requires BaselinesOk(cur)
    ensures PrunedDeliveries(cur, Compact(cur))
  {
    var mid := Compact(cur);
    forall i | i in cur.deliveries && i !in mid.deliveries
      ensures cur.deliveries[i].status.Some?
      ensures Registers(cur.deliveries[i]) && cur.deliveries[i].record in mid.records ==>
        BaseOf(mid.baselines, cur.deliveries[i].record).registrationDispatched
    {
      assert IsDropped(cur, i);
      if cur.deliveries[i].record in mid.records { BaseAfter(cur, cur.deliveries[i].record); }
    }
  }

  ghost predicate Pruned(cur: App, mid: App)
  {
    && PrunedTasks(cur, mid) && PrunedRecords(cur, mid) && PrunedGrants(cur, mid) && PrunedRequests(cur, mid)
    && PrunedDeliveries(cur, mid) && mid.lastTime == cur.lastTime && mid.generation == cur.generation
  }

  lemma CompactPrunes(cur: App)
    requires BaselinesOk(cur)
    ensures Pruned(cur, MaybeCompact(cur))
  {
    CompactPrunesTasks(cur);
    CompactPrunesRecords(cur);
    CompactPrunesRequests(cur);
    CompactPrunesDeliveries(cur);
  }

  // ----- a valid successor names nothing that is gone -----

  ghost predicate Closed(n: App)
  {
    && (forall id | id !in n.tasks :: !Referenced(n.records, n.grants, n.deliveries, n.requests, id))
    && (forall id | id !in n.records :: !NamesRecord(n, id))
    && (forall g, k | Mentions(n.requests, k, g) :: g in n.grants)
    && VerifiedOk(n)
  }

  lemma NoDanglingTask(n: App, id: Uuid)
    requires RecordsOk(n.tasks, n.records) && GrantsOk(n.tasks, n.records, n.grants) && RequestsOk(n) && DeliveriesOk(n)
    requires id !in n.tasks
    ensures !Referenced(n.records, n.grants, n.deliveries, n.requests, id)
  {}

  lemma NoDanglingGrant(n: App, k: RequestKey, g: Uuid)
    requires RequestsOk(n) && Mentions(n.requests, k, g)
    ensures g in n.grants
  {}

  lemma NoDangling(n: App)
    requires RecordsOk(n.tasks, n.records) && GrantsOk(n.tasks, n.records, n.grants) && RequestsOk(n) && DeliveriesOk(n) && VerifiedOk(n)
    ensures Closed(n)
  {
    forall id | id !in n.tasks ensures !Referenced(n.records, n.grants, n.deliveries, n.requests, id) { NoDanglingTask(n, id); }
    forall g, k | Mentions(n.requests, k, g) ensures g in n.grants { NoDanglingGrant(n, k, g); }
  }

  lemma ValidIsClosed(n: App)
    requires Valid(n)
    ensures Closed(n)
  {
    ValidIs(n);
    NoDangling(n);
  }

  // ----- a successor: prune, then one operation -----

  /** `cur` is the owner's application: the published one, except that its clock may be ahead. */
  ghost predicate OwnerOf(published: App, cur: App)
  {
    SameBooks(published, cur) && cur.generation == published.generation && cur.predecessor == published.predecessor
    && LaterClock(published, cur)
  }

  lemma OwnerReflexive(cur: App)
    ensures OwnerOf(cur, cur)
  {}

  ghost predicate NoTaskReuse(cur: App, mid: App, next: App)
  {
    forall id | id in cur.tasks && id !in mid.tasks :: id !in next.tasks
  }

  /** No identifier of `cur` that pruning removed appears again in `next`. */
  ghost predicate NoReuse(cur: App, mid: App, next: App)
  {
    && NoTaskReuse(cur, mid, next)
    && (forall k | k in cur.requests && k !in mid.requests :: k !in next.requests)
  }

  /** Drawn identifiers are new to `cur`, not only to what pruning left of it. */
  ghost predicate NewDraws(cur: App, mid: App, next: App)
  {
    && (forall id | id in cur.records && id !in mid.records :: id !in next.records)
    && (forall g | g in cur.grants && g !in mid.grants :: g !in next.grants)
    && (forall d | d in cur.deliveries && d !in mid.deliveries :: d !in next.deliveries)
  }

  lemma TasksAccepted(o: App, mid: App, next: App)
    requires PrunedTasks(o, mid) && TasksFollow(mid, next) && Closed(next) && LaterClock(o, next) && o.revokedTasks <= o.tasks.Keys
    requires forall id | id in o.tasks && id !in mid.tasks :: id !in next.tasks
    ensures TasksEvidence(o, next)
  {}

  lemma RecordsAccepted(o: App, mid: App, next: App)
    requires PrunedRecords(o, mid) && RecordsFollow(mid, next) && Closed(next) && NewDraws(o, mid, next)
    ensures RecordsEvidence(o, next)
  {}

  lemma GrantsAccepted(o: App, mid: App, next: App)
    requires PrunedGrants(o, mid) && GrantsFollow(mid, next) && Closed(next) && LaterClock(o, next) && NewDraws(o, mid, next)
    ensures GrantsEvidence(o, next)
  {}

  lemma RequestsAccepted(o: App, mid: App, next: App)
    requires PrunedRequests(o, mid) && PrunedRecords(o, mid) && RequestsFollow(mid, next) && mid.baselines == next.baselines
    requires NewDraws(o, mid, next) && (forall k | k in o.requests :: o.requests[k].result.record in o.records)
    requires forall k | k in o.requests && k !in mid.requests :: k !in next.requests
    ensures RequestsEvidence(o, next)
  {}

  lemma DeliveriesAccepted(o: App, mid: App, next: App)
    requires PrunedDeliveries(o, mid) && DeliveriesFollow(mid, next) && mid.baselines == next.baselines && Closed(next)
    requires NewDraws(o, mid, next) && (forall d | d in o.deliveries :: o.deliveries[d].record in o.records)
    ensures DeliveriesEvidence(o, next)
  {}

  /** A successor of `cur`: what pruning leaves, then growth. */
  ghost predicate Successor(cur: App, mid: App, next: App)
  {
    && Pruned(cur, mid) && Closed(next) && next.generation == cur.generation + 1
    && TasksFollow(mid, next) && RecordsFollow(mid, next) && GrantsFollow(mid, next) && RequestsFollow(mid, next)
    && DeliveriesFollow(mid, next) && mid.baselines == next.baselines && LaterClock(mid, next) && NewDraws(cur, mid, next)
  }

  ghost predicate References(cur: App)
  {
    && cur.revokedTasks <= cur.tasks.Keys && (forall k | k in cur.requests :: cur.requests[k].result.record in cur.records)
    && (forall d | d in cur.deliveries :: cur.deliveries[d].record in cur.records)
  }

  lemma SuccessorAccepted(cur: App, mid: App, next: App)
    requires References(cur) && Successor(cur, mid, next) && NoReuse(cur, mid, next)
    ensures Transition(cur, next)
  {
    TasksAccepted(cur, mid, next);
    RecordsAccepted(cur, mid, next);
    GrantsAccepted(cur, mid, next);
    RequestsAccepted(cur, mid, next);
    DeliveriesAccepted(cur, mid, next);
  }

  /** The published image may lag the owner's clock: acceptance does not depend on it. */
  lemma LagIsHarmless(published: App, cur: App, next: App)
    requires OwnerOf(published, cur) && LaterClock(cur, next)
    ensures Transition(published, next) <==> Transition(cur, next)
  {
    LagTasks(published, cur, next);
    LagRest(published, cur, next);
  }

  lemma LagTasks(published: App, cur: App, next: App)
    requires OwnerOf(published, cur) && LaterClock(cur, next)
    ensures TasksEvidence(published, next) <==> TasksEvidence(cur, next)
    ensures GrantsEvidence(published, next) <==> GrantsEvidence(cur, next)
  {}

  lemma LagRest(published: App, cur: App, next: App)
    requires OwnerOf(published, cur)
    ensures RecordsEvidence(published, next) <==> RecordsEvidence(cur, next)
    ensures RequestsEvidence(published, next) <==> RequestsEvidence(cur, next)
    ensures DeliveriesEvidence(published, next) <==> DeliveriesEvidence(cur, next)
  {}

  // ----- every operation's publication -----

  /** Identifiers the operation draws are new to the owner's application. */
  predicate NewIds(cur: App, c: Command)
  {
    match c
    case CMutate(_, _, _, _, _, draw) => draw.id !in cur.records && draw.id !in cur.grants
    case CIntent(_, _, _, _, attempt) => attempt !in cur.deliveries
    case _ => true
  }

  /** The image published for the operation: prune, stage, advance the generation. */
  ghost function Published(cur: App, c: Command): App
    requires cur.generation < U64_MAX
  {
    Staged(MaybeCompact(cur), c).(generation := cur.generation + 1)
  }

  lemma StagedSuccessor(cur: App, mid: App, staged: App, next: App, c: Command)
    requires Pruned(cur, mid) && Follows(mid, staged) && AddsOnly(mid, staged, c) && NewIds(cur, c) && cur.generation < U64_MAX
    requires next == staged.(generation := cur.generation + 1) && Closed(next)
    ensures Successor(cur, mid, next)
  {
    assert NewDraws(cur, mid, next);
  }

  lemma SoundReferences(cur: App)
    requires Sound(cur)
    ensures References(cur) && BaselinesOk(cur) && RequestsOk(cur) && RevisionsDistinct(cur.requests) && TasksOk(cur.tasks) && HeaderOk(cur)
  {
    ValidIs(cur);
  }

  /** What an operation does to the pruned application, and that it is a successor of the owner's. */
  lemma StagedFacts(cur: App, c: Command)
    requires Sound(cur) && WellDrawn(MaybeCompact(cur), c)
    ensures var mid := MaybeCompact(cur);
      Sound(mid) && Pruned(cur, mid) && Follows(mid, Staged(mid, c)) && AddsOnly(mid, Staged(mid, c), c)
  {
    CompactKeepsSound(cur);
    SoundReferences(cur);
    CompactPrunes(cur);
    EveryCommandFollows(MaybeCompact(cur), c);
    EveryCommandAddsOnly(MaybeCompact(cur), c);
  }

  lemma PublishedIsSuccessor(cur: App, mid: App, staged: App, next: App, c: Command)
    requires Pruned(cur, mid) && Follows(mid, staged) && AddsOnly(mid, staged, c) && NewIds(cur, c) && cur.generation < U64_MAX
    requires next == staged.(generation := cur.generation + 1) && Valid(next)
    ensures Successor(cur, mid, next)
  {
    ValidIsClosed(next);
    StagedSuccessor(cur, mid, staged, next, c);
  }

  lemma ReapprovedDiffers(cur: App, mid: App, admin: Context, approval: Task, now: Time, id: Uuid)
    requires PrunedTasks(cur, mid) && mid.lastTime == cur.lastTime && mid.revokedTasks <= mid.tasks.Keys
    requires id in cur.tasks && id !in mid.tasks
    ensures var n := ApproveTask(mid, admin, approval, now).app;
      id in n.tasks ==> (id in cur.revokedTasks && id !in n.revokedTasks) || n.tasks[id] != cur.tasks[id]
  {
    ApproveShape(mid, admin, approval, now);
  }

  lemma RepeatedDiffers(cur: App, mid: App, o: Outcome<Receipt>, ctx: Context, task: Uuid, request: Uuid, op: Mutation, now: Time, draw: Draw)
    requires HeaderOk(mid) && ShapeOk(mid, o, ctx, task, request, op, now, draw) && mid.lastTime == cur.lastTime
    requires KeyOf(ctx, task, request) in cur.requests && KeyOf(ctx, task, request) !in mid.requests
    requires Stale(cur.requests[KeyOf(ctx, task, request)].at, cur.lastTime) && KeyOf(ctx, task, request) in o.app.requests
    ensures o.app.requests[KeyOf(ctx, task, request)] != cur.requests[KeyOf(ctx, task, request)]
  {
    var c, key := Clock(mid, now), KeyOf(ctx, task, request);
    ClockKeepsBooks(mid, now);
    var t := c.app.tasks[task];
    PerformedRest(c.app, ctx, t, task, op, draw);
    assert o.app.requests[key].at == Some(c.result.value);
  }

  lemma PrunedReceiptIsStale(cur: App, k: RequestKey)
    requires RequestsOk(cur) && RevisionsDistinct(cur.requests) && k in cur.requests && k !in MaybeCompact(cur).requests
    ensures Stale(cur.requests[k].at, cur.lastTime)
  {
    StaleBelowHorizon(cur, k);
  }

  lemma TaskReuseRejected(cur: App, c: Command, id: Uuid)
    requires Sound(cur) && cur.generation < U64_MAX && WellDrawn(MaybeCompact(cur), c)
    requires id in cur.tasks && id !in MaybeCompact(cur).tasks && id in Staged(MaybeCompact(cur), c).tasks
    ensures !TasksEvidence(cur, Published(cur, c))
  {
    var mid := MaybeCompact(cur);
    StagedFacts(cur, c);
    assert c.CApprove?;
    SoundTasks(mid);
    ReapprovedDiffers(cur, mid, c.admin, c.approval, c.now, id);
  }

  lemma RepeatedKey(cur: App, mid: App, ctx: Context, task: Uuid, request: Uuid, op: Mutation, now: Time, draw: Draw)
    requires HeaderOk(mid) && TasksOk(mid.tasks) && mid.lastTime == cur.lastTime
    requires KeyOf(ctx, task, request) in cur.requests && KeyOf(ctx, task, request) !in mid.requests
    requires Stale(cur.requests[KeyOf(ctx, task, request)].at, cur.lastTime)
    ensures var n, key := Mutate(mid, ctx, task, request, op, now, draw).app, KeyOf(ctx, task, request);
      key in n.requests ==> n.requests[key] != cur.requests[key]
  {
    var o, key := Mutate(mid, ctx, task, request, op, now, draw), KeyOf(ctx, task, request);
    MutateShape(mid, ctx, task, request, op, now, draw);
    if key in o.app.requests { RepeatedDiffers(cur, mid, o, ctx, task, request, op, now, draw); }
  }

  lemma KeyReuseDiffers(cur: App, mid: App, c: Command, k: RequestKey)
    requires HeaderOk(mid) && TasksOk(mid.tasks) && mid.lastTime == cur.lastTime && AddsOnly(mid, Staged(mid, c), c)
    requires k in cur.requests && k !in mid.requests && k in Staged(mid, c).requests && Stale(cur.requests[k].at, cur.lastTime)
    ensures Staged(mid, c).requests[k] != cur.requests[k]
  {
    assert c.CMutate? && k == KeyOf(c.ctx, c.task, c.request);
    RepeatedKey(cur, mid, c.ctx, c.task, c.request, c.op, c.now, c.draw);
  }

  lemma KeyReuseRejected(cur: App, c: Command, k: RequestKey)
    requires Sound(cur) && cur.generation < U64_MAX && WellDrawn(MaybeCompact(cur), c)
    requires k in cur.requests && k !in MaybeCompact(cur).requests && k in Staged(MaybeCompact(cur), c).requests
    ensures !RequestsEvidence(cur, Published(cur, c))
  {
    StagedFacts(cur, c);
    SoundReferences(cur);
    SoundReferences(MaybeCompact(cur));
    PrunedReceiptIsStale(cur, k);
    KeyReuseDiffers(cur, MaybeCompact(cur), c, k);
  }

  lemma EvidenceNeeded(o: App, n: App)
    requires !TasksEvidence(o, n) || !RequestsEvidence(o, n)
    ensures !Transition(o, n)
  {}

  lemma ReuseRejected(cur: App, c: Command)
    requires Sound(cur) && cur.generation < U64_MAX && WellDrawn(MaybeCompact(cur), c)
    requires !NoReuse(cur, MaybeCompact(cur), Published(cur, c))
    ensures !Transition(cur, Published(cur, c))
  {
    if !NoTaskReuse(cur, MaybeCompact(cur), Published(cur, c)) {
      var id :| id in cur.tasks && id !in MaybeCompact(cur).tasks && id in Published(cur, c).tasks;
      TaskReuseRejected(cur, c, id);
    } else {
      var k :| k in cur.requests && k !in MaybeCompact(cur).requests && k in Published(cur, c).requests;
      KeyReuseRejected(cur, c, k);
    }
    EvidenceNeeded(cur, Published(cur, c));
  }

  lemma EvidenceAccepted(cur: App, mid: App, staged: App, next: App, c: Command)
    requires References(cur) && Pruned(cur, mid) && Follows(mid, staged) && AddsOnly(mid, staged, c) && NewIds(cur, c) && cur.generation < U64_MAX
    requires next == staged.(generation := cur.generation + 1) && Valid(next) && NoReuse(cur, mid, next)
    ensures Transition(cur, next)
  {
    PublishedIsSuccessor(cur, mid, staged, next, c);
    SuccessorAccepted(cur, mid, next);
  }

  lemma AcceptedUnlessReused(published: App, cur: App, c: Command)
    requires Sound(cur) && OwnerOf(published, cur) && cur.generation < U64_MAX
    requires WellDrawn(MaybeCompact(cur), c) && NewIds(cur, c) && Valid(Published(cur, c))
    ensures Transition(published, Published(cur, c)) <==> NoReuse(cur, MaybeCompact(cur), Published(cur, c))
  {
    StagedFacts(cur, c);
    LagIsHarmless(published, cur, Published(cur, c));
    if NoReuse(cur, MaybeCompact(cur), Published(cur, c)) {
      SoundReferences(cur);
      EvidenceAccepted(cur, MaybeCompact(cur), Staged(MaybeCompact(cur), c), Published(cur, c), c);
    } else {
      ReuseRejected(cur, c);
    }
  }

  /** The operation names an approval or a request key that its own pruning removes, and is accepted with it. */
  ghost predicate Reuses(cur: App, c: Command)
  {
    var mid := MaybeCompact(cur);
    match c
    case CApprove(admin, approval, now) =>
      approval.id in cur.tasks && approval.id !in mid.tasks && ApproveTask(mid, admin, approval, now).result.Ok?
    case CMutate(ctx, task, request, op, now, draw) =>
      KeyOf(ctx, task, request) in cur.requests && KeyOf(ctx, task, request) !in mid.requests
      && Mutate(mid, ctx, task, request, op, now, draw).result.Ok?
    case _ => false
  }

  lemma ApprovedIsAdded(mid: App, admin: Context, approval: Task, now: Time)
    requires approval.id !in mid.tasks
    ensures approval.id in ApproveTask(mid, admin, approval, now).app.tasks <==> ApproveTask(mid, admin, approval, now).result.Ok?
  {}

  lemma AnsweredIsAdded(mid: App, ctx: Context, task: Uuid, request: Uuid, op: Mutation, now: Time, draw: Draw)
    requires TasksOk(mid.tasks) && KeyOf(ctx, task, request) !in mid.requests
    ensures var o := Mutate(mid, ctx, task, request, op, now, draw); KeyOf(ctx, task, request) in o.app.requests <==> o.result.Ok?
  {
    MutateShape(mid, ctx, task, request, op, now, draw);
  }

  /** What the operation adds is what it names: nothing else pruned can come back. */
  lemma AddedIsNamed(cur: App, mid: App, n: App, c: Command)
    requires AddsOnly(mid, n, c)
    ensures NoReuse(cur, mid, n) <==>
            !(c.CApprove? && c.approval.id in cur.tasks && c.approval.id !in mid.tasks && c.approval.id in n.tasks)
            && !(c.CMutate? && var key := KeyOf(c.ctx, c.task, c.request); key in cur.requests && key !in mid.requests && key in n.requests)
  {}

  lemma ReusesExactly(cur: App, c: Command)
    requires Sound(cur) && cur.generation < U64_MAX && WellDrawn(MaybeCompact(cur), c)
    ensures NoReuse(cur, MaybeCompact(cur), Published(cur, c)) <==> !Reuses(cur, c)
  {
    hide Compaction.MaybeCompact, Policy.Mutate, Policy.ApproveTask;
    var mid := MaybeCompact(cur);
    StagedFacts(cur, c);
    SoundTasks(mid);
    AddedIsNamed(cur, mid, Staged(mid, c), c);
    if c.CApprove? && c.approval.id !in mid.tasks {
      ApprovedIsAdded(mid, c.admin, c.approval, c.now);
    } else if c.CMutate? && KeyOf(c.ctx, c.task, c.request) !in mid.requests {
      AnsweredIsAdded(mid, c.ctx, c.task, c.request, c.op, c.now, c.draw);
    }
  }

  /** Recovery accepts the publication of every operation as the successor of the published image, exactly when the
      operation does not bring back an approval or a request key that the same publication prunes. */
  lemma EvidenceAcceptedExactly(published: App, cur: App, c: Command)
    requires Sound(cur) && OwnerOf(published, cur) && cur.generation < U64_MAX
    requires WellDrawn(MaybeCompact(cur), c) && NewIds(cur, c) && Valid(Published(cur, c))
    ensures Transition(published, Published(cur, c)) <==> !Reuses(cur, c)
  {
    hide Reuses, NoReuse;
    AcceptedUnlessReused(published, cur, c);
    ReusesExactly(cur, c);
  }

  function Rekeyed(cur: App, hash: Digest): App
    requires cur.generation < U64_MAX
  {
    cur.(generation := cur.generation + 1, predecessor := Some(hash))
  }

  lemma RekeyedSound(cur: App, hash: Digest)
    requires Sound(cur) && cur.generation < U64_MAX
    ensures Sound(Rekeyed(cur, hash))
  {
    ValidIs(cur);
    SameBooksValid(cur, Rekeyed(cur, hash));
  }

  lemma PrunedReflexive(cur: App)
    ensures Pruned(cur, cur)
  {}

  /** A re-keyed image is accepted as the successor of the published one. */
  lemma RekeyAccepted(published: App, cur: App, hash: Digest)
    requires Sound(cur) && OwnerOf(published, cur) && cur.generation < U64_MAX
    ensures Transition(published, Rekeyed(cur, hash))
  {
    var next := Rekeyed(cur, hash);
    RekeyedSound(cur, hash);
    ValidIsClosed(next);
    SoundReferences(cur);
    PrunedReflexive(cur);
    SuccessorAccepted(cur, cur, next);
    LagIsHarmless(published, cur, next);
  }
}
