/** History compaction, stated declaratively: which receipts, grants, deliveries, records, tasks and audit
    events survive, and what each record's baseline then says. */
module Compaction {
  import opened Types
  import opened Policy
  import opened Ledger

  predicate Stale(at: Option<Time>, now: Option<Time>)
  {
    at.Some? && now.Some? && SaturatingSub(now.value, at.value) >= RETRY_WINDOW
  }

  predicate IsStaleReceipt(requests: map<RequestKey, Remembered>, last: Option<Time>, k: RequestKey, id: Uuid, revision: int)
  {
    IsReceipt(requests, k, id, revision) && Stale(requests[k].at, last)
  }

  ghost predicate HasStale(requests: map<RequestKey, Remembered>, last: Option<Time>, id: Uuid, revision: int)
  {
    exists k :: IsStaleReceipt(requests, last, k, id, revision)
  }

  /** The end of the unbroken run of stale receipts that starts just above `from`. */
  ghost function Horizon(requests: map<RequestKey, Remembered>, last: Option<Time>, id: Uuid, from: U64, top: U64): (h: U64)
    ensures from <= h
    ensures from <= top ==> h <= top
    decreases top - from
  {
    if from < top && HasStale(requests, last, id, from + 1) then Horizon(requests, last, id, from + 1, top) else from
  }

  // ----- receipts -----

  ghost function NewThrough(app: App, id: Uuid): (h: U64)
    ensures Through(app.baselines, id) <= h
  {
    var through := Through(app.baselines, id);
    if id in app.records then Horizon(app.requests, app.lastTime, id, through, app.records[id].revision) else through
  }

  ghost function KeptRequests(app: App): (m: map<RequestKey, Remembered>)
    ensures forall k :: k in m <==>
      k in app.requests && app.requests[k].result.revision > NewThrough(app, app.requests[k].result.record)
    ensures forall k | k in m :: m[k] == app.requests[k]
  {
    map k | k in app.requests && app.requests[k].result.revision > NewThrough(app, app.requests[k].result.record)
      :: app.requests[k]
  }

  ghost function FoldedOfKind(app: App, id: Uuid, kind: Kind): set<RequestKey>
  {
    set k | k in app.requests && IsOfKind(app.requests, k, id, kind)
            && app.requests[k].result.revision <= NewThrough(app, id)
  }

  ghost function FoldedShares(app: App, id: Uuid): set<Uuid>
  {
    set k | k in FoldedOfKind(app, id, KShare) && app.requests[k].result.grant.Some? :: app.requests[k].result.grant.value
  }

  // ----- grants and deliveries -----

  predicate Expired(last: Option<Time>, deadline: Time) { last.Some? && deadline <= last.value }

  predicate Mentions(requests: map<RequestKey, Remembered>, k: RequestKey, g: Uuid)
  {
    k in requests && requests[k].result.grant == Some(g)
  }

  ghost predicate KeepsGrant(app: App, g: Uuid)
    requires g in app.grants
  {
    || !(app.grants[g].revoked || Expired(app.lastTime, app.grants[g].spec.expiresAt))
    || exists k :: Mentions(KeptRequests(app), k, g)
  }

  ghost function KeptGrants(app: App): (m: map<Uuid, Grant>)
    ensures forall g :: g in m <==> g in app.grants && KeepsGrant(app, g)
    ensures forall g | g in m :: m[g] == app.grants[g]
  {
    map g | g in app.grants && KeepsGrant(app, g) :: app.grants[g]
  }

  predicate KeepsDelivery(d: Delivery, last: Option<Time>) { d.status.None? || !Stale(d.at, last) }

  function KeptDeliveries(app: App): (m: map<Uuid, Delivery>)
    ensures forall d :: d in m <==> d in app.deliveries && KeepsDelivery(app.deliveries[d], app.lastTime)
    ensures forall d | d in m :: m[d] == app.deliveries[d]
  {
    map d | d in app.deliveries && KeepsDelivery(app.deliveries[d], app.lastTime) :: app.deliveries[d]
  }

  predicate IsDropped(app: App, d: Uuid)
  {
    d in app.deliveries && !KeepsDelivery(app.deliveries[d], app.lastTime)
  }

  predicate DropsRegistration(app: App, id: Uuid)
  {
    exists d | d in app.deliveries :: IsDropped(app, d) && app.deliveries[d].record == id && Registers(app.deliveries[d])
  }

  predicate DropsVerification(app: App, id: Uuid, version: U64)
  {
    exists d | d in app.deliveries :: IsDropped(app, d) && Verifies(app.deliveries[d], id, version)
  }

  // ----- baselines and records -----

  /** The baseline after the receipts up to the new horizon are folded into it. */
  ghost function FoldedBase(app: App, id: Uuid): Baseline
  {
    var b := BaseOf(app.baselines, id);
    if NewThrough(app, id) == b.through then b
    else
      var version := (if b.through == 0 then 1 else b.secretVersion) + |FoldedOfKind(app, id, KPatch)|;
      b.(through := NewThrough(app, id),
         secretVersion := if version <= U64_MAX then version else U64_MAX,
         deletePruned := b.deletePruned || FoldedOfKind(app, id, KDelete) != {},
         prunedGrants := b.prunedGrants + FoldedShares(app, id))
  }

  ghost function NewBase(app: App, id: Uuid, r: Record): Baseline
  {
    var b := FoldedBase(app, id);
    b.(prunedGrants := b.prunedGrants * KeptGrants(app).Keys,
       registrationDispatched := b.registrationDispatched || DropsRegistration(app, id),
       verifiedLogin := r.signup == VerifiedLogin && (b.verifiedLogin || DropsVerification(app, id, r.secretVersion)))
  }

  predicate Worth(b: Baseline)
  {
    b.through > 0 || b.deletePruned || b.registrationDispatched || b.verifiedLogin || b.prunedGrants != {}
  }

  ghost predicate MentionsRecord(app: App, id: Uuid)
  {
    || (exists g :: g in KeptGrants(app) && KeptGrants(app)[g].record == id)
    || (exists d :: d in KeptDeliveries(app) && KeptDeliveries(app)[d].record == id)
    || (exists k :: k in KeptRequests(app) && KeptRequests(app)[k].result.record == id)
  }

  ghost function KeptRecords(app: App): (m: map<Uuid, Record>)
    ensures forall id :: id in m <==> id in app.records && !(app.records[id].deleted && !MentionsRecord(app, id))
    ensures forall id | id in m :: m[id] == app.records[id]
  {
    map id | id in app.records && !(app.records[id].deleted && !MentionsRecord(app, id)) :: app.records[id]
  }

  ghost function NewBaselines(app: App): (m: map<Uuid, Baseline>)
    ensures forall id :: id in m <==> id in KeptRecords(app) && Worth(NewBase(app, id, app.records[id]))
    ensures forall id | id in m :: m[id] == NewBase(app, id, app.records[id])
  {
    map id | id in KeptRecords(app) && Worth(NewBase(app, id, app.records[id])) :: NewBase(app, id, app.records[id])
  }

  // ----- tasks and audit -----

  predicate Referenced(records: map<Uuid, Record>, grants: map<Uuid, Grant>, deliveries: map<Uuid, Delivery>,
                             requests: map<RequestKey, Remembered>, id: Uuid)
  {
    || (exists r :: r in records && records[r].task == id)
    || (exists g :: g in grants && grants[g].issuerTask == id)
    || (exists d :: d in deliveries && (deliveries[d].task == id || deliveries[d].key.task == id))
    || (exists k :: k in requests && k.task == id)
  }

  ghost predicate Removable(app: App, id: Uuid)
    requires id in app.tasks
  {
    && !Referenced(KeptRecords(app), KeptGrants(app), KeptDeliveries(app), KeptRequests(app), id)
    && (id in app.revokedTasks || Expired(app.lastTime, app.tasks[id].expiresAt))
  }

  predicate AtMost(tasks: map<Uuid, Task>, a: Uuid, b: Uuid)
    requires a in tasks && b in tasks
  {
    tasks[a].expiresAt < tasks[b].expiresAt || (tasks[a].expiresAt == tasks[b].expiresAt && a <= b)
  }

  predicate IsLatest(tasks: map<Uuid, Task>, id: Uuid)
    requires id in tasks
  {
    forall j | j in tasks :: AtMost(tasks, j, id)
  }

  ghost predicate KeepsTask(app: App, id: Uuid)
    requires id in app.tasks
  {
    !Removable(app, id) || (IsLatest(app.tasks, id) && forall j | j in app.tasks :: Removable(app, j))
  }

  ghost function KeptTasks(app: App): (m: map<Uuid, Task>)
    ensures forall id :: id in m <==> id in app.tasks && KeepsTask(app, id)
    ensures forall id | id in m :: m[id] == app.tasks[id]
  {
    map id | id in app.tasks && KeepsTask(app, id) :: app.tasks[id]
  }

  predicate KeepsEvent(tasks: map<Uuid, Task>, records: map<Uuid, Record>, requests: map<RequestKey, Remembered>, e: AuditEvent)
  {
    && e.task in tasks && e.record in records
    && (e.request.Some? ==> EventKey(tasks[e.task], e.request.value) in requests
                            && requests[EventKey(tasks[e.task], e.request.value)].result.record == e.record)
  }

  function KeptEvents(audit: seq<AuditEvent>, tasks: map<Uuid, Task>, records: map<Uuid, Record>,
                      requests: map<RequestKey, Remembered>): (kept: seq<AuditEvent>)
    ensures |kept| <= |audit|
    ensures forall i | 0 <= i < |kept| :: kept[i] in audit && KeepsEvent(tasks, records, requests, kept[i])
  {
    if audit == [] then []
    else
      var rest := KeptEvents(audit[1..], tasks, records, requests);
      if KeepsEvent(tasks, records, requests, audit[0]) then [audit[0]] + rest else rest
  }

  /** The compacted application. */
  ghost function Compact(app: App): App
  {
    var tasks := KeptTasks(app);
    app.(requests := KeptRequests(app), grants := KeptGrants(app), deliveries := KeptDeliveries(app),
         records := KeptRecords(app), baselines := NewBaselines(app), tasks := tasks,
         revokedTasks := app.revokedTasks * tasks.Keys,
         audit := KeptEvents(app.audit, tasks, KeptRecords(app), KeptRequests(app)))
  }

  predicate ShouldCompact(app: App)
  {
    || |app.tasks| >= COMPACT_AT || |app.records| >= COMPACT_AT || |app.grants| >= COMPACT_AT
    || |app.requests| >= COMPACT_AT || |app.revokedTasks| >= COMPACT_AT || |app.deliveries| >= COMPACT_AT
    || (app.generation >= 32 && app.generation % 32 == 0)
    || (exists k | k in app.requests :: Stale(app.requests[k].at, app.lastTime))
    || (exists d | d in app.deliveries :: app.deliveries[d].status.Some? && Stale(app.deliveries[d].at, app.lastTime))
  }

  ghost function MaybeCompact(app: App): App { if ShouldCompact(app) then Compact(app) else app }

  // ----- the new horizon -----

  /** The horizon is the longest run of stale receipts above `from`, and the next revision ends it. */
  lemma {:induction false} HorizonIsLongestStaleRun(requests: map<RequestKey, Remembered>, last: Option<Time>, id: Uuid, from: U64, top: U64)
    requires from <= top
    ensures var h := Horizon(requests, last, id, from, top);
      && (forall n | from < n <= h :: HasStale(requests, last, id, n))
      && (h < top ==> !HasStale(requests, last, id, h + 1))
    decreases top - from
  {
    if from < top && HasStale(requests, last, id, from + 1) {
      HorizonIsLongestStaleRun(requests, last, id, from + 1, top);
    }
  }

  lemma StaleBelowHorizon(app: App, j: RequestKey)
    requires RequestsOk(app) && RevisionsDistinct(app.requests)
    requires j in app.requests && app.requests[j].result.revision <= NewThrough(app, app.requests[j].result.record)
    ensures Stale(app.requests[j].at, app.lastTime)
  {
    var id, m := app.requests[j].result.record, app.requests[j].result.revision;
    assert RequestOk(app.tasks[j.task], app.records[id], Through(app.baselines, id), app.grants, j, app.requests[j]);
    HorizonIsLongestStaleRun(app.requests, app.lastTime, id, Through(app.baselines, id), app.records[id].revision);
    assert HasStale(app.requests, app.lastTime, id, m);
    var i :| IsStaleReceipt(app.requests, app.lastTime, i, id, m);
    assert i == j;
  }

  lemma FreshAboveHorizon(app: App, id: Uuid) returns (j: RequestKey)
    requires id in app.records && Through(app.baselines, id) <= NewThrough(app, id) < app.records[id].revision
    requires Contiguous(app.requests, BaseOf(app.baselines, id), id, app.records[id])
    ensures IsReceipt(app.requests, j, id, NewThrough(app, id) + 1) && !Stale(app.requests[j].at, app.lastTime)
  {
    var h := NewThrough(app, id);
    HorizonIsLongestStaleRun(app.requests, app.lastTime, id, Through(app.baselines, id), app.records[id].revision);
    assert HasRevision(app.requests, id, h + 1);
    j :| IsReceipt(app.requests, j, id, h + 1);
    assert !IsStaleReceipt(app.requests, app.lastTime, j, id, h + 1);
  }

  /** Whether every retained receipt of the record up to `k` is outside the retry window. */
  ghost predicate StaleUpTo(app: App, k: RequestKey)
    requires k in app.requests
  {
    forall j | j in app.requests && app.requests[j].result.record == app.requests[k].result.record
               && app.requests[j].result.revision <= app.requests[k].result.revision
      :: Stale(app.requests[j].at, app.lastTime)
  }

  /** A receipt is folded away exactly when it and every receipt of its record below it are stale. */
  lemma FoldedExactlyStalePrefix(app: App, k: RequestKey)
    requires RequestsOk(app) && RevisionsDistinct(app.requests) && AccountsOk(app) && k in app.requests
    ensures k !in Compact(app).requests <==> StaleUpTo(app, k)
  {
    var id, n := app.requests[k].result.record, app.requests[k].result.revision;
    assert RequestOk(app.tasks[k.task], app.records[id], Through(app.baselines, id), app.grants, k, app.requests[k]);
    if n <= NewThrough(app, id) {
      forall j | j in app.requests && app.requests[j].result.record == id && app.requests[j].result.revision <= n
        ensures Stale(app.requests[j].at, app.lastTime)
      {
        StaleBelowHorizon(app, j);
      }
    } else {
      assert AccountOk(app.requests, BaseOf(app.baselines, id), id, app.records[id]);
      var j := FreshAboveHorizon(app, id);
    }
  }
}
