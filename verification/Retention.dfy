/** What compaction leaves, entry by entry, in terms of what is left: no history that is still needed is dropped, none that
    is not is kept, and nothing that is kept is changed. */
module Retention {
  import opened Types
  import opened Policy
  import opened Ledger
  import opened Compaction

  // ----- the audit -----

  /** `kept` holds the events of `audit` at the given places, in order. */
  ghost predicate Picks(audit: seq<AuditEvent>, kept: seq<AuditEvent>, places: seq<nat>)
  {
    && |places| == |kept| && (forall i | 0 <= i < |places| :: places[i] < |audit| && kept[i] == audit[places[i]])
    && forall i, j | 0 <= i < j < |places| :: places[i] < places[j]
  }

  /** The event's approval and record are left, and so is its receipt where it had one. */
  predicate Remembers(tasks: map<Uuid, Task>, records: map<Uuid, Record>, requests: map<RequestKey, Remembered>, e: AuditEvent)
  {
    && e.task in tasks && e.record in records
    && match e.request
       case None => true
       case Some(request) =>
         var key := RequestKey(tasks[e.task].owner, tasks[e.task].principal, tasks[e.task].id, request);
         key in requests && requests[key].result.record == e.record
  }

  function Later(places: seq<nat>): (r: seq<nat>)
    ensures |r| == |places| && forall i | 0 <= i < |r| :: r[i] == places[i] + 1
  {
    seq(|places|, i requires 0 <= i < |places| => places[i] + 1)
  }

  lemma PicksLater(audit: seq<AuditEvent>, kept: seq<AuditEvent>, places: seq<nat>)
    requires audit != [] && Picks(audit[1..], kept, places)
    ensures Picks(audit, kept, Later(places)) && Picks(audit, [audit[0]] + kept, [0] + Later(places))
  {}

  lemma PlacesLater(places: seq<nat>, p: nat)
    ensures p in Later(places) <==> p > 0 && p - 1 in places
    ensures p in [0] + Later(places) <==> p == 0 || p - 1 in places
  {
    var later := Later(places);
    if p > 0 && p - 1 in places {
      var i :| 0 <= i < |places| && places[i] == p - 1;
      assert later[i] == p;
    }
  }

  /** The audit is filtered in place: every event that is still meaningful is kept, in its order and as often as it occurs. */
  lemma {:induction false} EventsKeptExactly(audit: seq<AuditEvent>, tasks: map<Uuid, Task>, records: map<Uuid, Record>,
                                             requests: map<RequestKey, Remembered>) returns (places: seq<nat>)
    ensures Picks(audit, KeptEvents(audit, tasks, records, requests), places)
    ensures forall p | 0 <= p < |audit| :: p in places <==> Remembers(tasks, records, requests, audit[p])
    decreases |audit|
  {
    if audit == [] { return []; }
    var rest := EventsKeptExactly(audit[1..], tasks, records, requests);
    PicksLater(audit, KeptEvents(audit[1..], tasks, records, requests), rest);
    places := if Remembers(tasks, records, requests, audit[0]) then [0] + Later(rest) else Later(rest);
    forall p | 0 <= p < |audit| ensures p in places <==> Remembers(tasks, records, requests, audit[p]) {
      PlacesLater(rest, p);
      if p > 0 { assert audit[p] == audit[1..][p - 1]; }
    }
  }

  // ----- everything else -----

  predicate Old(at: Option<Time>, last: Option<Time>) { at.Some? && last.Some? && at.value + 24 * 60 * 60 <= last.value }

  predicate Over(deadline: Time, last: Option<Time>) { last.Some? && deadline <= last.value }

  /** Something left in the application names the record. */
  predicate NamesRecord(n: App, id: Uuid)
  {
    || (exists g | g in n.grants :: n.grants[g].record == id) || (exists d | d in n.deliveries :: n.deliveries[d].record == id)
    || (exists k | k in n.requests :: n.requests[k].result.record == id)
  }

  predicate NamesTask(n: App, id: Uuid)
  {
    || (exists r | r in n.records :: n.records[r].task == id) || (exists g | g in n.grants :: n.grants[g].issuerTask == id)
    || (exists d | d in n.deliveries :: n.deliveries[d].task == id || n.deliveries[d].key.task == id)
    || (exists k | k in n.requests :: k.task == id)
  }

  predicate Dead(a: App, n: App, id: Uuid)
    requires id in a.tasks
  {
    !NamesTask(n, id) && (id in a.revokedTasks || Over(a.tasks[id].expiresAt, a.lastTime))
  }

  /** Among the last approvals to expire, the one with the largest identifier. */
  predicate Last(a: App, id: Uuid)
    requires id in a.tasks
  {
    forall j | j in a.tasks ::
      a.tasks[j].expiresAt <= a.tasks[id].expiresAt && (a.tasks[j].expiresAt == a.tasks[id].expiresAt ==> j <= id)
  }

  lemma OldExactly(at: Option<Time>, last: Option<Time>)
    ensures Stale(at, last) <==> Old(at, last)
  {}

  /** The grant is live, or a receipt that is left mentions it. */
  predicate Needed(a: App, n: App, g: Uuid)
    requires g in a.grants
  {
    || (!a.grants[g].revoked && !Over(a.grants[g].spec.expiresAt, a.lastTime))
    || exists k | k in n.requests :: n.requests[k].result.grant == Some(g)
  }

  /** Grants that are live or mentioned by a receipt, and attempts that are unfinished or recent, are left as they were. */
  lemma GrantsAndAttemptsLeft(a: App)
    ensures var n := Compact(a);
      && (forall g :: g in n.grants <==> g in a.grants && Needed(a, n, g))
      && (forall g | g in n.grants :: n.grants[g] == a.grants[g])
      && (forall d :: d in n.deliveries <==> d in a.deliveries && (a.deliveries[d].status.None? || !Old(a.deliveries[d].at, a.lastTime)))
      && (forall d | d in n.deliveries :: n.deliveries[d] == a.deliveries[d])
  {
    var n := Compact(a);
    hide KeptEvents, KeptTasks, KeptRecords, NewBaselines, NewThrough;
    forall d | d in a.deliveries ensures d in n.deliveries <==> a.deliveries[d].status.None? || !Old(a.deliveries[d].at, a.lastTime) {
      OldExactly(a.deliveries[d].at, a.lastTime);
    }
    forall g | g in a.grants
      ensures (exists k :: Mentions(KeptRequests(a), k, g)) <==> exists k | k in n.requests :: n.requests[k].result.grant == Some(g)
    {
      if k :| Mentions(KeptRequests(a), k, g) { assert k in n.requests; }
      if k :| k in n.requests && n.requests[k].result.grant == Some(g) { assert Mentions(KeptRequests(a), k, g); }
    }
    hide Stale, Old;
  }

  /** Records are left unless deleted and named by nothing that is left. */
  lemma RecordsLeft(a: App)
    ensures var n := Compact(a);
      && (forall id :: id in n.records <==> id in a.records && (!a.records[id].deleted || NamesRecord(n, id)))
      && (forall id | id in n.records :: n.records[id] == a.records[id])
  {
    var n := Compact(a);
    hide KeptEvents, NewBaselines, NewThrough, KeepsDelivery, KeepsGrant, KeepsTask;
    forall id ensures MentionsRecord(a, id) <==> NamesRecord(n, id) { MentionedIsNamed(a, n, id); }
    hide MentionsRecord, NamesRecord;
  }

  /** Approvals are left unless named by nothing that is left and revoked or expired; the last of them is left in any case. */
  lemma TasksLeft(a: App)
    ensures var n := Compact(a);
      && (forall id :: id in n.tasks <==> id in a.tasks && (!Dead(a, n, id) || (Last(a, id) && forall j | j in a.tasks :: Dead(a, n, j))))
      && (forall id | id in n.tasks :: n.tasks[id] == a.tasks[id])
      && (forall id :: id in n.revokedTasks <==> id in a.revokedTasks && id in n.tasks)
  {
    var n := Compact(a);
    hide KeptEvents, NewBaselines, NewThrough, KeepsDelivery, KeepsGrant, MentionsRecord;
    forall id | id in a.tasks ensures Removable(a, id) <==> Dead(a, n, id) { RemovableIsDead(a, n, id); }
    forall id | id in a.tasks ensures IsLatest(a.tasks, id) <==> Last(a, id) { LatestIsLast(a, id); }
    hide Dead, Removable, Last, IsLatest;
  }

  lemma RemovableIsDead(a: App, n: App, id: Uuid)
    requires n.grants == KeptGrants(a) && n.deliveries == KeptDeliveries(a) && n.requests == KeptRequests(a) && n.records == KeptRecords(a) && id in a.tasks
    ensures Removable(a, id) <==> Dead(a, n, id)
  {
    hide KeepsGrant, KeepsDelivery, NewThrough, MentionsRecord;
  }

  lemma LatestIsLast(a: App, id: Uuid)
    requires id in a.tasks
    ensures IsLatest(a.tasks, id) <==> Last(a, id)
  {}

  lemma MentionedIsNamed(a: App, n: App, id: Uuid)
    requires n.grants == KeptGrants(a) && n.deliveries == KeptDeliveries(a) && n.requests == KeptRequests(a)
    ensures MentionsRecord(a, id) <==> NamesRecord(n, id)
  {
    hide KeepsGrant, KeepsDelivery, NewThrough;
  }

  /** Compaction drops an attempt that handed a registration of the record off. */
  predicate DropsRegistered(a: App, n: App, id: Uuid)
  {
    exists d | d in a.deliveries ::
      d !in n.deliveries && a.deliveries[d].record == id && a.deliveries[d].action == Register && a.deliveries[d].dispatched
  }

  /** Compaction drops an accepted login with the current version of the record. */
  predicate DropsLogin(a: App, n: App, id: Uuid)
    requires id in a.records
  {
    exists d | d in a.deliveries ::
      d !in n.deliveries && a.deliveries[d].record == id && a.deliveries[d].action == Login && a.deliveries[d].dispatched
      && a.deliveries[d].status == Some(StAccepted) && a.deliveries[d].version == a.records[id].secretVersion
  }

  /** A baseline remembers the registrations and the current verified login that compaction drops. */
  lemma SealsLeft(a: App, id: Uuid)
    requires id in Compact(a).records
    ensures var n, b := Compact(a), BaseOf(a.baselines, id);
      && BaseOf(n.baselines, id).registrationDispatched == (b.registrationDispatched || DropsRegistered(a, n, id))
      && BaseOf(n.baselines, id).verifiedLogin == (a.records[id].signup == VerifiedLogin && (b.verifiedLogin || DropsLogin(a, n, id)))
  {
    hide KeptEvents, KeptTasks, KeepsDelivery, KeepsGrant, NewThrough, FoldedShares, FoldedOfKind;
  }

  // ----- when it runs -----

  /** What an operation is staged on has no receipt or finished attempt that compaction could still drop for its age: after
      pruning, every finished attempt is recent, and the oldest retained receipt of every record is. */
  lemma PrunedIsRecent(a: App, d: Uuid)
    requires d in MaybeCompact(a).deliveries
    ensures MaybeCompact(a).deliveries[d].status.None? || !Old(MaybeCompact(a).deliveries[d].at, a.lastTime)
  {
    hide KeptEvents, KeptTasks, KeptRecords, NewBaselines, KeptGrants, KeptRequests;
    OldExactly(MaybeCompact(a).deliveries[d].at, a.lastTime);
  }

  lemma PrunedReceiptsAreRecent(a: App, k: RequestKey)
    requires RequestsOk(a) && RevisionsDistinct(a.requests) && AccountsOk(a) && k in MaybeCompact(a).requests
    ensures exists j | j in a.requests :: a.requests[j].result.record == a.requests[k].result.record
                                          && a.requests[j].result.revision <= a.requests[k].result.revision && !Old(a.requests[j].at, a.lastTime)
  {
    hide KeptEvents, KeptTasks, KeptRecords, NewBaselines, KeptGrants;
    if ShouldCompact(a) {
      FoldedExactlyStalePrefix(a, k);
      var j :| j in a.requests && a.requests[j].result.record == a.requests[k].result.record
               && a.requests[j].result.revision <= a.requests[k].result.revision && !Stale(a.requests[j].at, a.lastTime);
      OldExactly(a.requests[j].at, a.lastTime);
    } else {
      OldExactly(a.requests[k].at, a.lastTime);
    }
  }

  /** No collection is staged on at its watermark unless what fills it has to be kept. */
  lemma PrunedOrSmall(a: App)
    ensures MaybeCompact(a) == Compact(a)
            || (MaybeCompact(a) == a && |a.tasks| < 8_000 && |a.records| < 8_000 && |a.grants| < 8_000 && |a.requests| < 8_000
                && |a.revokedTasks| < 8_000 && |a.deliveries| < 8_000 && (a.generation % 32 == 0 ==> a.generation == 0))
  {}
}
