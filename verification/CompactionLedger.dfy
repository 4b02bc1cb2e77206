/** Compaction and the ledger invariant: exactly when the compacted application is valid again. */
module CompactionLedger {
  import opened Types
  import opened Policy
  import opened Ledger
  import opened Compaction

  // ----- references survive -----

  lemma NewThroughBound(app: App, id: Uuid)
    requires BaselinesOk(app) && id in app.records
    ensures NewThrough(app, id) <= app.records[id].revision
  {}

  lemma KeptRequestRecord(app: App, k: RequestKey)
    requires RequestsOk(app) && k in KeptRequests(app)
    ensures app.requests[k].result.record in KeptRecords(app)
  {}

  lemma KeptGrantRecord(app: App, g: Uuid)
    requires GrantsOk(app.tasks, app.records, app.grants) && g in KeptGrants(app)
    ensures app.grants[g].record in KeptRecords(app)
  {}

  lemma KeptDeliveryRecord(app: App, d: Uuid)
    requires DeliveriesOk(app) && d in KeptDeliveries(app)
    ensures app.deliveries[d].record in KeptRecords(app)
  {}

  lemma ReferencedTaskKept(app: App, id: Uuid)
    requires id in app.tasks
    requires Referenced(KeptRecords(app), KeptGrants(app), KeptDeliveries(app), KeptRequests(app), id)
    ensures id in KeptTasks(app)
  {}

  // ----- the baseline found after compaction -----

  lemma BaseAfter(app: App, id: Uuid)
    requires BaselinesOk(app) && id in KeptRecords(app)
    ensures BaseOf(NewBaselines(app), id) == NewBase(app, id, app.records[id])
  {}

  lemma ThroughAfter(app: App, id: Uuid)
    requires BaselinesOk(app) && id in KeptRecords(app)
    ensures Through(NewBaselines(app), id) == NewThrough(app, id)
  {}

  // ----- the account of one record -----

  lemma ContiguousAfter(app: App, id: Uuid, r: Record)
    requires id in app.records && Contiguous(app.requests, BaseOf(app.baselines, id), id, r)
    ensures Contiguous(KeptRequests(app), NewBase(app, id, r), id, r)
  {
    forall n | NewThrough(app, id) < n <= r.revision
      ensures HasRevision(KeptRequests(app), id, n)
    {
      assert HasRevision(app.requests, id, n);
      var k :| IsReceipt(app.requests, k, id, n);
      assert IsReceipt(KeptRequests(app), k, id, n);
    }
  }

  lemma PatchesSplit(app: App, id: Uuid)
    ensures |KeysOfKind(app.requests, id, KPatch)| ==
            |FoldedOfKind(app, id, KPatch)| + |KeysOfKind(KeptRequests(app), id, KPatch)|
  {
    var folded, kept := FoldedOfKind(app, id, KPatch), KeysOfKind(KeptRequests(app), id, KPatch);
    forall k | k in KeysOfKind(app.requests, id, KPatch)
      ensures k in folded + kept
    {
      assert k in folded || IsOfKind(KeptRequests(app), k, id, KPatch);
    }
    assert KeysOfKind(app.requests, id, KPatch) == folded + kept;
    assert folded !! kept;
  }

  /** Where the horizon does not move, nothing of the record is folded. */
  lemma NothingFolded(app: App, id: Uuid, kind: Kind)
    requires RequestsOk(app) && NewThrough(app, id) == Through(app.baselines, id)
    ensures FoldedOfKind(app, id, kind) == {}
  {}

  lemma VersionAccountAfter(app: App, id: Uuid, r: Record)
    requires RequestsOk(app) && BaselinesOk(app) && id in app.records && r == app.records[id]
    requires VersionAccountOk(app.requests, BaseOf(app.baselines, id), id, r)
    ensures VersionAccountOk(KeptRequests(app), NewBase(app, id, r), id, r)
    ensures NewThrough(app, id) > 0 ==> NewBase(app, id, r).secretVersion >= 1
  {
    var b := BaseOf(app.baselines, id);
    if id in app.baselines { assert BaselineOk(r, app.baselines[id]); }
    PatchesSplit(app, id);
    if NewThrough(app, id) == b.through {
      NothingFolded(app, id, KPatch);
      if b.through == 0 { CreateKept(app, id, r); }
    }
  }

  lemma CreateKept(app: App, id: Uuid, r: Record)
    requires RequestsOk(app) && id in app.records && r == app.records[id] && NewThrough(app, id) == 0 && HasKind(app.requests, id, KCreate)
    ensures HasKind(KeptRequests(app), id, KCreate)
  {
    var k :| IsOfKind(app.requests, k, id, KCreate);
    assert RequestOk(app.tasks[k.task], r, Through(app.baselines, id), app.grants, k, app.requests[k]);
    assert IsOfKind(KeptRequests(app), k, id, KCreate);
  }

  // ----- delete receipts: the one way compaction can break the ledger -----

  /** Some delete receipt of the record is folded while another one is retained. */
  ghost predicate SplitsDeletes(app: App, id: Uuid)
  {
    FoldedOfKind(app, id, KDelete) != {} && HasKind(KeptRequests(app), id, KDelete)
  }

  ghost predicate NoSplitDeletes(app: App) { forall id | id in app.records :: !SplitsDeletes(app, id) }

  lemma KindAfter(app: App, id: Uuid, kind: Kind)
    ensures HasKind(app.requests, id, kind) <==> FoldedOfKind(app, id, kind) != {} || HasKind(KeptRequests(app), id, kind)
  {
    if k :| IsOfKind(app.requests, k, id, kind) {
      assert k in FoldedOfKind(app, id, kind) || IsOfKind(KeptRequests(app), k, id, kind);
    }
    if k :| IsOfKind(KeptRequests(app), k, id, kind) {
      assert IsOfKind(app.requests, k, id, kind);
    }
    if k :| k in FoldedOfKind(app, id, kind) {
      assert IsOfKind(app.requests, k, id, kind);
    }
  }

  lemma DeleteAccountAfter(app: App, id: Uuid, r: Record)
    requires RequestsOk(app) && BaselinesOk(app) && id in app.records && r == app.records[id]
    requires DeleteAccountOk(app.requests, BaseOf(app.baselines, id), id, r)
    ensures DeleteAccountOk(KeptRequests(app), NewBase(app, id, r), id, r) <==> !SplitsDeletes(app, id)
  {
    KindAfter(app, id, KDelete);
    if id in app.baselines { assert BaselineOk(r, app.baselines[id]); }
    if NewThrough(app, id) == Through(app.baselines, id) { NothingFolded(app, id, KDelete); }
  }

  lemma AccountAfter(app: App, id: Uuid, r: Record)
    requires RequestsOk(app) && BaselinesOk(app) && id in app.records && r == app.records[id]
    requires AccountOk(app.requests, BaseOf(app.baselines, id), id, r)
    ensures AccountOk(KeptRequests(app), NewBase(app, id, r), id, r) <==> !SplitsDeletes(app, id)
  {
    ContiguousAfter(app, id, r);
    VersionAccountAfter(app, id, r);
    DeleteAccountAfter(app, id, r);
  }

  /** A record whose deletes are split still has a retained receipt, so it is not dropped. */
  lemma SplitRecordKept(app: App, id: Uuid)
    requires id in app.records && SplitsDeletes(app, id)
    ensures id in KeptRecords(app)
  {}

  lemma AccountsAfter(app: App)
    requires RequestsOk(app) && BaselinesOk(app) && AccountsOk(app)
    ensures AccountsOk(Compact(app)) <==> NoSplitDeletes(app)
  {
    forall id | id in app.records
      ensures id in KeptRecords(app) ==>
        (AccountOk(KeptRequests(app), BaseOf(NewBaselines(app), id), id, app.records[id]) <==> !SplitsDeletes(app, id))
      ensures SplitsDeletes(app, id) ==> id in KeptRecords(app)
    {
      assert AccountOk(app.requests, BaseOf(app.baselines, id), id, app.records[id]);
      AccountAfter(app, id, app.records[id]);
      if id in KeptRecords(app) { BaseAfter(app, id); }
      if SplitsDeletes(app, id) { SplitRecordKept(app, id); }
    }
  }

  // ----- receipts, baselines and grants -----

  lemma RequestsAfter(app: App)
    requires RequestsOk(app) && BaselinesOk(app) && GrantsOk(app.tasks, app.records, app.grants)
    ensures RequestsOk(Compact(app))
  {
    var c := Compact(app);
    forall k | k in c.requests
      ensures k.task in c.tasks && c.requests[k].result.record in c.records
      ensures RequestOk(c.tasks[k.task], c.records[c.requests[k].result.record],
                        Through(c.baselines, c.requests[k].result.record), c.grants, k, c.requests[k])
    {
      var id := app.requests[k].result.record;
      assert RequestOk(app.tasks[k.task], app.records[id], Through(app.baselines, id), app.grants, k, app.requests[k]);
      KeptRequestRecord(app, k);
      ThroughAfter(app, id);
      ReferencedTaskKept(app, k.task);
      if c.requests[k].result.grant.Some? {
        assert Mentions(KeptRequests(app), k, c.requests[k].result.grant.value);
      }
    }
  }

  lemma PrunedGrantsAfter(app: App, id: Uuid, g: Uuid)
    requires RequestsOk(app) && BaselinesOk(app) && SharesDistinct(app.requests)
    requires id in KeptRecords(app) && g in NewBase(app, id, app.records[id]).prunedGrants
    ensures g in KeptGrants(app) && app.grants[g].record == id && !HasShare(KeptRequests(app), g)
  {
    if g in BaseOf(app.baselines, id).prunedGrants {
      assert !HasShare(app.requests, g);
      forall k ensures !IsShareOf(KeptRequests(app), k, g) {
        assert !IsShareOf(app.requests, k, g);
      }
    } else {
      var k :| k in FoldedOfKind(app, id, KShare) && app.requests[k].result.grant == Some(g);
      assert RequestOk(app.tasks[k.task], app.records[id], Through(app.baselines, id), app.grants, k, app.requests[k]);
    }
  }

  lemma BaselinesAfter(app: App)
    requires RequestsOk(app) && BaselinesOk(app) && SharesDistinct(app.requests) && AccountsOk(app)
    ensures BaselinesOk(Compact(app))
  {
    forall id | id in NewBaselines(app)
      ensures id in KeptRecords(app) && BaselineOk(app.records[id], NewBaselines(app)[id])
      ensures forall g | g in NewBaselines(app)[id].prunedGrants ::
        g in KeptGrants(app) && app.grants[g].record == id && !HasShare(KeptRequests(app), g)
    {
      var r := app.records[id];
      if id in app.baselines { assert BaselineOk(r, app.baselines[id]); }
      assert AccountOk(app.requests, BaseOf(app.baselines, id), id, r);
      NewThroughBound(app, id);
      VersionAccountAfter(app, id, r);
      if NewThrough(app, id) == Through(app.baselines, id) { NothingFolded(app, id, KShare); }
      forall g | g in NewBaselines(app)[id].prunedGrants
        ensures g in KeptGrants(app) && app.grants[g].record == id && !HasShare(KeptRequests(app), g)
      {
        PrunedGrantsAfter(app, id, g);
      }
    }
  }

  lemma ShareAfter(app: App, g: Uuid, k: RequestKey)
    requires RequestsOk(app) && g in KeptGrants(app) && IsShareOf(app.requests, k, g)
    ensures IsShareOf(KeptRequests(app), k, g) || g in FoldedBase(app, app.grants[g].record).prunedGrants
  {}

  lemma GrantsAccountedAfter(app: App)
    requires RequestsOk(app) && BaselinesOk(app) && GrantsAccounted(app) && GrantsOk(app.tasks, app.records, app.grants)
    ensures GrantsAccounted(Compact(app))
  {
    var c := Compact(app);
    forall g | g in c.grants
      ensures HasShare(c.requests, g) || g in BaseOf(c.baselines, c.grants[g].record).prunedGrants
    {
      GrantAccountedAfter(app, g);
    }
  }

  lemma GrantAccountedAfter(app: App, g: Uuid)
    requires RequestsOk(app) && BaselinesOk(app) && GrantsAccounted(app) && GrantsOk(app.tasks, app.records, app.grants) && g in KeptGrants(app)
    ensures HasShare(KeptRequests(app), g) || g in BaseOf(NewBaselines(app), app.grants[g].record).prunedGrants
  {
    KeptGrantRecord(app, g);
    BaseAfter(app, app.grants[g].record);
    if k :| IsShareOf(app.requests, k, g) {
      ShareAfter(app, g, k);
    }
  }

  lemma RecordsAfter(app: App)
    requires RecordsOk(app.tasks, app.records)
    ensures RecordsOk(KeptTasks(app), KeptRecords(app))
  {}

  lemma GrantsAfter(app: App)
    requires GrantsOk(app.tasks, app.records, app.grants)
    ensures GrantsOk(KeptTasks(app), KeptRecords(app), KeptGrants(app))
  {}

  // ----- deliveries, verified logins, audit, sizes -----

  lemma DeliveriesAfter(app: App)
    requires DeliveriesOk(app) && DeliveriesDistinct(app.deliveries)
    ensures DeliveriesOk(Compact(app)) && DeliveriesDistinct(KeptDeliveries(app))
  {
    forall d | d in KeptDeliveries(app)
      ensures app.deliveries[d].record in KeptRecords(app) && app.deliveries[d].task in KeptTasks(app)
    {
      KeptDeliveryRecord(app, d);
      ReferencedTaskKept(app, app.deliveries[d].task);
    }
  }

  lemma VerifiedAfter(app: App)
    requires VerifiedOk(app) && BaselinesOk(app)
    ensures VerifiedOk(Compact(app))
  {}

  lemma AuditAfter(app: App)
    requires AuditOk(app)
    ensures AuditOk(Compact(app))
  {}

  lemma LimitsAfter(app: App)
    requires LimitsOk(app)
    ensures LimitsOk(Compact(app))
  {
    var c := Compact(app);
    SubsetSize(c.tasks.Keys, app.tasks.Keys);
    SubsetSize(c.records.Keys, app.records.Keys);
    SubsetSize(c.grants.Keys, app.grants.Keys);
    SubsetSize(c.requests.Keys, app.requests.Keys);
    SubsetSize(c.revokedTasks, app.revokedTasks);
    SubsetSize(c.deliveries.Keys, app.deliveries.Keys);
    SubsetSize(c.baselines.Keys, app.records.Keys);
  }

  lemma StructureAfter(app: App)
    requires StructureOk(app)
    ensures StructureOk(Compact(app))
  {
    LimitsAfter(app);
    RecordsAfter(app);
    GrantsAfter(app);
  }

  lemma ReceiptsAfter(app: App)
    requires StructureOk(app) && ReceiptsOk(app)
    ensures ReceiptsOk(Compact(app)) <==> NoSplitDeletes(app)
  {
    RequestsAfter(app);
    BaselinesAfter(app);
    GrantsAccountedAfter(app);
    AccountsAfter(app);
  }

  lemma ActivityAfter(app: App)
    requires ReceiptsOk(app) && ActivityOk(app)
    ensures ActivityOk(Compact(app))
  {
    DeliveriesAfter(app);
    VerifiedAfter(app);
    AuditAfter(app);
  }

  /** Compaction of a valid ledger is valid exactly when no record has one delete receipt folded and
      another one retained. */
  lemma CompactValidExactly(app: App)
    requires Valid(app)
    ensures Valid(Compact(app)) <==> NoSplitDeletes(app)
  {
    ValidIs(app);
    ValidIs(Compact(app));
    StructureAfter(app);
    ReceiptsAfter(app);
    ActivityAfter(app);
  }

  // ----- one delete receipt per record -----

  /** No record has two delete receipts. `validate` does not ask for it; every operation keeps it. */
  ghost predicate SingleDelete(requests: map<RequestKey, Remembered>)
  {
    forall j, k | j in requests && k in requests && requests[j].kind == KDelete && requests[k].kind == KDelete
                  && requests[j].result.record == requests[k].result.record :: j == k
  }

  /** The invariant of every application the vault itself produces. */
  ghost predicate Sound(app: App) { Valid(app) && SingleDelete(app.requests) }

  lemma SingleDeleteNeverSplits(app: App)
    requires SingleDelete(app.requests)
    ensures NoSplitDeletes(app)
  {}

  /** Compaction keeps the invariant of every application the vault produces. */
  lemma CompactKeepsSound(app: App)
    requires Sound(app)
    ensures Sound(Compact(app)) && Sound(MaybeCompact(app))
  {
    SingleDeleteNeverSplits(app);
    CompactValidExactly(app);
  }
}
