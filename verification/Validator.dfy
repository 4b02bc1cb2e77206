/** The ledger check as the source performs it: passes that collect what the receipts say, then compare counts. It
    accepts exactly the applications that satisfy the ledger invariant. */
module Validator {
  import opened Types
  import opened Policy
  import opened Ledger
  import opened Staging

  // ----- tasks, records, grants -----

  function SnapshotAdmin(t: Task): Context { Context(t.owner, "snapshot-validation", t.workspace, true, None) }

  /** The tasks outside `todo` pass: well formed, and all of one owner and workspace. */
  ghost predicate PartTasks(tasks: map<Uuid, Task>, todo: set<Uuid>)
  {
    && (forall id | id in tasks && id !in todo :: tasks[id].id == id && TaskBoundsOk(tasks[id], TIME_MIN))
    && (forall a, b | a in tasks && b in tasks && a !in todo && b !in todo ::
          tasks[a].owner == tasks[b].owner && tasks[a].workspace == tasks[b].workspace)
  }

  /** The application the checker holds when it has approved the tasks outside `todo`. */
  ghost predicate Checked(checker: App, tasks: map<Uuid, Task>, todo: set<Uuid>)
  {
    && !checker.clockFrozen && (checker.lastTime.Some? ==> checker.lastTime.value == TIME_MIN)
    && (forall id :: id in checker.tasks <==> id in tasks && id !in todo) && (forall id | id in checker.tasks :: checker.tasks[id] == tasks[id])
  }

  lemma ApprovedExactly(checker: App, tasks: map<Uuid, Task>, todo: set<Uuid>, id: Uuid)
    requires Checked(checker, tasks, todo) && PartTasks(tasks, todo) && id in todo && id in tasks && tasks[id].id == id && |tasks| <= LIMIT
    ensures var o := ApproveTask(checker, SnapshotAdmin(tasks[id]), tasks[id], TIME_MIN);
      && (o.result.Ok? <==> PartTasks(tasks, todo - {id}))
      && (o.result.Ok? ==> Checked(o.app, tasks, todo - {id}))
  {
    FewerTasks(checker, tasks, todo, id);
    ApprovalOutcome(checker, tasks[id]);
    var agree := forall j | j in checker.tasks :: checker.tasks[j].owner == tasks[id].owner && checker.tasks[j].workspace == tasks[id].workspace;
    MoreTasksPass(checker, tasks, todo, id, agree);
    CheckedOneMore(checker, tasks, todo, id, checker.(lastTime := Some(TIME_MIN), tasks := checker.tasks[id := tasks[id]]));
  }

  lemma CheckedOneMore(checker: App, tasks: map<Uuid, Task>, todo: set<Uuid>, id: Uuid, next: App)
    requires Checked(checker, tasks, todo) && id in todo && id in tasks
    requires next == checker.(lastTime := Some(TIME_MIN), tasks := checker.tasks[id := tasks[id]])
    ensures Checked(next, tasks, todo - {id})
  {}

  lemma ApprovalOutcome(checker: App, t: Task)
    requires !checker.clockFrozen && (checker.lastTime.Some? ==> checker.lastTime.value == TIME_MIN) && |checker.tasks| < LIMIT && t.id !in checker.tasks
    ensures var o := ApproveTask(checker, SnapshotAdmin(t), t, TIME_MIN);
      && (o.result.Ok? <==> TaskBoundsOk(t, TIME_MIN)
                            && forall j | j in checker.tasks :: checker.tasks[j].owner == t.owner && checker.tasks[j].workspace == t.workspace)
      && (o.result.Ok? ==> o.app == checker.(lastTime := Some(TIME_MIN), tasks := checker.tasks[t.id := t]))
  {
    hide Policy.TaskBoundsOk;
  }

  lemma FewerTasks(checker: App, tasks: map<Uuid, Task>, todo: set<Uuid>, id: Uuid)
    requires Checked(checker, tasks, todo) && id in todo && id in tasks
    ensures |checker.tasks| < |tasks|
  {
    assert checker.tasks.Keys <= tasks.Keys - {id};
    SubsetSize(checker.tasks.Keys, tasks.Keys - {id});
  }

  lemma MoreTasksPass(checker: App, tasks: map<Uuid, Task>, todo: set<Uuid>, id: Uuid, agree: bool)
    requires Checked(checker, tasks, todo) && PartTasks(tasks, todo) && id in todo && id in tasks && tasks[id].id == id
    requires agree == forall j | j in checker.tasks :: checker.tasks[j].owner == tasks[id].owner && checker.tasks[j].workspace == tasks[id].workspace
    ensures PartTasks(tasks, todo - {id}) <==> TaskBoundsOk(tasks[id], TIME_MIN) && agree
  {
    if !agree {
      var j :| j in checker.tasks && !(checker.tasks[j].owner == tasks[id].owner && checker.tasks[j].workspace == tasks[id].workspace);
      assert j !in todo - {id} && id !in todo - {id};
    }
  }

  lemma {:induction false} PartTasksSmaller(tasks: map<Uuid, Task>, todo: set<Uuid>)
    requires TasksOk(tasks)
    ensures PartTasks(tasks, todo)
  {}

  /** Approves every task in a fresh application at the earliest time. */
  method CheckTasks(tasks: map<Uuid, Task>) returns (ok: bool)
    requires |tasks| <= LIMIT
    ensures ok <==> TasksOk(tasks)
  {
    var checker := new Application(EMPTY);
    var todo := tasks.Keys;
    while todo != {}
      invariant todo <= tasks.Keys && Checked(checker.Value(), tasks, todo) && PartTasks(tasks, todo)
      decreases |todo|
    {
      var id :| id in todo;
      if id != tasks[id].id { return false; }
      ApprovedExactly(checker.Value(), tasks, todo, id);
      var r := checker.ApproveTask(SnapshotAdmin(tasks[id]), tasks[id], TIME_MIN);
      if r.Err? {
        if TasksOk(tasks) { PartTasksSmaller(tasks, todo - {id}); }
        return false;
      }
      todo := todo - {id};
    }
    return true;
  }

  method CheckRecords(tasks: map<Uuid, Task>, records: map<Uuid, Record>) returns (ok: bool)
    ensures ok <==> RecordsOk(tasks, records)
  {
    var todo := records.Keys;
    while todo != {}
      invariant todo <= records.Keys
      invariant forall id | id in records && id !in todo :: records[id].task in tasks && RecordOk(tasks[records[id].task], id, records[id])
      decreases |todo|
    {
      var id :| id in todo;
      if records[id].task !in tasks || !RecordOk(tasks[records[id].task], id, records[id]) { return false; }
      todo := todo - {id};
    }
    return true;
  }

  method CheckGrants(tasks: map<Uuid, Task>, records: map<Uuid, Record>, grants: map<Uuid, Grant>) returns (ok: bool)
    ensures ok <==> GrantsOk(tasks, records, grants)
  {
    var todo := grants.Keys;
    while todo != {}
      invariant todo <= grants.Keys
      invariant forall id | id in grants && id !in todo ::
        grants[id].record in records && grants[id].issuerTask in tasks
        && GrantOk(tasks[grants[id].issuerTask], records[grants[id].record], id, grants[id])
      decreases |todo|
    {
      var id :| id in todo;
      if grants[id].record !in records || grants[id].issuerTask !in tasks { return false; }
      if !GrantOk(tasks[grants[id].issuerTask], records[grants[id].record], id, grants[id]) { return false; }
      todo := todo - {id};
    }
    return true;
  }

  // ----- receipts -----

  /** What the receipts outside `todo` say: revisions and patches per record, created, deleted records, shared grants. */
  datatype Tally = Tally(revisions: set<(Uuid, U64)>, patches: set<(Uuid, U64)>, creates: set<Uuid>, deletes: set<Uuid>, shares: set<Uuid>)

  ghost predicate Tallies(requests: map<RequestKey, Remembered>, todo: set<RequestKey>, t: Tally)
  {
    && (forall id: Uuid, n: U64 :: (id, n) in t.revisions <==> exists k :: k !in todo && IsReceipt(requests, k, id, n))
    && (forall id: Uuid, n: U64 :: (id, n) in t.patches <==> exists k :: k !in todo && IsReceipt(requests, k, id, n) && requests[k].kind == KPatch)
    && (forall id :: id in t.creates <==> exists k :: k !in todo && IsOfKind(requests, k, id, KCreate))
    && (forall id :: id in t.deletes <==> exists k :: k !in todo && IsOfKind(requests, k, id, KDelete))
    && (forall g :: g in t.shares <==> exists k :: k !in todo && IsShareOf(requests, k, g))
  }

  predicate ReceiptOk(app: App, k: RequestKey)
    requires k in app.requests
  {
    && k.task in app.tasks && app.requests[k].result.record in app.records
    && RequestOk(app.tasks[k.task], app.records[app.requests[k].result.record],
                 Through(app.baselines, app.requests[k].result.record), app.grants, k, app.requests[k])
  }

  /** The receipts outside `todo` pass on their own and against each other. */
  ghost predicate PartReceipts(app: App, todo: set<RequestKey>)
  {
    && (forall k | k in app.requests && k !in todo :: ReceiptOk(app, k))
    && (forall j, k | j in app.requests && k in app.requests && j !in todo && k !in todo
                      && app.requests[j].result.record == app.requests[k].result.record
                      && app.requests[j].result.revision == app.requests[k].result.revision :: j == k)
    && (forall j, k | j in app.requests && k in app.requests && j !in todo && k !in todo && app.requests[j].kind == KShare
                      && app.requests[k].kind == KShare && app.requests[j].result.grant == app.requests[k].result.grant :: j == k)
  }

  /** The receipt can be added to the tally: well formed, a new revision of its record, and a grant not shared before. */
  predicate Adds(app: App, t: Tally, k: RequestKey)
    requires k in app.requests
  {
    var c := app.requests[k];
    && ReceiptOk(app, k) && (c.result.record, c.result.revision) !in t.revisions
    && (c.kind == KShare ==> c.result.grant.value !in t.shares)
  }

  function Added(t: Tally, c: Remembered): Tally
    requires c.kind == KShare ==> c.result.grant.Some?
  {
    var id := c.result.record;
    Tally(t.revisions + {(id, c.result.revision)}, if c.kind == KPatch then t.patches + {(id, c.result.revision)} else t.patches,
          if c.kind == KCreate then t.creates + {id} else t.creates, if c.kind == KDelete then t.deletes + {id} else t.deletes,
          if c.kind == KShare then t.shares + {c.result.grant.value} else t.shares)
  }

  lemma TallyStep(app: App, todo: set<RequestKey>, t: Tally, k: RequestKey, n: Tally)
    requires Tallies(app.requests, todo, t) && k in todo && k in app.requests && Adds(app, t, k) && n == Added(t, app.requests[k])
    ensures Tallies(app.requests, todo - {k}, n)
  {
    var r, c := app.requests, app.requests[k];
    forall id: Uuid, v: U64 ensures (id, v) in n.revisions <==> exists j :: j !in todo - {k} && IsReceipt(r, j, id, v) {
      if j :| j !in todo && IsReceipt(r, j, id, v) { assert j !in todo - {k}; }
      if id == c.result.record && v == c.result.revision { assert k !in todo - {k} && IsReceipt(r, k, id, v); }
    }
    forall id: Uuid, v: U64 ensures (id, v) in n.patches <==> exists j :: j !in todo - {k} && IsReceipt(r, j, id, v) && r[j].kind == KPatch {
      if j :| j !in todo && IsReceipt(r, j, id, v) && r[j].kind == KPatch { assert j !in todo - {k}; }
      if id == c.result.record && v == c.result.revision { assert k !in todo - {k} && IsReceipt(r, k, id, v); }
    }
    TallySets(app, todo, t, k, n);
  }

  lemma TallySets(app: App, todo: set<RequestKey>, t: Tally, k: RequestKey, n: Tally)
    requires Tallies(app.requests, todo, t) && k in todo && k in app.requests && Adds(app, t, k) && n == Added(t, app.requests[k])
    ensures forall id :: id in n.creates <==> exists j :: j !in todo - {k} && IsOfKind(app.requests, j, id, KCreate)
    ensures forall id :: id in n.deletes <==> exists j :: j !in todo - {k} && IsOfKind(app.requests, j, id, KDelete)
    ensures forall g :: g in n.shares <==> exists j :: j !in todo - {k} && IsShareOf(app.requests, j, g)
  {
    var r := app.requests;
    forall id: Uuid ensures id in n.creates <==> exists j :: j !in todo - {k} && IsOfKind(r, j, id, KCreate) { KindStep(r, todo, k, id, KCreate); }
    forall id: Uuid ensures id in n.deletes <==> exists j :: j !in todo - {k} && IsOfKind(r, j, id, KDelete) { KindStep(r, todo, k, id, KDelete); }
    forall g: Uuid ensures g in n.shares <==> exists j :: j !in todo - {k} && IsShareOf(r, j, g) { ShareStep(r, todo, k, g); }
  }

  lemma KindStep(r: map<RequestKey, Remembered>, todo: set<RequestKey>, k: RequestKey, id: Uuid, kind: Kind)
    requires k in todo
    ensures (exists j :: j !in todo - {k} && IsOfKind(r, j, id, kind)) <==> (exists j :: j !in todo && IsOfKind(r, j, id, kind)) || IsOfKind(r, k, id, kind)
  {
    if j :| j !in todo && IsOfKind(r, j, id, kind) { assert j !in todo - {k}; }
    if IsOfKind(r, k, id, kind) { assert k !in todo - {k}; }
  }

  lemma ShareStep(r: map<RequestKey, Remembered>, todo: set<RequestKey>, k: RequestKey, g: Uuid)
    requires k in todo
    ensures (exists j :: j !in todo - {k} && IsShareOf(r, j, g)) <==> (exists j :: j !in todo && IsShareOf(r, j, g)) || IsShareOf(r, k, g)
  {
    if j :| j !in todo && IsShareOf(r, j, g) { assert j !in todo - {k}; }
    if IsShareOf(r, k, g) { assert k !in todo - {k}; }
  }

  /** A receipt passes with the ones before it exactly when it can be added to their tally. */
  lemma AddsExactly(app: App, todo: set<RequestKey>, t: Tally, k: RequestKey)
    requires PartReceipts(app, todo) && Tallies(app.requests, todo, t) && k in todo && k in app.requests
    ensures Adds(app, t, k) <==> PartReceipts(app, todo - {k})
  {
    var c := app.requests[k];
    if ReceiptOk(app, k) {
      if (c.result.record, c.result.revision) in t.revisions {
        var j :| j !in todo && IsReceipt(app.requests, j, c.result.record, c.result.revision);
        assert j !in todo - {k} && k !in todo - {k} && j != k;
      } else if c.kind == KShare && c.result.grant.value in t.shares {
        var j :| j !in todo && IsShareOf(app.requests, j, c.result.grant.value);
        assert j !in todo - {k} && k !in todo - {k} && j != k;
      } else {
        AddedPasses(app, todo, t, k);
      }
    } else {
      assert k !in todo - {k};
    }
  }

  lemma AddedPasses(app: App, todo: set<RequestKey>, t: Tally, k: RequestKey)
    requires PartReceipts(app, todo) && Tallies(app.requests, todo, t) && k in todo && k in app.requests && Adds(app, t, k)
    ensures PartReceipts(app, todo - {k})
  {
    var c := app.requests[k];
    assert c.kind == KShare ==> c.result.grant.Some?;
    hide Ledger.RequestOk;
    forall j | j in app.requests && j !in todo
      ensures !(app.requests[j].result.record == c.result.record && app.requests[j].result.revision == c.result.revision)
      ensures !(app.requests[j].kind == KShare && c.kind == KShare && app.requests[j].result.grant == c.result.grant)
    {
      assert !IsReceipt(app.requests, j, c.result.record, c.result.revision);
      assert c.kind == KShare ==> !IsShareOf(app.requests, j, c.result.grant.value);
    }
  }

  lemma PartReceiptsSmaller(app: App, todo: set<RequestKey>)
    requires RequestsOk(app) && RevisionsDistinct(app.requests) && SharesDistinct(app.requests)
    ensures PartReceipts(app, todo)
  {}

  const NO_TALLY := Tally({}, {}, {}, {}, {})

  method ScanReceipts(app: App) returns (ok: bool, t: Tally)
    ensures ok <==> RequestsOk(app) && RevisionsDistinct(app.requests) && SharesDistinct(app.requests)
    ensures ok ==> Tallies(app.requests, {}, t)
  {
    t := NO_TALLY;
    var todo := app.requests.Keys;
    assert Tallies(app.requests, todo, t) by {
      forall k | k !in todo ensures k !in app.requests {}
    }
    while todo != {}
      invariant todo <= app.requests.Keys && Tallies(app.requests, todo, t) && PartReceipts(app, todo)
      decreases |todo|
    {
      var k :| k in todo;
      AddsExactly(app, todo, t, k);
      if !Adds(app, t, k) {
        if RequestsOk(app) && RevisionsDistinct(app.requests) && SharesDistinct(app.requests) { PartReceiptsSmaller(app, todo - {k}); }
        return false, t;
      }
      TallyStep(app, todo, t, k, Added(t, app.requests[k]));
      t := Added(t, app.requests[k]);
      todo := todo - {k};
    }
    PartReceiptsAll(app);
    return true, t;
  }

  lemma PartReceiptsAll(app: App)
    requires PartReceipts(app, {})
    ensures RequestsOk(app) && RevisionsDistinct(app.requests) && SharesDistinct(app.requests)
  {
    forall k | k in app.requests ensures ReceiptOk(app, k) {}
  }

  // ----- baselines -----

  predicate BaselineEntryOk(app: App, id: Uuid)
    requires id in app.baselines
  {
    && id in app.records && BaselineOk(app.records[id], app.baselines[id])
    && forall g | g in app.baselines[id].prunedGrants :: g in app.grants && app.grants[g].record == id && !HasShare(app.requests, g)
  }

  /** Checks the baselines and collects the grants they account for. */
  method ScanBaselines(app: App) returns (ok: bool, accounted: set<Uuid>)
    ensures ok <==> BaselinesOk(app)
    ensures ok ==> forall g :: g in accounted <==> exists id :: id in app.baselines && g in app.baselines[id].prunedGrants
  {
    accounted := {};
    var todo := app.baselines.Keys;
    while todo != {}
      invariant todo <= app.baselines.Keys
      invariant forall id | id in app.baselines && id !in todo :: BaselineEntryOk(app, id)
      invariant forall g :: g in accounted <==> exists id :: id in app.baselines && id !in todo && g in app.baselines[id].prunedGrants
      decreases |todo|
    {
      var id :| id in todo;
      if !BaselineEntryOk(app, id) { return false, {}; }
      accounted := accounted + app.baselines[id].prunedGrants;
      todo := todo - {id};
    }
    forall id | id in app.baselines ensures BaselineEntryOk(app, id) {}
    return true, accounted;
  }

  // ----- the account of each record -----

  function RevisionsOf(t: Tally, id: Uuid): set<U64> { set p | p in t.revisions && p.0 == id :: p.1 }

  function PatchesOf(t: Tally, id: Uuid): set<U64> { set p | p in t.patches && p.0 == id :: p.1 }

  /** The revisions are exactly `from..=to`. */
  predicate Spans(revisions: set<U64>, from: int, to: int)
  {
    (forall n | n in revisions :: from <= n <= to) && forall n: int | from <= n <= to :: n in revisions
  }

  /** The comparison the source makes for one record: deletions, contiguous revisions, and the secret version. */
  predicate Balances(app: App, t: Tally, id: Uuid)
    requires id in app.records
  {
    var r, b := app.records[id], BaseOf(app.baselines, id);
    var versions, patches := RevisionsOf(t, id), |PatchesOf(t, id)|;
    && (if !r.deleted then id !in t.deletes && !b.deletePruned
        else if b.through == 0 then id in t.deletes
        else b.deletePruned != (id in t.deletes))
    && (if b.through == r.revision then b.through > 0 && versions == {} && id !in t.creates && b.secretVersion == r.secretVersion
        else Spans(versions, b.through + 1, r.revision)
             && (if b.through == 0 then id in t.creates && r.secretVersion == 1 + patches
                 else id !in t.creates && r.secretVersion == b.secretVersion + patches))
  }

  lemma TalliedKinds(app: App, t: Tally, id: Uuid)
    requires Tallies(app.requests, {}, t)
    ensures id in t.creates <==> HasKind(app.requests, id, KCreate)
    ensures id in t.deletes <==> HasKind(app.requests, id, KDelete)
  {}

  lemma TalliedRevisions(app: App, t: Tally, id: Uuid, n: U64)
    requires Tallies(app.requests, {}, t)
    ensures n in RevisionsOf(t, id) <==> HasRevision(app.requests, id, n)
  {
    if n in RevisionsOf(t, id) { assert (id, n) in t.revisions; }
    if HasRevision(app.requests, id, n) { assert (id, n) in t.revisions; }
  }

  lemma ReceiptBounds(app: App, id: Uuid, k: RequestKey)
    requires RequestsOk(app) && id in app.records && k in app.requests && app.requests[k].result.record == id
    ensures Through(app.baselines, id) < app.requests[k].result.revision <= app.records[id].revision
    ensures app.requests[k].kind == KCreate ==> app.requests[k].result.revision == 1
  {
    assert RequestOk(app.tasks[k.task], app.records[id], Through(app.baselines, id), app.grants, k, app.requests[k]);
  }

  lemma ContiguousIsSpan(app: App, t: Tally, id: Uuid)
    requires Tallies(app.requests, {}, t) && RequestsOk(app) && id in app.records && Through(app.baselines, id) <= app.records[id].revision
    ensures var b, r := BaseOf(app.baselines, id), app.records[id];
      Contiguous(app.requests, b, id, r) <==> Spans(RevisionsOf(t, id), b.through + 1, r.revision)
  {
    var b, r := BaseOf(app.baselines, id), app.records[id];
    forall n: U64 ensures n in RevisionsOf(t, id) <==> HasRevision(app.requests, id, n) { TalliedRevisions(app, t, id, n); }
    forall n | n in RevisionsOf(t, id) ensures b.through < n <= r.revision {
      var k :| IsReceipt(app.requests, k, id, n);
      ReceiptBounds(app, id, k);
    }
    if Spans(RevisionsOf(t, id), b.through + 1, r.revision) {
      forall n | b.through < n <= r.revision ensures HasRevision(app.requests, id, n) { assert n in RevisionsOf(t, id); }
    }
  }

  function RevisionOf(requests: map<RequestKey, Remembered>, k: RequestKey): U64
    requires k in requests
  {
    requests[k].result.revision
  }

  lemma {:induction false} SameSize(requests: map<RequestKey, Remembered>, keys: set<RequestKey>, revisions: set<U64>)
    requires keys <= requests.Keys && revisions == set k | k in keys :: RevisionOf(requests, k)
    requires forall j, k | j in keys && k in keys && RevisionOf(requests, j) == RevisionOf(requests, k) :: j == k
    ensures |revisions| == |keys|
    decreases |keys|
  {
    if keys != {} {
      var k :| k in keys;
      SameSize(requests, keys - {k}, revisions - {RevisionOf(requests, k)});
    }
  }

  /** Distinct patch revisions count the patch receipts. */
  lemma PatchesCounted(app: App, t: Tally, id: Uuid)
    requires Tallies(app.requests, {}, t) && RevisionsDistinct(app.requests)
    ensures |PatchesOf(t, id)| == |KeysOfKind(app.requests, id, KPatch)|
  {
    var keys, revisions := KeysOfKind(app.requests, id, KPatch), PatchesOf(t, id);
    forall n: U64 ensures n in revisions <==> n in set k | k in keys :: RevisionOf(app.requests, k) {
      if n in revisions {
        assert (id, n) in t.patches;
        var k :| IsReceipt(app.requests, k, id, n) && app.requests[k].kind == KPatch;
        assert k in keys && RevisionOf(app.requests, k) == n;
      }
      if k :| k in keys && RevisionOf(app.requests, k) == n {
        assert IsReceipt(app.requests, k, id, n) && (id, n) in t.patches;
      }
    }
    SameSize(app.requests, keys, revisions);
  }

  lemma BalancedDeletes(app: App, t: Tally, id: Uuid)
    requires Tallies(app.requests, {}, t) && id in app.records
    ensures var r, b := app.records[id], BaseOf(app.baselines, id);
      DeleteAccountOk(app.requests, b, id, r)
      == (if !r.deleted then id !in t.deletes && !b.deletePruned else if b.through == 0 then id in t.deletes else b.deletePruned != (id in t.deletes))
  {
    TalliedKinds(app, t, id);
  }

  lemma NoReceiptsAtTheTop(app: App, t: Tally, id: Uuid)
    requires Tallies(app.requests, {}, t) && RequestsOk(app) && id in app.records && Through(app.baselines, id) == app.records[id].revision
    ensures RevisionsOf(t, id) == {} && id !in t.creates && KeysOfKind(app.requests, id, KPatch) == {}
  {
    forall k | k in app.requests ensures app.requests[k].result.record != id {
      if app.requests[k].result.record == id { ReceiptBounds(app, id, k); }
    }
    TalliedKinds(app, t, id);
    forall n | n in RevisionsOf(t, id) ensures false { TalliedRevisions(app, t, id, n); }
  }

  lemma CreatedAtOne(app: App, t: Tally, id: Uuid)
    requires Tallies(app.requests, {}, t) && RequestsOk(app) && id in app.records && id in t.creates
    ensures Through(app.baselines, id) == 0
  {
    TalliedKinds(app, t, id);
    var k :| IsOfKind(app.requests, k, id, KCreate);
    ReceiptBounds(app, id, k);
  }

  /** The comparison accepts a record exactly when its account is in order. */
  lemma BalancesExactly(app: App, t: Tally, id: Uuid)
    requires Tallies(app.requests, {}, t) && RequestsOk(app) && RevisionsDistinct(app.requests)
    requires id in app.records && 0 < app.records[id].revision && Through(app.baselines, id) <= app.records[id].revision
    ensures Balances(app, t, id) <==> AccountOk(app.requests, BaseOf(app.baselines, id), id, app.records[id])
  {
    hide Ledger.RequestsOk;
    var r, b := app.records[id], BaseOf(app.baselines, id);
    BalancedDeletes(app, t, id);
    ContiguousIsSpan(app, t, id);
    PatchesCounted(app, t, id);
    TalliedKinds(app, t, id);
    if b.through == r.revision {
      NoReceiptsAtTheTop(app, t, id);
    } else if id in t.creates {
      CreatedAtOne(app, t, id);
    }
  }

  method CheckAccounts(app: App, t: Tally) returns (ok: bool)
    requires Tallies(app.requests, {}, t) && RequestsOk(app) && RevisionsDistinct(app.requests) && BaselinesOk(app)
    requires forall id | id in app.records :: 0 < app.records[id].revision
    ensures ok <==> AccountsOk(app)
  {
    var todo := app.records.Keys;
    while todo != {}
      invariant todo <= app.records.Keys
      invariant forall id | id in app.records && id !in todo :: AccountOk(app.requests, BaseOf(app.baselines, id), id, app.records[id])
      decreases |todo|
    {
      var id :| id in todo;
      ThroughBelow(app, id);
      BalancesExactly(app, t, id);
      if !Balances(app, t, id) { return false; }
      todo := todo - {id};
    }
    return true;
  }

  lemma ThroughBelow(app: App, id: Uuid)
    requires BaselinesOk(app) && id in app.records
    ensures Through(app.baselines, id) <= app.records[id].revision
  {
    if id in app.baselines { assert BaselineOk(app.records[id], app.baselines[id]); }
  }

  // ----- every grant accounted once -----

  lemma CountsExactly(whole: set<Uuid>, shares: set<Uuid>, accounted: set<Uuid>)
    requires shares <= whole && accounted <= whole
    ensures |shares| + |accounted| == |whole| && shares !! accounted <==> shares + accounted == whole && shares !! accounted
  {
    if shares !! accounted {
      assert |shares + accounted| == |shares| + |accounted|;
      if |shares + accounted| == |whole| { assert whole == (shares + accounted) + (whole - (shares + accounted)); }
    }
  }

  lemma SharesKnown(app: App, t: Tally, g: Uuid)
    requires Tallies(app.requests, {}, t) && RequestsOk(app) && g in t.shares
    ensures g in app.grants && HasShare(app.requests, g)
  {
    var k :| IsShareOf(app.requests, k, g);
    assert ReceiptOk(app, k);
  }

  lemma AccountedApart(app: App, t: Tally, accounted: set<Uuid>)
    requires Tallies(app.requests, {}, t) && RequestsOk(app) && BaselinesOk(app)
    requires forall g :: g in accounted <==> exists id :: id in app.baselines && g in app.baselines[id].prunedGrants
    ensures t.shares <= app.grants.Keys && accounted <= app.grants.Keys && t.shares !! accounted
  {
    forall g | g in t.shares ensures g in app.grants && g !in accounted { SharesKnown(app, t, g); }
    forall g | g in accounted ensures g in app.grants {
      var id :| id in app.baselines && g in app.baselines[id].prunedGrants;
    }
  }

  lemma AccountedExactly(app: App, t: Tally, accounted: set<Uuid>, g: Uuid)
    requires Tallies(app.requests, {}, t) && BaselinesOk(app) && g in app.grants
    requires forall g :: g in accounted <==> exists id :: id in app.baselines && g in app.baselines[id].prunedGrants
    ensures g in t.shares + accounted <==> HasShare(app.requests, g) || g in BaseOf(app.baselines, app.grants[g].record).prunedGrants
  {
    if g in accounted {
      var id :| id in app.baselines && g in app.baselines[id].prunedGrants;
    }
    if k :| IsShareOf(app.requests, k, g) { assert k !in {}; }
  }

  /** Counting shared and pruned grants accepts exactly when every grant is accounted. */
  lemma GrantCountExactly(app: App, t: Tally, accounted: set<Uuid>)
    requires Tallies(app.requests, {}, t) && RequestsOk(app) && BaselinesOk(app)
    requires forall g :: g in accounted <==> exists id :: id in app.baselines && g in app.baselines[id].prunedGrants
    ensures |t.shares| + |accounted| == |app.grants| && t.shares !! accounted <==> GrantsAccounted(app)
  {
    AccountedApart(app, t, accounted);
    CountsExactly(app.grants.Keys, t.shares, accounted);
    AccountedWhole(app, t, accounted);
  }

  lemma AccountedWhole(app: App, t: Tally, accounted: set<Uuid>)
    requires Tallies(app.requests, {}, t) && BaselinesOk(app) && t.shares <= app.grants.Keys && accounted <= app.grants.Keys
    requires forall g :: g in accounted <==> exists id :: id in app.baselines && g in app.baselines[id].prunedGrants
    ensures t.shares + accounted == app.grants.Keys <==> GrantsAccounted(app)
  {
    forall g | g in app.grants
      ensures g in t.shares + accounted <==> HasShare(app.requests, g) || g in BaseOf(app.baselines, app.grants[g].record).prunedGrants
    {
      AccountedExactly(app, t, accounted, g);
    }
  }

  // ----- deliveries -----

  predicate OneDeliveryOk(app: App, id: Uuid)
    requires id in app.deliveries
  {
    && app.deliveries[id].task in app.tasks && app.deliveries[id].record in app.records
    && DeliveryOk(app.tasks[app.deliveries[id].task], app.records[app.deliveries[id].record], id, app.deliveries[id])
    && app.deliveries[id].key !in app.requests
  }

  predicate Clash(x: Delivery, y: Delivery) { x.key == y.key || (x.record == y.record && Registers(x) && Registers(y)) }

  ghost predicate PartDistinct(deliveries: map<Uuid, Delivery>, todo: set<Uuid>)
  {
    forall a, b | a in deliveries && b in deliveries && a !in todo && b !in todo && Clash(deliveries[a], deliveries[b]) :: a == b
  }

  /** The keys and the registered records of the deliveries outside `todo`. */
  ghost predicate Collected(deliveries: map<Uuid, Delivery>, todo: set<Uuid>, keys: set<RequestKey>, registered: set<Uuid>)
  {
    && (forall k :: k in keys <==> exists d :: d in deliveries && d !in todo && deliveries[d].key == k)
    && (forall id :: id in registered <==> exists d :: d in deliveries && d !in todo && deliveries[d].record == id && Registers(deliveries[d]))
  }

  lemma DistinctStep(deliveries: map<Uuid, Delivery>, todo: set<Uuid>, keys: set<RequestKey>, registered: set<Uuid>, d: Uuid)
    requires Collected(deliveries, todo, keys, registered) && PartDistinct(deliveries, todo) && d in todo && d in deliveries
    ensures PartDistinct(deliveries, todo - {d}) <==> deliveries[d].key !in keys && (Registers(deliveries[d]) ==> deliveries[d].record !in registered)
  {
    if deliveries[d].key in keys {
      var e :| e in deliveries && e !in todo && deliveries[e].key == deliveries[d].key;
      assert Clash(deliveries[e], deliveries[d]) && e !in todo - {d} && d !in todo - {d} && e != d;
    } else if Registers(deliveries[d]) && deliveries[d].record in registered {
      var e :| e in deliveries && e !in todo && deliveries[e].record == deliveries[d].record && Registers(deliveries[e]);
      assert Clash(deliveries[e], deliveries[d]) && e !in todo - {d} && d !in todo - {d} && e != d;
    }
  }

  lemma CollectStep(deliveries: map<Uuid, Delivery>, todo: set<Uuid>, keys: set<RequestKey>, registered: set<Uuid>, d: Uuid)
    requires Collected(deliveries, todo, keys, registered) && d in todo && d in deliveries
    ensures Collected(deliveries, todo - {d}, keys + {deliveries[d].key},
                      if Registers(deliveries[d]) then registered + {deliveries[d].record} else registered)
  {
    forall e | e in deliveries ensures e !in todo - {d} <==> e !in todo || e == d {}
  }

  lemma DistinctAll(deliveries: map<Uuid, Delivery>, todo: set<Uuid>)
    requires DeliveriesDistinct(deliveries)
    ensures PartDistinct(deliveries, todo)
  {}

  lemma DistinctWhole(deliveries: map<Uuid, Delivery>)
    requires PartDistinct(deliveries, {})
    ensures DeliveriesDistinct(deliveries)
  {
    forall a, b | a in deliveries && b in deliveries &&
      (|| deliveries[a].key == deliveries[b].key
       || (deliveries[a].record == deliveries[b].record && Registers(deliveries[a]) && Registers(deliveries[b])))
      ensures a == b
    {
      assert Clash(deliveries[a], deliveries[b]);
    }
  }

  method CheckDeliveries(app: App) returns (ok: bool)
    ensures ok <==> DeliveriesOk(app) && DeliveriesDistinct(app.deliveries)
  {
    var keys: set<RequestKey>, registered: set<Uuid> := {}, {};
    var todo := app.deliveries.Keys;
    while todo != {}
      invariant todo <= app.deliveries.Keys && Collected(app.deliveries, todo, keys, registered)
      invariant PartDistinct(app.deliveries, todo) && PartDeliveries(app, todo)
      decreases |todo|
    {
      var d :| d in todo;
      var attempt := app.deliveries[d];
      OneMoreDelivery(app, todo, keys, registered, d);
      if !OneDeliveryOk(app, d) || attempt.key in keys || (Registers(attempt) && attempt.record in registered) { return false; }
      keys := keys + {attempt.key};
      if Registers(attempt) { registered := registered + {attempt.record}; }
      todo := todo - {d};
    }
    DistinctWhole(app.deliveries);
    DeliveriesWhole(app);
    return true;
  }

  ghost predicate PartDeliveries(app: App, todo: set<Uuid>)
  {
    forall id | id in app.deliveries && id !in todo :: OneDeliveryOk(app, id)
  }

  lemma DeliveriesWhole(app: App)
    requires PartDeliveries(app, {})
    ensures DeliveriesOk(app)
  {
    forall id | id in app.deliveries ensures OneDeliveryOk(app, id) {}
  }

  lemma OneMoreDelivery(app: App, todo: set<Uuid>, keys: set<RequestKey>, registered: set<Uuid>, d: Uuid)
    requires Collected(app.deliveries, todo, keys, registered) && PartDistinct(app.deliveries, todo) && PartDeliveries(app, todo)
    requires d in todo && d in app.deliveries
    ensures var attempt := app.deliveries[d];
      if !OneDeliveryOk(app, d) || attempt.key in keys || (Registers(attempt) && attempt.record in registered)
      then !(DeliveriesOk(app) && DeliveriesDistinct(app.deliveries))
      else && PartDistinct(app.deliveries, todo - {d}) && PartDeliveries(app, todo - {d})
           && Collected(app.deliveries, todo - {d}, keys + {attempt.key}, if Registers(attempt) then registered + {attempt.record} else registered)
  {
    DistinctStep(app.deliveries, todo, keys, registered, d);
    CollectStep(app.deliveries, todo, keys, registered, d);
    if DeliveriesDistinct(app.deliveries) { DistinctAll(app.deliveries, todo - {d}); }
  }

  // ----- verified logins and audit events -----

  method CheckVerified(app: App) returns (ok: bool)
    ensures ok <==> VerifiedOk(app)
  {
    var todo := app.records.Keys;
    while todo != {}
      invariant todo <= app.records.Keys
      invariant forall id | id in app.records && id !in todo && app.records[id].signup == VerifiedLogin ::
        || BaseOf(app.baselines, id).verifiedLogin
        || exists d | d in app.deliveries :: Verifies(app.deliveries[d], id, app.records[id].secretVersion)
      decreases |todo|
    {
      var id :| id in todo;
      var r := app.records[id];
      if r.signup == VerifiedLogin && !BaseOf(app.baselines, id).verifiedLogin
         && !(exists d | d in app.deliveries :: Verifies(app.deliveries[d], id, r.secretVersion))
      {
        return false;
      }
      todo := todo - {id};
    }
    return true;
  }

  method CheckAudit(app: App) returns (ok: bool)
    ensures ok <==> AuditOk(app)
  {
    for i := 0 to |app.audit|
      invariant forall j | 0 <= j < i :: EventOk(app, app.audit[j])
    {
      if !EventOk(app, app.audit[i]) { return false; }
    }
    return true;
  }

  // ----- the whole check -----

  method CheckStructure(app: App) returns (ok: bool)
    ensures ok <==> StructureOk(app)
  {
    if !HeaderOk(app) || !LimitsOk(app) || !(app.revokedTasks <= app.tasks.Keys) { return false; }
    ok := CheckTasks(app.tasks);
    if !ok { return; }
    ok := CheckRecords(app.tasks, app.records);
    if !ok { return; }
    ok := CheckGrants(app.tasks, app.records, app.grants);
  }

  lemma RevisionsPositive(tasks: map<Uuid, Task>, records: map<Uuid, Record>)
    requires RecordsOk(tasks, records)
    ensures forall id | id in records :: 0 < records[id].revision
  {
    forall id | id in records ensures 0 < records[id].revision { assert RecordOk(tasks[records[id].task], id, records[id]); }
  }

  method CheckReceipts(app: App) returns (ok: bool)
    requires RecordsOk(app.tasks, app.records)
    ensures ok <==> ReceiptsOk(app)
  {
    var t: Tally;
    ok, t := ScanReceipts(app);
    if !ok { return; }
    var accounted: set<Uuid>;
    ok, accounted := ScanBaselines(app);
    if !ok { return; }
    RevisionsPositive(app.tasks, app.records);
    GrantCountExactly(app, t, accounted);
    ok := CheckAccounts(app, t);
    ok := ok && |t.shares| + |accounted| == |app.grants| && t.shares !! accounted;
  }

  method CheckActivity(app: App) returns (ok: bool)
    ensures ok <==> ActivityOk(app)
  {
    ok := CheckDeliveries(app);
    if !ok { return; }
    ok := CheckVerified(app);
    if !ok { return; }
    ok := CheckAudit(app);
  }

  /** The validator accepts exactly the applications that satisfy the ledger invariant. */
  method Validate(app: App) returns (ok: bool)
    ensures ok <==> Valid(app)
  {
    ValidIs(app);
    ok := CheckStructure(app);
    if !ok { return; }
    ok := CheckReceipts(app);
    if !ok { return; }
    ok := CheckActivity(app);
  }
}
