/** How receipts move the ledger: the parts of the invariant under one new receipt, one new record,
    an appended audit event, and changes outside the ledger proper. */
module Preservation {
  import opened Types
  import opened Policy
  import opened Ledger
  import opened CompactionLedger

  // ----- changes outside the ledger proper -----

  /** `b` is `a` up to clock, generation and predecessor, with a high-water mark at least as late. */
  ghost predicate SameBooks(a: App, b: App)
  {
    b == a.(lastTime := b.lastTime, clockFrozen := b.clockFrozen, generation := b.generation, predecessor := b.predecessor)
  }

  lemma SameBooksReceipts(a: App, b: App)
    requires SameBooks(a, b) && ReceiptsOk(a)
    ensures ReceiptsOk(b)
  {}

  lemma SameBooksActivity(a: App, b: App)
    requires SameBooks(a, b) && ActivityOk(a)
    requires forall i | 0 <= i < |a.audit| && !Legacy(a.audit[i]) :: b.lastTime.Some? && a.audit[i].at <= b.lastTime.value
    ensures ActivityOk(b)
  {}

  /** Books are valid again under a later high-water mark. */
  lemma SameBooksValid(a: App, b: App)
    requires SameBooks(a, b) && Valid(a) && HeaderOk(b)
    requires a.lastTime.Some? ==> b.lastTime.Some? && a.lastTime.value <= b.lastTime.value
    ensures Valid(b)
  {
    ValidIs(a);
    ValidIs(b);
    SameBooksReceipts(a, b);
    forall i | 0 <= i < |a.audit| && !Legacy(a.audit[i]) ensures b.lastTime.Some? && a.audit[i].at <= b.lastTime.value {
      assert EventOk(a, a.audit[i]);
    }
    SameBooksActivity(a, b);
  }

  /** A clock sample never lowers the high-water mark, and an accepted one makes it the effective time. */
  lemma ClockKeepsBooks(app: App, now: Time)
    requires HeaderOk(app)
    ensures var c := Clock(app, now);
      && SameBooks(app, c.app) && HeaderOk(c.app)
      && (app.lastTime.Some? ==> c.app.lastTime.Some? && app.lastTime.value <= c.app.lastTime.value)
      && (c.result.Ok? ==> c.app.lastTime == Some(c.result.value) && !c.app.clockFrozen)
  {}

  lemma ClockKeepsValid(app: App, now: Time)
    requires Valid(app)
    ensures Valid(Clock(app, now).app)
  {
    ValidIs(app);
    ClockKeepsBooks(app, now);
    SameBooksValid(app, Clock(app, now).app);
  }

  // ----- an appended audit event -----

  lemma AuditReceipts(app: App, e: AuditEvent)
    ensures RequestsOk(Audit(app, e)) <==> RequestsOk(app)
    ensures BaselinesOk(Audit(app, e)) <==> BaselinesOk(app)
    ensures ReceiptsOk(app) ==> ReceiptsOk(Audit(app, e))
  {}

  lemma AuditEvents(app: App, e: AuditEvent)
    requires AuditOk(app)
    ensures AuditOk(Audit(app, e)) <==> EventOk(app, e)
  {
    var b := Audit(app, e);
    forall x: AuditEvent ensures EventOk(b, x) <==> EventOk(app, x) {}
    forall i | 0 <= i < |b.audit| - 1 ensures EventOk(b, b.audit[i]) {
      var j := if |app.audit| == LIMIT then i + 1 else i;
      assert EventOk(app, app.audit[j]);
    }
    assert b.audit[|b.audit| - 1] == e;
  }

  lemma AuditActivity(app: App, e: AuditEvent)
    requires ActivityOk(app)
    ensures ActivityOk(Audit(app, e)) <==> EventOk(app, e)
  {
    var b := Audit(app, e);
    assert DeliveriesOk(b);
    assert VerifiedOk(b);
    AuditEvents(app, e);
  }

  lemma AuditStructure(app: App, e: AuditEvent)
    requires StructureOk(app)
    ensures StructureOk(Audit(app, e))
  {}

  lemma AuditKeepsValid(app: App, e: AuditEvent)
    requires Valid(app)
    ensures Valid(Audit(app, e)) <==> EventOk(app, e)
  {
    ValidIs(app);
    ValidIs(Audit(app, e));
    AuditStructure(app, e);
    AuditReceipts(app, e);
    AuditActivity(app, e);
  }

  // ----- one new receipt on an existing record -----

  /** The grants after the step: old ones at most revoked, and the new one of a share. */
  ghost predicate GrantsAdvance(before: map<Uuid, Grant>, after: map<Uuid, Grant>, entry: Remembered)
  {
    && before.Keys <= after.Keys
    && (forall g | g in before :: after[g] == before[g] || after[g] == before[g].(revoked := true))
    && (entry.kind == KShare ==>
          entry.result.grant.Some? && entry.result.grant.value !in before && after.Keys == before.Keys + {entry.result.grant.value})
    && (entry.kind != KShare ==> after.Keys == before.Keys)
  }

  ghost predicate RecordAdvances(r: Record, r1: Record, entry: Remembered)
  {
    && r1 == r.(revision := r1.revision, secretVersion := r1.secretVersion, values := r1.values, signup := r1.signup, deleted := r1.deleted)
    && r1.revision == r.revision + 1
    && r1.secretVersion == r.secretVersion + (if entry.kind == KPatch then 1 else 0)
    && !r.deleted && (r1.deleted <==> entry.kind == KDelete)
    && (!r1.deleted ==> r.values.Keys <= r1.values.Keys)
    && (r1.signup == r.signup || r1.signup != VerifiedLogin)
    && (entry.kind == KPatch ==> r1.signup != VerifiedLogin)
  }

  ghost predicate Advances(a: App, b: App, key: RequestKey, entry: Remembered, r1: Record)
  {
    && entry.result.record in a.records && RecordAdvances(a.records[entry.result.record], r1, entry)
    && entry.kind != KCreate && entry.result.revision == r1.revision && key !in a.requests
    && GrantsAdvance(a.grants, b.grants, entry)
    && b == a.(records := a.records[entry.result.record := r1], requests := a.requests[key := entry], grants := b.grants)
  }

  lemma AdvanceGrants(a: App, b: App, key: RequestKey, entry: Remembered, r1: Record)
    requires Advances(a, b, key, entry, r1) && GrantsOk(a.tasks, a.records, a.grants)
    requires entry.kind == KShare ==>
      var g := entry.result.grant.value;
      b.grants[g].record == r1.id == entry.result.record && b.grants[g].issuerTask in a.tasks && GrantOk(a.tasks[b.grants[g].issuerTask], r1, g, b.grants[g])
    requires entry.kind == KDelete ==> forall g | g in b.grants && b.grants[g].record == entry.result.record :: b.grants[g].revoked
    ensures GrantsOk(b.tasks, b.records, b.grants)
  {}

  lemma AdvanceRequests(a: App, b: App, key: RequestKey, entry: Remembered, r1: Record)
    requires Advances(a, b, key, entry, r1) && RequestsOk(a)
    requires key.task in a.tasks
    requires RequestOk(a.tasks[key.task], r1, Through(a.baselines, entry.result.record), b.grants, key, entry)
    ensures RequestsOk(b)
  {}

  lemma AdvanceDistinct(a: App, b: App, key: RequestKey, entry: Remembered, r1: Record)
    requires Advances(a, b, key, entry, r1) && RequestsOk(a) && RevisionsDistinct(a.requests) && SharesDistinct(a.requests)
    ensures RevisionsDistinct(b.requests) && SharesDistinct(b.requests)
  {}

  /** The one place a step can fail the ledger: a sealed verified login must keep its signup state. */
  ghost predicate MovesSealed(a: App, id: Uuid, signup: Signup)
  {
    BaseOf(a.baselines, id).verifiedLogin && signup != VerifiedLogin
  }

  lemma AdvanceBaselines(a: App, b: App, key: RequestKey, entry: Remembered, r1: Record)
    requires Advances(a, b, key, entry, r1) && BaselinesOk(a)
    ensures BaselinesOk(b) <==> !MovesSealed(a, entry.result.record, r1.signup)
  {
    forall id | id in a.baselines
      ensures id != entry.result.record || !MovesSealed(a, id, r1.signup) ==> BaselineOk(b.records[id], b.baselines[id])
      ensures forall g | g in a.baselines[id].prunedGrants :: g in b.grants && b.grants[g].record == id && !HasShare(b.requests, g)
    {
      assert BaselineOk(a.records[id], a.baselines[id]);
      forall g | g in a.baselines[id].prunedGrants
        ensures g in b.grants && b.grants[g].record == id && !HasShare(b.requests, g)
      {
        assert g in a.grants && !HasShare(a.requests, g);
        forall k ensures !IsShareOf(b.requests, k, g) {
          assert !IsShareOf(a.requests, k, g);
        }
      }
    }
    if MovesSealed(a, entry.result.record, r1.signup) {
      assert !BaselineOk(b.records[entry.result.record], b.baselines[entry.result.record]);
    }
  }

  lemma OtherAccountsKept(a: App, b: App, key: RequestKey, entry: Remembered, id: Uuid)
    requires key !in a.requests && b.requests == a.requests[key := entry] && entry.result.record != id
    requires id in a.records && AccountOk(a.requests, BaseOf(a.baselines, id), id, a.records[id])
    ensures AccountOk(b.requests, BaseOf(a.baselines, id), id, a.records[id])
  {
    forall kind ensures HasKind(b.requests, id, kind) == HasKind(a.requests, id, kind) {
      if k :| IsOfKind(a.requests, k, id, kind) { assert IsOfKind(b.requests, k, id, kind); }
      if k :| IsOfKind(b.requests, k, id, kind) { assert IsOfKind(a.requests, k, id, kind); }
    }
    forall n ensures HasRevision(a.requests, id, n) ==> HasRevision(b.requests, id, n) {
      if k :| IsReceipt(a.requests, k, id, n) { assert IsReceipt(b.requests, k, id, n); }
    }
    assert KeysOfKind(b.requests, id, KPatch) == KeysOfKind(a.requests, id, KPatch);
  }

  lemma PatchCountAdvances(a: App, b: App, key: RequestKey, entry: Remembered)
    requires key !in a.requests && b.requests == a.requests[key := entry]
    ensures |KeysOfKind(b.requests, entry.result.record, KPatch)|
            == |KeysOfKind(a.requests, entry.result.record, KPatch)| + (if entry.kind == KPatch then 1 else 0)
  {
    PatchKeysAdvance(a.requests, key, entry);
  }

  lemma PatchKeysAdvance(requests: map<RequestKey, Remembered>, key: RequestKey, entry: Remembered)
    requires key !in requests
    ensures var before, after := KeysOfKind(requests, entry.result.record, KPatch), KeysOfKind(requests[key := entry], entry.result.record, KPatch);
      after == (if entry.kind == KPatch then before + {key} else before) && key !in before
  {}

  lemma DeleteAccountAdvances(a: App, b: App, key: RequestKey, entry: Remembered, r1: Record)
    requires Advances(a, b, key, entry, r1)
    requires DeleteAccountOk(a.requests, BaseOf(a.baselines, entry.result.record), entry.result.record, a.records[entry.result.record])
    ensures DeleteAccountOk(b.requests, BaseOf(a.baselines, entry.result.record), entry.result.record, r1)
  {
    var id := entry.result.record;
    if entry.kind == KDelete {
      assert IsOfKind(b.requests, key, id, KDelete);
    } else if k :| IsOfKind(b.requests, k, id, KDelete) {
      assert IsOfKind(a.requests, k, id, KDelete);
    }
  }

  lemma AccountAdvances(a: App, b: App, key: RequestKey, entry: Remembered, r1: Record)
    requires Advances(a, b, key, entry, r1)
    requires AccountOk(a.requests, BaseOf(a.baselines, entry.result.record), entry.result.record, a.records[entry.result.record])
    ensures AccountOk(b.requests, BaseOf(b.baselines, entry.result.record), entry.result.record, r1)
  {
    var id := entry.result.record;
    DeleteAccountAdvances(a, b, key, entry, r1);
    PatchCountAdvances(a, b, key, entry);
    if k :| IsOfKind(a.requests, k, id, KCreate) { assert IsOfKind(b.requests, k, id, KCreate); }
    forall n | BaseOf(a.baselines, id).through < n <= r1.revision ensures HasRevision(b.requests, id, n) {
      if n == r1.revision {
        assert IsReceipt(b.requests, key, id, n);
      } else {
        assert HasRevision(a.requests, id, n);
        var k :| IsReceipt(a.requests, k, id, n);
        assert IsReceipt(b.requests, k, id, n);
      }
    }
  }

  lemma AdvanceAccounts(a: App, b: App, key: RequestKey, entry: Remembered, r1: Record)
    requires Advances(a, b, key, entry, r1) && AccountsOk(a)
    ensures AccountsOk(b)
  {
    forall id | id in b.records
      ensures AccountOk(b.requests, BaseOf(b.baselines, id), id, b.records[id])
    {
      assert AccountOk(a.requests, BaseOf(a.baselines, id), id, a.records[id]);
      if id == entry.result.record { AccountAdvances(a, b, key, entry, r1); }
      else { OtherAccountsKept(a, b, key, entry, id); }
    }
  }

  lemma AdvanceGrantsAccounted(a: App, b: App, key: RequestKey, entry: Remembered, r1: Record)
    requires Advances(a, b, key, entry, r1) && GrantsAccounted(a)
    ensures GrantsAccounted(b)
  {
    forall g | g in b.grants
      ensures HasShare(b.requests, g) || g in BaseOf(b.baselines, b.grants[g].record).prunedGrants
    {
      if g in a.grants {
        if k :| IsShareOf(a.requests, k, g) { assert IsShareOf(b.requests, k, g); }
      } else {
        assert IsShareOf(b.requests, key, g);
      }
    }
  }

  lemma AdvanceReceipts(a: App, b: App, key: RequestKey, entry: Remembered, r1: Record)
    requires Advances(a, b, key, entry, r1) && ReceiptsOk(a) && key.task in a.tasks
    requires RequestOk(a.tasks[key.task], r1, Through(a.baselines, entry.result.record), b.grants, key, entry)
    ensures ReceiptsOk(b) <==> !MovesSealed(a, entry.result.record, r1.signup)
  {
    AdvanceRequests(a, b, key, entry, r1);
    AdvanceDistinct(a, b, key, entry, r1);
    AdvanceBaselines(a, b, key, entry, r1);
    AdvanceAccounts(a, b, key, entry, r1);
    AdvanceGrantsAccounted(a, b, key, entry, r1);
  }

  lemma AdvanceActivity(a: App, b: App, key: RequestKey, entry: Remembered, r1: Record)
    requires Advances(a, b, key, entry, r1) && ActivityOk(a) && !DeliveryKeyUsed(a, key)
    ensures ActivityOk(b)
  {}

  lemma AdvanceSingleDelete(a: App, b: App, key: RequestKey, entry: Remembered, r1: Record)
    requires Advances(a, b, key, entry, r1) && RequestsOk(a) && SingleDelete(a.requests)
    ensures SingleDelete(b.requests)
  {}

  // ----- a new record with its create receipt -----

  ghost predicate Introduces(a: App, b: App, key: RequestKey, entry: Remembered, r: Record)
  {
    && r.id !in a.records && key !in a.requests && entry.kind == KCreate && entry.result == Receipt(r.id, 1, None)
    && r.revision == 1 && r.secretVersion == 1 && !r.deleted && r.signup == Pending && r.task == key.task && r.createdBy == key.principal
    && b == a.(records := a.records[r.id := r], requests := a.requests[key := entry])
  }

  lemma IntroduceRequests(a: App, b: App, key: RequestKey, entry: Remembered, r: Record)
    requires Introduces(a, b, key, entry, r) && RequestsOk(a) && BaselinesOk(a) && key.task in a.tasks
    requires key.id != NIL && key.owner == a.tasks[key.task].owner && key.principal == a.tasks[key.task].principal && SameScope(a.tasks[key.task], r)
    ensures RequestsOk(b)
  {}

  lemma IntroduceAccounts(a: App, b: App, key: RequestKey, entry: Remembered, r: Record)
    requires Introduces(a, b, key, entry, r) && RequestsOk(a) && BaselinesOk(a) && AccountsOk(a)
    ensures AccountsOk(b)
  {
    forall id | id in a.records ensures AccountOk(b.requests, BaseOf(b.baselines, id), id, b.records[id]) {
      assert AccountOk(a.requests, BaseOf(a.baselines, id), id, a.records[id]);
      OtherAccountsKept(a, b, key, entry, id);
    }
    IntroducedAccount(a, b, key, entry, r);
  }

  lemma IntroducedAccount(a: App, b: App, key: RequestKey, entry: Remembered, r: Record)
    requires Introduces(a, b, key, entry, r) && RequestsOk(a) && BaselinesOk(a)
    ensures AccountOk(b.requests, BaseOf(b.baselines, r.id), r.id, r)
  {
    assert IsOfKind(b.requests, key, r.id, KCreate) && IsReceipt(b.requests, key, r.id, 1);
    assert KeysOfKind(b.requests, r.id, KPatch) == {};
    forall n | 0 < n <= r.revision ensures HasRevision(b.requests, r.id, n) {}
    forall k ensures !IsOfKind(b.requests, k, r.id, KDelete) {}
  }

  lemma IntroduceBaselines(a: App, b: App, key: RequestKey, entry: Remembered, r: Record)
    requires Introduces(a, b, key, entry, r) && BaselinesOk(a) && GrantsAccounted(a)
    ensures BaselinesOk(b) && GrantsAccounted(b)
  {
    forall g ensures HasShare(b.requests, g) <==> HasShare(a.requests, g) {
      if k :| IsShareOf(a.requests, k, g) { assert IsShareOf(b.requests, k, g); }
      if k :| IsShareOf(b.requests, k, g) { assert IsShareOf(a.requests, k, g); }
    }
    forall id | id in b.baselines ensures BaselineOk(b.records[id], b.baselines[id]) {
      assert BaselineOk(a.records[id], a.baselines[id]);
    }
  }

  lemma IntroduceDistinct(a: App, b: App, key: RequestKey, entry: Remembered, r: Record)
    requires Introduces(a, b, key, entry, r) && RequestsOk(a) && RevisionsDistinct(a.requests) && SharesDistinct(a.requests)
    ensures RevisionsDistinct(b.requests) && SharesDistinct(b.requests)
  {}

  lemma IntroduceReceipts(a: App, b: App, key: RequestKey, entry: Remembered, r: Record)
    requires Introduces(a, b, key, entry, r) && ReceiptsOk(a) && key.task in a.tasks
    requires key.id != NIL && key.owner == a.tasks[key.task].owner && key.principal == a.tasks[key.task].principal && SameScope(a.tasks[key.task], r)
    ensures ReceiptsOk(b)
  {
    IntroduceRequests(a, b, key, entry, r);
    IntroduceDistinct(a, b, key, entry, r);
    IntroduceBaselines(a, b, key, entry, r);
    IntroduceAccounts(a, b, key, entry, r);
  }

  lemma IntroduceActivity(a: App, b: App, key: RequestKey, entry: Remembered, r: Record)
    requires Introduces(a, b, key, entry, r) && ActivityOk(a) && !DeliveryKeyUsed(a, key)
    ensures ActivityOk(b)
  {}
}
