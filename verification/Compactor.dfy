/** Compaction as the source performs it: receipts folded one by one into baselines, then grants, deliveries, records,
    tasks, audit events and baselines, each in a pass over its map. The result is the compacted application. */
module Compactor {
  import opened Types
  import opened Policy
  import opened Ledger
  import opened Compaction
  import opened CompactionLedger
  import opened Staging

  // ----- folding the receipts of one record -----

  function OfKindUpTo(requests: map<RequestKey, Remembered>, id: Uuid, kind: Kind, h: int): set<RequestKey>
  {
    set k | k in requests && IsOfKind(requests, k, id, kind) && requests[k].result.revision <= h
  }

  function SharesUpTo(requests: map<RequestKey, Remembered>, id: Uuid, h: int): set<Uuid>
  {
    set k | k in OfKindUpTo(requests, id, KShare, h) && requests[k].result.grant.Some? :: requests[k].result.grant.value
  }

  function Capped(n: nat): U64 { if n <= U64_MAX then n else U64_MAX }

  /** The baseline once the receipts up to `h` are folded into `b`. */
  function FoldTo(requests: map<RequestKey, Remembered>, id: Uuid, b: Baseline, h: U64): Baseline
  {
    if h == b.through then b
    else b.(through := h,
            secretVersion := Capped((if b.through == 0 then 1 else b.secretVersion) + |OfKindUpTo(requests, id, KPatch, h)|),
            deletePruned := b.deletePruned || OfKindUpTo(requests, id, KDelete, h) != {},
            prunedGrants := b.prunedGrants + SharesUpTo(requests, id, h))
  }

  /** One receipt folded into a baseline. */
  function FoldOne(b: Baseline, c: Remembered): Baseline
  {
    var b1 := b.(through := c.result.revision);
    match c.kind
    case KCreate => b1.(secretVersion := 1)
    case KPatch => b1.(secretVersion := Capped(b.secretVersion + 1))
    case KDelete => b1.(deletePruned := true)
    case KShare => if c.result.grant.Some? then b1.(prunedGrants := b.prunedGrants + {c.result.grant.value}) else b1
    case _ => b1
  }

  /** What folding relies on: the record's receipts lie above its baseline, one per revision, and the first is its creation. */
  ghost predicate Foldable(requests: map<RequestKey, Remembered>, id: Uuid, b: Baseline)
  {
    && RevisionsDistinct(requests)
    && (forall k | k in requests && requests[k].result.record == id ::
          && requests[k].result.revision > b.through
          && (requests[k].kind == KCreate <==> b.through == 0 && requests[k].result.revision == 1))
  }

  lemma NextOfKind(requests: map<RequestKey, Remembered>, id: Uuid, kind: Kind, h: int, k: RequestKey)
    requires RevisionsDistinct(requests) && IsReceipt(requests, k, id, h + 1)
    ensures OfKindUpTo(requests, id, kind, h + 1) == OfKindUpTo(requests, id, kind, h) + (if requests[k].kind == kind then {k} else {})
    ensures k !in OfKindUpTo(requests, id, kind, h)
  {}

  lemma NothingBelow(requests: map<RequestKey, Remembered>, id: Uuid, b: Baseline, kind: Kind)
    requires Foldable(requests, id, b)
    ensures OfKindUpTo(requests, id, kind, b.through) == {}
  {}

  /** Folding one more receipt moves the folded baseline one revision on. */
  lemma FoldStep(requests: map<RequestKey, Remembered>, id: Uuid, b: Baseline, h: U64, k: RequestKey)
    requires Foldable(requests, id, b) && b.through <= h < U64_MAX && IsReceipt(requests, k, id, h + 1)
    ensures FoldTo(requests, id, b, h + 1) == FoldOne(FoldTo(requests, id, b, h), requests[k])
  {
    FoldVersion(requests, id, b, h, k);
    FoldDelete(requests, id, b, h, k);
    FoldGrants(requests, id, b, h, k);
  }

  lemma FoldVersion(requests: map<RequestKey, Remembered>, id: Uuid, b: Baseline, h: U64, k: RequestKey)
    requires Foldable(requests, id, b) && b.through <= h < U64_MAX && IsReceipt(requests, k, id, h + 1)
    ensures FoldTo(requests, id, b, h + 1).secretVersion == FoldOne(FoldTo(requests, id, b, h), requests[k]).secretVersion
  {
    NextOfKind(requests, id, KPatch, h, k);
    var before, after := OfKindUpTo(requests, id, KPatch, h), OfKindUpTo(requests, id, KPatch, h + 1);
    assert |after| == |before| + if requests[k].kind == KPatch then 1 else 0;
    if h == b.through { NothingBelow(requests, id, b, KPatch); }
    assert requests[k].kind == KCreate <==> b.through == 0 && h == 0;
  }

  lemma FoldDelete(requests: map<RequestKey, Remembered>, id: Uuid, b: Baseline, h: U64, k: RequestKey)
    requires Foldable(requests, id, b) && b.through <= h < U64_MAX && IsReceipt(requests, k, id, h + 1)
    ensures FoldTo(requests, id, b, h + 1).deletePruned == FoldOne(FoldTo(requests, id, b, h), requests[k]).deletePruned
  {
    NextOfKind(requests, id, KDelete, h, k);
    if h == b.through { NothingBelow(requests, id, b, KDelete); }
  }

  lemma FoldGrants(requests: map<RequestKey, Remembered>, id: Uuid, b: Baseline, h: U64, k: RequestKey)
    requires Foldable(requests, id, b) && b.through <= h < U64_MAX && IsReceipt(requests, k, id, h + 1)
    ensures FoldTo(requests, id, b, h + 1).prunedGrants == FoldOne(FoldTo(requests, id, b, h), requests[k]).prunedGrants
  {}

  /** Walks the unbroken run of stale receipts above the baseline, folding each one. */
  method FoldRecord(requests: map<RequestKey, Remembered>, last: Option<Time>, id: Uuid, b: Baseline, top: U64)
    returns (rest: map<RequestKey, Remembered>, base: Baseline)
    requires Foldable(requests, id, b) && b.through <= top
    ensures base == FoldTo(requests, id, b, Horizon(requests, last, id, b.through, top))
    ensures base.through == Horizon(requests, last, id, b.through, top) && Rest(requests, rest, id, base.through)
  {
    hide Compaction.Horizon, FoldOne;
    ghost var end := Horizon(requests, last, id, b.through, top);
    rest, base := requests, b;
    var h := b.through;
    while h < top
      invariant b.through <= h <= top && base == FoldTo(requests, id, b, h) && base.through == h
      invariant Horizon(requests, last, id, h, top) == end && Rest(requests, rest, id, h)
    {
      var next := NextStale(requests, rest, last, id, h);
      HorizonStep(requests, last, id, h, top);
      if next.None? { break; }
      FoldStep(requests, id, b, h, next.value);
      RestStep(requests, rest, id, h, next.value);
      base := FoldOne(base, rest[next.value]);
      rest := rest - {next.value};
      h := h + 1;
    }
  }

  lemma HorizonStep(requests: map<RequestKey, Remembered>, last: Option<Time>, id: Uuid, h: U64, top: U64)
    requires h < top
    ensures Horizon(requests, last, id, h, top) == if HasStale(requests, last, id, h + 1) then Horizon(requests, last, id, h + 1, top) else h
  {}

  /** The stale receipt of the next revision, if the record has one. */
  method NextStale(requests: map<RequestKey, Remembered>, rest: map<RequestKey, Remembered>, last: Option<Time>, id: Uuid, h: int)
    returns (next: Option<RequestKey>)
    requires Rest(requests, rest, id, h)
    ensures next.Some? ==> next.value in rest && rest[next.value] == requests[next.value] && IsStaleReceipt(requests, last, next.value, id, h + 1)
    ensures next.Some? <==> HasStale(requests, last, id, h + 1)
  {
    var hits := set k | k in rest && IsStaleReceipt(rest, last, k, id, h + 1);
    if hits == {} {
      forall k | k in rest ensures !IsStaleReceipt(rest, last, k, id, h + 1) { assert k !in hits; }
      NoStale(requests, rest, last, id, h + 1);
      return None;
    }
    var k :| k in hits;
    assert IsStaleReceipt(requests, last, k, id, h + 1);
    next := Some(k);
  }

  /** The receipts left when those of the record up to `h` are gone. */
  ghost predicate Rest(requests: map<RequestKey, Remembered>, rest: map<RequestKey, Remembered>, id: Uuid, h: int)
  {
    && (forall k :: k in rest <==> k in requests && (requests[k].result.record == id ==> requests[k].result.revision > h))
    && (forall k | k in rest :: rest[k] == requests[k])
  }

  lemma RestStep(requests: map<RequestKey, Remembered>, rest: map<RequestKey, Remembered>, id: Uuid, h: int, k: RequestKey)
    requires RevisionsDistinct(requests) && Rest(requests, rest, id, h) && IsReceipt(requests, k, id, h + 1)
    ensures Rest(requests, rest - {k}, id, h + 1)
  {}

  lemma NoStale(requests: map<RequestKey, Remembered>, rest: map<RequestKey, Remembered>, last: Option<Time>, id: Uuid, n: int)
    requires forall k | k in requests && IsReceipt(requests, k, id, n) :: k in rest && rest[k] == requests[k]
    requires forall k | k in rest :: !IsStaleReceipt(rest, last, k, id, n)
    ensures !HasStale(requests, last, id, n)
  {}

  // ----- folding the receipts of every record -----

  function OwnReceipts(requests: map<RequestKey, Remembered>, id: Uuid): map<RequestKey, Remembered>
  {
    map k | k in requests && requests[k].result.record == id :: requests[k]
  }

  lemma OwnStale(requests: map<RequestKey, Remembered>, last: Option<Time>, id: Uuid, n: int)
    ensures HasStale(OwnReceipts(requests, id), last, id, n) <==> HasStale(requests, last, id, n)
  {
    var own := OwnReceipts(requests, id);
    if k :| IsStaleReceipt(own, last, k, id, n) { assert IsStaleReceipt(requests, last, k, id, n); }
    if k :| IsStaleReceipt(requests, last, k, id, n) { assert IsStaleReceipt(own, last, k, id, n); }
  }

  lemma {:induction false} OwnHorizon(requests: map<RequestKey, Remembered>, last: Option<Time>, id: Uuid, h: U64, top: U64)
    ensures Horizon(OwnReceipts(requests, id), last, id, h, top) == Horizon(requests, last, id, h, top)
    decreases top - h
  {
    OwnStale(requests, last, id, h + 1);
    if h < top && HasStale(requests, last, id, h + 1) { OwnHorizon(requests, last, id, h + 1, top); }
  }

  lemma OwnOfKind(app: App, id: Uuid, kind: Kind)
    ensures OfKindUpTo(OwnReceipts(app.requests, id), id, kind, NewThrough(app, id)) == FoldedOfKind(app, id, kind)
  {}

  lemma OwnShares(app: App, id: Uuid)
    ensures SharesUpTo(OwnReceipts(app.requests, id), id, NewThrough(app, id)) == FoldedShares(app, id)
  {
    OwnOfKind(app, id, KShare);
    var own := OwnReceipts(app.requests, id);
    forall k | k in FoldedOfKind(app, id, KShare) ensures own[k] == app.requests[k] {}
  }

  lemma FoldedIsFolded(app: App, id: Uuid)
    ensures FoldTo(OwnReceipts(app.requests, id), id, BaseOf(app.baselines, id), NewThrough(app, id)) == FoldedBase(app, id)
  {
    OwnOfKind(app, id, KPatch);
    OwnOfKind(app, id, KDelete);
    OwnShares(app, id);
  }

  ghost predicate Stays(a: App, k: RequestKey, todo: set<Uuid>)
    requires k in a.requests
  {
    a.requests[k].result.record in todo || a.requests[k].result.revision > NewThrough(a, a.requests[k].result.record)
  }

  /** The receipts once every record outside `todo` has been folded. */
  ghost predicate PartRequests(a: App, requests: map<RequestKey, Remembered>, todo: set<Uuid>)
  {
    && (forall k :: k in requests <==> k in a.requests && Stays(a, k, todo))
    && (forall k | k in requests :: requests[k] == a.requests[k])
  }

  ghost predicate PartBaselines(a: App, baselines: map<Uuid, Baseline>, todo: set<Uuid>)
  {
    && (forall id :: id in baselines <==> id in a.baselines || (id in a.records && id !in todo && NewThrough(a, id) > Through(a.baselines, id)))
    && (forall id | id in baselines :: baselines[id] == if id in todo then BaseOf(a.baselines, id) else FoldedBase(a, id))
  }

  lemma UntouchedReceipts(a: App, requests: map<RequestKey, Remembered>, todo: set<Uuid>, id: Uuid)
    requires PartRequests(a, requests, todo) && id in todo
    ensures OwnReceipts(requests, id) == OwnReceipts(a.requests, id)
  {}

  lemma PartRequestsStep(a: App, requests: map<RequestKey, Remembered>, todo: set<Uuid>, id: Uuid, rest: map<RequestKey, Remembered>)
    requires PartRequests(a, requests, todo) && id in todo && Rest(OwnReceipts(a.requests, id), rest, id, NewThrough(a, id))
    ensures PartRequests(a, requests - (OwnReceipts(a.requests, id).Keys - rest.Keys), todo - {id})
  {
    var own := OwnReceipts(a.requests, id);
    forall k | k in own ensures k in own.Keys - rest.Keys <==> own[k].result.revision <= NewThrough(a, id) {}
  }

  lemma PartBaselinesStep(a: App, baselines: map<Uuid, Baseline>, todo: set<Uuid>, id: Uuid, base: Baseline)
    requires PartBaselines(a, baselines, todo) && id in todo && id in a.records && base == FoldedBase(a, id) && base.through == NewThrough(a, id)
    ensures PartBaselines(a, if base.through == Through(a.baselines, id) then baselines else baselines[id := base], todo - {id})
  {}

  method FoldReceipts(a: App) returns (requests: map<RequestKey, Remembered>, baselines: map<Uuid, Baseline>)
    requires RequestsOk(a) && RevisionsDistinct(a.requests) && AccountsOk(a) && BaselinesOk(a)
    ensures requests == KeptRequests(a) && PartBaselines(a, baselines, {})
  {
    requests, baselines := a.requests, a.baselines;
    var todo := a.records.Keys;
    StartFolding(a);
    while todo != {}
      invariant todo <= a.records.Keys && PartRequests(a, requests, todo) && PartBaselines(a, baselines, todo)
      decreases |todo|
    {
      var id :| id in todo;
      var own := OwnReceipts(requests, id);
      UntouchedReceipts(a, requests, todo, id);
      var rest, base := FoldOwn(a, own, id);
      PartRequestsStep(a, requests, todo, id, rest);
      PartBaselinesStep(a, baselines, todo, id, base);
      requests := requests - (own.Keys - rest.Keys);
      if base.through != Through(a.baselines, id) { baselines := baselines[id := base]; }
      todo := todo - {id};
    }
    AllFolded(a, requests);
  }

  lemma AllFolded(a: App, requests: map<RequestKey, Remembered>)
    requires PartRequests(a, requests, {})
    ensures requests == KeptRequests(a)
  {}

  method FoldOwn(a: App, own: map<RequestKey, Remembered>, id: Uuid) returns (rest: map<RequestKey, Remembered>, base: Baseline)
    requires RequestsOk(a) && RevisionsDistinct(a.requests) && AccountsOk(a) && BaselinesOk(a)
    requires id in a.records && own == OwnReceipts(a.requests, id)
    ensures Rest(own, rest, id, NewThrough(a, id)) && base == FoldedBase(a, id) && base.through == NewThrough(a, id)
  {
    FoldPremises(a, id);
    rest, base := FoldRecord(own, a.lastTime, id, BaseOf(a.baselines, id), a.records[id].revision);
    OwnHorizon(a.requests, a.lastTime, id, Through(a.baselines, id), a.records[id].revision);
    FoldedIsFolded(a, id);
  }

  lemma FoldPremises(a: App, id: Uuid)
    requires RequestsOk(a) && RevisionsDistinct(a.requests) && AccountsOk(a) && BaselinesOk(a) && id in a.records
    ensures Foldable(OwnReceipts(a.requests, id), id, BaseOf(a.baselines, id)) && Through(a.baselines, id) <= a.records[id].revision
  {}

  lemma StartFolding(a: App)
    requires RequestsOk(a) && BaselinesOk(a)
    ensures PartRequests(a, a.requests, a.records.Keys) && PartBaselines(a, a.baselines, a.records.Keys)
  {}

  // ----- dead grants -----

  /** The grants once every one outside `todo` has been looked at. */
  ghost predicate PartGrants(a: App, grants: map<Uuid, Grant>, todo: set<Uuid>)
  {
    && (forall g :: g in grants <==> g in a.grants && (g in todo || KeepsGrant(a, g)))
    && (forall g | g in grants :: grants[g] == a.grants[g])
  }

  /** The folded baselines, each without the grants that were removed. */
  ghost predicate Trimmed(folded: map<Uuid, Baseline>, baselines: map<Uuid, Baseline>, grants: map<Uuid, Grant>)
  {
    && baselines.Keys == folded.Keys
    && (forall id | id in folded :: TrimmedTo(folded[id], baselines[id], grants))
  }

  ghost predicate TrimmedTo(folded: Baseline, b: Baseline, grants: map<Uuid, Grant>)
  {
    b == folded.(prunedGrants := folded.prunedGrants * grants.Keys)
  }

  /** Every grant a baseline lists belongs to its record. */
  ghost predicate ListsOwn(a: App, baselines: map<Uuid, Baseline>)
  {
    forall id, g | id in baselines && g in baselines[id].prunedGrants :: g in a.grants && a.grants[g].record == id
  }

  lemma TrimStep(a: App, folded: map<Uuid, Baseline>, baselines: map<Uuid, Baseline>, grants: map<Uuid, Grant>, g: Uuid)
    requires ListsOwn(a, folded) && Trimmed(folded, baselines, grants) && g in a.grants
    ensures var id := a.grants[g].record;
      Trimmed(folded, if id in baselines then baselines[id := baselines[id].(prunedGrants := baselines[id].prunedGrants - {g})] else baselines, grants - {g})
  {}

  predicate IsDead(g: Grant, last: Option<Time>) { g.revoked || Expired(last, g.spec.expiresAt) }

  predicate Mentioned(requests: map<RequestKey, Remembered>, g: Uuid)
  {
    exists k | k in requests :: requests[k].result.grant == Some(g)
  }

  lemma DeadIsRemoved(a: App, requests: map<RequestKey, Remembered>, g: Uuid)
    requires requests == KeptRequests(a) && g in a.grants
    ensures KeepsGrant(a, g) <==> !(IsDead(a.grants[g], a.lastTime) && !Mentioned(requests, g))
  {
    if k :| Mentions(requests, k, g) { assert Mentioned(requests, g); }
    if k :| k in requests && requests[k].result.grant == Some(g) { assert Mentions(requests, k, g); }
  }

  /** Removes the revoked and expired grants that no retained receipt mentions. */
  method PruneGrants(a: App, requests: map<RequestKey, Remembered>, folded: map<Uuid, Baseline>)
    returns (grants: map<Uuid, Grant>, baselines: map<Uuid, Baseline>)
    requires requests == KeptRequests(a) && ListsOwn(a, folded)
    ensures grants == KeptGrants(a) && Trimmed(folded, baselines, grants)
  {
    grants, baselines := a.grants, folded;
    var todo := a.grants.Keys;
    assert forall id | id in folded :: folded[id].prunedGrants * a.grants.Keys == folded[id].prunedGrants;
    while todo != {}
      invariant todo <= a.grants.Keys && PartGrants(a, grants, todo) && Trimmed(folded, baselines, grants)
      decreases |todo|
    {
      var g :| g in todo;
      DeadIsRemoved(a, requests, g);
      if IsDead(a.grants[g], a.lastTime) && !Mentioned(requests, g) {
        TrimStep(a, folded, baselines, grants, g);
        var id := a.grants[g].record;
        grants := grants - {g};
        if id in baselines { baselines := baselines[id := baselines[id].(prunedGrants := baselines[id].prunedGrants - {g})]; }
      }
      todo := todo - {g};
    }
    AllPruned(a, grants);
  }

  lemma AllPruned(a: App, grants: map<Uuid, Grant>)
    requires PartGrants(a, grants, {})
    ensures grants == KeptGrants(a)
  {}

  // ----- old deliveries -----

  ghost predicate PartDeliveries(a: App, deliveries: map<Uuid, Delivery>, todo: set<Uuid>)
  {
    && (forall d :: d in deliveries <==> d in a.deliveries && (d in todo || KeepsDelivery(a.deliveries[d], a.lastTime)))
    && (forall d | d in deliveries :: deliveries[d] == a.deliveries[d])
  }

  predicate SealsRegistration(a: App, d: Uuid, id: Uuid)
  {
    IsDropped(a, d) && a.deliveries[d].record == id && Registers(a.deliveries[d]) && id in a.records
  }

  predicate SealsLogin(a: App, d: Uuid, id: Uuid)
  {
    IsDropped(a, d) && id in a.records && a.records[id].signup == VerifiedLogin && Verifies(a.deliveries[d], id, a.records[id].secretVersion)
  }

  /** A removed delivery outside `todo` leaves a seal on the record. */
  ghost predicate RegistrationSealedBy(a: App, todo: set<Uuid>, id: Uuid) { exists d :: d !in todo && SealsRegistration(a, d, id) }

  ghost predicate LoginSealedBy(a: App, todo: set<Uuid>, id: Uuid) { exists d :: d !in todo && SealsLogin(a, d, id) }

  ghost predicate SealedTo(a: App, todo: set<Uuid>, id: Uuid, was: Baseline, b: Baseline)
  {
    b == was.(registrationDispatched := was.registrationDispatched || RegistrationSealedBy(a, todo, id),
              verifiedLogin := was.verifiedLogin || LoginSealedBy(a, todo, id))
  }

  /** The baselines with the seals of the deliveries removed so far. */
  ghost predicate SealedBaselines(a: App, todo: set<Uuid>, trimmed: map<Uuid, Baseline>, baselines: map<Uuid, Baseline>)
  {
    && (forall id :: id in baselines <==> id in trimmed || RegistrationSealedBy(a, todo, id) || LoginSealedBy(a, todo, id))
    && (forall id | id in baselines :: SealedTo(a, todo, id, BaseOf(trimmed, id), baselines[id]))
  }

  lemma SealedByStep(a: App, todo: set<Uuid>, d: Uuid, id: Uuid)
    requires d in todo
    ensures RegistrationSealedBy(a, todo - {d}, id) <==> RegistrationSealedBy(a, todo, id) || SealsRegistration(a, d, id)
    ensures LoginSealedBy(a, todo - {d}, id) <==> LoginSealedBy(a, todo, id) || SealsLogin(a, d, id)
  {}

  function WithSeals(baselines: map<Uuid, Baseline>, id: Uuid, register: bool, login: bool): map<Uuid, Baseline>
  {
    if !register && !login then baselines
    else
      var b := BaseOf(baselines, id);
      baselines[id := b.(registrationDispatched := b.registrationDispatched || register, verifiedLogin := b.verifiedLogin || login)]
  }

  lemma NotYetSealed(a: App, todo: set<Uuid>, trimmed: map<Uuid, Baseline>, baselines: map<Uuid, Baseline>, id: Uuid)
    requires SealedBaselines(a, todo, trimmed, baselines)
    ensures SealedTo(a, todo, id, BaseOf(trimmed, id), BaseOf(baselines, id))
  {}

  lemma SealStep(a: App, todo: set<Uuid>, trimmed: map<Uuid, Baseline>, baselines: map<Uuid, Baseline>, d: Uuid)
    requires SealedBaselines(a, todo, trimmed, baselines) && d in todo && d in a.deliveries
    ensures var id := a.deliveries[d].record;
      SealedBaselines(a, todo - {d}, trimmed, WithSeals(baselines, id, SealsRegistration(a, d, id), SealsLogin(a, d, id)))
  {
    var id := a.deliveries[d].record;
    var more := WithSeals(baselines, id, SealsRegistration(a, d, id), SealsLogin(a, d, id));
    NotYetSealed(a, todo, trimmed, baselines, id);
    forall i
      ensures i in more <==> i in trimmed || RegistrationSealedBy(a, todo - {d}, i) || LoginSealedBy(a, todo - {d}, i)
      ensures i in more ==> SealedTo(a, todo - {d}, i, BaseOf(trimmed, i), more[i])
    {
      SealedByStep(a, todo, d, i);
      assert i != id ==> !SealsRegistration(a, d, i) && !SealsLogin(a, d, i);
    }
  }

  /** Removes the settled deliveries outside the retry window, sealing what they prove about their records. */
  method DropDeliveries(a: App, trimmed: map<Uuid, Baseline>) returns (deliveries: map<Uuid, Delivery>, baselines: map<Uuid, Baseline>)
    ensures deliveries == KeptDeliveries(a) && SealedBaselines(a, {}, trimmed, baselines)
  {
    deliveries, baselines := a.deliveries, trimmed;
    var todo := a.deliveries.Keys;
    assert SealedBaselines(a, todo, trimmed, baselines) by {
      forall d, id ensures !(d !in todo && (SealsRegistration(a, d, id) || SealsLogin(a, d, id))) {}
    }
    while todo != {}
      invariant todo <= a.deliveries.Keys && PartDeliveries(a, deliveries, todo) && SealedBaselines(a, todo, trimmed, baselines)
      decreases |todo|
    {
      var d :| d in todo;
      var id := a.deliveries[d].record;
      SealStep(a, todo, trimmed, baselines, d);
      baselines := WithSeals(baselines, id, SealsRegistration(a, d, id), SealsLogin(a, d, id));
      if !KeepsDelivery(a.deliveries[d], a.lastTime) { deliveries := deliveries - {d}; }
      todo := todo - {d};
    }
    assert deliveries == KeptDeliveries(a);
  }

  // ----- deleted records -----

  predicate Named(grants: map<Uuid, Grant>, deliveries: map<Uuid, Delivery>, requests: map<RequestKey, Remembered>, id: Uuid)
  {
    || (exists g | g in grants :: grants[g].record == id)
    || (exists d | d in deliveries :: deliveries[d].record == id)
    || (exists k | k in requests :: requests[k].result.record == id)
  }

  function DroppedRecords(records: map<Uuid, Record>, grants: map<Uuid, Grant>, deliveries: map<Uuid, Delivery>,
                          requests: map<RequestKey, Remembered>): set<Uuid>
  {
    set id | id in records && records[id].deleted && !Named(grants, deliveries, requests, id)
  }

  lemma DroppedIsRest(a: App)
    ensures a.records - DroppedRecords(a.records, KeptGrants(a), KeptDeliveries(a), KeptRequests(a)) == KeptRecords(a)
  {}

  // ----- spent tasks -----

  /** The task that expires last, by identifier among equals. */
  method LatestTask(tasks: map<Uuid, Task>) returns (keep: Uuid)
    requires tasks != map[]
    ensures keep in tasks && IsLatest(tasks, keep)
  {
    keep :| keep in tasks;
    var todo := tasks.Keys;
    while todo != {}
      invariant todo <= tasks.Keys && keep in tasks && forall j | j in tasks && j !in todo :: AtMost(tasks, j, keep)
      decreases |todo|
    {
      var j :| j in todo;
      if AtMost(tasks, keep, j) { keep := j; }
      todo := todo - {j};
    }
  }

  lemma OnlyOneLatest(tasks: map<Uuid, Task>, i: Uuid, j: Uuid)
    requires i in tasks && j in tasks && IsLatest(tasks, i) && IsLatest(tasks, j)
    ensures i == j
  {
    assert AtMost(tasks, i, j) && AtMost(tasks, j, i);
  }

  lemma FullSubset<T>(a: set<T>, b: set<T>)
    requires a <= b && |a| == |b|
    ensures a == b
  {
    assert b == a + (b - a);
  }

  ghost function RemovableTasks(a: App): set<Uuid> { set id | id in a.tasks && Removable(a, id) }

  lemma KeptTasksAre(a: App, removed: set<Uuid>)
    requires removed == RemovableTasks(a) || (exists keep :: keep in a.tasks && IsLatest(a.tasks, keep) && removed == a.tasks.Keys - {keep})
    requires removed == RemovableTasks(a) ==> RemovableTasks(a) != a.tasks.Keys || a.tasks == map[]
    requires removed != RemovableTasks(a) ==> RemovableTasks(a) == a.tasks.Keys
    ensures a.tasks - removed == KeptTasks(a)
  {
    hide Compaction.Removable;
    forall id | id in a.tasks ensures id in removed <==> !KeepsTask(a, id) {
      if removed == RemovableTasks(a) {
        assert exists j :: j in a.tasks && j !in RemovableTasks(a);
      } else {
        var keep :| keep in a.tasks && IsLatest(a.tasks, keep) && removed == a.tasks.Keys - {keep};
        assert forall j | j in a.tasks :: j in RemovableTasks(a);
        if IsLatest(a.tasks, id) { OnlyOneLatest(a.tasks, id, keep); }
      }
    }
  }

  /** Removes the revoked or expired tasks nothing refers to; the last to expire stays when all would go. */
  method DropTasks(a: App, records: map<Uuid, Record>, grants: map<Uuid, Grant>, deliveries: map<Uuid, Delivery>,
                   requests: map<RequestKey, Remembered>) returns (tasks: map<Uuid, Task>)
    requires records == KeptRecords(a) && grants == KeptGrants(a) && deliveries == KeptDeliveries(a) && requests == KeptRequests(a)
    ensures tasks == KeptTasks(a)
  {
    var removed := set id | id in a.tasks && !Referenced(records, grants, deliveries, requests, id)
                            && (id in a.revokedTasks || Expired(a.lastTime, a.tasks[id].expiresAt));
    assert removed == RemovableTasks(a);
    if a.tasks != map[] && |removed| == |a.tasks| {
      FullSubset(removed, a.tasks.Keys);
      var keep := LatestTask(a.tasks);
      assert removed - {keep} != removed;
      removed := removed - {keep};
    }
    KeptTasksAre(a, removed);
    tasks := a.tasks - removed;
  }

  // ----- audit events -----

  lemma {:induction false} KeptEventsAppend(audit: seq<AuditEvent>, e: AuditEvent, tasks: map<Uuid, Task>, records: map<Uuid, Record>,
                                            requests: map<RequestKey, Remembered>)
    ensures KeptEvents(audit + [e], tasks, records, requests)
            == KeptEvents(audit, tasks, records, requests) + (if KeepsEvent(tasks, records, requests, e) then [e] else [])
  {
    if audit != [] {
      assert (audit + [e])[1..] == audit[1..] + [e];
      KeptEventsAppend(audit[1..], e, tasks, records, requests);
    }
  }

  method TrimAudit(audit: seq<AuditEvent>, tasks: map<Uuid, Task>, records: map<Uuid, Record>, requests: map<RequestKey, Remembered>)
    returns (kept: seq<AuditEvent>)
    ensures kept == KeptEvents(audit, tasks, records, requests)
  {
    kept := [];
    for i := 0 to |audit|
      invariant kept == KeptEvents(audit[..i], tasks, records, requests)
    {
      KeptEventsAppend(audit[..i], audit[i], tasks, records, requests);
      assert audit[..i + 1] == audit[..i] + [audit[i]];
      if KeepsEvent(tasks, records, requests, audit[i]) { kept := kept + [audit[i]]; }
    }
    assert audit[..|audit|] == audit;
  }

  // ----- baselines -----

  function Cleaned(b: Baseline, r: Record): Baseline { b.(verifiedLogin := b.verifiedLogin && r.signup == VerifiedLogin) }

  /** Clears the login seals that no longer apply and drops the baselines that say nothing or have no record. */
  method CleanBaselines(baselines: map<Uuid, Baseline>, records: map<Uuid, Record>) returns (clean: map<Uuid, Baseline>)
    ensures forall id :: id in clean <==> id in baselines && id in records && Worth(Cleaned(baselines[id], records[id]))
    ensures forall id | id in clean :: clean[id] == Cleaned(baselines[id], records[id])
  {
    clean := map[];
    var todo := baselines.Keys;
    while todo != {}
      invariant todo <= baselines.Keys
      invariant forall id :: id in clean <==> id in baselines && id !in todo && id in records && Worth(Cleaned(baselines[id], records[id]))
      invariant forall id | id in clean :: clean[id] == Cleaned(baselines[id], records[id])
      decreases |todo|
    {
      var id :| id in todo;
      if id in records && Worth(Cleaned(baselines[id], records[id])) { clean := clean[id := Cleaned(baselines[id], records[id])]; }
      todo := todo - {id};
    }
  }

  // ----- all passes -----

  lemma FoldedListsOwn(a: App, folded: map<Uuid, Baseline>)
    requires RequestsOk(a) && BaselinesOk(a) && PartBaselines(a, folded, {})
    ensures ListsOwn(a, folded)
  {
    forall id, g | id in folded && g in folded[id].prunedGrants ensures g in a.grants && a.grants[g].record == id {
      if g !in BaseOf(a.baselines, id).prunedGrants {
        var k :| k in FoldedOfKind(a, id, KShare) && a.requests[k].result.grant == Some(g);
        assert RequestOk(a.tasks[k.task], a.records[id], Through(a.baselines, id), a.grants, k, a.requests[k]);
      }
    }
  }

  lemma FoldedOf(a: App, folded: map<Uuid, Baseline>, id: Uuid)
    requires PartBaselines(a, folded, {}) && id in a.records
    ensures BaseOf(folded, id) == FoldedBase(a, id)
  {}

  lemma TrimmedOf(folded: map<Uuid, Baseline>, trimmed: map<Uuid, Baseline>, grants: map<Uuid, Grant>, id: Uuid)
    requires Trimmed(folded, trimmed, grants)
    ensures TrimmedTo(BaseOf(folded, id), BaseOf(trimmed, id), grants)
  {}

  lemma SealsAre(a: App, id: Uuid)
    requires id in a.records
    ensures RegistrationSealedBy(a, {}, id) <==> DropsRegistration(a, id)
    ensures LoginSealedBy(a, {}, id) <==> a.records[id].signup == VerifiedLogin && DropsVerification(a, id, a.records[id].secretVersion)
  {
    if d :| d in a.deliveries && IsDropped(a, d) && a.deliveries[d].record == id && Registers(a.deliveries[d]) { assert SealsRegistration(a, d, id); }
    if a.records[id].signup == VerifiedLogin {
      if d :| d in a.deliveries && IsDropped(a, d) && Verifies(a.deliveries[d], id, a.records[id].secretVersion) { assert SealsLogin(a, d, id); }
    }
  }

  /** The baseline the passes leave on a record is the one compaction states. */
  lemma FinalBase(a: App, folded: map<Uuid, Baseline>, trimmed: map<Uuid, Baseline>, sealed: map<Uuid, Baseline>, id: Uuid)
    requires PartBaselines(a, folded, {}) && Trimmed(folded, trimmed, KeptGrants(a)) && SealedBaselines(a, {}, trimmed, sealed) && id in a.records
    ensures Cleaned(BaseOf(sealed, id), a.records[id]) == NewBase(a, id, a.records[id])
  {
    FoldedOf(a, folded, id);
    TrimmedOf(folded, trimmed, KeptGrants(a), id);
    NotYetSealed(a, {}, trimmed, sealed, id);
    SealsAre(a, id);
  }

  lemma FinalBaselines(a: App, folded: map<Uuid, Baseline>, trimmed: map<Uuid, Baseline>, sealed: map<Uuid, Baseline>, clean: map<Uuid, Baseline>)
    requires PartBaselines(a, folded, {}) && Trimmed(folded, trimmed, KeptGrants(a)) && SealedBaselines(a, {}, trimmed, sealed)
    requires forall id :: id in clean <==> id in sealed && id in KeptRecords(a) && Worth(Cleaned(sealed[id], KeptRecords(a)[id]))
    requires forall id | id in clean :: clean[id] == Cleaned(sealed[id], KeptRecords(a)[id])
    ensures clean == NewBaselines(a)
  {
    forall id
      ensures id in clean <==> id in NewBaselines(a)
      ensures id in clean ==> clean[id] == NewBaselines(a)[id]
    {
      if id in KeptRecords(a) {
        FinalBase(a, folded, trimmed, sealed, id);
        if id !in sealed { assert Cleaned(NO_BASELINE, a.records[id]) == NO_BASELINE; }
      }
    }
  }

  /** The passes over one application value. */
  method Passes(a: App) returns (b: App)
    requires RequestsOk(a) && RevisionsDistinct(a.requests) && AccountsOk(a) && BaselinesOk(a)
    ensures b == Compaction.Compact(a)
  {
    var requests, folded := FoldReceipts(a);
    FoldedListsOwn(a, folded);
    var grants, trimmed := PruneGrants(a, requests, folded);
    var deliveries, sealed := DropDeliveries(a, trimmed);
    DroppedIsRest(a);
    var records := a.records - DroppedRecords(a.records, grants, deliveries, requests);
    var baselines := CleanBaselines(sealed, records);
    FinalBaselines(a, folded, trimmed, sealed, baselines);
    b := Finished(a, records, grants, deliveries, requests, baselines);
  }

  /** The last passes: tasks, revocations, audit events. */
  method Finished(a: App, records: map<Uuid, Record>, grants: map<Uuid, Grant>, deliveries: map<Uuid, Delivery>,
                  requests: map<RequestKey, Remembered>, baselines: map<Uuid, Baseline>) returns (b: App)
    requires records == KeptRecords(a) && grants == KeptGrants(a) && deliveries == KeptDeliveries(a) && requests == KeptRequests(a)
    requires baselines == NewBaselines(a)
    ensures b == Compaction.Compact(a)
  {
    var tasks := DropTasks(a, records, grants, deliveries, requests);
    var audit := TrimAudit(a.audit, tasks, records, requests);
    b := a.(requests := requests, grants := grants, deliveries := deliveries, records := records, baselines := baselines,
            tasks := tasks, revokedTasks := a.revokedTasks * tasks.Keys, audit := audit);
  }

  /** Compaction in place. */
  method Compact(app: Application)
    requires RequestsOk(app.Value()) && RevisionsDistinct(app.requests) && AccountsOk(app.Value()) && BaselinesOk(app.Value())
    modifies app
    ensures app.Value() == Compaction.Compact(old(app.Value()))
  {
    var b := Passes(app.Value());
    app.requests, app.grants, app.deliveries, app.records := b.requests, b.grants, b.deliveries, b.records;
    app.baselines, app.tasks, app.revokedTasks, app.audit := b.baselines, b.tasks, b.revokedTasks, b.audit;
  }
}
