/** Recovery and restore as the source performs them: settling one attempt after another, and rewriting the directory
    step by step under a plan. */
module Repairs {
  import opened Types
  import opened Policy
  import opened Ledger
  import opened Settlement
  import opened Transition
  import opened Validator
  import opened Directory
  import opened Recovery
  import Evidence
  import opened Stores

  // ----- settling -----

  method RevokeEvery(grants: map<Uuid, Grant>) returns (revoked: map<Uuid, Grant>)
    ensures revoked == RevokedGrants(grants)
  {
    revoked := grants;
    var todo := grants.Keys;
    while todo != {}
      invariant todo <= grants.Keys == revoked.Keys
      invariant forall g | g in grants :: revoked[g] == if g in todo then grants[g] else grants[g].(revoked := true)
      decreases |todo|
    {
      var g :| g in todo;
      revoked := revoked[g := revoked[g].(revoked := true)];
      todo := todo - {g};
    }
  }

  predicate Leaves(a: App, d: Uuid, id: Uuid)
  {
    d in a.deliveries && a.deliveries[d].status.None? && a.deliveries[d].action != Use && a.deliveries[d].record == id
  }

  ghost predicate LeftBy(a: App, todo: set<Uuid>, id: Uuid) { exists d :: d !in todo && Leaves(a, d, id) }

  /** The deliveries and records once the attempts outside `todo` are settled. */
  ghost predicate PartSettled(a: App, restore: bool, todo: set<Uuid>, deliveries: map<Uuid, Delivery>, records: map<Uuid, Record>)
  {
    && deliveries.Keys == a.deliveries.Keys && records.Keys == a.records.Keys
    && (forall d | d in a.deliveries :: deliveries[d] == if d in todo then a.deliveries[d] else SettledDeliveries(a.deliveries)[d])
    && (forall id | id in a.records ::
          records[id] == a.records[id].(signup := if LeftBy(a, todo, id) then Unknown else a.records[id].signup,
                                        restored := a.records[id].restored || restore))
  }

  lemma LeftByStep(a: App, todo: set<Uuid>, d: Uuid, id: Uuid)
    requires d in todo
    ensures LeftBy(a, todo - {d}, id) <==> LeftBy(a, todo, id) || Leaves(a, d, id)
  {}

  lemma SettledStep(a: App, restore: bool, todo: set<Uuid>, deliveries: map<Uuid, Delivery>, records: map<Uuid, Record>, d: Uuid)
    requires PartSettled(a, restore, todo, deliveries, records) && d in todo && d in a.deliveries && a.deliveries[d].record in a.records
    ensures var id := a.deliveries[d].record;
      PartSettled(a, restore, todo - {d},
                  if a.deliveries[d].status.None? then deliveries[d := deliveries[d].(status := Some(StUnknown))] else deliveries,
                  if Leaves(a, d, id) then records[id := records[id].(signup := Unknown)] else records)
  {
    forall i ensures LeftBy(a, todo - {d}, i) <==> LeftBy(a, todo, i) || Leaves(a, d, i) { LeftByStep(a, todo, d, i); }
  }

  lemma AllSettled(a: App, restore: bool, deliveries: map<Uuid, Delivery>, records: map<Uuid, Record>)
    requires PartSettled(a, restore, {}, deliveries, records)
    ensures deliveries == Settled(a, restore).deliveries && records == Settled(a, restore).records
  {}

  lemma NothingSettled(a: App, restore: bool, records: map<Uuid, Record>)
    requires records == map id | id in a.records :: a.records[id].(restored := a.records[id].restored || restore)
    ensures PartSettled(a, restore, a.deliveries.Keys, a.deliveries, records)
  {}

  /** Revokes all authority and settles every unfinished attempt as unknown. */
  method Settle(a: App, restore: bool) returns (b: App)
    requires forall d | d in a.deliveries :: a.deliveries[d].record in a.records
    ensures b == Settled(a, restore)
  {
    var grants := RevokeEvery(a.grants);
    var deliveries, records := SettleAttempts(a, restore);
    b := a.(revokedTasks := a.revokedTasks + a.tasks.Keys, grants := grants, deliveries := deliveries, records := records);
  }

  /** Settles the unfinished attempts one by one, with the signups they leave open. */
  method SettleAttempts(a: App, restore: bool) returns (deliveries: map<Uuid, Delivery>, records: map<Uuid, Record>)
    requires forall d | d in a.deliveries :: a.deliveries[d].record in a.records
    ensures deliveries == Settled(a, restore).deliveries && records == Settled(a, restore).records
  {
    hide PartSettled, Settlement.Settled;
    deliveries := a.deliveries;
    records := map id | id in a.records :: a.records[id].(restored := a.records[id].restored || restore);
    NothingSettled(a, restore, records);
    var todo := a.deliveries.Keys;
    while todo != {}
      invariant deliveries.Keys == a.deliveries.Keys && records.Keys == a.records.Keys
      invariant todo <= a.deliveries.Keys && PartSettled(a, restore, todo, deliveries, records)
      decreases |todo|
    {
      var d :| d in todo;
      var attempt := a.deliveries[d];
      SettledStep(a, restore, todo, deliveries, records, d);
      if attempt.status.None? {
        deliveries := deliveries[d := deliveries[d].(status := Some(StUnknown))];
        if Leaves(a, d, attempt.record) { records := records[attempt.record := records[attempt.record].(signup := Unknown)]; }
      }
      todo := todo - {d};
    }
    AllSettled(a, restore, deliveries, records);
  }

  method Sanitize(a: App, now: Time) returns (r: Result<App>)
    requires forall d | d in a.deliveries :: a.deliveries[d].record in a.records
    ensures r == Settlement.Sanitize(a, now)
    ensures r.Ok? ==> Disarmed(a, r.value) && r.value.lastTime == Some(now) && !r.value.clockFrozen
  {
    ghost var decided := Settlement.Sanitize(a, now);
    if decided.Ok? { SanitizedIsDisarmed(a, now); }
    if a.generation == U64_MAX { return Err(RecoveryRequired); }
    var b := Settle(a, false);
    b := b.(generation := a.generation + 1, clockFrozen := false, lastTime := Some(now), predecessor := None);
    var ok := Validate(b);
    r := if ok then Ok(b) else Err(RecoveryRequired);
  }

  method PrepareRestored(a: App, admin: Context, now: Time) returns (r: Result<App>)
    requires forall d | d in a.deliveries :: a.deliveries[d].record in a.records
    ensures r == Settlement.PrepareRestored(a, admin, now)
    ensures r == Err(Denied) <==> !admin.admin || Foreign(a, admin)
    ensures r.Ok? ==> Disarmed(a, r.value) && (forall id | id in a.records :: r.value.records[id].restored) && r.value.lastTime.Some? && now <= r.value.lastTime.value
  {
    RestoredIsDisarmed(a, admin, now);
    if !AdminScope(a, admin) { return Err(Denied); }
    if a.generation == U64_MAX { return Err(Capacity); }
    var b := Settle(a, true);
    var last := if a.lastTime.Some? && a.lastTime.value > now then a.lastTime.value else now;
    b := b.(generation := a.generation + 1, lastTime := Some(last), predecessor := None);
    var ok := Validate(b);
    r := if ok then Ok(b) else Err(InvalidStorage);
  }

  // ----- the checks -----

  method CanOpen(image: Image, seed: string) returns (ok: bool)
    ensures ok <==> Opens(image, seed)
  {
    var valid := Validate(image.app);
    ok := image.seed == seed && valid;
  }

  method CheckConsistent(previous: Option<Image>, next: Image, seed: string) returns (ok: bool)
    ensures ok <==> Consistent(previous, next, seed)
  {
    ok := CanOpen(next, seed);
    if !ok { return; }
    if previous.None? { return SafeInitial(next.app); }
    var readable := CanOpen(previous.value, seed);
    if !readable { return next.app.predecessor == Some(DigestOf(previous.value)); }
    if next.header != previous.value.header && next.app.predecessor != Some(DigestOf(previous.value)) { return false; }
    ok := Transition.Transition(previous.value.app, next.app);
  }

  method CheckPending(intent: File<Image>, seed: string, visible: Image) returns (ok: bool)
    ensures ok <==> Supports(intent, seed, visible)
  {
    if !intent.Pair? { return false; }
    ok := CheckConsistent(intent.previous, intent.candidate, seed);
    ok := ok && (visible == intent.candidate || Some(visible) == intent.previous);
  }

  method CheckAdoption(intent: File<Image>, seed: string, admin: Context, visible: Image) returns (refused: Option<Error>)
    ensures refused == AdoptError(intent, seed, admin, visible)
  {
    if !intent.Pair? || (Some(visible) != intent.previous && visible != intent.candidate) { return Some(RecoveryRequired); }
    var readable := CanOpen(intent.candidate, seed);
    if !readable { return Some(RecoveryRequired); }
    if !AdminScope(intent.candidate.app, admin) { return Some(Denied); }
    if intent.previous.None? || intent.candidate.app.predecessor != Some(DigestOf(intent.previous.value)) { return Some(RecoveryRequired); }
    refused := None;
  }

  lemma ValidReferences(app: App)
    requires Valid(app)
    ensures forall d | d in app.deliveries :: app.deliveries[d].record in app.records
  {
    ValidIs(app);
  }

  method MakePlan(intent: File<Image>, seed: string, visible: Image, now: Time, nonce: nat) returns (r: Result<Image>)
    requires Valid(visible.app)
    ensures r == NewPlan(intent, seed, visible, now, nonce)
  {
    ValidReferences(visible.app);
    if intent == Absent {
      if !visible.app.clockFrozen && !HasUnfinished(visible.app) { return Err(Invalid); }
    } else {
      var ok := CheckPending(intent, seed, visible);
      if !ok { return Err(RecoveryRequired); }
    }
    var clean := Sanitize(visible.app, now);
    if clean.Err? { return Err(clean.error); }
    r := Ok(Sealed(clean.value, seed, visible.header, nonce));
  }

  method CheckDerived(base: Image, target: Image) returns (ok: bool)
    requires Valid(base.app)
    ensures ok <==> Derived(base, target)
  {
    ValidReferences(base.app);
    if base.header != target.header || target.app.lastTime.None? { return false; }
    var expected := Sanitize(base.app, target.app.lastTime.value);
    ok := expected == Ok(target.app);
  }

  method ResumePlan(intent: File<Image>, plan: File<Image>, seed: string, admin: Context, visible: Image) returns (r: Result<Image>)
    ensures r == OldPlan(intent, plan, seed, admin, visible)
  {
    if !plan.Pair? || plan.previous.None? { return Err(RecoveryRequired); }
    var base, target := plan.previous.value, plan.candidate;
    var readable := CanOpen(base, seed);
    if !readable { return Err(RecoveryRequired); }
    readable := CanOpen(target, seed);
    if !readable { return Err(RecoveryRequired); }
    if !AdminScope(base.app, admin) || !AdminScope(target.app, admin) { return Err(Denied); }
    var derived := CheckDerived(base, target);
    if visible.header != base.header || !derived || (visible != base && visible != target) { return Err(RecoveryRequired); }
    if intent != Absent {
      var ok := CheckPending(intent, seed, base);
      if !ok { return Err(RecoveryRequired); }
    }
    r := Ok(target);
  }

  // ----- the directory on the way -----

  ghost predicate RepairingSince(trace: seq<Files>, from: nat, p: Repair<Image>, unplanned: bool)
  {
    from <= |trace| && forall i | from <= i < |trace| :: RepairStage(trace[i], p, unplanned)
  }

  lemma RepairingOneMore(trace: seq<Files>, from: nat, p: Repair<Image>, unplanned: bool, d: Files)
    requires RepairingSince(trace, from, p, unplanned) && RepairStage(d, p, unplanned)
    ensures RepairingSince(trace + [d], from, p, unplanned)
  {}

  lemma RepairingJoined(trace: seq<Files>, from: nat, p: Repair<Image>, unplanned: bool, before: seq<Files>)
    requires RepairingSince(before, from, p, unplanned) && before <= trace && RepairingSince(trace, |before|, p, false)
    ensures RepairingSince(trace, from, p, unplanned)
  {}

  lemma PlanningKept(d: Files, e: Files, p: Repair<Image>)
    requires Planning(d, p) && (e == d || e == d.(recovery := Put(d.recovery, PlanOf(p))) || e == d.(recovery := Botched(d.recovery, PlanOf(p))))
    ensures Planning(e, p)
  {}

  lemma PlannedKept(d: Files, e: Files, p: Repair<Image>)
    requires Planned(d, p) && (e == d || e == d.(state := Put(d.state, Whole(p.plan))) || e == d.(state := Botched(d.state, Whole(p.plan))))
    ensures Planned(e, p)
  {}

  lemma RetiringKept(d: Files, e: Files, p: Repair<Image>)
    requires Retiring(d, p) && (e == d || e == d.(pending := Put(d.pending, Absent)) || e == d.(pending := Botched(d.pending, Absent)))
    ensures Retiring(e, p)
  {}

  lemma ClosingKept(d: Files, e: Files, p: Repair<Image>)
    requires Closing(d, p) && (e == d || e == d.(recovery := Put(d.recovery, Absent)) || e == d.(recovery := Botched(d.recovery, Absent)))
    ensures Closing(e, p)
  {}

  /** What a reader of the directory sees when the repair starts, or resumes with its plan. */
  predicate Shows(d: Files, p: Repair<Image>, planned: bool)
  {
    d.state.visible == p.state && d.pending.visible == p.pend && d.recovery.visible == if planned then PlanOf(p) else Absent
  }

  /** Makes the plan durable before anything else changes. */
  method WritePlan(dev: Device, p: Repair<Image>) returns (ok: bool)
    requires Shows(dev.disk, p, false)
    modifies dev
    ensures ok ==> Planned(dev.disk, p)
    ensures old(dev.trace) <= dev.trace && |old(dev.trace)| < |dev.trace|
    ensures old(Planning(dev.disk, p)) ==> RepairingSince(dev.trace, |old(dev.trace)|, p, true)
  {
    ghost var d0, t0, settled := dev.disk, dev.trace, Planning(dev.disk, p);
    ok := dev.SetRecovery(PlanOf(p));
    if settled {
      PlanningKept(d0, dev.disk, p);
      RepairingOneMore(t0, |t0|, p, true, dev.disk);
    }
    if !ok { return; }
    ghost var t1 := dev.trace;
    ok := dev.Sync();
    if settled { RepairingOneMore(t1, |t0|, p, true, dev.disk); }
  }

  method InstallPlan(dev: Device, p: Repair<Image>) returns (ok: bool)
    requires Planned(dev.disk, p) || Shows(dev.disk, p, true)
    modifies dev
    ensures ok ==> Retiring(dev.disk, p)
    ensures old(dev.trace) <= dev.trace && |old(dev.trace)| < |dev.trace|
    ensures old(Planned(dev.disk, p)) ==> RepairingSince(dev.trace, |old(dev.trace)|, p, false)
  {
    ghost var d0, t0, settled := dev.disk, dev.trace, Planned(dev.disk, p);
    ok := dev.RenameState(p.plan, p.state == Absent);
    if settled {
      PlannedKept(d0, dev.disk, p);
      RepairingOneMore(t0, |t0|, p, false, dev.disk);
    }
    if !ok { return; }
    ghost var t1 := dev.trace;
    ok := dev.Sync();
    if settled { RepairingOneMore(t1, |t0|, p, false, dev.disk); }
  }

  method RetireIntent(dev: Device, p: Repair<Image>) returns (ok: bool)
    requires Retiring(dev.disk, p)
    modifies dev
    ensures if ok then Closing(dev.disk, p) else Retiring(dev.disk, p)
    ensures old(dev.trace) <= dev.trace && RepairingSince(dev.trace, |old(dev.trace)|, p, false)
  {
    if p.pend == Absent {
      NothingToRetire(dev.disk, p);
      return true;
    }
    ghost var d0, t0 := dev.disk, dev.trace;
    ok := dev.SetPending(Absent);
    RetiringKept(d0, dev.disk, p);
    RepairingOneMore(t0, |t0|, p, false, dev.disk);
    if !ok { return; }
    ghost var t1 := dev.trace;
    ok := dev.Sync();
    RepairingOneMore(t1, |t0|, p, false, dev.disk);
  }

  lemma NothingToRetire(d: Files, p: Repair<Image>)
    requires Retiring(d, p) && p.pend == Absent
    ensures Closing(d, p)
  {}

  method RemovePlan(dev: Device, p: Repair<Image>) returns (ok: bool)
    requires Closing(dev.disk, p)
    modifies dev
    ensures Closing(dev.disk, p) && (ok ==> Steady(dev.disk, Some(p.plan)))
    ensures old(dev.trace) <= dev.trace && RepairingSince(dev.trace, |old(dev.trace)|, p, false)
  {
    ghost var d0, t0 := dev.disk, dev.trace;
    ok := dev.SetRecovery(Absent);
    ClosingKept(d0, dev.disk, p);
    RepairingOneMore(t0, |t0|, p, false, dev.disk);
    if !ok { return; }
    ghost var t1 := dev.trace;
    ok := dev.Sync();
    RepairingOneMore(t1, |t0|, p, false, dev.disk);
  }

  /** Carries out a decided repair. Whatever fails, every state on the way is a stage of this repair. */
  method Rewrite(dev: Device, p: Repair<Image>) returns (ok: bool)
    requires Shows(dev.disk, p, dev.disk.recovery.visible != Absent)
    modifies dev
    ensures ok ==> Steady(dev.disk, Some(p.plan))
    ensures old(dev.trace) <= dev.trace && |old(dev.trace)| < |dev.trace|
    ensures old(Clean(dev.disk)) ==> RepairingSince(dev.trace, |old(dev.trace)|, p, old(dev.disk.recovery.visible) == Absent)
  {
    ghost var t0, settled := dev.trace, Clean(dev.disk);
    var unplanned := dev.disk.recovery.visible == Absent;
    if settled { StartRepair(dev.disk, p); }
    ok := true;
    if unplanned { ok := WritePlan(dev, p); }
    if !ok { return; }
    ghost var t1 := dev.trace;
    ok := InstallPlan(dev, p);
    if settled { RepairingJoined(dev.trace, |t0|, p, unplanned, t1); }
    if !ok { return; }
    ghost var t2 := dev.trace;
    ok := RetireIntent(dev, p);
    if settled { RepairingJoined(dev.trace, |t0|, p, unplanned, t2); }
    if !ok { return; }
    ghost var t3 := dev.trace;
    ok := RemovePlan(dev, p);
    if settled { RepairingJoined(dev.trace, |t0|, p, unplanned, t3); }
  }

  // ----- adoption of a re-keyed image -----

  /** The directory once the candidate of its intent has replaced the state and everything is synchronised. */
  function Adopted(d: Files): Files
  {
    if d.pending.visible.Pair? then Synced(d.(state := Put(d.state, Whole(d.pending.visible.candidate)))) else d
  }

  ghost predicate AdoptingSince(trace: seq<Files>, from: nat, was: Files)
  {
    from <= |trace| && forall i | from <= i < |trace| :: Adopting(trace[i], was)
  }

  method Adopt(dev: Device, next: Image) returns (ok: bool)
    requires dev.disk.pending.visible.Pair? && dev.disk.pending.visible.candidate == next
    modifies dev
    ensures old(dev.trace) <= dev.trace && |old(dev.trace)| < |dev.trace|
    ensures old(Clean(dev.disk)) ==> AdoptingSince(dev.trace, |old(dev.trace)|, old(dev.disk))
    ensures ok ==> dev.disk == Adopted(old(dev.disk))
  {
    ok := dev.RenameState(next, false);
    if !ok { return; }
    ok := dev.Sync();
  }

  /** The image to recover from, after adopting a re-keyed candidate where the state does not open. */
  method FindVisible(dev: Device, seed: string, admin: Context) returns (r: Result<Image>)
    modifies dev
    ensures old(dev.trace) <= dev.trace
    ensures old(Clean(dev.disk)) ==> AdoptingSince(dev.trace, |old(dev.trace)|, old(dev.disk)) && (r.Ok? ==> Clean(dev.disk))
    ensures r.Ok? ==> r == Visible(old(dev.disk), seed, admin) && Valid(r.value.app)
    ensures r.Ok? ==> dev.disk.pending.visible == old(dev.disk.pending.visible) && dev.disk.recovery.visible == old(dev.disk.recovery.visible)
                      && dev.disk.state.visible == if old(dev.disk.state.visible) == Absent then Absent else Whole(r.value)
    ensures dev.trace == old(dev.trace) ==> r == Visible(old(dev.disk), seed, admin) && dev.disk == old(dev.disk)
    ensures r.Err? && dev.trace != old(dev.trace) ==> r.error == RecoveryRequired
    ensures r.Ok? ==> dev.disk == old(dev.disk) || dev.disk == Adopted(old(dev.disk))
    ensures dev.trace != old(dev.trace) && admin.admin ==> Adopts(old(dev.disk), seed, admin)
  {
    match dev.disk.state.visible
    case Whole(image) =>
      var readable := CanOpen(image, seed);
      if readable { return Ok(image); }
      var refused := CheckAdoption(dev.disk.pending.visible, seed, admin, image);
      if refused.Some? { return Err(refused.value); }
      var next := dev.disk.pending.visible.candidate;
      var ok := Adopt(dev, next);
      r := if ok then Ok(next) else Err(RecoveryRequired);
    case Absent =>
      var intent := dev.disk.pending.visible;
      if !intent.Pair? || intent.previous.Some? { return Err(RecoveryRequired); }
      var readable := CanOpen(intent.candidate, seed);
      r := if readable && SafeInitial(intent.candidate.app) then Ok(intent.candidate) else Err(RecoveryRequired);
    case _ => r := Err(InvalidStorage);
  }

  // ----- recovery -----

  /** Every state on the way is a stage of the recovery that found `was`. */
  ghost predicate RecoveringSince(trace: seq<Files>, from: nat, was: Files, seed: string, admin: Context, now: Time, nonce: nat)
  {
    from <= |trace| && forall i | from <= i < |trace| :: RecoveryStage(was, seed, admin, now, nonce, trace[i])
  }

  lemma AdoptingStages(trace: seq<Files>, from: nat, was: Files, seed: string, admin: Context, now: Time, nonce: nat)
    requires AdoptingSince(trace, from, was) && (from < |trace| ==> Adopts(was, seed, admin))
    ensures RecoveringSince(trace, from, was, seed, admin, now, nonce)
  {
    hide Recovery.Decide, Recovery.Adopts;
  }

  lemma RecoveringJoined(trace: seq<Files>, from: nat, was: Files, seed: string, admin: Context, now: Time, nonce: nat, before: seq<Files>)
    requires RecoveringSince(before, from, was, seed, admin, now, nonce) && before <= trace && Decide(was, seed, admin, now, nonce).Ok?
    requires RepairingSince(trace, |before|, Decide(was, seed, admin, now, nonce).value, was.recovery.visible == Absent)
    ensures RecoveringSince(trace, from, was, seed, admin, now, nonce)
  {
    hide Recovery.Decide, Recovery.Adopts;
    forall i | from <= i < |trace| ensures RecoveryStage(was, seed, admin, now, nonce, trace[i]) {
      if i < |before| { assert trace[i] == before[i]; }
    }
  }

  lemma StartRepair(d: Files, p: Repair<Image>)
    requires Clean(d) && d.state.visible == p.state && d.pending.visible == p.pend && (d.recovery.visible == Absent || d.recovery.visible == PlanOf(p))
    ensures if d.recovery.visible == Absent then Planning(d, p) else Planned(d, p)
  {}

  /** The repair that the checks decide on, once the visible image is known. */
  method Plan(d: Files, seed: string, admin: Context, visible: Image, now: Time, nonce: nat) returns (r: Result<Repair<Image>>)
    requires Valid(visible.app)
    ensures r == if d.recovery.visible == Absent
                 then (match NewPlan(d.pending.visible, seed, visible, now, nonce)
                       case Ok(plan) => Ok(Repair(visible, plan, d.state.visible, d.pending.visible))
                       case Err(e) => Err(e))
                 else (match OldPlan(d.pending.visible, d.recovery.visible, seed, admin, visible)
                       case Ok(plan) => Ok(Repair(d.recovery.visible.previous.value, plan, d.state.visible, d.pending.visible))
                       case Err(e) => Err(e))
    ensures r.Ok? && d.recovery.visible != Absent ==> d.recovery.visible == PlanOf(r.value)
  {
    var plan: Result<Image>;
    if d.recovery.visible == Absent {
      plan := MakePlan(d.pending.visible, seed, visible, now, nonce);
    } else {
      plan := ResumePlan(d.pending.visible, d.recovery.visible, seed, admin, visible);
    }
    if plan.Err? { return Err(plan.error); }
    var base := if d.recovery.visible == Absent then visible else d.recovery.visible.previous.value;
    r := Ok(Repair(base, plan.value, d.state.visible, d.pending.visible));
  }

  lemma DecideIs(d: Files, e: Files, seed: string, admin: Context, now: Time, nonce: nat, visible: Image)
    requires admin.admin && Visible(d, seed, admin) == Ok(visible)
    requires e.pending.visible == d.pending.visible && e.recovery.visible == d.recovery.visible
    requires e.state.visible == if d.state.visible == Absent then Absent else Whole(visible)
    ensures Decide(d, seed, admin, now, nonce)
            == if !AdminScope(visible.app, admin) then Err(Denied)
               else if e.recovery.visible == Absent
               then (match NewPlan(e.pending.visible, seed, visible, now, nonce)
                     case Ok(plan) => Ok(Repair(visible, plan, e.state.visible, e.pending.visible))
                     case Err(x) => Err(x))
               else (match OldPlan(e.pending.visible, e.recovery.visible, seed, admin, visible)
                     case Ok(plan) => Ok(Repair(e.recovery.visible.previous.value, plan, e.state.visible, e.pending.visible))
                     case Err(x) => Err(x))
  {}

  /** Recovery succeeds only with the image that was decided on, steadily installed. A refusal gives the decided reason, with
      at most the adoption done; any other error is a failed operation on the directory. Where nothing waited for a
      synchronisation at the start, every state on the way is a stage from which recovery can be resumed. */
  method RecoverAt(dev: Device, seed: string, admin: Context, now: Time, nonce: nat) returns (r: Result<Image>)
    modifies dev
    ensures old(dev.trace) <= dev.trace
    ensures old(Clean(dev.disk)) ==> RecoveringSince(dev.trace, |old(dev.trace)|, old(dev.disk), seed, admin, now, nonce)
    ensures r.Ok? ==> Decide(old(dev.disk), seed, admin, now, nonce).Ok?
                      && r.value == Decide(old(dev.disk), seed, admin, now, nonce).value.plan && Steady(dev.disk, Some(r.value))
    ensures dev.trace == old(dev.trace) ==> dev.disk == old(dev.disk) && Decide(old(dev.disk), seed, admin, now, nonce) == Err(r.error)
    ensures r.Err? ==> || (Decide(old(dev.disk), seed, admin, now, nonce) == Err(r.error)
                           && (dev.disk == old(dev.disk) || (Adopts(old(dev.disk), seed, admin) && dev.disk == Adopted(old(dev.disk)))))
                       || (r.error == RecoveryRequired && dev.trace != old(dev.trace))
    ensures r == Err(Denied) ==> Evidence.OutOfScope(old(dev.disk), seed, admin)
    ensures Evidence.OutOfScope(old(dev.disk), seed, admin) ==>
      r.Err? && (!Adopts(old(dev.disk), seed, admin) ==> r.error == Denied && dev.disk == old(dev.disk))
  {
    Evidence.DeniedExactly(dev.disk, seed, admin, now, nonce);
    hide Evidence.OutOfScope;
    if !admin.admin { return Err(Denied); }
    ghost var was, t0 := dev.disk, dev.trace;
    var found := FindVisible(dev, seed, admin);
    ghost var t1 := dev.trace;
    if Clean(was) { AdoptingStages(t1, |t0|, was, seed, admin, now, nonce); }
    if found.Err? { return Err(found.error); }
    DecideIs(was, dev.disk, seed, admin, now, nonce, found.value);
    if !AdminScope(found.value.app, admin) { return Err(Denied); }
    var p := Plan(dev.disk, seed, admin, found.value, now, nonce);
    if p.Err? { return Err(p.error); }
    var ok := Rewrite(dev, p.value);
    if Clean(was) { RecoveringJoined(dev.trace, |t0|, was, seed, admin, now, nonce, t1); }
    r := if ok then Ok(p.value.plan) else Err(RecoveryRequired);
  }

  /** A crash of the machine at any state of that trace is an episode of `EveryCrashLeavesLegal`. */
  lemma EveryStateIsAnEpisode(trace: seq<Files>, from: nat, was: Files, seed: string, admin: Context, now: Time, nonce: nat, i: nat, e: Files)
    requires RecoveringSince(trace, from, was, seed, admin, now, nonce) && from <= i < |trace| && Crashed(trace[i], e)
    ensures Happens(was, Recover(seed, admin, now, nonce, trace[i]), e)
  {
    hide RecoveryStage;
  }
}
