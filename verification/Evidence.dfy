/** What recovery rests on: the successor relation as a list of regressions it refuses, the scope of the administrator, and
    the evidence behind every decision, for any files whatsoever. */
module Evidence {
  import opened Types
  import opened Policy
  import opened Ledger
  import opened Compaction
  import opened Settlement
  import opened Transition
  import opened Directory
  import opened Recovery
  import Retention

  // ----- regressions -----

  /** The deadline has passed at the time of the successor, or of its predecessor where it has none. */
  predicate Past(o: App, n: App, deadline: Time)
  {
    if n.lastTime.Some? then deadline <= n.lastTime.value else o.lastTime.Some? && deadline <= o.lastTime.value
  }

  /** An approval is changed, or dropped while it is live or referred to. */
  predicate LosesTask(o: App, n: App, id: Uuid)
    requires id in o.tasks
  {
    if id in n.tasks then n.tasks[id] != o.tasks[id]
    else (id !in o.revokedTasks && !Past(o, n, o.tasks[id].expiresAt)) || Retention.NamesTask(n, id)
  }

  /** A record changes hands, goes back, comes back, or changes without a new revision. */
  predicate Regressed(r: Record, n: Record)
  {
    || r.owner != n.owner || r.workspace != n.workspace || r.createdBy != n.createdBy || r.task != n.task || r.service != n.service
    || r.origin != n.origin || r.kind != n.kind || r.restored != n.restored
    || n.revision < r.revision || n.secretVersion < r.secretVersion || (r.deleted && !n.deleted)
    || (n.revision == r.revision && (n.secretVersion != r.secretVersion || n.deleted != r.deleted || n.values != r.values))
  }

  predicate LosesRecord(o: App, n: App, id: Uuid)
    requires id in o.records
  {
    if id in n.records then Regressed(o.records[id], n.records[id])
    else !o.records[id].deleted || Retention.NamesRecord(n, id)
  }

  /** A grant is altered, given back, or dropped while it is live or mentioned. */
  predicate LosesGrant(o: App, n: App, g: Uuid)
    requires g in o.grants
  {
    if g in n.grants then
      var was, now := o.grants[g], n.grants[g];
      || now.record != was.record || now.version != was.version || now.issuerTask != was.issuerTask || now.adminIssued != was.adminIssued
      || now.spec != was.spec || (was.revoked && !now.revoked)
    else || (!o.grants[g].revoked && !Past(o, n, o.grants[g].spec.expiresAt))
         || exists k | k in n.requests :: n.requests[k].result.grant == Some(g)
  }

  /** A receipt is altered, or dropped without a baseline that accounts for it or a deleted record that took it along. */
  predicate LosesReceipt(o: App, n: App, k: RequestKey)
    requires k in o.requests
  {
    if k in n.requests then n.requests[k] != o.requests[k]
    else
      var id := o.requests[k].result.record;
      var through := if id in n.baselines then n.baselines[id].through else 0;
      var revision := if id in o.records then o.records[id].revision else 0;
      && (through < o.requests[k].result.revision || revision < through)
      && !(id in o.records && o.records[id].deleted && id !in n.records)
  }

  /** A settled attempt is altered, an unfinished one is dropped or rewritten, or one is dropped without its seal. */
  predicate LosesAttempt(o: App, n: App, i: Uuid)
    requires i in o.deliveries
  {
    var d := o.deliveries[i];
    if i in n.deliveries then
      if d.status.Some? then n.deliveries[i] != d
      else n.deliveries[i].(status := None, dispatched := d.dispatched) != d
    else || d.status.None?
         || (d.action == Register && d.dispatched && d.record in n.records
             && !(d.record in n.baselines && n.baselines[d.record].registrationDispatched))
         || (d.action == Login && d.dispatched && d.status == Some(StAccepted) && d.record in n.records
             && n.records[d.record].signup == VerifiedLogin && n.records[d.record].secretVersion == d.version && !Attested(n, d.record))
  }

  /** The verified login is sealed, or an accepted login of the current version is retained. */
  predicate Attested(n: App, id: Uuid)
    requires id in n.records
  {
    || (id in n.baselines && n.baselines[id].verifiedLogin)
    || exists e | e in n.deliveries ::
         n.deliveries[e].record == id && n.deliveries[e].action == Login && n.deliveries[e].dispatched
         && n.deliveries[e].status == Some(StAccepted) && n.deliveries[e].version == n.records[id].secretVersion
  }

  predicate Regresses(o: App, n: App)
  {
    || (o.tasks != map[] && n.tasks == map[])
    || (exists id | id in o.tasks :: LosesTask(o, n, id)) || (exists id | id in o.revokedTasks :: id in n.tasks && id !in n.revokedTasks)
    || (exists id | id in o.records :: LosesRecord(o, n, id)) || (exists g | g in o.grants :: LosesGrant(o, n, g))
    || (exists k | k in o.requests :: LosesReceipt(o, n, k)) || (exists i | i in o.deliveries :: LosesAttempt(o, n, i))
  }

  lemma TasksExactly(o: App, n: App)
    ensures TasksEvidence(o, n) <==>
      && !(o.tasks != map[] && n.tasks == map[]) && (forall id | id in o.tasks :: !LosesTask(o, n, id))
      && !exists id | id in o.revokedTasks :: id in n.tasks && id !in n.revokedTasks
  {
    forall id ensures Referenced(n.records, n.grants, n.deliveries, n.requests, id) <==> Retention.NamesTask(n, id) {}
    hide Referenced, Retention.NamesTask;
  }

  lemma RecordsExactly(o: App, n: App)
    ensures RecordsEvidence(o, n) <==> forall id | id in o.records :: !LosesRecord(o, n, id)
  {}

  lemma GrantsExactly(o: App, n: App)
    ensures GrantsEvidence(o, n) <==> forall g | g in o.grants :: !LosesGrant(o, n, g)
  {}

  lemma ReceiptsExactly(o: App, n: App)
    ensures RequestsEvidence(o, n) <==> forall k | k in o.requests :: !LosesReceipt(o, n, k)
  {}

  lemma AttemptsExactly(o: App, n: App)
    ensures DeliveriesEvidence(o, n) <==> forall i | i in o.deliveries :: !LosesAttempt(o, n, i)
  {}

  /** An image is accepted as the successor of another exactly when it is one generation on and loses nothing. */
  lemma SuccessorExactly(o: App, n: App)
    ensures Transition.Transition(o, n) <==> n.generation == o.generation + 1 && !Regresses(o, n)
  {
    TasksExactly(o, n);
    RecordsExactly(o, n);
    GrantsExactly(o, n);
    ReceiptsExactly(o, n);
    AttemptsExactly(o, n);
    hide TasksEvidence, RecordsEvidence, GrantsEvidence, RequestsEvidence, DeliveriesEvidence;
    hide LosesTask, LosesRecord, LosesGrant, LosesReceipt, LosesAttempt;
  }

  // ----- the scope of the administrator -----

  /** The state does not open, and the intent's readable candidate would replace it. */
  ghost predicate Readopts(d: Files, seed: string)
  {
    && d.state.visible.Whole? && !Opens(d.state.visible.image, seed) && d.pending.visible.Pair?
    && (Some(d.state.visible.image) == d.pending.visible.previous || d.state.visible.image == d.pending.visible.candidate)
    && Opens(d.pending.visible.candidate, seed)
  }

  /** A plan stands that opens. */
  ghost predicate Planned(d: Files, seed: string)
  {
    && d.recovery.visible.Pair? && d.recovery.visible.previous.Some?
    && Opens(d.recovery.visible.previous.value, seed) && Opens(d.recovery.visible.candidate, seed)
  }

  /** The caller is no administrator, or some image recovery would read belongs in part to somebody else. */
  ghost predicate OutOfScope(d: Files, seed: string, admin: Context)
  {
    || !admin.admin
    || (Readopts(d, seed) && Foreign(d.pending.visible.candidate.app, admin))
    || (Visible(d, seed, admin).Ok?
        && (|| Foreign(Visible(d, seed, admin).value.app, admin)
            || (Planned(d, seed) && (Foreign(d.recovery.visible.previous.value.app, admin) || Foreign(d.recovery.visible.candidate.app, admin)))))
  }

  lemma PlanDenied(intent: File<Image>, plan: File<Image>, seed: string, admin: Context, visible: Image)
    requires admin.admin
    ensures OldPlan(intent, plan, seed, admin, visible) == Err(Denied) <==>
      && plan.Pair? && plan.previous.Some? && Opens(plan.previous.value, seed) && Opens(plan.candidate, seed)
      && (Foreign(plan.previous.value.app, admin) || Foreign(plan.candidate.app, admin))
  {
    if plan.Pair? && plan.previous.Some? {
      ScopeExactly(plan.previous.value.app, admin);
      ScopeExactly(plan.candidate.app, admin);
    }
    hide AdminScope, Foreign, Opens, Derived, Supports;
  }

  lemma AdoptionDenied(d: Files, seed: string, admin: Context)
    requires admin.admin
    ensures Visible(d, seed, admin) == Err(Denied) <==> Readopts(d, seed) && Foreign(d.pending.visible.candidate.app, admin)
  {
    if d.pending.visible.Pair? { ScopeExactly(d.pending.visible.candidate.app, admin); }
    hide AdminScope, Foreign, Opens, SafeInitial;
  }

  /** Recovery is denied exactly out of scope. */
  lemma DeniedExactly(d: Files, seed: string, admin: Context, now: Time, nonce: nat)
    ensures Decide(d, seed, admin, now, nonce) == Err(Denied) <==> OutOfScope(d, seed, admin)
  {
    if admin.admin {
      AdoptionDenied(d, seed, admin);
      var found := Visible(d, seed, admin);
      hide Visible, Opens;
      if found.Ok? {
        ScopeExactly(found.value.app, admin);
        PlanDenied(d.pending.visible, d.recovery.visible, seed, admin, found.value);
        NeverPlanDenied(d.pending.visible, seed, found.value, now, nonce);
      }
      hide AdminScope, Foreign, OldPlan, NewPlan;
    }
  }

  lemma NeverPlanDenied(intent: File<Image>, seed: string, visible: Image, now: Time, nonce: nat)
    ensures NewPlan(intent, seed, visible, now, nonce) != Err(Denied)
  {
    hide Supports;
  }

  // ----- the evidence behind a decision -----

  /** Nobody may act on it, nothing is in progress, and no record of it can be registered. */
  predicate Harmless(app: App)
  {
    && (forall id | id in app.tasks :: id in app.revokedTasks) && (forall g | g in app.grants :: app.grants[g].revoked)
    && (forall d | d in app.deliveries :: app.deliveries[d].status.Some?) && (forall id | id in app.records :: app.records[id].restored)
  }

  /** What an intent proves: a harmless first image, a successor that loses nothing, or an image bound to one under another seed. */
  ghost predicate Proves(previous: Option<Image>, next: Image, seed: string)
  {
    && next.seed == seed && Valid(next.app)
    && match previous
       case None => Harmless(next.app)
       case Some(last) =>
         && (next.header != last.header || last.seed != seed || !Valid(last.app) ==> next.app.predecessor == Some(DigestOf(last)))
         && (last.seed == seed && Valid(last.app) ==> next.app.generation == last.app.generation + 1 && !Regresses(last.app, next.app))
  }

  lemma ConsistentProves(previous: Option<Image>, next: Image, seed: string)
    requires Consistent(previous, next, seed)
    ensures Proves(previous, next, seed)
  {
    if previous.Some? { SuccessorExactly(previous.value.app, next.app); }
    hide Transition.Transition, Regresses;
  }

  /** Whatever the files: recovery installs only what disarming makes of an image that opens under the seed and that is visible,
      adopted, or the base of the standing plan, and only with an intent that proves its images, or because the clock is
      frozen or an attempt unfinished. */
  lemma DecisionRestsOnEvidence(d: Files, seed: string, admin: Context, now: Time, nonce: nat)
    requires Decide(d, seed, admin, now, nonce).Ok?
    ensures var p := Decide(d, seed, admin, now, nonce).value; var intent := d.pending.visible;
      && Rebuilt(p.base, p.plan, seed)
      && (d.recovery.visible == Absent ==> p.plan.app.lastTime == Some(now) && p.plan.nonce == nonce && Shown(d, seed, p.base))
      && (d.recovery.visible != Absent ==> d.recovery.visible == Pair(Some(p.base), p.plan) && (Shown(d, seed, p.base) || Shown(d, seed, p.plan)))
      && (intent == Absent && d.recovery.visible == Absent ==> p.base.app.clockFrozen || HasUnfinished(p.base.app))
      && (intent != Absent ==> intent.Pair? && Proves(intent.previous, intent.candidate, seed)
                               && (p.base == intent.candidate || Some(p.base) == intent.previous))
  {
    var found := Visible(d, seed, admin).value;
    FoundIsShown(d, seed, admin);
    if d.pending.visible.Pair? && Consistent(d.pending.visible.previous, d.pending.visible.candidate, seed) {
      ConsistentProves(d.pending.visible.previous, d.pending.visible.candidate, seed);
    }
    hide Visible, AdminScope, Consistent, Proves, Shown, HasUnfinished;
    if d.recovery.visible == Absent {
      NewIsRebuilt(d.pending.visible, seed, found, now, nonce);
      hide Rebuilt, Opens, Settlement.Sanitize;
    } else {
      OldIsRebuilt(d.pending.visible, d.recovery.visible, seed, admin, found);
      hide Rebuilt, Opens, Derived;
    }
  }

  /** The plan is the base, disarmed at the plan's own time, one generation on and under the same key. */
  ghost predicate Rebuilt(base: Image, plan: Image, seed: string)
  {
    && base.seed == seed && Valid(base.app) && plan.seed == seed && Valid(plan.app) && plan.header == base.header
    && Disarmed(base.app, plan.app) && plan.app.generation == base.app.generation + 1 && !plan.app.clockFrozen && plan.app.predecessor.None?
    && plan.app.lastTime.Some? && forall id | id in base.app.records :: plan.app.records[id].restored == base.app.records[id].restored
  }

  /** The image is the state, a re-keyed candidate bound to a state that does not open, or a harmless first image. */
  ghost predicate Shown(d: Files, seed: string, image: Image)
  {
    && Opens(image, seed)
    && match d.state.visible
       case Whole(state) =>
         || image == state
         || (d.pending.visible.Pair? && image == d.pending.visible.candidate && !Opens(state, seed) && d.pending.visible.previous.Some?
             && (state == d.pending.visible.previous.value || state == image) && image.app.predecessor == Some(DigestOf(d.pending.visible.previous.value)))
       case Absent => d.pending.visible == Pair(None, image) && Harmless(image.app)
       case _ => false
  }

  lemma FoundIsShown(d: Files, seed: string, admin: Context)
    requires Visible(d, seed, admin).Ok?
    ensures Shown(d, seed, Visible(d, seed, admin).value)
  {
    hide Valid, AdminScope;
  }

  lemma NewIsRebuilt(intent: File<Image>, seed: string, visible: Image, now: Time, nonce: nat)
    requires NewPlan(intent, seed, visible, now, nonce).Ok? && Opens(visible, seed)
    ensures Rebuilt(visible, NewPlan(intent, seed, visible, now, nonce).value, seed)
  {
    SanitizedIsDisarmed(visible.app, now);
    hide Disarmed, Supports, Sanitized;
  }

  lemma OldIsRebuilt(intent: File<Image>, plan: File<Image>, seed: string, admin: Context, visible: Image)
    requires OldPlan(intent, plan, seed, admin, visible).Ok?
    ensures Rebuilt(plan.previous.value, plan.candidate, seed)
  {
    SanitizedIsDisarmed(plan.previous.value.app, plan.candidate.app.lastTime.value);
    hide Disarmed, Supports, Sanitized;
  }
}
