/** Recovery of a vault directory: what `recover_at` decides from the files it finds, and that it always finishes what a
    crash interrupted. */
module Recovery {
  import opened Types
  import opened Policy
  import opened Ledger
  import opened CompactionLedger
  import opened Settlement
  import opened Transition
  import opened Directory

  type Files = Disk<Image>

  /** Decryption under a seed, with the application that decoding accepts. */
  ghost predicate Opens(image: Image, seed: string) { image.seed == seed && Valid(image.app) }

  predicate EmptyInitial(app: App)
  {
    && app.generation == 1 && app.tasks == map[] && app.records == map[] && app.grants == map[] && app.requests == map[]
    && app.revokedTasks == {} && app.deliveries == map[] && app.audit == [] && app.lastTime.None? && !app.clockFrozen
  }

  /** The only applications that may be installed where there was none: nothing at all, or a copy without authority. */
  predicate SafeInitial(app: App)
  {
    || EmptyInitial(app)
    || (&& (forall id | id in app.records :: app.records[id].restored) && (forall id | id in app.tasks :: id in app.revokedTasks)
        && (forall g | g in app.grants :: app.grants[g].revoked) && (forall d | d in app.deliveries :: app.deliveries[d].status.Some?))
  }

  predicate HasUnfinished(app: App) { exists d | d in app.deliveries :: app.deliveries[d].status.None? }

  // ----- opening -----

  /** A restart: refused while a gate stands, or while a published attempt has no outcome. */
  ghost function Open(d: Files, seed: string): Result<App>
  {
    if Gated(d) then Err(RecoveryRequired)
    else if !d.state.visible.Whole? || !Opens(d.state.visible.image, seed) then Err(InvalidStorage)
    else if HasUnfinished(d.state.visible.image.app) then Err(RecoveryRequired)
    else Ok(d.state.visible.image.app)
  }

  // ----- the decisions of recover_at -----

  /** The evidence in an intent supports `visible`. */
  ghost predicate Supports(intent: File<Image>, seed: string, visible: Image)
  {
    intent.Pair? && Consistent(intent.previous, intent.candidate, seed) && (visible == intent.candidate || Some(visible) == intent.previous)
  }

  ghost predicate Consistent(previous: Option<Image>, next: Image, seed: string)
  {
    && Opens(next, seed)
    && match previous
       case None => SafeInitial(next.app)
       case Some(last) =>
         if Opens(last, seed) then
           (next.header != last.header ==> next.app.predecessor == Some(DigestOf(last))) && Transition.Transition(last.app, next.app)
         else next.app.predecessor == Some(DigestOf(last))
  }

  /** Whether the re-keyed image of the intent may replace a state that does not open: `None` when it may. */
  ghost function AdoptError(intent: File<Image>, seed: string, admin: Context, visible: Image): Option<Error>
  {
    if !intent.Pair? || (Some(visible) != intent.previous && visible != intent.candidate) || !Opens(intent.candidate, seed)
    then Some(RecoveryRequired)
    else if !AdminScope(intent.candidate.app, admin) then Some(Denied)
    else if intent.previous.None? || intent.candidate.app.predecessor != Some(DigestOf(intent.previous.value)) then Some(RecoveryRequired)
    else None
  }

  /** The image recovery works on: the state once a re-keyed candidate has been adopted, or a safe initial candidate. */
  ghost function Visible(d: Files, seed: string, admin: Context): Result<Image>
  {
    match d.state.visible
    case Whole(image) =>
      if Opens(image, seed) then Ok(image)
      else
        var refused := AdoptError(d.pending.visible, seed, admin, image);
        if refused.Some? then Err(refused.value) else Ok(d.pending.visible.candidate)
    case Absent =>
      if d.pending.visible.Pair? && d.pending.visible.previous.None? && Opens(d.pending.visible.candidate, seed)
         && SafeInitial(d.pending.visible.candidate.app)
      then Ok(d.pending.visible.candidate)
      else Err(RecoveryRequired)
    case _ => Err(InvalidStorage)
  }

  /** No plan stands: check the intent, sanitize under the sampled clock, seal under the same key. */
  ghost function NewPlan(intent: File<Image>, seed: string, visible: Image, now: Time, nonce: nat): Result<Image>
  {
    if intent == Absent && !visible.app.clockFrozen && !HasUnfinished(visible.app) then Err(Invalid)
    else if intent != Absent && !Supports(intent, seed, visible) then Err(RecoveryRequired)
    else
      var clean := Sanitize(visible.app, now);
      if clean.Err? then Err(clean.error) else Ok(Sealed(clean.value, seed, visible.header, nonce))
  }

  /** The target is what recovery makes of the base at the target's own time, under the same key. */
  ghost predicate Derived(base: Image, target: Image)
  {
    && base.header == target.header && target.app.lastTime.Some?
    && Sanitize(base.app, target.app.lastTime.value) == Ok(target.app)
  }

  /** A plan stands: it must be derived from its base, and the base or the target must be what is visible. */
  ghost function OldPlan(intent: File<Image>, plan: File<Image>, seed: string, admin: Context, visible: Image): Result<Image>
  {
    if !plan.Pair? || plan.previous.None? || !Opens(plan.previous.value, seed) || !Opens(plan.candidate, seed) then Err(RecoveryRequired)
    else if !AdminScope(plan.previous.value.app, admin) || !AdminScope(plan.candidate.app, admin) then Err(Denied)
    else if visible.header != plan.previous.value.header || !Derived(plan.previous.value, plan.candidate)
            || (visible != plan.previous.value && visible != plan.candidate)
            || (intent != Absent && !Supports(intent, seed, plan.previous.value))
    then Err(RecoveryRequired)
    else Ok(plan.candidate)
  }

  /** What recovery will install, from the visible files, the seed, the administrator and a clock sample. */
  ghost function Decide(d: Files, seed: string, admin: Context, now: Time, nonce: nat): Result<Repair<Image>>
  {
    if !admin.admin then Err(Denied)
    else
      var found := Visible(d, seed, admin);
      if found.Err? then Err(found.error)
      else if !AdminScope(found.value.app, admin) then Err(Denied)
      else
        var unplanned := d.recovery.visible == Absent;
        var plan := if unplanned then NewPlan(d.pending.visible, seed, found.value, now, nonce)
                    else OldPlan(d.pending.visible, d.recovery.visible, seed, admin, found.value);
        if plan.Err? then Err(plan.error)
        else Ok(Repair(if unplanned then found.value else d.recovery.visible.previous.value, plan.value,
                       if d.state.visible == Absent then Absent else Whole(found.value), d.pending.visible))
  }

  // ----- the directories that publications, recoveries and crashes leave -----

  /** A pair of consecutive publications: the first one, an operation under the same key, or a re-keying. */
  ghost predicate Genuine(previous: Option<Image>, next: Image)
  {
    && Valid(next.app)
    && match previous
       case None => SafeInitial(next.app)
       case Some(last) =>
         && Valid(last.app) && Transition.Transition(last.app, next.app)
         && ((last.seed == next.seed && last.header == next.header) || next.app.predecessor == Some(DigestOf(last)))
  }

  lemma GenuineIsConsistent(previous: Option<Image>, next: Image)
    requires Genuine(previous, next)
    ensures Consistent(previous, next, next.seed)
  {}

  /** An intent recovery may meet: none, or a genuine pair under the seed. */
  ghost predicate GoodIntent(intent: File<Image>, seed: string)
  {
    intent == Absent || (intent.Pair? && Genuine(intent.previous, intent.candidate) && intent.candidate.seed == seed)
  }

  /** The base is what the intent allows to be visible, and the state file is the base or is still missing. */
  ghost predicate Fits(p: Repair<Image>)
  {
    && Valid(p.base.app) && Valid(p.plan.app) && p.base.seed == p.plan.seed && Derived(p.base, p.plan)
    && GoodIntent(p.pend, p.base.seed)
    && (p.pend != Absent ==> p.base == p.pend.candidate || Some(p.base) == p.pend.previous)
    && (p.state == Whole(p.base) || p.state == Whole(p.plan) || (p.state == Absent && p.pend == Pair(None, p.base)))
  }

  ghost predicate Interrupted(d: Files, previous: Option<Image>, next: Image)
  {
    && Genuine(previous, next) && Only(d.pending, Pair(previous, next)) && Only(d.recovery, Absent)
    && (Only(d.state, FileOf(previous)) || Only(d.state, Whole(next)))
  }

  ghost predicate HalfRepaired(d: Files, p: Repair<Image>)
  {
    && Fits(p) && Only(d.recovery, PlanOf(p)) && (Only(d.state, p.state) || Only(d.state, Whole(p.plan)))
    && (Only(d.pending, p.pend) || (Only(d.pending, Absent) && Only(d.state, Whole(p.plan))))
  }

  ghost predicate TornAt(d: Files, cur: Option<Image>)
  {
    Only(d.state, FileOf(cur)) && Only(d.pending, Torn) && Only(d.recovery, Absent)
  }

  // ----- recovery finishes -----

  /** A fresh recovery of an interrupted publication, with the candidate's seed: it works on the old or the new image
      and succeeds exactly when that image can be sanitized at the sampled time. */
  lemma InterruptedIsRecovered(d: Files, previous: Option<Image>, next: Image, admin: Context, now: Time, nonce: nat)
    requires Interrupted(d, previous, next) && admin.admin
    requires AdminScope(next.app, admin) && (previous.Some? ==> AdminScope(previous.value.app, admin))
    ensures var found := Visible(d, next.seed, admin);
      && found.Ok? && (found.value == next || Some(found.value) == previous) && Valid(found.value.app) && found.value.seed == next.seed
      && match Decide(d, next.seed, admin, now, nonce)
         case Ok(p) => Sanitize(found.value.app, now) == Ok(p.plan.app) && p.base == found.value && Fits(p)
         case Err(_) => Sanitize(found.value.app, now).Err?
  {
    GenuineIsConsistent(previous, next);
    FoundInterrupted(d, previous, next, admin);
    var v := Visible(d, next.seed, admin).value;
    DecidedFresh(d, previous, next, admin, now, nonce, v);
  }

  lemma FoundInterrupted(d: Files, previous: Option<Image>, next: Image, admin: Context)
    requires Interrupted(d, previous, next) && AdminScope(next.app, admin)
    ensures var found := Visible(d, next.seed, admin);
      && found.Ok? && (found.value == next || Some(found.value) == previous) && Opens(found.value, next.seed)
      && (d.state.visible == Absent ==> previous.None? && found.value == next)
  {}

  lemma SanitizedAtItsTime(app: App, now: Time)
    requires Sanitize(app, now).Ok?
    ensures Sanitize(app, now).value.lastTime == Some(now) && Valid(Sanitize(app, now).value)
  {}

  /** The plan a supported image gets, and that a recovery with that plan fits. */
  lemma PlanFits(intent: File<Image>, seed: string, v: Image, now: Time, nonce: nat)
    requires Opens(v, seed) && intent.Pair? && Supports(intent, seed, v)
    ensures match NewPlan(intent, seed, v, now, nonce)
      case Ok(plan) => Sanitize(v.app, now) == Ok(plan.app) && plan.seed == seed && Valid(plan.app) && Derived(v, plan)
      case Err(_) => Sanitize(v.app, now).Err?
  {
    if Sanitize(v.app, now).Ok? { SanitizedAtItsTime(v.app, now); }
  }

  lemma DecidedFresh(d: Files, previous: Option<Image>, next: Image, admin: Context, now: Time, nonce: nat, v: Image)
    requires d.recovery.visible == Absent && d.pending.visible == Pair(previous, next) && admin.admin && AdminScope(v.app, admin)
    requires Genuine(previous, next) && Consistent(previous, next, next.seed)
    requires Visible(d, next.seed, admin) == Ok(v) && (v == next || Some(v) == previous) && Opens(v, next.seed)
    requires d.state.visible == Absent ==> previous.None? && v == next
    ensures match Decide(d, next.seed, admin, now, nonce)
      case Ok(p) => Sanitize(v.app, now) == Ok(p.plan.app) && p.base == v && Fits(p)
      case Err(_) => Sanitize(v.app, now).Err?
  {
    PlanFits(d.pending.visible, next.seed, v, now, nonce);
  }

  lemma PlanWithoutIntent(seed: string, v: Image, now: Time, nonce: nat)
    requires Opens(v, seed)
    ensures match NewPlan(Absent, seed, v, now, nonce)
      case Ok(plan) => Sanitize(v.app, now) == Ok(plan.app) && plan.seed == seed && Valid(plan.app) && Derived(v, plan)
      case Err(e) => if v.app.clockFrozen || HasUnfinished(v.app) then Sanitize(v.app, now).Err? else e == Invalid
  {
    if Sanitize(v.app, now).Ok? { SanitizedAtItsTime(v.app, now); }
  }

  /** Without a gate, recovery answers a frozen clock or an unfinished attempt, and nothing else. */
  lemma UnfinishedIsRecovered(d: Files, cur: Image, admin: Context, now: Time, nonce: nat)
    requires Steady(d, Some(cur)) && Valid(cur.app) && admin.admin && AdminScope(cur.app, admin)
    ensures match Decide(d, cur.seed, admin, now, nonce)
      case Ok(p) => Sanitize(cur.app, now) == Ok(p.plan.app) && p.base == cur && p.state == Whole(cur) && p.pend == Absent && Fits(p)
      case Err(e) => if cur.app.clockFrozen || HasUnfinished(cur.app) then Sanitize(cur.app, now).Err? else e == Invalid
  {
    PlanWithoutIntent(cur.seed, cur, now, nonce);
    DecideSteady(d, cur, admin, now, nonce);
    var plan := NewPlan(Absent, cur.seed, cur, now, nonce);
    if plan.Ok? { FitsWithoutIntent(cur, plan.value); }
  }

  lemma DecideSteady(d: Files, cur: Image, admin: Context, now: Time, nonce: nat)
    requires Steady(d, Some(cur)) && Opens(cur, cur.seed) && admin.admin && AdminScope(cur.app, admin)
    ensures Decide(d, cur.seed, admin, now, nonce) == match NewPlan(Absent, cur.seed, cur, now, nonce)
      case Ok(plan) => Ok(Repair(cur, plan, Whole(cur), Absent))
      case Err(e) => Err(e)
  {}

  lemma FitsWithoutIntent(base: Image, plan: Image)
    requires Valid(base.app) && Valid(plan.app) && base.seed == plan.seed && Derived(base, plan)
    ensures Fits(Repair(base, plan, Whole(base), Absent))
  {}

  // ----- recovery resumes -----

  lemma ScopeOfSettled(app: App, admin: Context, now: Time)
    requires Sanitize(app, now).Ok? && AdminScope(app, admin)
    ensures AdminScope(Sanitize(app, now).value, admin)
  {
    SanitizedScope(app, Sanitized(app, now), admin);
  }

  lemma SanitizedScope(app: App, clean: App, admin: Context)
    requires AdminScope(app, admin) && clean.tasks == app.tasks && clean.records == Settled(app, false).records
    ensures AdminScope(clean, admin)
  {}

  lemma FoundHalfRepaired(d: Files, p: Repair<Image>, admin: Context)
    requires HalfRepaired(d, p)
    ensures var found := Visible(d, p.base.seed, admin); found == Ok(p.base) || found == Ok(p.plan)
  {}

  lemma BaseSupported(p: Repair<Image>)
    requires Fits(p) && p.pend != Absent
    ensures Supports(p.pend, p.base.seed, p.base)
  {
    GenuineIsConsistent(p.pend.previous, p.pend.candidate);
  }

  lemma PlanStands(p: Repair<Image>, intent: File<Image>, admin: Context, v: Image)
    requires Fits(p) && (intent == p.pend || intent == Absent) && (v == p.base || v == p.plan)
    requires AdminScope(p.base.app, admin) && AdminScope(p.plan.app, admin)
    ensures OldPlan(intent, PlanOf(p), p.base.seed, admin, v) == Ok(p.plan)
  {
    if p.pend != Absent { BaseSupported(p); }
  }

  /** Once the plan is durable, every later run decides on exactly the planned image, whatever clock it samples. */
  lemma ResumesWithThePlan(d: Files, p: Repair<Image>, admin: Context, now: Time, nonce: nat)
    requires HalfRepaired(d, p) && admin.admin && AdminScope(p.base.app, admin)
    ensures var r := Decide(d, p.base.seed, admin, now, nonce); r.Ok? && r.value.plan == p.plan && r.value.base == p.base
  {
    FoundHalfRepaired(d, p, admin);
    ScopeOfSettled(p.base.app, admin, p.plan.app.lastTime.value);
    PlanStands(p, d.pending.visible, admin, Visible(d, p.base.seed, admin).value);
  }

  // ----- what is left after recovery -----

  lemma SettledIsFinished(app: App, now: Time)
    requires Sanitize(app, now).Ok?
    ensures !HasUnfinished(Sanitize(app, now).value) && !Sanitize(app, now).value.clockFrozen
  {
    NoUnfinished(app, Sanitized(app, now));
  }

  lemma NoUnfinished(app: App, clean: App)
    requires clean.deliveries == SettledDeliveries(app.deliveries)
    ensures !HasUnfinished(clean)
  {}

  /** A completed recovery opens with the planned application, and another recovery has nothing to do. */
  lemma RecoveredOpens(d: Files, p: Repair<Image>, admin: Context, now: Time, nonce: nat)
    requires Fits(p) && Steady(d, Some(p.plan)) && admin.admin && AdminScope(p.plan.app, admin)
    ensures Open(d, p.base.seed) == Ok(p.plan.app)
    ensures Decide(d, p.base.seed, admin, now, nonce) == Err(Invalid)
  {
    SettledIsFinished(p.base.app, p.plan.app.lastTime.value);
  }

  // ----- what opening admits -----

  /** A crash anywhere in a publication: a restart without a gate sees the image before it, or a candidate that was
      renamed and synchronised; in every other stage the candidate is never admitted. */
  lemma OpenAdmitsOnlyDurable(d: Files, e: Files, cur: Option<Image>, next: Image, seed: string)
    requires Publishing(d, cur, next) && Crashed(d, e) && Open(e, seed).Ok?
    ensures (cur.Some? && Open(e, seed).value == cur.value.app) || (Clearing(d, cur, next) && Open(e, seed).value == next.app)
  {
    CrashOfPublication(d, e, cur, next);
  }

  /** A publication that was not confirmed: whatever a crash leaves, a restart refuses it or opens the image before it. */
  lemma UnconfirmedIsNeverAdmitted(d: Files, e: Files, cur: Option<Image>, next: Image, seed: string)
    requires (Announcing(d, cur, next) || Announced(d, cur, next)) && Crashed(d, e) && Open(e, seed).Ok?
    ensures cur.Some? && Only(e.state, FileOf(cur)) && Open(e, seed).value == cur.value.app
  {
    CrashOfPublication(d, e, cur, next);
  }

  /** A crash anywhere in a recovery: a restart without a gate sees the planned image, or the directory is as recovery found it. */
  lemma OpenAdmitsOnlyThePlan(d: Files, e: Files, p: Repair<Image>, seed: string)
    requires Repairing(d, p) && Crashed(d, e) && Open(e, seed).Ok?
    ensures Open(e, seed).value == p.plan.app || (Only(e.state, p.state) && Only(e.pending, p.pend) && Only(e.recovery, Absent))
  {
    CrashOfRepair(d, e, p);
  }

  // ----- any number of interrupted publications and recoveries -----

  datatype Episode =
    | Publish(next: Image, upTo: Files)                                              // interrupted at `upTo`
    | Recover(seed: string, admin: Context, now: Time, nonce: nat, upTo: Files)

  /** The state does not open, and the intent's re-keyed candidate replaces it before anything is decided. */
  ghost predicate Adopts(d: Files, seed: string, admin: Context)
  {
    && admin.admin && d.state.visible.Whole? && !Opens(d.state.visible.image, seed)
    && AdoptError(d.pending.visible, seed, admin, d.state.visible.image).None?
  }

  /** The state file is being replaced by the intent's candidate; the gates are as they were. */
  ghost predicate Adopting(d: Files, was: Files)
  {
    && was.pending.visible.Pair? && d.pending == was.pending && d.recovery == was.recovery
    && Either(d.state, was.state.visible, Whole(was.pending.visible.candidate))
  }

  /** A state of the directory during a recovery that found `d`: of the adoption, whatever is decided after it, or of the
      repair that was decided. */
  ghost predicate RecoveryStage(d: Files, seed: string, admin: Context, now: Time, nonce: nat, upTo: Files)
  {
    || (Adopts(d, seed, admin) && Adopting(upTo, d))
    || (Decide(d, seed, admin, now, nonce).Ok? && RepairStage(upTo, Decide(d, seed, admin, now, nonce).value, d.recovery.visible == Absent))
  }

  /** The crash of an episode that started at `d` and was interrupted at some stage. */
  ghost predicate Happens(d: Files, ep: Episode, e: Files)
  {
    && Crashed(ep.upTo, e)
    && match ep
       case Publish(next, upTo) => exists cur: Option<Image> :: Steady(d, cur) && Genuine(cur, next) && Publishing(upTo, cur, next)
       case Recover(seed, admin, now, nonce, upTo) => RecoveryStage(d, seed, admin, now, nonce, upTo)
  }

  /** A directory that publications, recoveries and crashes can leave behind. */
  ghost predicate Legal(d: Files)
  {
    || (exists cur: Option<Image> :: Steady(d, cur) && (cur.Some? ==> Valid(cur.value.app)))
    || (exists cur: Option<Image> :: TornAt(d, cur))
    || (exists previous: Option<Image>, next: Image :: Interrupted(d, previous, next))
    || (exists p: Repair<Image> :: HalfRepaired(d, p))
  }

  lemma PublicationLeavesLegal(d: Files, cur: Option<Image>, next: Image, upTo: Files, e: Files)
    requires Genuine(cur, next) && Publishing(upTo, cur, next) && Crashed(upTo, e) && (cur.Some? ==> Valid(cur.value.app))
    ensures Legal(e)
  {
    CrashOfPublication(upTo, e, cur, next);
    if Only(e.pending, Torn) {
      assert TornAt(e, cur);
    } else if Only(e.pending, Absent) {
      if Only(e.state, FileOf(cur)) { assert Steady(e, cur); } else { assert Steady(e, Some(next)); }
    } else {
      assert Interrupted(e, cur, next);
    }
  }

  lemma TornIsRefused(d: Files, cur: Option<Image>, seed: string, admin: Context, now: Time, nonce: nat)
    requires TornAt(d, cur)
    ensures Decide(d, seed, admin, now, nonce).Err? && Open(d, seed).Err?
  {}

  lemma DecidedSteady(d: Files, cur: Option<Image>, seed: string, admin: Context, now: Time, nonce: nat)
    requires Steady(d, cur) && Decide(d, seed, admin, now, nonce).Ok?
    ensures var p := Decide(d, seed, admin, now, nonce).value; cur == Some(p.base) && p.state == Whole(p.base) && Fits(p)
  {
    UnfinishedIsRecovered(d, cur.value, admin, now, nonce);
  }

  lemma FoundWithIntent(d: Files, previous: Option<Image>, next: Image, seed: string, admin: Context)
    requires Interrupted(d, previous, next) && Visible(d, seed, admin).Ok? && Supports(d.pending.visible, seed, Visible(d, seed, admin).value)
    ensures var v := Visible(d, seed, admin).value;
      seed == next.seed && (v == next || Some(v) == previous) && Opens(v, seed) && (d.state.visible == Absent ==> previous.None? && v == next)
  {}

  lemma DecidedInterrupted(d: Files, previous: Option<Image>, next: Image, seed: string, admin: Context, now: Time, nonce: nat)
    requires Interrupted(d, previous, next) && Decide(d, seed, admin, now, nonce).Ok?
    ensures var p := Decide(d, seed, admin, now, nonce).value; Fits(p) && p.pend == Pair(previous, next)
    ensures var p := Decide(d, seed, admin, now, nonce).value; p.state == Whole(p.base) || p.state == Absent
  {
    FoundWithIntent(d, previous, next, seed, admin);
    GenuineIsConsistent(previous, next);
    DecidedFresh(d, previous, next, admin, now, nonce, Visible(d, seed, admin).value);
  }

  lemma DecidedHalfRepaired(d: Files, p: Repair<Image>, seed: string, admin: Context, now: Time, nonce: nat)
    requires HalfRepaired(d, p) && Decide(d, seed, admin, now, nonce).Ok?
    ensures var r := Decide(d, seed, admin, now, nonce).value; Fits(r) && r.base == p.base && r.plan == p.plan
  {
    assert seed == p.base.seed;
    FoundHalfRepaired(d, p, admin);
  }

  lemma RepairLeavesLegal(p: Repair<Image>, upTo: Files, e: Files)
    requires Fits(p) && Crashed(upTo, e) && Resuming(upTo, p)
    ensures Legal(e)
  {
    CrashOfRepair(upTo, e, p);
    if Only(e.recovery, PlanOf(p)) { assert HalfRepaired(e, p); } else { assert Steady(e, Some(p.plan)); }
  }

  lemma PlanningLeavesLegal(p: Repair<Image>, upTo: Files, e: Files)
    requires Fits(p) && Crashed(upTo, e) && Planning(upTo, p) && (p.state == Whole(p.base) || p.state == Absent)
    ensures Legal(e)
  {
    if Only(e.recovery, PlanOf(p)) {
      assert HalfRepaired(e, p);
    } else if p.pend == Absent {
      assert Steady(e, Some(p.base));
    } else {
      assert Interrupted(e, p.pend.previous, p.pend.candidate);
    }
  }

  /** On an interrupted re-keying, adoption stays inside the stages of that publication. */
  lemma AdoptingIsAnnounced(d: Files, was: Files, previous: Option<Image>, next: Image)
    requires Interrupted(was, previous, next) && Adopting(d, was)
    ensures Announced(d, previous, next)
  {}

  lemma AdoptionLeavesLegal(d: Files, previous: Option<Image>, next: Image, upTo: Files, e: Files)
    requires Interrupted(d, previous, next) && Adopting(upTo, d) && Crashed(upTo, e)
    ensures Legal(e)
  {
    AdoptingIsAnnounced(upTo, d, previous, next);
    assert Interrupted(e, previous, next);
  }

  /** What recovery decided on a legal directory fits; a fresh decision starts from the base or from nothing. */
  lemma DecidedFits(d: Files, seed: string, admin: Context, now: Time, nonce: nat)
    requires Legal(d) && Decide(d, seed, admin, now, nonce).Ok?
    ensures var p := Decide(d, seed, admin, now, nonce).value; Fits(p) && (d.recovery.visible == Absent ==> p.state == Whole(p.base) || p.state == Absent)
  {
    if cur :| Steady(d, cur) {
      DecidedSteady(d, cur, seed, admin, now, nonce);
    } else if cur :| TornAt(d, cur) {
      TornIsRefused(d, cur, seed, admin, now, nonce);
    } else if previous, next :| Interrupted(d, previous, next) {
      DecidedInterrupted(d, previous, next, seed, admin, now, nonce);
    } else {
      var p :| HalfRepaired(d, p);
      DecidedHalfRepaired(d, p, seed, admin, now, nonce);
    }
  }

  lemma EpisodeLeavesLegal(d: Files, ep: Episode, e: Files)
    requires Legal(d) && Happens(d, ep, e)
    ensures Legal(e)
  {
    match ep
    case Publish(next, upTo) =>
      var cur :| Steady(d, cur) && Genuine(cur, next) && Publishing(upTo, cur, next);
      PublicationLeavesLegal(d, cur, next, upTo, e);
    case Recover(seed, admin, now, nonce, upTo) =>
      if Adopts(d, seed, admin) && Adopting(upTo, d) {
        AdoptedIsInterrupted(d, seed, admin);
        AdoptionLeavesLegal(d, d.pending.visible.previous, d.pending.visible.candidate, upTo, e);
      } else {
        DecidedFits(d, seed, admin, now, nonce);
        RecoveryLeavesLegal(d, Decide(d, seed, admin, now, nonce).value, upTo, e);
      }
  }

  /** Adoption finds an interrupted re-keying and nothing else. */
  lemma AdoptedIsInterrupted(d: Files, seed: string, admin: Context)
    requires Legal(d) && Adopts(d, seed, admin)
    ensures d.pending.visible.Pair? && Interrupted(d, d.pending.visible.previous, d.pending.visible.candidate)
  {
    hide Transition.Transition;
    if p :| HalfRepaired(d, p) {
      HalfRepairedOpens(d, p, seed);
    }
  }

  lemma HalfRepairedOpens(d: Files, p: Repair<Image>, seed: string)
    requires HalfRepaired(d, p) && d.state.visible.Whole? && d.pending.visible.Pair? && d.pending.visible.candidate.seed == seed
    ensures Opens(d.state.visible.image, seed)
  {}

  lemma RecoveryLeavesLegal(d: Files, p: Repair<Image>, upTo: Files, e: Files)
    requires Fits(p) && Crashed(upTo, e) && (d.recovery.visible == Absent ==> p.state == Whole(p.base) || p.state == Absent)
    requires RepairStage(upTo, p, d.recovery.visible == Absent)
    ensures Legal(e)
  {
    if Resuming(upTo, p) { RepairLeavesLegal(p, upTo, e); } else { PlanningLeavesLegal(p, upTo, e); }
  }

  /** Any number of publications and recoveries, refused ones included, each cut short anywhere by a crash of the machine,
      leave a legal directory. */
  lemma {:induction false} EveryCrashLeavesLegal(disks: seq<Files>, episodes: seq<Episode>, j: nat)
    requires |disks| == |episodes| + 1 && Legal(disks[0]) && j < |disks|
    requires forall i | 0 <= i < |episodes| :: Happens(disks[i], episodes[i], disks[i + 1])
    ensures Legal(disks[j])
  {
    if j > 0 {
      EveryCrashLeavesLegal(disks, episodes, j - 1);
      EpisodeLeavesLegal(disks[j - 1], episodes[j - 1], disks[j]);
    }
  }

  // ----- a recovery that starts before the directory is synchronised -----

  /** The directory between the plan's rename and the synchronisation after it; an adoption has synchronised it before. */
  function PlanRenamed(d: Files, p: Repair<Image>): Files
  {
    var found := if d.state.visible == p.state then d else Synced(d.(state := Put(d.state, p.state)));
    found.(recovery := Put(found.recovery, PlanOf(p)))
  }

  /** Every crash that keeps the renamed plan can still be recovered, at any time. */
  ghost predicate Survives(d: Files, p: Repair<Image>, admin: Context)
  {
    forall e: Files, now: Time, nonce: nat | Crashed(PlanRenamed(d, p), e) && e.recovery.visible == PlanOf(p) ::
      Decide(e, p.base.seed, admin, now, nonce).Ok?
  }

  lemma CrashedOther(d: Files, p: Repair<Image>, f: File<Image>) returns (e: Files)
    requires f in d.state.durable && d.pending.visible in d.pending.durable && d.state.visible == p.state
    ensures Crashed(PlanRenamed(d, p), e) && e.recovery.visible == PlanOf(p) && e.state.visible == f && e.pending.visible == d.pending.visible
  {
    e := Disk(Cell(f, {f}), Flushed(d.pending), Cell(PlanOf(p), {PlanOf(p)}));
  }

  lemma OtherIsRefused(e: Files, p: Repair<Image>, other: Image, admin: Context, now: Time, nonce: nat)
    requires e.recovery.visible == PlanOf(p) && e.state.visible == Whole(other) && other != p.base && other != p.plan && Opens(other, p.base.seed)
    ensures Decide(e, p.base.seed, admin, now, nonce).Err?
  {}

  lemma SettledStateSurvives(d: Files, p: Repair<Image>, admin: Context, e: Files)
    requires Fits(p) && Only(d.state, p.state) && Only(d.pending, p.pend)
    requires Crashed(PlanRenamed(d, p), e) && e.recovery.visible == PlanOf(p)
    ensures HalfRepaired(e, p)
  {}

  /** The decision on an interrupted publication under one key, for a directory whose rename may not be durable yet. */
  lemma DecidedUnsynced(d: Files, cur: Image, next: Image, admin: Context, now: Time, nonce: nat)
    requires Genuine(Some(cur), next) && cur.seed == next.seed && Announced(d, Some(cur), next) && Decide(d, next.seed, admin, now, nonce).Ok?
    ensures var p := Decide(d, next.seed, admin, now, nonce).value;
      && Fits(p) && Whole(p.base) == d.state.visible == p.state && p.pend == Pair(Some(cur), next) && p.base.seed == next.seed
      && p.plan.nonce == nonce && AdminScope(p.base.app, admin) && admin.admin
  {
    var v := d.state.visible.image;
    GenuineIsConsistent(Some(cur), next);
    assert Opens(v, next.seed);
    DecidedFresh(d, Some(cur), next, admin, now, nonce, v);
  }

  /** A first publication, or a re-keying under another seed: whatever the state file is, recovery works on the candidate. */
  predicate CandidateOnly(previous: Option<Image>, next: Image) { previous.None? || previous.value.seed != next.seed }

  lemma CandidateFound(e: Files, previous: Option<Image>, next: Image, admin: Context)
    requires Genuine(previous, next) && CandidateOnly(previous, next) && e.pending.visible == Pair(previous, next)
    requires e.state.visible == FileOf(previous) || e.state.visible == Whole(next)
    ensures Visible(e, next.seed, admin).Ok? ==> Visible(e, next.seed, admin).value == next
    ensures AdminScope(next.app, admin) ==> Visible(e, next.seed, admin) == Ok(next)
  {
    hide Transition.Transition;
  }

  /** The decision then repairs the candidate. */
  lemma DecidedCandidate(d: Files, previous: Option<Image>, next: Image, admin: Context, now: Time, nonce: nat)
    requires Genuine(previous, next) && CandidateOnly(previous, next) && Announced(d, previous, next) && Decide(d, next.seed, admin, now, nonce).Ok?
    ensures var p := Decide(d, next.seed, admin, now, nonce).value;
      && Fits(p) && p.base == next && p.pend == Pair(previous, next) && AdminScope(next.app, admin) && admin.admin
      && (p.state == Whole(next) || (p.state == Absent && d.state.visible == Absent && previous.None?))
  {
    CandidateFound(d, previous, next, admin);
    GenuineIsConsistent(previous, next);
    DecidedFresh(d, previous, next, admin, now, nonce, next);
  }

  lemma CandidateResumes(e: Files, p: Repair<Image>, previous: Option<Image>, next: Image, admin: Context, now: Time, nonce: nat)
    requires Genuine(previous, next) && CandidateOnly(previous, next) && Fits(p) && p.base == next && p.pend == Pair(previous, next)
    requires AdminScope(next.app, admin) && admin.admin && e.pending.visible == p.pend && e.recovery.visible == PlanOf(p)
    requires e.state.visible == FileOf(previous) || e.state.visible == Whole(next)
    ensures Decide(e, next.seed, admin, now, nonce).Ok?
  {
    CandidateFound(e, previous, next, admin);
    ScopeOfSettled(p.base.app, admin, p.plan.app.lastTime.value);
    PlanStands(p, e.pending.visible, admin, next);
  }

  lemma CrashedCandidate(d: Files, p: Repair<Image>, previous: Option<Image>, next: Image, e: Files)
    requires Announced(d, previous, next) && (p.state == Whole(next) || (p.state == Absent && d.state.visible == Absent && previous.None?))
    requires Crashed(PlanRenamed(d, p), e)
    ensures e.pending.visible == Pair(previous, next) && (e.state.visible == FileOf(previous) || e.state.visible == Whole(next))
  {}

  lemma CandidateSurvives(d: Files, previous: Option<Image>, next: Image, admin: Context, now: Time, nonce: nat)
    requires Genuine(previous, next) && CandidateOnly(previous, next) && Announced(d, previous, next) && Decide(d, next.seed, admin, now, nonce).Ok?
    ensures Survives(d, Decide(d, next.seed, admin, now, nonce).value, admin)
  {
    var p := Decide(d, next.seed, admin, now, nonce).value;
    DecidedCandidate(d, previous, next, admin, now, nonce);
    hide Decide, Genuine, Fits, CandidateOnly;
    forall e: Files, at: Time, other: nat | Crashed(PlanRenamed(d, p), e) && e.recovery.visible == PlanOf(p)
      ensures Decide(e, p.base.seed, admin, at, other).Ok?
    {
      CrashedCandidate(d, p, previous, next, e);
      CandidateResumes(e, p, previous, next, admin, at, other);
    }
  }

  /** Under one seed the plan survives exactly when the state's rename was already settled. */
  lemma SameSeedSurvivesExactly(d: Files, cur: Image, next: Image, admin: Context, now: Time, nonce: nat)
    requires Genuine(Some(cur), next) && cur.seed == next.seed && Announced(d, Some(cur), next)
    requires Decide(d, next.seed, admin, now, nonce).Ok? && nonce != cur.nonce && nonce != next.nonce
    ensures Survives(d, Decide(d, next.seed, admin, now, nonce).value, admin) <==> Only(d.state, d.state.visible)
  {
    var p := Decide(d, next.seed, admin, now, nonce).value;
    DecidedUnsynced(d, cur, next, admin, now, nonce);
    if Only(d.state, d.state.visible) {
      SettledSurvives(d, p, admin);
    } else {
      var f :| f in d.state.durable && f != d.state.visible;
      var e := CrashedOther(d, p, f);
      OtherIsRefused(e, p, f.image, admin, now, nonce);
    }
  }

  /** Recovery does not synchronise the directory before it writes its plan. Run on the boot that saw a publication fail, it
      can be interrupted for good: the plan survives every crash exactly when the state's rename was already settled, or the
      interrupted publication was the vault's first, or a re-keying under another seed. */
  lemma PlanSurvivesExactly(d: Files, previous: Option<Image>, next: Image, admin: Context, now: Time, nonce: nat)
    requires Genuine(previous, next) && Announced(d, previous, next) && Decide(d, next.seed, admin, now, nonce).Ok?
    requires nonce != next.nonce && (previous.Some? ==> nonce != previous.value.nonce)
    ensures Survives(d, Decide(d, next.seed, admin, now, nonce).value, admin)
            <==> Only(d.state, d.state.visible) || previous.None? || previous.value.seed != next.seed
  {
    hide Decide, Survives, Genuine;
    if CandidateOnly(previous, next) {
      CandidateSurvives(d, previous, next, admin, now, nonce);
    } else {
      SameSeedSurvivesExactly(d, previous.value, next, admin, now, nonce);
    }
  }

  lemma SettledSurvives(d: Files, p: Repair<Image>, admin: Context)
    requires Fits(p) && Only(d.state, p.state) && Only(d.pending, p.pend) && AdminScope(p.base.app, admin) && admin.admin
    ensures Survives(d, p, admin)
  {
    forall e: Files, now: Time, nonce: nat | Crashed(PlanRenamed(d, p), e) && e.recovery.visible == PlanOf(p)
      ensures Decide(e, p.base.seed, admin, now, nonce).Ok?
    {
      SettledStateSurvives(d, p, admin, e);
      ResumesWithThePlan(e, p, admin, now, nonce);
    }
  }
}
