/** The owner of one vault: operations staged on a copy, validated, published, and the three-phase private use.
    Memory and disk agree at every method boundary, except that the clock is persisted lazily. */
module Vaults {
  import opened Types
  import opened Policy
  import opened Ledger
  import opened Compaction
  import opened CompactionLedger
  import opened Preservation
  import opened Operations
  import opened Workflow
  import opened Settlement
  import opened Commands
  import Transition
  import opened Runs
  import opened Directory
  import opened Recovery
  import opened Stores
  import opened Staging
  import opened Validator
  import Compactor
  import Publications
  import Registration
  import Authority
  import Deliveries

  // ----- memory and disk -----

  /** The application in memory is the published one, except for its clock. */
  ghost predicate Owns(published: App, app: App)
  {
    app == published.(lastTime := app.lastTime, clockFrozen := app.clockFrozen) && LaterClock(published, app)
  }

  /** ... and its clock is ahead by less than the persistence interval, with the same freeze flag. */
  ghost predicate Agrees(published: App, app: App)
  {
    && app == published.(lastTime := app.lastTime)
    && (match (published.lastTime, app.lastTime)
        case (None, None) => true
        case (Some(base), Some(now)) => base <= now < base + CLOCK_PERSIST_INTERVAL
        case _ => false)
  }

  lemma AgreesIsOwns(published: App, app: App)
    requires Agrees(published, app)
    ensures Owns(published, app)
  {}

  predicate ClockOnly(app: App, candidate: App) { candidate == app.(lastTime := candidate.lastTime, generation := candidate.generation) }

  predicate Due(persisted: Option<Time>, now: Option<Time>)
  {
    match (persisted, now)
    case (Some(base), Some(now)) => SaturatingSub(now, base) >= CLOCK_PERSIST_INTERVAL
    case (None, None) => false
    case _ => true
  }

  lemma LazyAgrees(published: App, app: App, candidate: App)
    requires Owns(published, app) && LaterClock(app, candidate) && candidate.generation == app.generation && ClockOnly(app, candidate)
    requires !Due(published.lastTime, candidate.lastTime) && candidate.clockFrozen == published.clockFrozen
    ensures Agrees(published, candidate)
  {}

  /** What a callback was entered with: the durable image and directory, the application, the time and the values. */
  datatype Call = Call(image: Image, disk: Files, live: App, ctx: Context, task: Uuid, use: PrivateUse, attempt: Uuid, at: Time,
                       given: Values)

  /** The attempt is durable, dispatched and unfinished, and the authority was checked no earlier than its intent. */
  ghost predicate CallOk(c: Call)
  {
    && Steady(c.disk, Some(c.image)) && Unfinished(c.image.app, c.attempt)
    && (var d := c.image.app.deliveries[c.attempt];
        d.dispatched && d.key == KeyOf(c.ctx, c.task, c.use.request) && d.fingerprint == OfUse(c.use) && d.at.Some? && d.at.value <= c.at)
    && Owns(c.image.app, c.live)
    && Select(c.live, c.ctx, c.task, c.use.record, c.use.fields, SecretUse, Some(c.use.destination), c.at).Ok?
    && (c.ctx.sessionDeadline.Some? ==> c.at < c.ctx.sessionDeadline.value)
    && c.task in c.live.tasks && c.task !in c.live.revokedTasks && c.at < c.live.tasks[c.task].expiresAt
    && c.live.lastTime == Some(c.at) && c.use.record in c.live.records && c.use.fields <= c.live.records[c.use.record].values.Keys
    && c.given == map f | f in c.use.fields :: c.live.records[c.use.record].values[f]
  }

  datatype Delivered = Returned(status: Status) | Failed | Interrupted

  // ----- what the staged operations give the owner -----

  lemma StagedLater(app: App, c: Command)
    requires Sound(app) && WellDrawn(MaybeCompact(app), c)
    ensures var n := Staged(MaybeCompact(app), c); LaterClock(app, n) && n.generation == app.generation && SingleDelete(n.requests)
  {
    Transition.StagedFacts(app, c);
    CommandSingleDelete(MaybeCompact(app), c);
    SameClock(app);
  }

  lemma SameClock(app: App)
    ensures MaybeCompact(app).lastTime == app.lastTime && MaybeCompact(app).generation == app.generation
  {}

  /** Dispatches a command on the staged copy. */
  method Stage(candidate: Application, c: Command) returns (r: Result<Option<DeliveryReceipt>>)
    modifies candidate
    ensures candidate.Value() == Staged(old(candidate.Value()), c)
    ensures r.Err? <==> Fails(old(candidate.Value()), c)
    ensures c.CIntent? ==> r == Intent(old(candidate.Value()), c.ctx, c.task, c.use, c.now, c.attempt).result
  {
    r := Ok(None);
    match c
    case CApprove(admin, approval, now) =>
      var x := candidate.ApproveTask(admin, approval, now);
      if x.Err? { r := Err(x.error); }
    case CRevokeTask(admin, id, now) =>
      var x := candidate.RevokeTask(admin, id, now);
      if x.Err? { r := Err(x.error); }
    case CMutate(ctx, task, request, op, now, draw) =>
      var x := candidate.Mutate(ctx, task, request, op, now, draw);
      if x.Err? { r := Err(x.error); }
    case CRead(ctx, task, record, fields, secret, now) =>
      var x := candidate.Read(ctx, task, record, fields, secret, now);
      if x.Err? { r := Err(x.error); }
    case CIntent(ctx, task, use, now, attempt) =>
      r := candidate.Intend(ctx, task, use, now, attempt);
    case CCancel(attempt) =>
      var x := candidate.Cancel(attempt);
      if x.Err? { r := Err(x.error); }
    case CFinish(ctx, task, attempt, status, at) =>
      var x := candidate.Finish(ctx, task, attempt, status, at);
      if x.Err? { r := Err(x.error); }
  }

  /** A copy of the application, pruned where it is due, with the operation staged on it. */
  method Prepare(app: App, c: Command) returns (candidate: App, r: Result<Option<DeliveryReceipt>>)
    requires RequestsOk(app) && RevisionsDistinct(app.requests) && AccountsOk(app) && BaselinesOk(app)
    ensures candidate == Staged(MaybeCompact(app), c)
    ensures r.Err? <==> Fails(MaybeCompact(app), c)
    ensures c.CIntent? ==> r == Intent(MaybeCompact(app), c.ctx, c.task, c.use, c.now, c.attempt).result
  {
    hide Commands.Staged, Runs.Fails, Workflow.Intent, Compaction.Compact;
    var copy := new Application(app);
    if ShouldCompact(app) { Compactor.Compact(copy); }
    r := Stage(copy, c);
    candidate := copy.Value();
  }

  // ----- one owner, as a value -----

  datatype View = View(app: App, frozen: bool, blocked: bool, image: Option<Image>, disk: Files, seed: string, header: Header)

  predicate Usable(v: View) { !v.frozen && !v.blocked }

  /** Between the phases of a private use: the durable image, with a clock in memory that may have moved on. */
  ghost predicate Owned(v: View)
  {
    && Sound(v.app) && v.image.Some? && v.image.value.seed == v.seed && v.image.value.header == v.header
    && Valid(v.image.value.app) && (!v.blocked ==> Steady(v.disk, v.image)) && (Usable(v) ==> Owns(v.image.value.app, v.app))
  }

  /** At method boundaries: an owner that can still be used agrees with its durable image. */
  ghost predicate Agreed(v: View) { Owned(v) && (Usable(v) ==> Agrees(v.image.value.app, v.app)) }

  /** Only the clock moved, and it is not due on disk. */
  ghost predicate Lazily(a: View, b: View, candidate: App)
  {
    a.image.Some? && ClockOnly(a.app, candidate) && b == a.(app := candidate) && Agrees(a.image.value.app, candidate) && Valid(candidate)
  }

  function Successor(a: View, candidate: App, nonce: nat): Image
    requires a.app.generation < U64_MAX
  {
    Sealed(candidate.(generation := a.app.generation + 1), a.seed, a.header, nonce)
  }

  /** The candidate is the durable image; an intent that could not be removed freezes the owner. */
  ghost predicate Published(a: View, b: View, candidate: App, nonce: nat)
  {
    && a.app.generation < U64_MAX && Valid(b.app)
    && b == View(candidate.(generation := a.app.generation + 1), b.blocked, b.blocked, Some(Successor(a, candidate, nonce)), b.disk, a.seed, a.header)
    && Clearing(b.disk, a.image, Successor(a, candidate, nonce)) && (!b.blocked ==> Steady(b.disk, b.image))
  }

  /** The publication was not confirmed: the owner is frozen and the candidate is not durable. */
  ghost predicate Stalled(a: View, b: View, candidate: App, nonce: nat)
  {
    && a.app.generation < U64_MAX && b == a.(frozen := true, blocked := true, disk := b.disk) && Valid(Successor(a, candidate, nonce).app)
    && (Announcing(b.disk, a.image, Successor(a, candidate, nonce)) || Announced(b.disk, a.image, Successor(a, candidate, nonce)))
  }

  ghost predicate Commits(a: View, b: View, candidate: App, nonce: nat, ok: bool)
  {
    if ok then Usable(a) && (Lazily(a, b, candidate) || Published(a, b, candidate, nonce))
    else b == a || (Usable(a) && Stalled(a, b, candidate, nonce))
  }

  /** No publication is attempted: the owner is frozen, or the candidate is invalid, too large or has no next generation. */
  ghost predicate Unable(v: View, candidate: App, fits: bool)
  {
    !Usable(v) || !Valid(candidate) || !fits || (v.app.generation == U64_MAX || !Valid(candidate.(generation := v.app.generation + 1)))
  }

  /** The storage failed, before the publication or in the middle of it. */
  predicate StorageFailed(e: Error) { e == NotPublished || e == RecoveryRequired }

  lemma CommitKeepsOwned(a: View, b: View, candidate: App, nonce: nat, ok: bool)
    requires Owned(a) && Commits(a, b, candidate, nonce, ok) && SingleDelete(candidate.requests)
    ensures Owned(b) && (ok ==> Agreed(b)) && (Agreed(a) ==> Agreed(b))
  {
    hide Directory.Steady, Directory.Announcing, Directory.Announced, Directory.Clearing, CompactionLedger.SingleDelete;
    if ok && Lazily(a, b, candidate) {
      AgreesIsOwns(a.image.value.app, candidate);
    } else if ok {
      FreshAgrees(b.app);
      AgreesIsOwns(b.app, b.app);
    }
  }

  lemma FreshAgrees(app: App)
    ensures Agrees(app, app)
  {}

  // ----- what a commit makes of an operation -----

  /** A committed operation is a step of a run: the published operation, or movement of the clock. */
  lemma AppliedIsStep(a: View, b: View, c: Command, nonce: nat, ok: bool)
    requires Owned(a) && WellDrawn(MaybeCompact(a.app), c) && Transition.NewIds(a.app, c)
    requires Commits(a, b, Staged(MaybeCompact(a.app), c), nonce, ok)
    ensures b.app == a.app || Step(a.app, Op(c), b.app) || Step(a.app, Tick(b.app.lastTime, b.app.clockFrozen), b.app)
  {
    hide Commands.Staged;
    hide Directory.Steady, Directory.Announcing, Directory.Announced, Directory.Clearing, CompactionLedger.SingleDelete;
    StagedLater(a.app, c);
  }

  /** The publication of an operation is a genuine pair, so that it can be recovered, unless it reuses what it pruned. */
  lemma PublicationIsGenuine(a: View, b: View, c: Command, nonce: nat)
    requires Owned(a) && Usable(a) && WellDrawn(MaybeCompact(a.app), c) && Transition.NewIds(a.app, c)
    requires Published(a, b, Staged(MaybeCompact(a.app), c), nonce)
    requires !Transition.Reuses(a.app, c)
    ensures Genuine(a.image, b.image.value)
  {
    hide Directory.Steady, Directory.Clearing, CompactionLedger.Sound, Commands.Staged, Compaction.MaybeCompact, Transition.Reuses, Recovery.Genuine;
    Publications.OperationIsGenuine(a.image.value, a.app, c, nonce);
  }

  // ----- the attempt of a private use -----

  /** The staged attempt, and the time it carries. */
  ghost predicate Intended(n: App, c: Command)
    requires c.CIntent?
  {
    && Unfinished(n, c.attempt) && n.lastTime.Some?
    && var d := n.deliveries[c.attempt];
       && d.task == c.task && d.record == c.use.record && d.key == KeyOf(c.ctx, c.task, c.use.request) && d.fingerprint == OfUse(c.use)
       && d.dispatched && d.action == c.use.action && d.at.Some? && d.at.value <= n.lastTime.value
       && d.record in n.records && d.version == n.records[d.record].secretVersion
  }

  lemma IntentIntends(mid: App, c: Command)
    requires c.CIntent? && Intent(mid, c.ctx, c.task, c.use, c.now, c.attempt).result == Ok(None)
    ensures Intended(Intent(mid, c.ctx, c.task, c.use, c.now, c.attempt).app, c)
  {
    IntentShape(mid, c.ctx, c.task, c.use, c.now, c.attempt);
    ClockIsHigh(mid, c.now);
  }

  lemma ClockIsHigh(app: App, now: Time)
    requires Clock(app, now).result.Ok?
    ensures Clock(app, now).app.lastTime == Some(Clock(app, now).result.value)
  {}

  lemma IntendedSame(a: App, b: App, c: Command)
    requires c.CIntent? && Intended(a, c) && b.deliveries == a.deliveries && b.records == a.records && LaterClock(a, b)
    ensures Intended(b, c)
  {}

  /** A staged intent is never left to the lazy clock. */
  lemma IntentIsPublished(a: View, b: View, c: Command, nonce: nat)
    requires c.CIntent? && c.attempt !in a.app.deliveries && Commits(a, b, Staged(MaybeCompact(a.app), c), nonce, true)
    requires Intent(MaybeCompact(a.app), c.ctx, c.task, c.use, c.now, c.attempt).result == Ok(None)
    ensures Published(a, b, Staged(MaybeCompact(a.app), c), nonce) && Intended(b.app, c) && b.image.Some? && b.image.value.app == b.app
  {
    hide Directory.Steady, Directory.Clearing;
    IntentIntends(MaybeCompact(a.app), c);
    IntendedSame(Staged(MaybeCompact(a.app), c), b.app, c);
  }

  /** Pruning keeps an unfinished attempt with its task and record. */
  lemma IntendedKept(app: App, c: Command)
    requires Sound(app) && c.CIntent? && Intended(app, c) && c.task in app.tasks
    ensures var mid := MaybeCompact(app);
      Intended(mid, c) && c.task in mid.tasks && mid.tasks[c.task] == app.tasks[c.task] && mid.lastTime == app.lastTime
  {
    SoundParts(app);
    if ShouldCompact(app) { AttemptSurvives(app, c); IntendedIn(app, Compact(app), c); }
  }

  lemma AttemptSurvives(app: App, c: Command)
    requires DeliveriesOk(app) && c.CIntent? && Intended(app, c) && c.task in app.tasks
    ensures var mid := Compact(app);
      && c.attempt in mid.deliveries && mid.deliveries[c.attempt] == app.deliveries[c.attempt] && c.task in mid.tasks && mid.tasks[c.task] == app.tasks[c.task]
      && c.use.record in mid.records && mid.records[c.use.record] == app.records[c.use.record] && mid.lastTime == app.lastTime
  {
    hide Compaction.NewBase, Compaction.NewThrough, Compaction.KeptEvents;
    KeptDeliveryRecord(app, c.attempt);
    AttemptRefers(KeptRecords(app), KeptGrants(app), KeptDeliveries(app), KeptRequests(app), c.attempt);
    ReferencedTaskKept(app, c.task);
  }

  lemma AttemptRefers(records: map<Uuid, Record>, grants: map<Uuid, Grant>, deliveries: map<Uuid, Delivery>, requests: map<RequestKey, Remembered>, d: Uuid)
    requires d in deliveries
    ensures Referenced(records, grants, deliveries, requests, deliveries[d].task)
  {}

  lemma IntendedIn(app: App, mid: App, c: Command)
    requires c.CIntent? && Intended(app, c) && c.attempt in mid.deliveries && mid.deliveries[c.attempt] == app.deliveries[c.attempt]
    requires c.use.record in mid.records && mid.records[c.use.record] == app.records[c.use.record] && mid.lastTime == app.lastTime
    ensures Intended(mid, c)
  {}

  /** The outcome can be committed after the callback: its context still fits. */
  lemma OutcomeFits(app: App, c: Command, status: Status, at: Time)
    requires Sound(app) && c.CIntent? && Intended(app, c) && at <= app.lastTime.value
    requires c.task in app.tasks && app.tasks[c.task].principal == c.ctx.principal
    ensures WellDrawn(MaybeCompact(app), CFinish(c.ctx, c.task, c.attempt, status, at))
  {
    IntendedKept(app, c);
  }

  lemma CancelFits(app: App, attempt: Uuid)
    requires Unfinished(app, attempt)
    ensures WellDrawn(MaybeCompact(app), CCancel(attempt))
  {}

  lemma SelectedTask(app: App, ctx: Context, task: Uuid, record: Uuid, fields: set<Field>, permission: Permission, destination: Option<string>, now: Time)
    requires Select(app, ctx, task, record, fields, permission, destination, now).Ok?
    ensures task in app.tasks && task !in app.revokedTasks && now < app.tasks[task].expiresAt && app.tasks[task].principal == ctx.principal
    ensures ctx.sessionDeadline.Some? ==> now < ctx.sessionDeadline.value
  {}

  // ----- a callback without an outcome -----

  /** Whatever a crash leaves of the directory, a restart refuses it. */
  ghost predicate Refuses(d: Files) { forall e: Files, seed: string | Crashed(d, e) :: Open(e, seed).Err? }

  lemma UnfinishedRefuses(d: Files, image: Image, next: Image, attempt: Uuid)
    requires Unfinished(image.app, attempt)
    requires Steady(d, Some(image)) || Announcing(d, Some(image), next) || Announced(d, Some(image), next)
    ensures Refuses(d)
  {
    forall e: Files, seed: string | Crashed(d, e) ensures Open(e, seed).Err? {
      assert HasUnfinished(image.app);
    }
  }

  class DurableVault {
    const store: Store
    var app: App
    var frozen: bool
    ghost var calls: seq<Call>

    constructor (s: Store, a: App)
      ensures store == s && app == a && frozen == s.blocked && calls == []
    {
      store, app, frozen, calls := s, a, s.blocked, [];
    }

    ghost function Look(): View
      reads this, store, store.dev
    {
      View(app, frozen, store.blocked, store.currentImage, store.dev.disk, store.seed, store.header)
    }

    /** The store's own record of what it persisted. */
    ghost predicate Kept()
      reads this, store, store.dev
    {
      store.currentImage.Some? && store.persistedLastTime == store.currentImage.value.app.lastTime
      && store.persistedFrozen == store.currentImage.value.app.clockFrozen && store.Inv()
    }

    /** Publishes the candidate, or remembers its clock when nothing else changed and the clock is not due. */
    method Commit(candidate: App, nonce: nat, fits: bool) returns (r: Result<()>)
      requires Kept() && Owned(Look()) && LaterClock(app, candidate) && candidate.generation == app.generation && SingleDelete(candidate.requests)
      modifies this`app, this`frozen, store, store.dev
      ensures Kept() && Commits(old(Look()), Look(), candidate, nonce, r.Ok?)
      ensures old(store.dev.trace) <= store.dev.trace
      ensures !fits ==> r.Err? && Look() == old(Look())
      ensures r.Err? ==> Unable(old(Look()), candidate, fits) || StorageFailed(r.error)
    {
      hide CompactionLedger.Sound, CompactionLedger.SingleDelete;
      hide Directory.Steady, Directory.Announcing, Directory.Announced, Directory.Clearing, Directory.Publishing, Stores.PublishingSince;
      if frozen || store.blocked { return Err(RecoveryRequired); }
      var ok := Validate(candidate);
      if !ok { return Err(InvalidStorage); }
      if !fits { return Err(Capacity); }
      if ClockOnly(app, candidate) && !Due(store.persistedLastTime, candidate.lastTime) && candidate.clockFrozen == store.persistedFrozen {
        LazyAgrees(store.currentImage.value.app, app, candidate);
        app := app.(lastTime := candidate.lastTime);
        return Ok(());
      }
      if app.generation == U64_MAX { return Err(Capacity); }
      ok := Validate(candidate.(generation := app.generation + 1));
      if !ok { return Err(InvalidStorage); }
      r := Publish(candidate, nonce);
    }

    method Publish(candidate: App, nonce: nat) returns (r: Result<()>)
      requires Kept() && Usable(Look()) && app.generation < U64_MAX && Valid(candidate.(generation := app.generation + 1))
      modifies this`app, this`frozen, store, store.dev
      ensures Kept() && old(store.dev.trace) <= store.dev.trace
      ensures r.Err? ==> StorageFailed(r.error)
      ensures if r.Ok? then Published(old(Look()), Look(), candidate, nonce)
              else Look() == old(Look()) || Stalled(old(Look()), Look(), candidate, nonce)
    {
      hide Stores.PublishingSince;
      var next := candidate.(generation := app.generation + 1);
      var p := store.PublishWith(next, store.seed, store.header, nonce);
      match p
      case Unpublished => r := Err(NotPublished);
      case Unconfirmed =>
        frozen := true;
        r := Err(RecoveryRequired);
      case Durable =>
        app := next;
        frozen := store.blocked;
        r := Ok(());
    }

    /** Stages the operation on a pruned copy and commits the copy, whether or not the operation failed. */
    method Apply(c: Command, nonce: nat, fits: bool) returns (r: Result<Option<DeliveryReceipt>>, ghost committed: bool)
      requires Kept() && Owned(Look()) && WellDrawn(MaybeCompact(app), c)
      modifies this`app, this`frozen, store, store.dev
      ensures Kept() && Owned(Look()) && old(store.dev.trace) <= store.dev.trace
      ensures committed || old(Agreed(Look())) ==> Agreed(Look())
      ensures Commits(old(Look()), Look(), Staged(MaybeCompact(old(app)), c), nonce, committed)
      ensures if committed then r.Err? <==> Fails(MaybeCompact(old(app)), c) else r.Err?
      ensures !fits ==> !committed && Look() == old(Look())
      ensures !committed ==> Unable(old(Look()), Staged(MaybeCompact(old(app)), c), fits) || StorageFailed(r.error)
      ensures committed && c.CIntent? ==> r == Intent(MaybeCompact(old(app)), c.ctx, c.task, c.use, c.now, c.attempt).result
    {
      StagedLater(app, c);
      PrunedParts(app);
      hide CompactionLedger.Sound, Commits, Owned, Agreed, Commands.Staged, Runs.Fails, Workflow.Intent, Compaction.MaybeCompact;
      ghost var v := Look();
      FrozenIsUnable(v, Staged(MaybeCompact(app), c), fits);
      hide Unable, StorageFailed;
      if frozen || store.blocked {
        UncommittedStays(Look(), Staged(MaybeCompact(app), c), nonce);
        return Err(RecoveryRequired), false;
      }
      var candidate: App;
      candidate, r := Prepare(app, c);
      var published := Commit(candidate, nonce, fits);
      committed := published.Ok?;
      CommitKeepsOwned(v, Look(), candidate, nonce, committed);
      if published.Err? { r := Err(published.error); }
    }

    /** Seals the application under a new seed, bound to the image it replaces. */
    method Rekey(admin: Context, wellFormed: bool, seed: string, header: Header, nonce: nat) returns (r: Result<()>)
      requires Kept() && Agreed(Look())
      modifies this`app, this`frozen, store, store.dev
      ensures Kept() && Agreed(Look()) && Rekeys(old(Look()), Look(), seed, header, nonce, r.Ok?)
      ensures old(Usable(Look())) ==> (r == Err(Denied) <==> !admin.admin || Foreign(old(app), admin))
      ensures r == Err(Denied) ==> Look() == old(Look())
    {
      ScopeExactly(app, admin);
      OwnedParts(Look());
      if app.generation < U64_MAX { Transition.RekeyedSound(app, DigestOf(store.currentImage.value)); }
      hide CompactionLedger.Sound, Stores.PublishingSince;
      if frozen || store.blocked { return Err(RecoveryRequired); }
      if !AdminScope(app, admin) { return Err(Denied); }
      if !wellFormed { return Err(Invalid); }
      if app.generation == U64_MAX { return Err(Capacity); }
      var next := Transition.Rekeyed(app, DigestOf(store.currentImage.value));
      var ok := Validate(next);
      if !ok { return Err(InvalidStorage); }
      FreshAgrees(next);
      AgreesIsOwns(next, next);
      var p := store.PublishWith(next, seed, header, nonce);
      match p
      case Unpublished => r := Err(NotPublished);
      case Unconfirmed =>
        frozen := true;
        r := Err(RecoveryRequired);
      case Durable =>
        app := next;
        frozen := store.blocked;
        r := Ok(());
    }

    /** Uses a secret privately: a durable intent, a second check of clock and authority, the callback, the outcome. The
        callback is entered at most once, only as `CallOk` says; without a committed outcome every restart is refused. */
    method UseSecret(ctx: Context, task: Uuid, use: PrivateUse, first: Time, second: Time, outcome: Delivered,
                     attempt: Uuid, nonces: (nat, nat), fits: (bool, bool)) returns (r: Result<DeliveryReceipt>)
      requires Kept() && Agreed(Look()) && attempt != NIL && attempt !in app.deliveries
      modifies this, store, store.dev
      ensures Kept() && Agreed(Look())
      ensures calls == old(calls) || CalledFor(old(calls), calls, CIntent(ctx, task, use, first, attempt))
      ensures calls != old(calls) ==> Deliveries.Stageable(MaybeCompact(old(app)), ctx, task, use, first)
      ensures calls != old(calls) ==> calls[|calls| - 1].at >= second
                                      && Answered(old(app), Look(), CIntent(ctx, task, use, first, attempt), calls[|calls| - 1].at, outcome, r)
      ensures calls == old(calls) && r.Ok? ==> Intent(MaybeCompact(old(app)), ctx, task, use, first, attempt).result == Ok(Some(r.value))
      ensures calls == old(calls) ==> attempt !in app.deliveries || Withdrawn(Look(), attempt)
      ensures calls == old(calls) && attempt !in app.deliveries && Deliveries.Stageable(MaybeCompact(old(app)), ctx, task, use, first) ==>
        r.Err? && (Unable(old(Look()), Staged(MaybeCompact(old(app)), CIntent(ctx, task, use, first, attempt)), fits.0) || StorageFailed(r.error))
      ensures old(Usable(Look())) ==> EndsIn(old(app), if calls == old(calls) then 0 else 1, app, store.dev.disk)
    {
      hide CompactionLedger.Sound, Commits, Owned, Agreed, CallOk, EndsIn, Registration.Reaches;
      hide Answered, Deliveries.Stageable, Submits, Withdrawn, Authority.Selectable, Authority.Admitted, Unable, Commands.Staged;
      Deliveries.IntentStages(MaybeCompact(app), ctx, task, use, first, attempt);
      var c := CIntent(ctx, task, use, first, attempt);
      ghost var v0, was := Look(), calls;
      FreshAttempt(app, c);
      OwnedParts(v0);
      var cached, committed := Apply(c, nonces.0, fits.0);
      if Usable(v0) { IntentEnds(v0, Look(), c, nonces.0, committed); }
      UnstagedOrRefused(v0, Look(), c, nonces.0, committed);
      if cached.Err? { return Err(cached.error); }
      if cached.value.Some? { return Ok(cached.value.value); }
      if frozen || store.blocked { return Err(RecoveryRequired); }
      IntentIsPublished(v0, Look(), c, nonces.0);
      IntentTravels(v0, Look(), c, nonces.0);
      IntentRecord(v0, Look(), c, nonces.0);
      ghost var v1 := Look();
      r := HandOver(c, second, outcome, nonces.1, fits.1, v0.app);
      EffectiveIsLater(v1.app, second);
      if calls != was { AnsweredSince(v0.app, v1.app, Look(), c, calls[|calls| - 1].at, outcome, r); }
    }

    /** Clock and authority again, immediately before the callback. */
    method Recheck(c: Command, second: Time) returns (r: Result<(Time, Values)>)
      requires c.CIntent?
      modifies this`app
      ensures app == Clock(old(app), second).app && app == Registration.Ticked(old(app), app.lastTime, app.clockFrozen)
      ensures r.Ok? <==> Authority.Admitted(old(app), second) && Authority.Selectable(old(app), c.ctx, c.task, c.use.record,
                           c.use.fields, SecretUse, Some(c.use.destination), Authority.Effective(old(app), second))
      ensures r.Ok? ==> Clock(old(app), second).result == Ok(r.value.0) && r.value.0 == Authority.Effective(old(app), second)
                        && Select(app, c.ctx, c.task, c.use.record, c.use.fields, SecretUse, Some(c.use.destination), r.value.0) == Ok(r.value.1)
    {
      hide Policy.Clock, Policy.Select, Authority.Selectable;
      HandoffExactly(app, c, second);
      var live := new Application(app);
      var at := live.Clock(second);
      ClockTicks(app, second);
      app := live.Value();
      if at.Err? { return Err(at.error); }
      var values := Select(app, c.ctx, c.task, c.use.record, c.use.fields, SecretUse, Some(c.use.destination), at.value);
      r := if values.Err? then Err(values.error) else Ok((at.value, values.value));
    }

    method HandOver(c: Command, second: Time, outcome: Delivered, nonce: nat, fits: bool, ghost start: App) returns (r: Result<DeliveryReceipt>)
      requires Kept() && Agreed(Look()) && Usable(Look()) && c.CIntent? && Intended(app, c) && store.currentImage.value.app == app
      requires Registration.Reaches(start, 0, InFlight(app, c.attempt, false))
      modifies this, store, store.dev
      ensures Kept() && Agreed(Look())
      ensures calls == old(calls) || CalledFor(old(calls), calls, c)
      ensures calls != old(calls) <==> Authority.Admitted(old(app), second) && Authority.Selectable(old(app), c.ctx, c.task, c.use.record,
                                         c.use.fields, SecretUse, Some(c.use.destination), Authority.Effective(old(app), second))
      ensures calls != old(calls) ==> calls[|calls| - 1].at == Authority.Effective(old(app), second)
                                      && Answered(old(app), Look(), c, calls[|calls| - 1].at, outcome, r)
      ensures calls == old(calls) ==> r.Err? && Withdrawn(Look(), c.attempt)
      ensures c.attempt in app.deliveries && EndsIn(start, if calls == old(calls) then 0 else 1, app, store.dev.disk)
    {
      hide CompactionLedger.Sound, Commits, Owned, Agreed, CallOk, Intended, EndsIn, Registration.Reaches;
      hide Answered, Withdrawn, Authority.Selectable, Authority.Admitted, Authority.Effective, Policy.Clock, Policy.Select;
      ghost var v1 := Look();
      var authorized := Recheck(c, second);
      ClockOwned(v1, c, second);
      if authorized.Err? {
        r := Withdraw(c.attempt, authorized.error, nonce, fits, start, v1.app);
        return;
      }
      var (at, values) := authorized.value;
      CallIsOk(v1, Look(), c, second);
      CallTravels(start, v1, Look(), c, second);
      frozen := true;
      calls := calls + [Call(store.currentImage.value, store.dev.disk, app, c.ctx, c.task, c.use, c.attempt, at, values)];
      if outcome.Interrupted? {
        InterruptedRefuses(v1, Look(), c);
        SteadyEnds(start, 1, InFlight(app, c.attempt, true), Look().(frozen := false));
        InterruptedAnswers(v1.app, Look(), c, at);
        return Err(InteractionRequired);            // the caller never sees an answer
      }
      frozen := false;
      ghost var mid := app;
      r := Conclude(c, at, outcome, nonce, fits, start);
      ClockSubmits(v1.app, c, second);
      AnsweredSince(v1.app, mid, Look(), c, at, outcome, r);
    }

    /** The handoff was refused: the attempt is committed as never dispatched, or the owner freezes and every restart is refused. */
    method Withdraw(attempt: Uuid, error: Error, nonce: nat, fits: bool, ghost start: App, ghost before: App) returns (r: Result<DeliveryReceipt>)
      requires Kept() && Owned(Look()) && Usable(Look()) && Unfinished(app, attempt) && Unfinished(store.currentImage.value.app, attempt)
      requires Registration.Reaches(start, 0, InFlight(before, attempt, false))
      requires app == Registration.Ticked(before, app.lastTime, app.clockFrozen)
      modifies this`app, this`frozen, store, store.dev
      ensures Kept() && Agreed(Look()) && r.Err? && Withdrawn(Look(), attempt) && EndsIn(start, 0, app, store.dev.disk)
      ensures attempt in app.deliveries
    {
      hide CompactionLedger.Sound, Commits, Owned, Agreed, EndsIn, Registration.Reaches;
      ghost var v := Look();
      OwnedParts(v);
      CancelFits(app, attempt);
      var x, committed := Apply(CCancel(attempt), nonce, fits);
      CancelledIsWithdrawn(v, Look(), attempt, nonce, committed);
      CancelEnds(start, before, v, Look(), attempt, nonce, committed);
      if x.Err? {
        FrozenAgreed(Look());
        frozen := true;
        return Err(RecoveryRequired);
      }
      r := Err(error);
    }

    /** The callback came back: its status is committed, or the owner freezes with the attempt unfinished on disk. */
    method Conclude(c: Command, at: Time, outcome: Delivered, nonce: nat, fits: bool, ghost start: App) returns (r: Result<DeliveryReceipt>)
      requires Kept() && Owned(Look()) && Usable(Look()) && c.CIntent? && Intended(app, c) && !outcome.Interrupted? && at <= app.lastTime.value
      requires c.task in app.tasks && app.tasks[c.task].principal == c.ctx.principal && Unfinished(store.currentImage.value.app, c.attempt)
      requires Registration.Reaches(start, 1, InFlight(app, c.attempt, true))
      modifies this`app, this`frozen, store, store.dev
      ensures Kept() && Agreed(Look()) && Answered(old(app), Look(), c, at, outcome, r)
      ensures c.attempt in app.deliveries && EndsIn(start, 1, app, store.dev.disk)
    {
      hide CompactionLedger.Sound, Commits, Owned, Agreed, EndsIn, Registration.Reaches, Concluded, Refuses, Intended;
      ghost var v := Look();
      var status := if outcome.Returned? then outcome.status else StUnknown;
      var f := CFinish(c.ctx, c.task, c.attempt, status, at);
      OwnedParts(v);
      IntendedIsThere(app, c);
      OutcomeFits(app, c, status, at);
      var x, committed := Apply(f, nonce, fits);
      if committed { OutcomeIsPublished(v, Look(), c, f, nonce); } else { UnconcludedRefuses(v, Look(), f, nonce); }
      FinishEnds(start, v, Look(), f, nonce, committed);
      if x.Err? {
        FrozenAgreed(Look());
        frozen := true;
        return Err(RecoveryRequired);
      }
      if outcome.Failed? { return Err(InteractionRequired); }
      r := Ok(DeliveryReceipt(c.attempt, status));
    }
  }

  // ----- re-keying -----

  /** Re-keyed and durable, or unchanged, or frozen with a candidate that is not durable. */
  ghost predicate Rekeys(a: View, b: View, seed: string, header: Header, nonce: nat, ok: bool)
    requires a.image.Some?
  {
    if b == a then !ok
    else
      && Usable(a) && a.app.generation < U64_MAX
      && var next := Sealed(Transition.Rekeyed(a.app, DigestOf(a.image.value)), seed, header, nonce);
         if ok then b == View(next.app, b.blocked, b.blocked, Some(next), b.disk, seed, header) && Clearing(b.disk, a.image, next)
         else b == a.(frozen := true, blocked := true, disk := b.disk) && (Announcing(b.disk, a.image, next) || Announced(b.disk, a.image, next))
  }

  /** An interrupted re-keying is a genuine pair as well. */
  lemma RekeyIsGenuine(a: View, seed: string, header: Header, nonce: nat)
    requires Owned(a) && Usable(a) && a.app.generation < U64_MAX
    ensures Genuine(a.image, Sealed(Transition.Rekeyed(a.app, DigestOf(a.image.value)), seed, header, nonce))
  {
    hide CompactionLedger.Sound;
    Publications.RekeyIsGenuine(a.image.value, a.app, seed, header, nonce);
  }

  // ----- the phases, as values -----

  /** The callback was entered once more, for this request. */
  ghost predicate CalledFor(before: seq<Call>, after: seq<Call>, c: Command)
    requires c.CIntent?
  {
    && |after| == |before| + 1 && after[..|before|] == before && CallOk(after[|before|])
    && after[|before|].attempt == c.attempt && after[|before|].ctx == c.ctx && after[|before|].task == c.task && after[|before|].use == c.use
  }

  /** The attempt carries the status, its record the signup that follows, and the audit ends with the use of the secret. */
  ghost predicate Concluded(was: App, after: App, c: Command, status: Status, at: Time)
    requires c.CIntent?
  {
    && c.attempt in after.deliveries && c.use.record in was.records && c.use.record in after.records
    && (var d := after.deliveries[c.attempt];
        d.status == Some(status) && d.dispatched && d.task == c.task && d.record == c.use.record && d.action == c.use.action
        && d.key == KeyOf(c.ctx, c.task, c.use.request))
    && (var r, n := was.records[c.use.record], after.records[c.use.record];
        n == r.(signup := n.signup) && Deliveries.Follows(c.use.action, status, r.signup, n.signup))
    && |after.audit| > 0 && after.audit[|after.audit| - 1] == AuditEvent(c.task, c.use.record, None, SecretUseEvent, at, c.ctx.principal)
  }

  /** What the callback returned is durable and answered; or the owner is frozen and the directory is refused by every restart
      until it is recovered. */
  ghost predicate Answered(was: App, v: View, c: Command, at: Time, outcome: Delivered, r: Result<DeliveryReceipt>)
    requires c.CIntent?
  {
    if outcome.Interrupted? || r == Err(RecoveryRequired) then r.Err? && v.frozen && Refuses(v.disk)
    else
      && v.image.Some? && v.image.value.app == v.app
      && (outcome.Returned? ==> Concluded(was, v.app, c, outcome.status, at) && r == Ok(DeliveryReceipt(c.attempt, outcome.status)))
      && (outcome.Failed? ==> Concluded(was, v.app, c, StUnknown, at) && r == Err(InteractionRequired))
  }

  /** The attempt is settled as never dispatched, and the registration it meant is pending. */
  predicate Retracted(app: App, attempt: Uuid)
  {
    && attempt in app.deliveries && app.deliveries[attempt].status == Some(StRejected) && !app.deliveries[attempt].dispatched
    && (app.deliveries[attempt].action == Register ==>
          app.deliveries[attempt].record in app.records && app.records[app.deliveries[attempt].record].signup == Pending)
  }

  /** The attempt is retracted, or the directory is refused by every restart until it is recovered. */
  ghost predicate Withdrawn(v: View, attempt: Uuid)
  {
    Retracted(v.app, attempt) || Refuses(v.disk)
  }

  lemma OwnedParts(v: View)
    requires Owned(v) || Agreed(v)
    ensures Sound(v.app) && Owned(v) && v.image.Some?
  {}

  lemma CancelRetracts(mid: App, attempt: Uuid)
    requires Unfinished(mid, attempt) && mid.deliveries[attempt].record in mid.records
    ensures Retracted(Cancel(mid, attempt).app, attempt)
  {
    Deliveries.CancelledExactly(mid, attempt);
    hide Workflow.Cancel;
  }

  /** Pruning keeps an unfinished attempt with its record. */
  lemma AttemptRecord(app: App, attempt: Uuid)
    requires Sound(app) && Unfinished(app, attempt)
    ensures var mid := MaybeCompact(app); Unfinished(mid, attempt) && mid.deliveries[attempt].record in mid.records
  {
    SoundParts(app);
    if ShouldCompact(app) { KeptDeliveryRecord(app, attempt); }
  }

  lemma CancelledIsWithdrawn(a: View, b: View, attempt: Uuid, nonce: nat, committed: bool)
    requires Owned(a) && Usable(a) && a.image.Some? && Unfinished(a.app, attempt) && Unfinished(a.image.value.app, attempt)
    requires Commits(a, b, Staged(MaybeCompact(a.app), CCancel(attempt)), nonce, committed)
    ensures Withdrawn(b, attempt) && attempt in b.app.deliveries
  {
    hide CompactionLedger.Sound, Directory.Steady, Directory.Announcing, Directory.Announced, Directory.Clearing, Refuses, Compaction.Compact;
    if committed {
      CancelFits(a.app, attempt);
      AttemptRecord(a.app, attempt);
      CancelRetracts(MaybeCompact(a.app), attempt);
    } else if b == a {
      UnfinishedRefuses(a.disk, a.image.value, a.image.value, attempt);
    } else {
      UnfinishedRefuses(b.disk, a.image.value, Successor(a, Staged(MaybeCompact(a.app), CCancel(attempt)), nonce), attempt);
    }
  }

  /** An intent whose commit was answered is not in memory, or it is durable and unfinished while the owner cannot go on. */
  lemma UnstagedOrRefused(a: View, b: View, c: Command, nonce: nat, committed: bool)
    requires Owned(a) && c.CIntent? && c.attempt != NIL && c.attempt !in a.app.deliveries
    requires Commits(a, b, Staged(MaybeCompact(a.app), c), nonce, committed)
    ensures Intent(MaybeCompact(a.app), c.ctx, c.task, c.use, c.now, c.attempt).result != Ok(None) || !committed ==> c.attempt !in b.app.deliveries
    ensures !Usable(b) ==> c.attempt !in b.app.deliveries || Withdrawn(b, c.attempt)
  {
    hide CompactionLedger.Sound, Directory.Steady, Directory.Announcing, Directory.Announced, Refuses, Compaction.Compact;
    var mid := MaybeCompact(a.app);
    PrunedAttempts(a.app, c.attempt);
    if committed {
      if Intent(mid, c.ctx, c.task, c.use, c.now, c.attempt).result == Ok(None) {
        IntentIsPublished(a, b, c, nonce);
        ClearedRefuses(b.disk, a.image, b.image.value, c.attempt);
      } else {
        AnsweredAttempts(mid, c);
      }
    }
  }

  lemma PrunedAttempts(app: App, attempt: Uuid)
    requires attempt !in app.deliveries
    ensures attempt !in MaybeCompact(app).deliveries
  {}

  lemma AnsweredAttempts(mid: App, c: Command)
    requires c.CIntent? && Intent(mid, c.ctx, c.task, c.use, c.now, c.attempt).result != Ok(None)
    ensures Intent(mid, c.ctx, c.task, c.use, c.now, c.attempt).app.deliveries == mid.deliveries
  {
    IntentShape(mid, c.ctx, c.task, c.use, c.now, c.attempt);
  }

  lemma ClearedRefuses(d: Files, previous: Option<Image>, image: Image, attempt: Uuid)
    requires Clearing(d, previous, image) && Unfinished(image.app, attempt)
    ensures Refuses(d)
  {
    forall e: Files, seed: string | Crashed(d, e) ensures Open(e, seed).Err? {
      assert HasUnfinished(image.app);
    }
  }

  // ----- the phases, as moves of one vault -----

  function InFlight(app: App, attempt: Uuid, called: bool): Registration.Vault
  {
    Registration.Vault(app, Some(Registration.Flight(attempt, called)))
  }

  /** What memory holds, and whatever a crash of the machine leaves in the directory, is reached from `start` by moves of one
      vault that enter `n` callbacks. */
  ghost predicate EndsIn(start: App, n: nat, app: App, d: Files)
  {
    && Registration.Reaches(start, n, Registration.Vault(app, None))
    && forall e | Crashed(d, e) ::
         e.state.visible.Whole? && Registration.Reaches(start, n, Registration.Vault(e.state.visible.image.app, None))
  }

  lemma SteadyEnds(start: App, n: nat, v: Registration.Vault, w: View)
    requires Registration.Reaches(start, n, v) && Owned(w) && Usable(w) && w.app == Registration.Ticked(v.app, w.app.lastTime, w.app.clockFrozen)
    ensures EndsIn(start, n, w.app, w.disk)
  {
    OwnedParts(w);
    hide Registration.Reaches;
    Registration.ReachesRestart(start, n, v, w.app);
    Registration.ReachesRestart(start, n, v, w.image.value.app);
  }

  lemma StalledEnds(start: App, n: nat, app: App, d: Files, cur: Image, next: Image)
    requires Announcing(d, Some(cur), next) || Announced(d, Some(cur), next)
    requires Registration.Reaches(start, n, Registration.Vault(app, None)) && Registration.Reaches(start, n, Registration.Vault(cur.app, None))
    requires Registration.Reaches(start, n, Registration.Vault(next.app, None))
    ensures EndsIn(start, n, app, d)
  {
    hide Registration.Reaches;
  }

  lemma ClearedEnds(start: App, n: nat, d: Files, previous: Option<Image>, next: Image)
    requires Clearing(d, previous, next) && Registration.Reaches(start, n, Registration.Vault(next.app, None))
    ensures EndsIn(start, n, next.app, d)
  {
    hide Registration.Reaches;
  }

  /** The operation's publication is a move `m` of the vault. */
  ghost predicate PublishesAs(a: View, c: Command, v: Registration.Vault, m: Registration.Move, flight: Option<Registration.Flight>)
  {
    && !m.Call? && v.app == Registration.Ticked(a.app, v.app.lastTime, v.app.clockFrozen)
    && forall x: App | Step(a.app, Op(c), x) :: Registration.Moves(v, m, Registration.Vault(x, flight))
  }

  lemma PublishedStep(a: View, c: Command, nonce: nat, next: Image)
    requires WellDrawn(MaybeCompact(a.app), c) && Transition.NewIds(a.app, c) && a.app.generation < U64_MAX && Valid(next.app)
    requires next == Successor(a, Staged(MaybeCompact(a.app), c), nonce)
    ensures Step(a.app, Op(c), next.app)
  {
    hide Commands.Staged;
  }

  lemma PublishedReaches(start: App, n: nat, v: Registration.Vault, a: View, c: Command, nonce: nat, m: Registration.Move,
                         flight: Option<Registration.Flight>, next: Image)
    requires Registration.Reaches(start, n, v) && PublishesAs(a, c, v, m, flight)
    requires WellDrawn(MaybeCompact(a.app), c) && Transition.NewIds(a.app, c) && a.app.generation < U64_MAX && Valid(next.app)
    requires next == Successor(a, Staged(MaybeCompact(a.app), c), nonce)
    ensures Registration.Reaches(start, n, Registration.Vault(next.app, flight)) && Registration.Reaches(start, n, Registration.Vault(next.app, None))
  {
    hide Registration.Reaches, Registration.Moves, Runs.Step;
    PublishedStep(a, c, nonce, next);
    Registration.ReachesMore(start, n, v, m, Registration.Vault(next.app, flight));
    Registration.ReachesRestart(start, n, Registration.Vault(next.app, flight), next.app);
  }

  /** However the commit of an operation ends, memory and disk are reached by moves. */
  lemma ApplyEnds(start: App, n: nat, v: Registration.Vault, a: View, b: View, c: Command, nonce: nat, ok: bool, m: Registration.Move,
                  flight: Option<Registration.Flight>)
    requires Registration.Reaches(start, n, v) && PublishesAs(a, c, v, m, flight) && Owned(a) && Usable(a)
    requires WellDrawn(MaybeCompact(a.app), c) && Transition.NewIds(a.app, c)
    requires Commits(a, b, Staged(MaybeCompact(a.app), c), nonce, ok)
    ensures EndsIn(start, n, b.app, b.disk)
  {
    hide Registration.Reaches, Registration.Moves, Runs.Step, CompactionLedger.Sound, Commands.Staged, Compaction.MaybeCompact, EndsIn;
    hide Directory.Steady, Directory.Announcing, Directory.Announced, Directory.Clearing;
    var candidate := Staged(MaybeCompact(a.app), c);
    SteadyEnds(start, n, v, a);
    if ok && Published(a, b, candidate, nonce) {
      PublishedReaches(start, n, v, a, c, nonce, m, flight, Successor(a, candidate, nonce));
      ClearedEnds(start, n, b.disk, a.image, Successor(a, candidate, nonce));
    } else if ok {
      LazyEnds(start, n, v, a, b, candidate);
    } else if b != a {
      PublishedReaches(start, n, v, a, c, nonce, m, flight, Successor(a, candidate, nonce));
      EndsParts(start, n, v, a);
      StalledEnds(start, n, b.app, b.disk, a.image.value, Successor(a, candidate, nonce));
    }
  }

  lemma EndsParts(start: App, n: nat, v: Registration.Vault, a: View)
    requires Registration.Reaches(start, n, v) && Owned(a) && Usable(a) && v.app == Registration.Ticked(a.app, v.app.lastTime, v.app.clockFrozen)
    ensures Registration.Reaches(start, n, Registration.Vault(a.app, None)) && Registration.Reaches(start, n, Registration.Vault(a.image.value.app, None))
  {
    hide Registration.Reaches, Directory.Steady;
    Registration.ReachesRestart(start, n, v, a.app);
    Registration.ReachesRestart(start, n, v, a.image.value.app);
  }

  lemma LazyEnds(start: App, n: nat, v: Registration.Vault, a: View, b: View, candidate: App)
    requires Registration.Reaches(start, n, v) && Owned(a) && Usable(a) && v.app == Registration.Ticked(a.app, v.app.lastTime, v.app.clockFrozen)
    requires Lazily(a, b, candidate)
    ensures EndsIn(start, n, b.app, b.disk)
  {
    hide CompactionLedger.Sound, Registration.Reaches;
    EndsParts(start, n, v, a);
    Registration.ReachesRestart(start, n, v, candidate);
  }

  function IntentMove(staged: bool, c: Command): Registration.Move { if staged then Registration.Begin(c) else Registration.Plain(Op(c)) }

  lemma IntentPublishes(a: View, c: Command, staged: bool)
    requires c.CIntent? && staged == (Intent(MaybeCompact(a.app), c.ctx, c.task, c.use, c.now, c.attempt).result == Ok(None))
    ensures PublishesAs(a, c, Registration.Vault(a.app, None), IntentMove(staged, c),
                        if staged then Some(Registration.Flight(c.attempt, false)) else None)
  {
    hide Runs.Step, Workflow.Intent, Compaction.MaybeCompact;
  }

  lemma IntentEnds(a: View, b: View, c: Command, nonce: nat, ok: bool)
    requires Owned(a) && Usable(a) && c.CIntent? && c.attempt != NIL && c.attempt !in a.app.deliveries
    requires Commits(a, b, Staged(MaybeCompact(a.app), c), nonce, ok)
    ensures EndsIn(a.app, 0, b.app, b.disk)
  {
    hide Registration.Reaches, Commits, Owned, EndsIn, PublishesAs, Commands.Staged, Workflow.Intent;
    ghost var staged := Intent(MaybeCompact(a.app), c.ctx, c.task, c.use, c.now, c.attempt).result == Ok(None);
    FreshAttempt(a.app, c);
    hide Compaction.MaybeCompact, Commands.WellDrawn;
    Registration.ReachesStart(a.app);
    IntentPublishes(a, c, staged);
    ApplyEnds(a.app, 0, Registration.Vault(a.app, None), a, b, c, nonce, ok, IntentMove(staged, c),
              if staged then Some(Registration.Flight(c.attempt, false)) else None);
  }

  /** The commit of any other operation ends in moves of the vault as well. */
  lemma RequestEnds(a: View, b: View, c: Command, nonce: nat, ok: bool)
    requires Owned(a) && Usable(a) && !Settles(c) && WellDrawn(MaybeCompact(a.app), c) && Transition.NewIds(a.app, c)
    requires Commits(a, b, Staged(MaybeCompact(a.app), c), nonce, ok)
    ensures EndsIn(a.app, 0, b.app, b.disk)
  {
    hide Registration.Reaches, Commits, Owned, EndsIn, Commands.Staged, Compaction.MaybeCompact, Commands.WellDrawn, Runs.Step;
    Registration.ReachesStart(a.app);
    assert PublishesAs(a, c, Registration.Vault(a.app, None), Registration.Plain(Op(c)), None);
    hide PublishesAs;
    ApplyEnds(a.app, 0, Registration.Vault(a.app, None), a, b, c, nonce, ok, Registration.Plain(Op(c)), None);
  }

  lemma IntentTravels(a: View, b: View, c: Command, nonce: nat)
    requires Owned(a) && c.CIntent? && c.attempt != NIL && c.attempt !in a.app.deliveries
    requires Published(a, b, Staged(MaybeCompact(a.app), c), nonce)
    requires Intent(MaybeCompact(a.app), c.ctx, c.task, c.use, c.now, c.attempt).result == Ok(None)
    ensures Registration.Reaches(a.app, 0, InFlight(b.app, c.attempt, false))
  {
    FreshAttempt(a.app, c);
    hide Registration.Reaches, Owned, PublishesAs, Commands.Staged, Workflow.Intent, Compaction.MaybeCompact, Commands.WellDrawn;
    hide Directory.Clearing, Directory.Steady;
    Registration.ReachesStart(a.app);
    IntentPublishes(a, c, true);
    PublishedReaches(a.app, 0, Registration.Vault(a.app, None), a, c, nonce, IntentMove(true, c), Some(Registration.Flight(c.attempt, false)),
                     Successor(a, Staged(MaybeCompact(a.app), c), nonce));
  }

  lemma CallTravels(start: App, v: View, w: View, c: Command, now: Time)
    requires c.CIntent? && Registration.Reaches(start, 0, InFlight(v.app, c.attempt, false)) && Owned(w)
    requires w.app == Clock(v.app, now).app && Clock(v.app, now).result.Ok?
    ensures Registration.Reaches(start, 1, InFlight(w.app, c.attempt, true))
  {
    hide Registration.Reaches, Directory.Steady;
    Registration.ReachesMore(start, 0, InFlight(v.app, c.attempt, false), Registration.Move.Call(w.app.lastTime), InFlight(w.app, c.attempt, true));
  }

  lemma CancelEnds(start: App, before: App, a: View, b: View, attempt: Uuid, nonce: nat, ok: bool)
    requires Owned(a) && Usable(a) && Unfinished(a.app, attempt) && Registration.Reaches(start, 0, InFlight(before, attempt, false))
    requires a.app == Registration.Ticked(before, a.app.lastTime, a.app.clockFrozen)
    requires Commits(a, b, Staged(MaybeCompact(a.app), CCancel(attempt)), nonce, ok)
    ensures EndsIn(start, 0, b.app, b.disk)
  {
    OwnedParts(a);
    CancelFits(a.app, attempt);
    hide Registration.Reaches, Commits, Owned, EndsIn, Commands.Staged, Compaction.MaybeCompact;
    var v, m := InFlight(before, attempt, false), Registration.Abort(a.app.lastTime, a.app.clockFrozen);
    assert PublishesAs(a, CCancel(attempt), v, m, None);
    hide PublishesAs;
    ApplyEnds(start, 0, v, a, b, CCancel(attempt), nonce, ok, m, None);
  }

  lemma FinishEnds(start: App, a: View, b: View, f: Command, nonce: nat, ok: bool)
    requires Owned(a) && Usable(a) && f.CFinish? && WellDrawn(MaybeCompact(a.app), f)
    requires Registration.Reaches(start, 1, InFlight(a.app, f.attempt, true)) && Commits(a, b, Staged(MaybeCompact(a.app), f), nonce, ok)
    ensures EndsIn(start, 1, b.app, b.disk)
  {
    hide Registration.Reaches, Commits, Owned, EndsIn, Commands.Staged, Compaction.MaybeCompact, Runs.Step, Commands.WellDrawn;
    var v, m := InFlight(a.app, f.attempt, true), Registration.End(f);
    assert PublishesAs(a, f, v, m, None);
    hide PublishesAs;
    ApplyEnds(start, 1, v, a, b, f, nonce, ok, m, None);
  }

  lemma FreshAttempt(app: App, c: Command)
    requires c.CIntent? && c.attempt != NIL && c.attempt !in app.deliveries
    ensures WellDrawn(MaybeCompact(app), c)
  {}

  lemma FrozenAgreed(v: View)
    requires Owned(v)
    ensures Agreed(v.(frozen := true))
  {}

  /** Sampling the clock in memory leaves the owner between the phases. */
  lemma ClockOwned(v: View, c: Command, now: Time)
    requires Agreed(v) && Usable(v) && c.CIntent? && Intended(v.app, c)
    ensures Owned(v.(app := Clock(v.app, now).app)) && Intended(Clock(v.app, now).app, c) && Unfinished(Clock(v.app, now).app, c.attempt)
  {
    OwnedParts(v);
    ClockKeepsSound(v.app, now);
    hide CompactionLedger.Sound, Directory.Steady;
    ClockOwns(v.image.value.app, v.app, now);
    hide Policy.Clock;
    IntendedSame(v.app, Clock(v.app, now).app, c);
  }

  lemma ClockOwns(published: App, app: App, now: Time)
    requires Agrees(published, app)
    ensures var n := Clock(app, now).app; Owns(published, n) && n.deliveries == app.deliveries && n.records == app.records && LaterClock(app, n)
  {}

  lemma ClockNotBefore(app: App, now: Time)
    requires Clock(app, now).result.Ok? && app.lastTime.Some?
    ensures app.lastTime.value <= Clock(app, now).result.value && Clock(app, now).app.lastTime == Some(Clock(app, now).result.value)
  {}

  lemma CallIsOk(v: View, w: View, c: Command, now: Time)
    requires Agreed(v) && Usable(v) && c.CIntent? && Intended(v.app, c) && v.image.Some? && v.image.value.app == v.app
    requires w == v.(app := Clock(v.app, now).app) && Owned(w) && Clock(v.app, now).result.Ok?
    requires Select(w.app, c.ctx, c.task, c.use.record, c.use.fields, SecretUse, Some(c.use.destination), Clock(v.app, now).result.value).Ok?
    ensures CallOk(Call(w.image.value, w.disk, w.app, c.ctx, c.task, c.use, c.attempt, Clock(v.app, now).result.value,
                        Select(w.app, c.ctx, c.task, c.use.record, c.use.fields, SecretUse, Some(c.use.destination), Clock(v.app, now).result.value).value))
    ensures Clock(v.app, now).result.value <= w.app.lastTime.value && w.app.lastTime.Some?
    ensures c.task in w.app.tasks && w.app.tasks[c.task].principal == c.ctx.principal && Unfinished(v.app, c.attempt) && Unfinished(w.app, c.attempt)
  {
    hide CompactionLedger.Sound;
    ClockNotBefore(v.app, now);
    SelectedTask(w.app, c.ctx, c.task, c.use.record, c.use.fields, SecretUse, Some(c.use.destination), Clock(v.app, now).result.value);
  }

  lemma InterruptedRefuses(v: View, w: View, c: Command)
    requires Agreed(v) && Usable(v) && c.CIntent? && Intended(v.app, c) && v.image.Some? && v.image.value.app == v.app
    requires Owned(w.(frozen := false)) && w == v.(app := w.app, frozen := true)
    ensures Agreed(w) && Refuses(w.disk)
  {
    hide CompactionLedger.Sound;
    UnfinishedRefuses(v.disk, v.image.value, v.image.value, c.attempt);
  }

  lemma UnconcludedRefuses(a: View, b: View, f: Command, nonce: nat)
    requires Owned(a) && Usable(a) && f.CFinish? && Commits(a, b, Staged(MaybeCompact(a.app), f), nonce, false)
    requires a.image.Some? && Unfinished(a.image.value.app, f.attempt)
    ensures Refuses(b.disk) && b.app == a.app
  {
    hide CompactionLedger.Sound, Directory.Steady, Directory.Announcing, Directory.Announced, Directory.Clearing, Refuses;
    if b == a {
      UnfinishedRefuses(a.disk, a.image.value, a.image.value, f.attempt);
    } else {
      UnfinishedRefuses(b.disk, a.image.value, Successor(a, Staged(MaybeCompact(a.app), f), nonce), f.attempt);
    }
  }

  /** A committed outcome is published, with exactly the change that follows from it. */
  lemma OutcomeIsPublished(a: View, b: View, c: Command, f: Command, nonce: nat)
    requires Owned(a) && c.CIntent? && Intended(a.app, c) && c.task in a.app.tasks
    requires f.CFinish? && f.ctx == c.ctx && f.task == c.task && f.attempt == c.attempt
    requires Commits(a, b, Staged(MaybeCompact(a.app), f), nonce, true)
    ensures f.attempt in b.app.deliveries && !Fails(MaybeCompact(a.app), f) && b.image.Some? && b.image.value.app == b.app && Concluded(a.app, b.app, c, f.status, f.at)
  {
    IntendedKept(a.app, c);
    PrunedRecord(a.app, c.use.record);
    var mid := MaybeCompact(a.app);
    hide Compaction.MaybeCompact, CompactionLedger.Sound, Directory.Steady, Directory.Clearing, Intended;
    FinishConcludes(a.app, mid, Staged(mid, f), c, f);
    ConcludedIsThere(a.app, c, f.status, f.at);
    hide Concluded, Commands.Staged;
  }

  /** The second check, made in memory: the clock and the selection of the handoff. */
  lemma HandoffExactly(app: App, c: Command, second: Time)
    requires c.CIntent?
    ensures var t := Clock(app, second);
      && (t.result.Ok? <==> Authority.Admitted(app, second)) && (t.result.Ok? ==> t.result.value == Authority.Effective(app, second))
      && (t.result.Ok? && Select(t.app, c.ctx, c.task, c.use.record, c.use.fields, SecretUse, Some(c.use.destination), t.result.value).Ok?
          <==> Authority.Admitted(app, second) && Authority.Selectable(app, c.ctx, c.task, c.use.record, c.use.fields, SecretUse,
                                                    Some(c.use.destination), Authority.Effective(app, second)))
  {
    var at := Authority.Effective(app, second);
    Authority.SampledExactly(app, second);
    hide Policy.Clock, Policy.Select, Authority.Selectable;
    Authority.SelectedExactly(Authority.Sampled(app, second), c.ctx, c.task, c.use.record, c.use.fields, SecretUse, Some(c.use.destination), at);
    Authority.SelectableSampled(app, c.ctx, c.task, c.use.record, c.use.fields, SecretUse, Some(c.use.destination), second);
  }

  lemma ClockSubmits(app: App, c: Command, now: Time)
    requires c.CIntent?
    ensures var n := Clock(app, now).app; c.use.record in n.records ==> Submits(app, n, c)
  {}

  lemma ClockTicks(app: App, now: Time)
    ensures var n := Clock(app, now).app; n == Registration.Ticked(app, n.lastTime, n.clockFrozen)
  {}

  lemma InterruptedAnswers(was: App, v: View, c: Command, at: Time)
    requires c.CIntent? && v.frozen && Refuses(v.disk)
    ensures Answered(was, v, c, at, Interrupted, Err(InteractionRequired))
  {}

  lemma EffectiveIsLater(app: App, now: Time)
    ensures now <= Authority.Effective(app, now)
  {}

  /** The record is as it was, but for the signup of a registration. */
  ghost predicate Submits(was: App, n: App, c: Command)
    requires c.CIntent? && c.use.record in n.records
  {
    && c.use.record in was.records && n.records[c.use.record] == was.records[c.use.record].(signup := n.records[c.use.record].signup)
    && (c.use.action != Register ==> n.records[c.use.record] == was.records[c.use.record])
  }

  /** The outcome, told from an earlier state whose record differs at most by a registration submitted since. */
  lemma AnsweredSince(was: App, mid: App, v: View, c: Command, at: Time, outcome: Delivered, r: Result<DeliveryReceipt>)
    requires c.CIntent? && Answered(mid, v, c, at, outcome, r)
    requires c.use.record in mid.records ==> Submits(was, mid, c)
    ensures Answered(was, v, c, at, outcome, r)
  {
    hide Refuses;
  }

  /** What the published intent has made of the record. */
  lemma IntentRecord(a: View, b: View, c: Command, nonce: nat)
    requires c.CIntent? && Published(a, b, Staged(MaybeCompact(a.app), c), nonce)
    requires Intent(MaybeCompact(a.app), c.ctx, c.task, c.use, c.now, c.attempt).result == Ok(None)
    ensures Deliveries.Stageable(MaybeCompact(a.app), c.ctx, c.task, c.use, c.now)
    ensures c.use.record in b.app.records ==> Submits(a.app, b.app, c)
  {
    PrunedRecord(a.app, c.use.record);
    var mid := MaybeCompact(a.app);
    Deliveries.IntendedExactly(mid, c.ctx, c.task, c.use, c.now, c.attempt);
    Authority.SampledBooks(mid, c.now);
    hide Compaction.MaybeCompact, Workflow.Intent, Directory.Steady, Directory.Clearing, Authority.Sampled;
    if Deliveries.Stageable(mid, c.ctx, c.task, c.use, c.now) { assert c.use.record in mid.records; }
    hide Deliveries.Stageable;
  }

  lemma ConcludedIsThere(was: App, c: Command, status: Status, at: Time)
    requires c.CIntent?
    ensures forall n | Concluded(was, n, c, status, at) :: c.attempt in n.deliveries
  {}

  lemma IntendedIsThere(n: App, c: Command)
    requires c.CIntent? && Intended(n, c)
    ensures c.attempt in n.deliveries
  {}

  lemma PrunedRecord(app: App, id: Uuid)
    ensures id in MaybeCompact(app).records ==> id in app.records && MaybeCompact(app).records[id] == app.records[id]
  {}

  lemma FinishConcludes(app: App, mid: App, n: App, c: Command, f: Command)
    requires c.CIntent? && Intended(app, c) && Intended(mid, c) && c.use.record in mid.records && app.records[c.use.record] == mid.records[c.use.record]
    requires f.CFinish? && f.ctx == c.ctx && f.task == c.task && f.attempt == c.attempt && n == Staged(mid, f)
    ensures !Fails(mid, f) && Concluded(app, n, c, f.status, f.at) && !ClockOnly(app, n)
    ensures forall g: U64 :: Concluded(app, n.(generation := g), c, f.status, f.at)
  {
    Deliveries.FinishedExactly(mid, f.ctx, f.task, f.attempt, f.status, f.at);
    hide Workflow.Finish;
  }

  lemma PrunedParts(app: App)
    requires Sound(app)
    ensures RequestsOk(app) && RevisionsDistinct(app.requests) && AccountsOk(app) && BaselinesOk(app)
  {
    ValidIs(app);
  }

  lemma FrozenIsUnable(v: View, candidate: App, fits: bool)
    ensures !Usable(v) ==> Unable(v, candidate, fits)
  {}

  lemma UncommittedStays(v: View, candidate: App, nonce: nat)
    ensures Commits(v, v, candidate, nonce, false)
  {}

  // ----- opening and creating -----

  lemma OpenedAgrees(v: View, image: Image)
    requires Sound(image.app) && v == View(image.app, false, false, Some(image), v.disk, image.seed, image.header) && Steady(v.disk, Some(image))
    ensures Agreed(v)
  {
    FreshAgrees(image.app);
    AgreesIsOwns(image.app, image.app);
  }

  lemma CleanIsSteady(d: Files)
    requires Clean(d) && !Gated(d) && d.state.visible.Whole?
    ensures Steady(d, Some(d.state.visible.image))
  {}

  /** A restart admits exactly what `Open` says. Where nothing waits for a synchronisation, the owner it returns agrees with
      the disk, given what every published image has: one delete receipt per record. */
  method OpenVault(dev: Device, seed: string) returns (r: Result<DurableVault>)
    ensures match r
      case Ok(v) => Open(dev.disk, seed) == Ok(v.app) && v.store.dev == dev && Usable(v.Look()) && v.calls == []
                    && (Clean(dev.disk) ==> v.Kept() && (SingleDelete(v.app.requests) ==> Agreed(v.Look())))
      case Err(e) => Open(dev.disk, seed) == Err(e)
  {
    if Gated(dev.disk) { return Err(RecoveryRequired); }
    if !dev.disk.state.visible.Whole? { return Err(InvalidStorage); }
    var image := dev.disk.state.visible.image;
    var valid := Validate(image.app);
    if image.seed != seed || !valid { return Err(InvalidStorage); }
    if HasUnfinished(image.app) { return Err(RecoveryRequired); }
    if Clean(dev.disk) { CleanIsSteady(dev.disk); }
    var store := new Store(dev, Some(image), seed, image.header, image.app.lastTime, image.app.clockFrozen);
    var v := new DurableVault(store, image.app);
    if Clean(dev.disk) && SingleDelete(image.app.requests) { OpenedAgrees(v.Look(), image); }
    r := Ok(v);
  }

  lemma NothingSince(trace: seq<Files>, cur: Option<Image>, next: Image)
    ensures PublishingSince(trace, |trace|, cur, next)
  {}

  lemma SteadyFrom(d: Files, cur: Option<Image>)
    ensures Clean(d) && Shows(d, cur) ==> Steady(d, cur)
  {}

  /** The first publication of a vault: new and empty, or a restored copy. */
  method CreateFromApp(dev: Device, app: App, seed: string, header: Header, nonce: nat) returns (r: Result<DurableVault>)
    modifies dev
    ensures old(dev.trace) <= dev.trace
    ensures dev.disk == old(dev.disk) || (Shows(old(dev.disk), None) && WritingSince(dev.trace, |old(dev.trace)|, old(dev.disk), None, Sealed(app, seed, header, nonce)))
    ensures Clean(old(dev.disk)) ==> PublishingSince(dev.trace, |old(dev.trace)|, None, Sealed(app, seed, header, nonce))
    ensures r.Err? ==> !Valid(app) || Gated(old(dev.disk)) || old(dev.disk.state.visible) != Absent || StorageFailed(r.error)
    ensures r.Ok? ==> Shows(old(dev.disk), None)
    ensures r.Ok? ==> Valid(app) && r.value.app == app && r.value.store.dev == dev && r.value.Kept()
                      && (SingleDelete(app.requests) ==> Agreed(r.value.Look())) && r.value.store.currentImage == Some(Sealed(app, seed, header, nonce)) && Clearing(dev.disk, None, Sealed(app, seed, header, nonce))
    ensures r.Err? && dev.disk != old(dev.disk) ==>
      Writing(old(dev.disk), dev.disk, None, Sealed(app, seed, header, nonce)) || Announced(dev.disk, None, Sealed(app, seed, header, nonce))
    ensures r.Err? && dev.disk != old(dev.disk) && Clean(old(dev.disk)) ==>
      Announcing(dev.disk, None, Sealed(app, seed, header, nonce)) || Announced(dev.disk, None, Sealed(app, seed, header, nonce))
  {
    hide Stores.PublishingSince, Stores.WritingSince, Stores.Writing;
    SteadyFrom(dev.disk, None);
    NothingSince(dev.trace, None, Sealed(app, seed, header, nonce));
    var valid := Validate(app);
    if !valid { return Err(InvalidStorage); }
    if Gated(dev.disk) { return Err(RecoveryRequired); }
    if dev.disk.state.visible != Absent { return Err(Conflict); }
    var store := new Store(dev, None, seed, header, None, false);
    var p := store.PublishWith(app, seed, header, nonce);
    match p
    case Unpublished => r := Err(NotPublished);
    case Unconfirmed => r := Err(RecoveryRequired);
    case Durable =>
      var v := new DurableVault(store, app);
      FreshAgrees(app);
      AgreesIsOwns(app, app);
      r := Ok(v);
  }
}
